/**
 score_run of bench/copy_opportunity.py: replay a recorded trajectory through the
 index and count, at every emission boundary, how much of the proposal the
 recorded output confirms.
 */
module CopyScore {
  import opened Common
  import opened CopySearch
  import CopyIndex

  const WIDTHS: seq<nat> := [16, 8, 4]
  const CAPACITY: nat := 7

  datatype Score = Score(boundaries: nat, matches: nat, accepted: seq<nat>, full: nat)

  /** How many leading tokens of candidate the future confirms. */
  function Confirmed(candidate: seq<Token>, future: seq<Token>): (n: nat)
    ensures n <= |candidate| && n <= |future|
  {
    if candidate == [] || future == [] || candidate[0] != future[0] then 0
    else 1 + Confirmed(candidate[1..], future[1..])
  }

  lemma {:induction false} ConfirmedIs(candidate: seq<Token>, future: seq<Token>)
    ensures var n := Confirmed(candidate, future);
      candidate[..n] == future[..n] && (n < |candidate| && n < |future| ==> candidate[n] != future[n])
  {
    if candidate != [] && future != [] && candidate[0] == future[0] {
      var n := Confirmed(candidate, future);
      ConfirmedIs(candidate[1..], future[1..]);
      assert candidate[..n] == [candidate[0]] + candidate[1..][..n - 1];
      assert future[..n] == [future[0]] + future[1..][..n - 1];
    }
  }

  /** Tokens emitted by the first n choices. */
  function Emitted(choices: seq<seq<Token>>, n: nat): seq<Token>
    requires n <= |choices|
  {
    if n == 0 then [] else Emitted(choices, n - 1) + choices[n - 1]
  }

  /** The n-th choice ends at a boundary: it emitted something and seven recorded tokens follow. */
  predicate Boundary(choices: seq<seq<Token>>, output: seq<Token>, n: nat)
    requires n < |choices|
  {
    choices[n] != [] && |Emitted(choices, n + 1)| + CAPACITY <= |output|
  }

  /** The proposal at the n-th choice sees the prompt and what has been emitted, and nothing later. */
  function Candidate(prompt: seq<Token>, choices: seq<seq<Token>>, lookback: nat, n: nat): seq<Token>
    requires n < |choices|
  {
    Proposal(prompt + Emitted(choices, n + 1), WIDTHS, CAPACITY, lookback).0
  }

  /** The score of the first n choices, by the exhaustive search. */
  function ScoreOf(prompt: seq<Token>, choices: seq<seq<Token>>, output: seq<Token>, lookback: nat, n: nat): Score
    requires n <= |choices|
  {
    if n == 0 then Score(0, 0, [], 0)
    else
      var s := ScoreOf(prompt, choices, output, lookback, n - 1);
      if !Boundary(choices, output, n - 1) then s
      else Scored(s, Candidate(prompt, choices, lookback, n - 1), output[|Emitted(choices, n)|..])
  }

  /** One more boundary, with what was proposed there and what really followed. */
  function Scored(s: Score, candidate: seq<Token>, future: seq<Token>): Score {
    if candidate == [] then s.(boundaries := s.boundaries + 1)
    else
      var a := Confirmed(candidate, future);
      Score(s.boundaries + 1, s.matches + 1, s.accepted + [a], s.full + if a == CAPACITY then 1 else 0)
  }

  method CountConfirmed(candidate: seq<Token>, future: seq<Token>) returns (a: nat)
    ensures a == Confirmed(candidate, future)
  {
    a := 0;
    for i := 0 to Min(|candidate|, |future|)
      invariant a == i && candidate[..i] == future[..i]
    {
      if candidate[i] != future[i] { break; }
      a := a + 1;
    }
    ConfirmedIsUnique(candidate, future, a);
  }

  lemma {:induction false} ConfirmedIsUnique(candidate: seq<Token>, future: seq<Token>, n: nat)
    requires n <= |candidate| && n <= |future| && candidate[..n] == future[..n]
    requires n < |candidate| && n < |future| ==> candidate[n] != future[n]
    ensures n == Confirmed(candidate, future)
  {
    var m := Confirmed(candidate, future);
    ConfirmedIs(candidate, future);
    assert forall i :: 0 <= i < m ==> candidate[i] == candidate[..m][i] == future[..m][i] == future[i];
    assert forall i :: 0 <= i < n ==> candidate[i] == candidate[..n][i] == future[..n][i] == future[i];
  }

  method ScoreBoundary(index: CopyIndex.CopyIndex, s: Score, future: seq<Token>) returns (s': Score)
    requires index.Valid()
    ensures s' == Scored(s, Proposal(index.history, index.widths, index.capacity, index.lookback).0, future)
  {
    var candidate, _ := index.Propose();
    if candidate == [] { return s.(boundaries := s.boundaries + 1); }
    var a := CountConfirmed(candidate, future);
    return Score(s.boundaries + 1, s.matches + 1, s.accepted + [a], s.full + if a == CAPACITY then 1 else 0);
  }

  /** Scoring through the incremental index gives the exhaustive search's score; a missing prompt is refused. */
  method ScoreRun(prompt: Option<seq<Token>>, choices: seq<seq<Token>>, output: seq<Token>, lookback: nat)
    returns (r: Option<Score>)
    ensures match prompt
            case None => r == None
            case Some(p) => r == Some(ScoreOf(p, choices, output, lookback, |choices|))
  {
    if prompt == None { return None; }
    var index := new CopyIndex.CopyIndex(WIDTHS, CAPACITY, lookback);
    index.Extend(prompt.value);
    var offset := 0;
    var s := Score(0, 0, [], 0);
    for n := 0 to |choices|
      invariant fresh(index) && index.Valid()
      invariant index.widths == WIDTHS && index.capacity == CAPACITY && index.lookback == lookback
      invariant index.history == prompt.value + Emitted(choices, n)
      invariant offset == |Emitted(choices, n)|
      invariant s == ScoreOf(prompt.value, choices, output, lookback, n)
    {
      var tokens := choices[n];
      index.Extend(tokens);
      offset := offset + |tokens|;
      assert prompt.value + Emitted(choices, n) + tokens == prompt.value + Emitted(choices, n + 1);
      if tokens != [] && offset + CAPACITY <= |output| {
        s := ScoreBoundary(index, s, output[offset..]);
      }
    }
    return Some(s);
  }

  function Sevens(accepted: seq<nat>): nat {
    if accepted == [] then 0
    else Sevens(accepted[..|accepted| - 1]) + if accepted[|accepted| - 1] == CAPACITY then 1 else 0
  }

  /** The reported counts agree with each other: one accepted length per match, none above seven, the full ones counted. */
  lemma {:induction false} ScoreIsConsistent(prompt: seq<Token>, choices: seq<seq<Token>>, output: seq<Token>, lookback: nat, n: nat)
    requires n <= |choices|
    ensures var s := ScoreOf(prompt, choices, output, lookback, n);
      && s.matches == |s.accepted| <= s.boundaries <= n
      && s.full == Sevens(s.accepted)
      && forall a :: a in s.accepted ==> a <= CAPACITY
  {
    if n > 0 {
      ScoreIsConsistent(prompt, choices, output, lookback, n - 1);
      var s := ScoreOf(prompt, choices, output, lookback, n - 1);
      if Boundary(choices, output, n - 1) && Candidate(prompt, choices, lookback, n - 1) != [] {
        var candidate := Candidate(prompt, choices, lookback, n - 1);
        CandidateLength(prompt + Emitted(choices, n), WIDTHS, CAPACITY, lookback, 0);
        var a := Confirmed(candidate, output[|Emitted(choices, n)|..]);
        assert (s.accepted + [a])[..|s.accepted|] == s.accepted;
      }
    }
  }

  lemma {:induction false} CandidateLength(h: seq<Token>, widths: seq<nat>, capacity: nat, lookback: nat, k: nat)
    requires k <= |widths|
    ensures var c := ProposalFrom(h, widths, capacity, lookback, k).0; c == [] || |c| == capacity
    decreases |widths| - k
  {
    if k < |widths| && BestStart(h, widths[k], capacity, lookback) == None {
      CandidateLength(h, widths, capacity, lookback, k + 1);
    }
  }

  // ---------- What the score counts ----------

  /** Everything known when the c-th choice has been emitted, and how much of the output that is. */
  function Known(prompt: seq<Token>, choices: seq<seq<Token>>, c: nat): seq<Token>
    requires c < |choices|
  {
    prompt + Emitted(choices, c) + choices[c]
  }

  function Offset(choices: seq<seq<Token>>, c: nat): nat
    requires c < |choices|
  {
    |Emitted(choices, c)| + |choices[c]|
  }

  /** The c-th choice emitted something, and seven recorded tokens follow it. */
  predicate Counts(choices: seq<seq<Token>>, output: seq<Token>, c: nat)
    requires c < |choices|
  {
    |choices[c]| > 0 && Offset(choices, c) + 7 <= |output|
  }

  /** Of the seven tokens after start + width, the first a are what was recorded, and no more. */
  predicate Agreed(h: seq<Token>, from: int, output: seq<Token>, offset: nat, a: nat)
    requires 0 <= from && from + 7 <= |h| && offset + 7 <= |output|
  {
    && a <= 7 && h[from..from + a] == output[offset..offset + a]
    && (a < 7 ==> h[from + a] != output[offset + a])
  }

  /** At the c-th choice a width occurs, and a tokens of what followed its most recent occurrence came true. */
  ghost predicate MatchedAt(prompt: seq<Token>, choices: seq<seq<Token>>, output: seq<Token>, lookback: nat, c: nat, a: nat) {
    && c < |choices| && Counts(choices, output, c)
    && var h := Known(prompt, choices, c);
       exists i: nat, start: int :: Chosen(h, [16, 8, 4], 7, lookback, i, start) && 0 <= start + [16, 8, 4][i] <= |h| - 7 &&
         Agreed(h, start + [16, 8, 4][i], output, Offset(choices, c), a)
  }

  /** At the c-th choice no width occurs. */
  ghost predicate NothingAt(prompt: seq<Token>, choices: seq<seq<Token>>, lookback: nat, c: nat)
    requires c < |choices|
  {
    var h := Known(prompt, choices, c);
    NoneOccurs(h, 16, 7, lookback) && NoneOccurs(h, 8, 7, lookback) && NoneOccurs(h, 4, 7, lookback)
  }

  lemma {:induction false} KnownIs(prompt: seq<Token>, choices: seq<seq<Token>>, c: nat)
    requires c < |choices|
    ensures Known(prompt, choices, c) == prompt + Emitted(choices, c + 1) && Offset(choices, c) == |Emitted(choices, c + 1)|
  {
  }

  lemma {:induction false} ConfirmedAgrees(h: seq<Token>, from: nat, output: seq<Token>, offset: nat)
    requires from + 7 <= |h| && offset + 7 <= |output|
    ensures Agreed(h, from, output, offset, Confirmed(h[from..from + 7], output[offset..]))
  {
    var candidate, future := h[from..from + 7], output[offset..];
    var a := Confirmed(candidate, future);
    ConfirmedIs(candidate, future);
    assert candidate[..a] == h[from..from + a] && future[..a] == output[offset..offset + a];
  }

  /** What is proposed for a history, and how much of it comes true. */
  lemma {:induction false} ProposalAnswers(h: seq<Token>, ws: seq<nat>, lookback: nat, p: seq<Token>, output: seq<Token>, offset: nat)
    returns (i: nat, start: int)
    requires ws == [16, 8, 4] && p == Proposal(h, ws, 7, lookback).0 && offset + 7 <= |output|
    ensures if p == [] then forall j :: 0 <= j < |ws| ==> NoneOccurs(h, ws[j], 7, lookback)
            else Chosen(h, ws, 7, lookback, i, start) && 0 <= start + ws[i] <= |h| - 7
                 && Agreed(h, start + ws[i], output, offset, Confirmed(p, output[offset..]))
  {
    i, start := NothingOrChosen(h, ws, 7, lookback);
    if Chosen(h, ws, 7, lookback, i, start) {
      ProposalIsChosen(h, ws, 7, lookback, i, start);
      assert Occurs(h, ws[i], 7, lookback, start);
      ConfirmedAgrees(h, start + ws[i], output, offset);
    }
  }

  lemma {:induction false} NoneChosen(prompt: seq<Token>, choices: seq<seq<Token>>, lookback: nat, c: nat, h: seq<Token>, ws: seq<nat>)
    requires c < |choices| && h == Known(prompt, choices, c) && ws == [16, 8, 4]
    requires forall j :: 0 <= j < |ws| ==> NoneOccurs(h, ws[j], 7, lookback)
    ensures NothingAt(prompt, choices, lookback, c)
  {
    assert ws[0] == 16 && ws[1] == 8 && ws[2] == 4;
  }

  lemma {:induction false} CandidateIs(prompt: seq<Token>, choices: seq<seq<Token>>, lookback: nat, c: nat, ws: seq<nat>)
    requires c < |choices| && ws == [16, 8, 4]
    ensures Candidate(prompt, choices, lookback, c) == Proposal(Known(prompt, choices, c), ws, 7, lookback).0
  {
    KnownIs(prompt, choices, c);
  }

  /** What a counted choice adds to the score. */
  lemma {:induction false} ChoiceScores(prompt: seq<Token>, choices: seq<seq<Token>>, output: seq<Token>, lookback: nat, c: nat,
                                        ws: seq<nat>, candidate: seq<Token>)
    requires c < |choices| && Counts(choices, output, c) && ws == [16, 8, 4]
    requires candidate == Proposal(Known(prompt, choices, c), ws, 7, lookback).0
    ensures if candidate == [] then NothingAt(prompt, choices, lookback, c)
            else MatchedAt(prompt, choices, output, lookback, c, Confirmed(candidate, output[Offset(choices, c)..]))
  {
    var h := Known(prompt, choices, c);
    var i, start := ProposalAnswers(h, ws, lookback, candidate, output, Offset(choices, c));
    if candidate == [] { NoneChosen(prompt, choices, lookback, c, h, ws); }
  }

  /** The c-th choice had x tokens of its proposal come true, or no proposal. */
  ghost predicate Told(prompt: seq<Token>, choices: seq<seq<Token>>, output: seq<Token>, lookback: nat, c: nat, x: Option<nat>)
    requires c < |choices|
  {
    match x
    case Some(a) => MatchedAt(prompt, choices, output, lookback, c, a)
    case None => Counts(choices, output, c) ==> NothingAt(prompt, choices, lookback, c)
  }

  function Somes(told: seq<Option<nat>>): seq<nat> {
    if told == [] then []
    else Somes(told[..|told| - 1]) + match told[|told| - 1] case Some(a) => [a] case None => []
  }

  ghost function CountedBefore(choices: seq<seq<Token>>, output: seq<Token>, n: nat): (c: set<nat>)
    requires n <= |choices|
    ensures forall i :: i in c <==> 0 <= i < n && Counts(choices, output, i)
  {
    set i: nat | 0 <= i < n && Counts(choices, output, i)
  }

  lemma {:induction false} CountedNext(choices: seq<seq<Token>>, output: seq<Token>, n: nat)
    requires n < |choices|
    ensures |CountedBefore(choices, output, n + 1)| == |CountedBefore(choices, output, n)| + One(Counts(choices, output, n))
  {
    var before := CountedBefore(choices, output, n);
    if Counts(choices, output, n) {
      assert CountedBefore(choices, output, n + 1) == before + {n};
    } else {
      assert CountedBefore(choices, output, n + 1) == before;
    }
  }

  ghost predicate AllTold(prompt: seq<Token>, choices: seq<seq<Token>>, output: seq<Token>, lookback: nat, told: seq<Option<nat>>) {
    |told| <= |choices| && forall c :: 0 <= c < |told| ==> Told(prompt, choices, output, lookback, c, told[c])
  }

  lemma {:induction false} OneMoreTold(prompt: seq<Token>, choices: seq<seq<Token>>, output: seq<Token>, lookback: nat,
                                       told: seq<Option<nat>>, x: Option<nat>)
    requires AllTold(prompt, choices, output, lookback, told) && |told| < |choices|
    requires Told(prompt, choices, output, lookback, |told|, x)
    ensures AllTold(prompt, choices, output, lookback, told + [x])
  {
    var more := told + [x];
    forall c | 0 <= c < |more| ensures Told(prompt, choices, output, lookback, c, more[c]) {
      assert c < |told| ==> more[c] == told[c];
    }
  }

  /** The numbers reported for the first choices, given what is told of each: boundaries, matches and accepted lengths. */
  ghost predicate Reports(choices: seq<seq<Token>>, output: seq<Token>, s: Score, told: seq<Option<nat>>)
    requires |told| <= |choices|
  {
    s.boundaries == |CountedBefore(choices, output, |told|)| && s.accepted == Somes(told) && s.matches == |Somes(told)|
  }

  lemma {:induction false} SomesNext(told: seq<Option<nat>>, x: Option<nat>)
    ensures Somes(told + [x]) == Somes(told) + match x case Some(a) => [a] case None => []
  {
    assert (told + [x])[..|told|] == told;
  }

  lemma {:induction false} ReportsNext(choices: seq<seq<Token>>, output: seq<Token>, s: Score, s': Score, told: seq<Option<nat>>, x: Option<nat>)
    requires |told| < |choices| && Reports(choices, output, s, told)
    requires s'.boundaries == s.boundaries + One(Counts(choices, output, |told|))
    requires s'.accepted == s.accepted + (match x case Some(a) => [a] case None => []) && s'.matches == s.matches + One(x.Some?)
    ensures Reports(choices, output, s', told + [x])
  {
    CountedNext(choices, output, |told|);
    SomesNext(told, x);
  }

  lemma {:induction false} BoundaryCounts(choices: seq<seq<Token>>, output: seq<Token>, c: nat)
    requires c < |choices|
    ensures Boundary(choices, output, c) <==> Counts(choices, output, c)
    ensures Offset(choices, c) == |Emitted(choices, c + 1)|
  {
  }

  lemma {:induction false} ScoreOfNext(prompt: seq<Token>, choices: seq<seq<Token>>, output: seq<Token>, lookback: nat, n: nat)
    requires n < |choices|
    ensures var s := ScoreOf(prompt, choices, output, lookback, n);
      ScoreOf(prompt, choices, output, lookback, n + 1) ==
        if Counts(choices, output, n) then Scored(s, Candidate(prompt, choices, lookback, n), output[Offset(choices, n)..]) else s
  {
    BoundaryCounts(choices, output, n);
  }

  /** What is told of the n-th choice. */
  lemma {:induction false} TellNext(prompt: seq<Token>, choices: seq<seq<Token>>, output: seq<Token>, lookback: nat, n: nat, s: Score)
    returns (s': Score, x: Option<nat>)
    requires n < |choices| && s == ScoreOf(prompt, choices, output, lookback, n)
    ensures s' == ScoreOf(prompt, choices, output, lookback, n + 1) && Told(prompt, choices, output, lookback, n, x)
    ensures s'.boundaries == s.boundaries + One(Counts(choices, output, n))
    ensures s'.accepted == s.accepted + (match x case Some(a) => [a] case None => []) && s'.matches == s.matches + One(x.Some?)
  {
    s', x := ScoreOf(prompt, choices, output, lookback, n + 1), None;
    ScoreOfNext(prompt, choices, output, lookback, n);
    if Counts(choices, output, n) {
      var candidate, ws := Candidate(prompt, choices, lookback, n), [16, 8, 4];
      CandidateIs(prompt, choices, lookback, n, ws);
      ChoiceScores(prompt, choices, output, lookback, n, ws, candidate);
      if candidate != [] { x := Some(Confirmed(candidate, output[Offset(choices, n)..])); }
    }
  }

  lemma {:induction false} NothingTold(prompt: seq<Token>, choices: seq<seq<Token>>, output: seq<Token>, lookback: nat)
    ensures AllTold(prompt, choices, output, lookback, [])
    ensures Reports(choices, output, ScoreOf(prompt, choices, output, lookback, 0), [])
  {
    assert CountedBefore(choices, output, 0) == {};
  }

  /** The reported score, said without the search, the index or the loop. */
  lemma {:induction false} ScoreMeans(prompt: seq<Token>, choices: seq<seq<Token>>, output: seq<Token>, lookback: nat, n: nat)
    returns (told: seq<Option<nat>>)
    requires n <= |choices|
    ensures |told| == n && AllTold(prompt, choices, output, lookback, told)
    ensures Reports(choices, output, ScoreOf(prompt, choices, output, lookback, n), told)
  {
    if n == 0 {
      NothingTold(prompt, choices, output, lookback);
      return [];
    }
    var before := ScoreMeans(prompt, choices, output, lookback, n - 1);
    var s := ScoreOf(prompt, choices, output, lookback, n - 1);
    var s', x := TellNext(prompt, choices, output, lookback, n - 1, s);
    OneMoreTold(prompt, choices, output, lookback, before, x);
    ReportsNext(choices, output, s, s', before, x);
    told := before + [x];
  }
}

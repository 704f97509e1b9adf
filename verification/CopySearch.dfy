/**
 The exhaustive suffix-copy search of bench/copy_opportunity.py: for each width
 in order, the most recent earlier occurrence of the history's suffix whose
 whole continuation already exists and which lies inside the lookback.
 */
module CopySearch {
  import opened Common

  type Token = int

  /** First position the lookback still reaches. */
  function Cutoff(end: nat, lookback: nat): nat { Max(0, end - lookback) }

  /** One past the last position whose match and continuation are complete. */
  function Limit(end: nat, width: nat, capacity: nat): int { end - width - capacity + 1 }

  function Key(h: seq<Token>, p: nat, width: nat): seq<Token>
    requires p + width <= |h|
  {
    h[p..p + width]
  }

  function Suffix(h: seq<Token>, width: nat): seq<Token>
    requires width <= |h|
  {
    h[|h| - width..]
  }

  /** The largest start in [lo, hi) at which key occurs. */
  function LastMatch(h: seq<Token>, width: nat, key: seq<Token>, lo: nat, hi: int): (r: Option<nat>)
    requires hi <= lo || hi + width <= |h| + 1
    ensures r.Some? ==> lo <= r.value < hi
    decreases hi - lo
  {
    if hi <= lo then None
    else if Key(h, hi - 1, width) == key then Some(hi - 1)
    else LastMatch(h, width, key, lo, hi - 1)
  }

  lemma {:induction false} LastMatchIs(h: seq<Token>, width: nat, key: seq<Token>, lo: nat, hi: int)
    requires hi <= lo || hi + width <= |h| + 1
    ensures match LastMatch(h, width, key, lo, hi)
            case Some(r) => lo <= r < hi && Key(h, r, width) == key && forall p :: r < p < hi ==> Key(h, p, width) != key
            case None => forall p :: lo <= p < hi ==> Key(h, p, width) != key
    decreases hi - lo
  {
    if lo < hi && Key(h, hi - 1, width) != key { LastMatchIs(h, width, key, lo, hi - 1); }
  }

  /** Most recent complete occurrence of the suffix of this width, if any. */
  function BestStart(h: seq<Token>, width: nat, capacity: nat, lookback: nat): (r: Option<nat>) {
    if |h| < width + capacity then None
    else LastMatch(h, width, Suffix(h, width), Cutoff(|h|, lookback), Limit(|h|, width, capacity))
  }

  /** The search over widths[k..]. */
  function ProposalFrom(h: seq<Token>, widths: seq<nat>, capacity: nat, lookback: nat, k: nat): (seq<Token>, nat)
    requires k <= |widths|
    decreases |widths| - k
  {
    if k == |widths| then ([], 0)
    else match BestStart(h, widths[k], capacity, lookback)
      case Some(start) => (h[start + widths[k]..start + widths[k] + capacity], widths[k])
      case None => ProposalFrom(h, widths, capacity, lookback, k + 1)
  }

  /** What is proposed after history h: a continuation and the width it matched, or nothing. */
  function Proposal(h: seq<Token>, widths: seq<nat>, capacity: nat, lookback: nat): (seq<Token>, nat) {
    ProposalFrom(h, widths, capacity, lookback, 0)
  }

  // ---------- What a proposal is, without saying how it is found ----------

  /** The suffix of this width also occurs at start, in reach and with its continuation complete. */
  predicate Occurs(h: seq<Token>, width: nat, capacity: nat, lookback: nat, start: int) {
    0 <= start && |h| - lookback <= start && start + width + capacity <= |h| &&
    h[start..start + width] == h[|h| - width..]
  }

  ghost predicate NoneOccurs(h: seq<Token>, width: nat, capacity: nat, lookback: nat) {
    forall s: int :: !Occurs(h, width, capacity, lookback, s)
  }

  ghost predicate MostRecent(h: seq<Token>, width: nat, capacity: nat, lookback: nat, start: int) {
    && Occurs(h, width, capacity, lookback, start)
    && forall s: int :: Occurs(h, width, capacity, lookback, s) ==> s <= start
  }

  /** widths[i] is the first width to occur, and start is its most recent occurrence. */
  ghost predicate Chosen(h: seq<Token>, widths: seq<nat>, capacity: nat, lookback: nat, i: nat, start: int) {
    && i < |widths|
    && (forall j :: 0 <= j < i ==> NoneOccurs(h, widths[j], capacity, lookback))
    && MostRecent(h, widths[i], capacity, lookback, start)
  }

  lemma {:induction false} BestStartIsMostRecent(h: seq<Token>, width: nat, capacity: nat, lookback: nat)
    ensures match BestStart(h, width, capacity, lookback)
            case Some(start) => MostRecent(h, width, capacity, lookback, start)
            case None => NoneOccurs(h, width, capacity, lookback)
  {
    var r := BestStart(h, width, capacity, lookback);
    if |h| >= width + capacity {
      LastMatchIs(h, width, Suffix(h, width), Cutoff(|h|, lookback), Limit(|h|, width, capacity));
    }
    forall s: int | Occurs(h, width, capacity, lookback, s) ensures r.Some? && s <= r.value {
      assert Key(h, s, width) == Suffix(h, width);
    }
  }

  lemma {:induction false} ChosenFrom(h: seq<Token>, widths: seq<nat>, capacity: nat, lookback: nat, k: nat, i: nat, start: int)
    requires k <= i && Chosen(h, widths, capacity, lookback, i, start)
    ensures ProposalFrom(h, widths, capacity, lookback, k)
         == (h[start + widths[i]..start + widths[i] + capacity], widths[i])
    decreases i - k
  {
    BestStartIsMostRecent(h, widths[k], capacity, lookback);
    if k == i {
      assert Occurs(h, widths[i], capacity, lookback, start);
    } else {
      assert NoneOccurs(h, widths[k], capacity, lookback);
      ChosenFrom(h, widths, capacity, lookback, k + 1, i, start);
    }
  }

  /**
   The proposal is the complete continuation, already in the history, of the most
   recent occurrence of the first width in the list that occurs at all.
   */
  lemma {:induction false} ProposalIsChosen(h: seq<Token>, widths: seq<nat>, capacity: nat, lookback: nat, i: nat, start: int)
    requires Chosen(h, widths, capacity, lookback, i, start)
    ensures Proposal(h, widths, capacity, lookback)
         == (h[start + widths[i]..start + widths[i] + capacity], widths[i])
  {
    ChosenFrom(h, widths, capacity, lookback, 0, i, start);
  }

  lemma {:induction false} NothingOrChosenFrom(h: seq<Token>, widths: seq<nat>, capacity: nat, lookback: nat, k: nat)
    returns (i: nat, start: int)
    requires k <= |widths| && forall j :: 0 <= j < k ==> NoneOccurs(h, widths[j], capacity, lookback)
    ensures || (ProposalFrom(h, widths, capacity, lookback, k) == ([], 0)
                && forall j :: 0 <= j < |widths| ==> NoneOccurs(h, widths[j], capacity, lookback))
            || Chosen(h, widths, capacity, lookback, i, start)
    decreases |widths| - k
  {
    i, start := k, 0;
    if k < |widths| {
      BestStartIsMostRecent(h, widths[k], capacity, lookback);
      match BestStart(h, widths[k], capacity, lookback)
      case Some(s) => start := s;
      case None => i, start := NothingOrChosenFrom(h, widths, capacity, lookback, k + 1);
    }
  }

  /** Nothing is proposed when no width occurs; otherwise some width is chosen. */
  lemma {:induction false} NothingOrChosen(h: seq<Token>, widths: seq<nat>, capacity: nat, lookback: nat)
    returns (i: nat, start: int)
    ensures || (Proposal(h, widths, capacity, lookback) == ([], 0)
                && forall j :: 0 <= j < |widths| ==> NoneOccurs(h, widths[j], capacity, lookback))
            || Chosen(h, widths, capacity, lookback, i, start)
  {
    i, start := NothingOrChosenFrom(h, widths, capacity, lookback, 0);
  }

  /** The source's backward scan for one width. */
  method Scan(h: seq<Token>, w: nat, capacity: nat, lookback: nat) returns (r: Option<nat>)
    requires |h| >= w + capacity
    ensures r == BestStart(h, w, capacity, lookback)
  {
    var suffix := h[|h| - w..];
    var bound := Max(-1, |h| - lookback - 1);
    var start := |h| - w - capacity;
    while start > bound
      invariant start <= |h| - w - capacity
      invariant bound <= start || start == |h| - w - capacity
      invariant BestStart(h, w, capacity, lookback) == LastMatch(h, w, suffix, bound + 1, start + 1)
    {
      if h[start..start + w] == suffix {
        return Some(start);
      }
      start := start - 1;
    }
    return None;
  }

  /** The source's search over the widths. */
  method Propose(h: seq<Token>, widths: seq<nat>, capacity: nat, lookback: nat) returns (candidate: seq<Token>, width: nat)
    ensures (candidate, width) == Proposal(h, widths, capacity, lookback)
  {
    for i := 0 to |widths|
      invariant Proposal(h, widths, capacity, lookback) == ProposalFrom(h, widths, capacity, lookback, i)
    {
      var w := widths[i];
      if |h| < w + capacity {
        assert BestStart(h, w, capacity, lookback) == None;
      } else {
        var found := Scan(h, w, capacity, lookback);
        if found.Some? {
          return h[found.value + w..found.value + w + capacity], w;
        }
      }
    }
    return [], 0;
  }
}

/**
 build_prefill_chunk_metadata and its kernel, from
 results/tonyd2wild-indexer-audit/image-indexer.py: for every query token of a
 chunk, the interval of gathered keys it may attend to.
 */
module PrefillMetadata {
  import opened Common
  import opened PrefillSplit

  /** Query start of every request and of the end, uncompressed lengths, and the compression ratio. */
  datatype Attention = Attention(starts: seq<nat>, lens: seq<nat>, ratio: nat)

  /** Offsets that begin at zero and never fall. */
  predicate Offsets(s: seq<nat>) {
    |s| >= 1 && s[0] == 0 && forall i, j :: 0 <= i <= j < |s| ==> s[i] <= s[j]
  }

  /** Query tokens of one request, by its start and the next one. */
  function QueryCount(starts: seq<nat>, i: nat): int
    requires i + 1 < |starts|
  {
    starts[i + 1] as int - starts[i]
  }

  predicate AttentionOk(a: Attention) {
    && a.ratio >= 1 && |a.starts| == |a.lens| + 1
    && (forall i, j :: 0 <= i <= j < |a.starts| ==> a.starts[i] <= a.starts[j])
    && (forall i :: 0 <= i < |a.lens| ==> QueryCount(a.starts, i) <= a.lens[i])
  }

  function Compressed(a: Attention): (s: seq<nat>)
    requires a.ratio >= 1
    ensures |s| == |a.lens|
  {
    seq(|a.lens|, i requires 0 <= i < |a.lens| => a.lens[i] / a.ratio)
  }

  // ---------- Which request a position belongs to ----------

  /** The last k below count whose segment begins at or before t. */
  function Owner(offsets: seq<nat>, t: nat, count: nat): (k: nat)
    requires Offsets(offsets) && 1 <= count < |offsets| && t < offsets[count]
    ensures k < count && offsets[k] <= t < offsets[k + 1]
  {
    if offsets[count - 1] <= t then count - 1 else Owner(offsets, t, count - 1)
  }

  function OwnerOf(offsets: seq<nat>, t: nat): (k: nat)
    requires Offsets(offsets) && t < offsets[|offsets| - 1]
    ensures k + 1 < |offsets| && offsets[k] <= t < offsets[k + 1]
  {
    Owner(offsets, t, |offsets| - 1)
  }

  lemma {:induction false} OwnerIsUnique(offsets: seq<nat>, t: nat, k: nat)
    requires Offsets(offsets) && t < offsets[|offsets| - 1]
    requires k + 1 < |offsets| && offsets[k] <= t < offsets[k + 1]
    ensures OwnerOf(offsets, t) == k
  {
    var o := OwnerOf(offsets, t);
    assert offsets[Min(o + 1, k)] <= offsets[k] && offsets[Min(k + 1, o)] <= offsets[o];
  }

  // ---------- The kernel ----------

  /** What the kernel reads: the group's relative query starts, lengths and key offsets, and the slice. */
  datatype Input = Input(rel: seq<nat>, lens: seq<nat>, cu: seq<nat>, qStart: nat, qStop: nat, ratio: nat)

  predicate InputOk(x: Input) {
    && x.ratio >= 1 && Offsets(x.rel) && Offsets(x.cu) && |x.rel| == |x.cu| == |x.lens| + 1
    && (forall i :: 0 <= i < |x.lens| ==> QueryCount(x.rel, i) <= x.lens[i])
    && x.qStart <= x.qStop <= x.rel[|x.lens|]
  }

  /** One past the absolute position of token t, which is at offset t - rel[idx] of request idx. */
  function Reached(x: Input, idx: nat, t: int): nat
    requires InputOk(x) && idx < |x.lens| && x.rel[idx] <= t
  {
    x.lens[idx] - (x.rel[idx + 1] - x.rel[idx]) + 1 + (t - x.rel[idx])
  }

  /** The keys token t may attend to. */
  function KeyStart(x: Input, t: nat): nat
    requires InputOk(x) && t < x.rel[|x.lens|]
  {
    x.cu[OwnerOf(x.rel, t)]
  }

  function KeyStop(x: Input, t: nat): nat
    requires InputOk(x) && t < x.rel[|x.lens|]
  {
    x.cu[OwnerOf(x.rel, t)] + Reached(x, OwnerOf(x.rel, t), t) / x.ratio
  }

  /** Position p is written with v when it lies in the range, and keeps its old content otherwise. */
  ghost predicate Filled(now: seq<int>, was: seq<int>, lo: int, hi: int, v: int) {
    |now| == |was| && forall p :: 0 <= p < |now| ==> now[p] == if lo <= p < hi then v else was[p]
  }

  ghost predicate StopsFilled(now: seq<int>, was: seq<int>, x: Input, idx: nat, hi: int)
    requires InputOk(x) && idx < |x.lens|
  {
    |now| == |was| && forall p :: 0 <= p < |now| ==>
      now[p] == if x.rel[idx] <= p + x.qStart < hi then x.cu[idx] + Reached(x, idx, p + x.qStart) / x.ratio else was[p]
  }

  /** The first offset tokens of the request are written, as far as they are in the slice. */
  ghost predicate BoundsStored(x: Input, idx: nat, ks: seq<int>, ke: seq<int>, ks0: seq<int>, ke0: seq<int>, offset: int)
    requires InputOk(x) && idx < |x.lens|
  {
    var stop := x.rel[idx] + Min(offset, QueryCount(x.rel, idx));
    Filled(ks, ks0, x.rel[idx] - x.qStart, stop - x.qStart, x.cu[idx]) && StopsFilled(ke, ke0, x, idx, stop)
  }

  /** A token of the request that is in the slice. */
  predicate IsStored(x: Input, idx: nat, offset: nat)
    requires InputOk(x) && idx < |x.lens|
  {
    offset < QueryCount(x.rel, idx) && x.qStart <= x.rel[idx] + offset < x.qStop
  }

  lemma {:induction false} OneBoundMore(x: Input, idx: nat, ks: seq<int>, ke: seq<int>, ks0: seq<int>, ke0: seq<int>, offset: nat, t: nat, p: nat)
    requires InputOk(x) && idx < |x.lens| && |ks| == |ke| == x.qStop - x.qStart && BoundsStored(x, idx, ks, ke, ks0, ke0, offset)
    requires IsStored(x, idx, offset) && t == x.rel[idx] + offset && p == t - x.qStart
    ensures BoundsStored(x, idx, ks[p := x.cu[idx]], ke[p := x.cu[idx] + Reached(x, idx, t) / x.ratio], ks0, ke0, offset + 1)
  {
  }

  lemma {:induction false} NoBoundMore(x: Input, idx: nat, ks: seq<int>, ke: seq<int>, ks0: seq<int>, ke0: seq<int>, offset: nat)
    requires InputOk(x) && idx < |x.lens| && |ks| == |ke| == x.qStop - x.qStart && BoundsStored(x, idx, ks, ke, ks0, ke0, offset)
    requires !IsStored(x, idx, offset)
    ensures BoundsStored(x, idx, ks, ke, ks0, ke0, offset + 1)
  {
  }

  /** One lane of the first loop. */
  method StoreBound(x: Input, idx: nat, ks: array<int>, ke: array<int>, offset: nat, ghost ks0: seq<int>, ghost ke0: seq<int>)
    requires InputOk(x) && idx < |x.lens| && ks != ke && ks.Length == ke.Length == x.qStop - x.qStart
    requires BoundsStored(x, idx, ks[..], ke[..], ks0, ke0, offset)
    modifies ks, ke
    ensures BoundsStored(x, idx, ks[..], ke[..], ks0, ke0, offset + 1)
  {
    if !IsStored(x, idx, offset) {
      NoBoundMore(x, idx, ks[..], ke[..], ks0, ke0, offset);
      return;
    }
    var t := x.rel[idx] + offset;
    var startPos := x.lens[idx] - QueryCount(x.rel, idx);
    OneBoundMore(x, idx, ks[..], ke[..], ks0, ke0, offset, t, t - x.qStart);
    assert startPos + 1 + offset == Reached(x, idx, t);
    ks[t - x.qStart] := x.cu[idx];
    ke[t - x.qStart] := x.cu[idx] + (startPos + 1 + offset) / x.ratio;
  }

  /** The first loop of a program: the tokens of one request, a block of lanes at a time. */
  method StoreBounds(x: Input, idx: nat, ks: array<int>, ke: array<int>, block: nat)
    requires InputOk(x) && idx < |x.lens| && block >= 1
    requires ks != ke && ks.Length == ke.Length == x.qStop - x.qStart
    modifies ks, ke
    ensures Filled(ks[..], old(ks[..]), x.rel[idx] - x.qStart, x.rel[idx + 1] - x.qStart, x.cu[idx])
    ensures StopsFilled(ke[..], old(ke[..]), x, idx, x.rel[idx + 1])
  {
    ghost var ks0, ke0 := ks[..], ke[..];
    var queryLen := x.rel[idx + 1] - x.rel[idx];
    var i := 0;
    while i < queryLen
      invariant BoundsStored(x, idx, ks[..], ke[..], ks0, ke0, i)
      decreases queryLen - i
    {
      for lane := 0 to block
        invariant BoundsStored(x, idx, ks[..], ke[..], ks0, ke0, i + lane)
      {
        StoreBound(x, idx, ks, ke, i + lane, ks0, ke0);
      }
      i := i + block;
    }
  }

  /** The second loop of a program: the keys of one request. */
  method StoreOwners(x: Input, idx: nat, tokenToSeq: array<int>, block: nat)
    requires InputOk(x) && idx < |x.lens| && block >= 1
    requires tokenToSeq.Length == x.cu[|x.lens|]
    modifies tokenToSeq
    ensures Filled(tokenToSeq[..], old(tokenToSeq[..]), x.cu[idx], x.cu[idx + 1], idx)
  {
    ghost var was := tokenToSeq[..];
    var seqStart, seqLen := x.cu[idx], x.cu[idx + 1] - x.cu[idx];
    var i := 0;
    while i < seqLen
      invariant Filled(tokenToSeq[..], was, seqStart, seqStart + Min(i, seqLen), idx)
      decreases seqLen - i
    {
      for lane := 0 to block
        invariant Filled(tokenToSeq[..], was, seqStart, seqStart + Min(i + lane, seqLen), idx)
      {
        if i + lane < seqLen { tokenToSeq[seqStart + i + lane] := idx; }
      }
      i := i + block;
    }
  }

  ghost predicate BoundsDone(x: Input, ks: seq<int>, ke: seq<int>, ran: seq<nat>)
    requires InputOk(x)
  {
    |ks| == |ke| == x.qStop - x.qStart && forall p :: 0 <= p < |ks| && OwnerOf(x.rel, p + x.qStart) in ran ==>
      ks[p] == KeyStart(x, p + x.qStart) && ke[p] == KeyStop(x, p + x.qStart)
  }

  ghost predicate OwnersDone(x: Input, tokenToSeq: seq<int>, ran: seq<nat>)
    requires InputOk(x)
  {
    |tokenToSeq| == x.cu[|x.lens|] && forall p :: 0 <= p < |tokenToSeq| && OwnerOf(x.cu, p) in ran ==>
      tokenToSeq[p] == OwnerOf(x.cu, p)
  }

  lemma {:induction false} BoundsStep(x: Input, idx: nat, ks: seq<int>, ke: seq<int>, ks': seq<int>, ke': seq<int>, ran: seq<nat>)
    requires InputOk(x) && idx < |x.lens| && BoundsDone(x, ks, ke, ran)
    requires Filled(ks', ks, x.rel[idx] - x.qStart, x.rel[idx + 1] - x.qStart, x.cu[idx])
    requires StopsFilled(ke', ke, x, idx, x.rel[idx + 1])
    ensures BoundsDone(x, ks', ke', ran + [idx])
  {
    forall p | 0 <= p < |ks'| && OwnerOf(x.rel, p + x.qStart) in ran + [idx]
      ensures ks'[p] == KeyStart(x, p + x.qStart) && ke'[p] == KeyStop(x, p + x.qStart)
    {
      if x.rel[idx] <= p + x.qStart < x.rel[idx + 1] { OwnerIsUnique(x.rel, p + x.qStart, idx); }
    }
  }

  lemma {:induction false} OwnersStep(x: Input, idx: nat, tokenToSeq: seq<int>, tokenToSeq': seq<int>, ran: seq<nat>)
    requires InputOk(x) && idx < |x.lens| && OwnersDone(x, tokenToSeq, ran)
    requires Filled(tokenToSeq', tokenToSeq, x.cu[idx], x.cu[idx + 1], idx)
    ensures OwnersDone(x, tokenToSeq', ran + [idx])
  {
    forall p | 0 <= p < |tokenToSeq'| && OwnerOf(x.cu, p) in ran + [idx]
      ensures tokenToSeq'[p] == OwnerOf(x.cu, p)
    {
      if x.cu[idx] <= p < x.cu[idx + 1] { OwnerIsUnique(x.cu, p, idx); }
    }
  }

  /** All programs of the launch, in whatever order they run. */
  method Launch(x: Input, order: seq<nat>, tokenToSeq: array<int>, ks: array<int>, ke: array<int>, block: nat)
    requires InputOk(x) && block >= 1
    requires (forall o :: o in order ==> o < |x.lens|) && (forall idx :: 0 <= idx < |x.lens| ==> idx in order)
    requires ks != ke && ks != tokenToSeq && ke != tokenToSeq
    requires ks.Length == ke.Length == x.qStop - x.qStart && tokenToSeq.Length == x.cu[|x.lens|]
    modifies tokenToSeq, ks, ke
    ensures forall p :: 0 <= p < ks.Length ==>
      ks[p] == KeyStart(x, p + x.qStart) && ke[p] == KeyStop(x, p + x.qStart)
    ensures forall p :: 0 <= p < tokenToSeq.Length ==> tokenToSeq[p] == OwnerOf(x.cu, p)
  {
    for i := 0 to |order|
      invariant BoundsDone(x, ks[..], ke[..], order[..i]) && OwnersDone(x, tokenToSeq[..], order[..i])
    {
      assert order[i] in order;
      ghost var ks0, ke0, owners0 := ks[..], ke[..], tokenToSeq[..];
      StoreBounds(x, order[i], ks, ke, block);
      StoreOwners(x, order[i], tokenToSeq, block);
      BoundsStep(x, order[i], ks0, ke0, ks[..], ke[..], order[..i]);
      OwnersStep(x, order[i], owners0, tokenToSeq[..], order[..i]);
      assert order[..i] + [order[i]] == order[..i + 1];
    }
    assert order[..|order|] == order;
    assert BoundsDone(x, ks[..], ke[..], order) && OwnersDone(x, tokenToSeq[..], order);
    forall p | 0 <= p < ks.Length
      ensures ks[p] == KeyStart(x, p + x.qStart) && ke[p] == KeyStop(x, p + x.qStart)
    {
      assert ks[p] == ks[..][p] && ke[p] == ke[..][p];
    }
    forall p | 0 <= p < tokenToSeq.Length ensures tokenToSeq[p] == OwnerOf(x.cu, p) {
      assert tokenToSeq[p] == tokenToSeq[..][p];
    }
  }

  // ---------- One chunk ----------

  /** A chunk's metadata: the intervals, the gather plan and the tokens they are for. */
  datatype Metadata = Metadata(
    ks: seq<int>, ke: seq<int>, cu: seq<nat>, tokenToSeq: seq<int>, total: nat,
    reqStart: nat, reqStop: nat, tokenStart: nat, tokenStop: nat, skipGather: bool)

  predicate ChunkFits(a: Attention, c: Chunk) {
    AttentionOk(a) && c.reqStart <= c.reqStop <= |a.lens| &&
    c.qStart <= c.qStop <= a.starts[c.reqStop] - a.starts[c.reqStart]
  }

  function RelativeStarts(a: Attention, lo: nat, hi: nat): (s: seq<nat>)
    requires AttentionOk(a) && lo <= hi <= |a.lens|
    ensures |s| == hi - lo + 1 && forall i :: 0 <= i < |s| ==> s[i] == a.starts[lo + i] - a.starts[lo]
  {
    seq(hi - lo + 1, i requires 0 <= i < hi - lo + 1 => a.starts[lo + i] - a.starts[lo])
  }

  /** Running sums of s from lo, starting at zero. */
  function Cumulative(s: seq<nat>, lo: nat, hi: nat): (r: seq<nat>)
    requires lo <= hi <= |s|
    ensures |r| == hi - lo + 1 && forall i :: 0 <= i < |r| ==> r[i] == Sum(s, lo, lo + i)
  {
    if lo == hi then [0]
    else
      var before := Cumulative(s, lo, hi - 1);
      before + [before[hi - 1 - lo] + s[hi - 1]]
  }

  lemma {:induction false} CumulativeIsOffsets(s: seq<nat>, lo: nat, hi: nat)
    requires lo <= hi <= |s|
    ensures Offsets(Cumulative(s, lo, hi))
  {
    var r := Cumulative(s, lo, hi);
    forall i, j | 0 <= i <= j < |r| ensures r[i] <= r[j] { SumSplits(s, lo, lo + i, lo + j); }
  }

  function InputOf(a: Attention, c: Chunk): Input
    requires ChunkFits(a, c)
  {
    Input(RelativeStarts(a, c.reqStart, c.reqStop), a.lens[c.reqStart..c.reqStop],
          Cumulative(Compressed(a), c.reqStart, c.reqStop), c.qStart, c.qStop, a.ratio)
  }

  lemma {:induction false} InputIsOk(a: Attention, c: Chunk)
    requires ChunkFits(a, c)
    ensures InputOk(InputOf(a, c))
    ensures InputOf(a, c).cu[c.reqStop - c.reqStart] == Sum(Compressed(a), c.reqStart, c.reqStop)
  {
    CumulativeIsOffsets(Compressed(a), c.reqStart, c.reqStop);
    assert Offsets(RelativeStarts(a, c.reqStart, c.reqStop));
  }

  ghost predicate Intervals(x: Input, ks: seq<int>, ke: seq<int>)
    requires InputOk(x)
  {
    |ks| == |ke| == x.qStop - x.qStart &&
    forall p :: 0 <= p < |ks| ==> ks[p] == KeyStart(x, p + x.qStart) && ke[p] == KeyStop(x, p + x.qStart)
  }

  ghost predicate Owners(x: Input, tokenToSeq: seq<int>)
    requires InputOk(x)
  {
    |tokenToSeq| == x.cu[|x.lens|] && forall p :: 0 <= p < |tokenToSeq| ==> tokenToSeq[p] == OwnerOf(x.cu, p)
  }

  /** The metadata of a launch on x, for a group whose first query token is base. */
  ghost predicate Describes(m: Metadata, x: Input, base: nat) {
    && InputOk(x) && Intervals(x, m.ks, m.ke) && Owners(x, m.tokenToSeq)
    && m.cu == x.cu && m.total == |m.tokenToSeq|
    && m.tokenStart == base + x.qStart && m.tokenStop == base + x.qStop
    && m.skipGather == (x.qStart > 0)
  }

  /** Fresh buffers, filled by the launch. */
  method FillBuffers(x: Input, order: seq<nat>, block: nat) returns (ks: seq<int>, ke: seq<int>, tokenToSeq: seq<int>)
    requires InputOk(x) && block >= 1
    requires (forall o :: o in order ==> o < |x.lens|) && (forall idx :: 0 <= idx < |x.lens| ==> idx in order)
    ensures Intervals(x, ks, ke) && Owners(x, tokenToSeq)
  {
    var owners := new int[x.cu[|x.lens|]];
    var starts := new int[x.qStop - x.qStart];
    var stops := new int[x.qStop - x.qStart];
    Launch(x, order, owners, starts, stops, block);
    ks, ke, tokenToSeq := starts[..], stops[..], owners[..];
  }

  method BuildChunk(a: Attention, c: Chunk, order: seq<nat>, block: nat) returns (r: Option<Metadata>)
    requires ChunkFits(a, c) && block >= 1
    requires forall o :: o in order ==> o < c.reqStop - c.reqStart
    requires forall idx :: 0 <= idx < c.reqStop - c.reqStart ==> idx in order
    ensures r.None? <==> Sum(Compressed(a), c.reqStart, c.reqStop) == 0
    ensures r.Some? ==> Describes(r.value, InputOf(a, c), a.starts[c.reqStart])
    ensures r.Some? ==> r.value.reqStart == c.reqStart && r.value.reqStop == c.reqStop
  {
    InputIsOk(a, c);
    var x := InputOf(a, c);
    var total := Sum(Compressed(a), c.reqStart, c.reqStop);
    if total == 0 { return None; }
    var ks, ke, tokenToSeq := FillBuffers(x, order, block);
    return Some(Metadata(ks, ke, x.cu, tokenToSeq, total, c.reqStart, c.reqStop,
                         a.starts[c.reqStart] + c.qStart, a.starts[c.reqStart] + c.qStop, c.qStart > 0));
  }

  // ---------- What the intervals mean ----------

  lemma {:induction false} FloorOrder(x: nat, y: nat, d: nat)
    requires d >= 1 && x <= y
    ensures x / d <= y / d
  {
    var p, q := y / d, x / d;
    assert y < (p + 1) * d && q * d <= x;
    if p + 1 <= q { SmallerProduct(p + 1, q, d); }
  }

  /** Number of tokens of the sequence up to and including token t of the batch, of request r. */
  function PositionsUpTo(a: Attention, r: nat, t: nat): nat
    requires AttentionOk(a) && r < |a.lens| && a.starts[r] <= t
  {
    a.lens[r] - (a.starts[r + 1] - a.starts[r]) + (t - a.starts[r]) + 1
  }

  lemma {:induction false} BoundsOfOwner(x: Input, ks: seq<int>, ke: seq<int>, idx: nat, t: nat)
    requires InputOk(x) && Intervals(x, ks, ke) && idx < |x.lens|
    requires x.rel[idx] <= t < x.rel[idx + 1] && x.qStart <= t < x.qStop
    ensures ks[t - x.qStart] == x.cu[idx] && ke[t - x.qStart] == x.cu[idx] + Reached(x, idx, t) / x.ratio
  {
    OwnerIsUnique(x.rel, t, idx);
  }

  lemma {:induction false} InputParts(a: Attention, c: Chunk, r: nat)
    requires ChunkFits(a, c) && c.reqStart <= r < c.reqStop
    ensures IsRequest(InputOf(a, c), r - c.reqStart, a, r, a.starts[c.reqStart])
    ensures InputOf(a, c).cu[r - c.reqStart] == Sum(Compressed(a), c.reqStart, r)
  {
  }

  /** The idx-th request of x is request r of the batch. */
  ghost predicate IsRequest(x: Input, idx: int, a: Attention, r: nat, base: nat) {
    && 0 <= idx < |x.lens| && idx + 1 < |x.rel| && idx + 1 < |x.cu| && r < |a.lens| && r + 1 < |a.starts|
    && x.rel[idx] == a.starts[r] - base && x.rel[idx + 1] == a.starts[r + 1] - base
    && x.lens[idx] == a.lens[r] && x.ratio == a.ratio
  }

  lemma {:induction false} PositionsAgree(x: Input, base: nat, idx: nat, a: Attention, r: nat, t: nat)
    requires AttentionOk(a) && InputOk(x) && IsRequest(x, idx, a, r, base) && a.starts[r] <= t < a.starts[r + 1]
    ensures Reached(x, idx, t - base) == PositionsUpTo(a, r, t)
  {
  }

  /**
   A token of request r sees exactly the compressed keys of its own request up
   to its own position: as many as its position divided by the ratio, from where
   the request's segment of the gathered keys begins.
   */
  lemma {:induction false} IntervalIsOwnHistory(m: Metadata, x: Input, base: nat, idx: nat, a: Attention, r: nat, t: nat)
    requires AttentionOk(a) && Describes(m, x, base) && IsRequest(x, idx, a, r, base)
    requires a.starts[r] <= t < a.starts[r + 1] && m.tokenStart <= t < m.tokenStop
    ensures var p := t - m.tokenStart;
      m.ks[p] == m.cu[idx] && m.ke[p] == m.cu[idx] + PositionsUpTo(a, r, t) / a.ratio
  {
    PositionsAgree(x, base, idx, a, r, t);
    BoundsOfOwner(x, m.ks, m.ke, idx, t - base);
  }

  /** A request's last query token is at its last position, and every earlier one as many before it as tokens follow. */
  lemma {:induction false} PositionsMean(a: Attention, r: nat, t: nat)
    requires AttentionOk(a) && r < |a.lens| && a.starts[r] <= t < a.starts[r + 1]
    ensures PositionsUpTo(a, r, t) + (a.starts[r + 1] - 1 - t) == a.lens[r]
  {
  }

  /** The last query token sees its request's whole segment. */
  lemma {:induction false} LastSeesAll(a: Attention, lo: nat, r: nat)
    requires AttentionOk(a) && lo <= r < |a.lens| && a.starts[r] < a.starts[r + 1]
    ensures Sum(Compressed(a), lo, r) + PositionsUpTo(a, r, a.starts[r + 1] - 1) / a.ratio == Sum(Compressed(a), lo, r + 1)
  {
    PositionsMean(a, r, a.starts[r + 1] - 1);
  }

  /** A gathered key is labelled with the request whose segment it lies in. */
  lemma {:induction false} OwnerMeans(m: Metadata, x: Input, base: nat, p: nat, idx: nat)
    requires Describes(m, x, base) && p < m.total && idx < |x.lens|
    ensures |m.tokenToSeq| == m.total && (m.tokenToSeq[p] == idx <==> m.cu[idx] <= p < m.cu[idx + 1])
  {
    if m.cu[idx] <= p < m.cu[idx + 1] { OwnerIsUnique(x.cu, p, idx); }
  }

  /** That many keys are inside the request's own segment. */
  lemma {:induction false} StaysInSegment(a: Attention, lo: nat, r: nat, positions: nat)
    requires AttentionOk(a) && lo <= r < |a.lens| && positions <= a.lens[r]
    ensures Sum(Compressed(a), lo, r) + positions / a.ratio <= Sum(Compressed(a), lo, r + 1)
  {
    FloorOrder(positions, a.lens[r], a.ratio);
  }

  lemma {:induction false} OwnersAgree(x: Input, y: Input, s: seq<int>, s': seq<int>)
    requires InputOk(x) && InputOk(y) && x.cu == y.cu && Owners(x, s) && Owners(y, s')
    ensures s == s'
  {
  }

  lemma {:induction false} SameBounds(x: Input, y: Input, t: nat)
    requires InputOk(x) && InputOk(y) && x.rel == y.rel && x.cu == y.cu && x.lens == y.lens && x.ratio == y.ratio
    requires t < x.rel[|x.lens|]
    ensures KeyStart(x, t) == KeyStart(y, t) && KeyStop(x, t) == KeyStop(y, t)
  {
  }

  /** The interval of the query at place p is the one x defines. */
  predicate IntervalAt(x: Input, p: nat, start: int, stop: int)
    requires InputOk(x) && p + x.qStart < x.qStop
  {
    start == KeyStart(x, p + x.qStart) && stop == KeyStop(x, p + x.qStart)
  }

  lemma {:induction false} LeftInterval(x: Input, cut: nat, ks: seq<int>, ke: seq<int>, p: nat)
    requires InputOk(x) && x.qStart <= cut <= x.qStop && Intervals(x.(qStop := cut), ks, ke) && p < cut - x.qStart
    ensures p < |ks| == |ke| && IntervalAt(x, p, ks[p], ke[p])
  {
    SameBounds(x, x.(qStop := cut), p + x.qStart);
  }

  lemma {:induction false} RightInterval(x: Input, cut: nat, ks: seq<int>, ke: seq<int>, p: nat)
    requires InputOk(x) && x.qStart <= cut <= x.qStop && Intervals(x.(qStart := cut), ks, ke)
    requires cut - x.qStart <= p < x.qStop - x.qStart
    ensures var k := p - (cut - x.qStart); k < |ks| == |ke| && IntervalAt(x, p, ks[k], ke[k])
  {
    SameBounds(x, x.(qStart := cut), p + x.qStart);
  }

  lemma {:induction false} JoinedInterval(x: Input, cut: nat, ks: seq<int>, ke: seq<int>, ks': seq<int>, ke': seq<int>, p: nat)
    requires InputOk(x) && x.qStart <= cut <= x.qStop && p < x.qStop - x.qStart
    requires Intervals(x.(qStop := cut), ks, ke) && Intervals(x.(qStart := cut), ks', ke')
    ensures p < |ks + ks'| == |ke + ke'| && IntervalAt(x, p, (ks + ks')[p], (ke + ke')[p])
  {
    if p < |ks| { LeftInterval(x, cut, ks, ke, p); } else { RightInterval(x, cut, ks', ke', p); }
  }

  lemma {:induction false} IntervalsHold(x: Input, ks: seq<int>, ke: seq<int>)
    requires InputOk(x) && |ks| == |ke| == x.qStop - x.qStart
    requires forall p :: 0 <= p < |ks| ==> IntervalAt(x, p, ks[p], ke[p])
    ensures Intervals(x, ks, ke)
  {
  }

  lemma {:induction false} IntervalsJoin(x: Input, cut: nat, ks: seq<int>, ke: seq<int>, ks': seq<int>, ke': seq<int>)
    requires InputOk(x) && x.qStart <= cut <= x.qStop
    requires Intervals(x.(qStop := cut), ks, ke) && Intervals(x.(qStart := cut), ks', ke')
    ensures Intervals(x, ks + ks', ke + ke')
  {
    var starts, stops := ks + ks', ke + ke';
    forall p | 0 <= p < |starts| ensures IntervalAt(x, p, starts[p], stops[p]) {
      JoinedInterval(x, cut, ks, ke, ks', ke', p);
    }
    IntervalsHold(x, starts, stops);
  }

  lemma {:induction false} IntervalsAreUnique(x: Input, ks: seq<int>, ke: seq<int>, ks': seq<int>, ke': seq<int>)
    requires InputOk(x) && Intervals(x, ks, ke) && Intervals(x, ks', ke')
    ensures ks == ks' && ke == ke'
  {
  }

  /** Cutting a group's queries in two does not change any interval, and only the first part gathers keys. */
  lemma {:induction false} SubChunksConcatenate(x: Input, base: nat, cut: nat, left: Metadata, right: Metadata, whole: Metadata)
    requires x.qStart < cut <= x.qStop
    requires Describes(left, x.(qStop := cut), base) && Describes(right, x.(qStart := cut), base) && Describes(whole, x, base)
    ensures left.ks + right.ks == whole.ks && left.ke + right.ke == whole.ke
    ensures left.tokenStart == whole.tokenStart && left.tokenStop == right.tokenStart && right.tokenStop == whole.tokenStop
    ensures left.cu == right.cu == whole.cu && left.tokenToSeq == right.tokenToSeq == whole.tokenToSeq
    ensures left.skipGather == whole.skipGather && right.skipGather
  {
    IntervalsJoin(x, cut, left.ks, left.ke, right.ks, right.ke);
    IntervalsAreUnique(x, left.ks + right.ks, left.ke + right.ke, whole.ks, whole.ke);
    OwnersAgree(x.(qStop := cut), x, left.tokenToSeq, whole.tokenToSeq);
    OwnersAgree(x.(qStart := cut), x, right.tokenToSeq, whole.tokenToSeq);
  }
}

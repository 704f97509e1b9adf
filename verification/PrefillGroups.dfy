/**
 The records of one group of requests. However often a group was cut along its
 queries, its records follow one another and together hold the intervals of the
 uncut group; only the first one gathers keys, for all of them.
 */
module PrefillGroups {
  import opened Common
  import opened PrefillSplit
  import opened PrefillMetadata
  import opened PrefillBuild

  // ---------- The chunks of a group ----------

  /** Chunks lo to hi are the slices of one group's m queries, and no other chunk is of its requests. */
  ghost predicate GroupAt(chunks: seq<Chunk>, lo: nat, hi: nat, first: nat, stop: nat, m: nat, stride: nat) {
    && lo < hi <= |chunks| && stride > 0
    && chunks[lo..hi] == Slices(first, stop, m, stride, 0)
    && forall i :: 0 <= i < |chunks| ==> (chunks[i].reqStart == first <==> lo <= i < hi)
  }

  /** The chunks' requests begin at first; or not before it. */
  ghost predicate AllAt(chunks: seq<Chunk>, first: nat) { forall k :: 0 <= k < |chunks| ==> chunks[k].reqStart == first }

  ghost predicate AllFrom(chunks: seq<Chunk>, first: nat) { forall k :: 0 <= k < |chunks| ==> chunks[k].reqStart >= first }

  lemma {:induction false} SlicesAt(start: nat, end: nat, m: nat, stride: nat, q: nat)
    requires stride > 0
    ensures AllAt(Slices(start, end, m, stride, q), start)
    decreases m - q
  {
    if q < m { SlicesAt(start, end, m, stride, q + stride); }
  }

  lemma {:induction false} FirstGroup(chunks: seq<Chunk>, group: seq<Chunk>, rest: seq<Chunk>, hi: nat, first: nat, stop: nat, m: nat, stride: nat)
    requires chunks == group + rest && hi == |group| > 0
    requires stride > 0 && group == Slices(first, stop, m, stride, 0)
    requires AllAt(group, first) && AllFrom(rest, first + 1)
    ensures GroupAt(chunks, 0, hi, first, stop, m, stride)
  {
    forall i | 0 <= i < |chunks| ensures chunks[i].reqStart == first <==> i < |group| {
      assert i >= |group| ==> chunks[i] == rest[i - |group|];
    }
  }

  lemma {:induction false} LaterGroup(chunks: seq<Chunk>, group: seq<Chunk>, rest: seq<Chunk>, start: nat, lo: nat, hi: nat,
                                      first: nat, stop: nat, m: nat, stride: nat)
    requires chunks == group + rest && |group| <= lo <= hi
    requires GroupAt(rest, lo - |group|, hi - |group|, first, stop, m, stride) && AllAt(group, start) && start < first
    ensures GroupAt(chunks, lo, hi, first, stop, m, stride)
  {
    assert chunks[lo..hi] == rest[lo - |group|..hi - |group|];
    forall i | 0 <= i < |chunks| ensures chunks[i].reqStart == first <==> lo <= i < hi {
      assert i >= |group| ==> chunks[i] == rest[i - |group|];
    }
  }

  /** The chunks from start on are the slices of start's group and those of what follows. */
  ghost predicate SplitsOff(b: Batch, start: nat, offset: nat, chunks: seq<Chunk>, end: nat, m: nat, stride: nat, group: seq<Chunk>, rest: seq<Chunk>)
    requires BatchOk(b)
  {
    && start < end <= |b.keys| && m == Sum(b.queries, start, end) && stride > 0
    && group == Slices(start + offset, end + offset, m, stride, 0)
    && ChunksFrom(b, end, offset) == Ok(rest) && chunks == group + rest
    && AllAt(group, start + offset)
  }

  lemma {:induction false} SplitOff(b: Batch, start: nat, offset: nat, chunks: seq<Chunk>)
    returns (end: nat, m: nat, stride: nat, group: seq<Chunk>, rest: seq<Chunk>)
    requires BatchOk(b) && start < |b.keys| && ChunksFrom(b, start, offset) == Ok(chunks)
    ensures SplitsOff(b, start, offset, chunks, end, m, stride, group, rest)
  {
    end := GroupEnd(b, start);
    m := Sum(b.queries, start, end);
    stride := Stride(b, m, Sum(b.keys, start, end));
    group, rest := GroupChunks(b, start, end, offset), ChunksFrom(b, end, offset).value;
    SlicesAt(start + offset, end + offset, m, stride, 0);
  }

  lemma {:induction false} LaterRequests(b: Batch, start: nat, offset: nat, chunks: seq<Chunk>)
    requires BatchOk(b) && start <= |b.keys| && ChunksFrom(b, start, offset) == Ok(chunks)
    ensures AllFrom(chunks, start + offset)
    decreases |b.keys| - start
  {
    if start < |b.keys| {
      var end, m, stride, group, rest := SplitOff(b, start, offset, chunks);
      LaterRequests(b, end, offset, rest);
    }
  }

  /** The m queries of requests first to stop, which are at these places of the batch. */
  ghost predicate QueriesOf(b: Batch, offset: nat, first: nat, stop: nat, m: nat) {
    offset <= first < stop <= |b.queries| + offset && m == Sum(b.queries, first - offset, stop - offset)
  }

  lemma {:induction false} QueriesAt(b: Batch, offset: nat, start: nat, end: nat, m: nat)
    requires start < end <= |b.queries| && m == Sum(b.queries, start, end)
    ensures QueriesOf(b, offset, start + offset, end + offset, m)
  {
  }

  /** Chunk i is one of the chunks lo to hi of a group of requests from start on. */
  ghost predicate InGroup(b: Batch, offset: nat, start: nat, chunks: seq<Chunk>, i: nat,
                          lo: nat, hi: nat, first: nat, stop: nat, m: nat, stride: nat) {
    && lo <= i < hi && start + offset <= first && QueriesOf(b, offset, first, stop, m)
    && GroupAt(chunks, lo, hi, first, stop, m, stride)
  }

  lemma {:induction false} InFirstGroup(b: Batch, offset: nat, start: nat, chunks: seq<Chunk>, i: nat,
                                        next: nat, m: nat, stride: nat, group: seq<Chunk>, rest: seq<Chunk>)
    requires BatchOk(b) && SplitsOff(b, start, offset, chunks, next, m, stride, group, rest) && i < |group|
    ensures InGroup(b, offset, start, chunks, i, 0, |group|, start + offset, next + offset, m, stride)
  {
    LaterRequests(b, next, offset, rest);
    FirstGroup(chunks, group, rest, |group|, start + offset, next + offset, m, stride);
    QueriesAt(b, offset, start, next, m);
  }

  lemma {:induction false} InLaterGroup(b: Batch, offset: nat, start: nat, next: nat, chunks: seq<Chunk>, group: seq<Chunk>, rest: seq<Chunk>, i: nat,
                                        lo: nat, hi: nat, first: nat, stop: nat, m: nat, stride: nat)
    requires |group| <= i < |chunks| && |group| <= lo <= hi && chunks == group + rest && start < next
    requires AllAt(group, start + offset)
    requires InGroup(b, offset, next, rest, i - |group|, lo - |group|, hi - |group|, first, stop, m, stride)
    ensures InGroup(b, offset, start, chunks, i, lo, hi, first, stop, m, stride)
  {
    LaterGroup(chunks, group, rest, start + offset, lo, hi, first, stop, m, stride);
  }

  /** Every chunk belongs to a group whose chunks follow one another. */
  lemma {:induction false} GroupOf(b: Batch, start: nat, offset: nat, chunks: seq<Chunk>, i: nat)
    returns (lo: nat, hi: nat, first: nat, stop: nat, m: nat, stride: nat)
    requires BatchOk(b) && start <= |b.keys| && ChunksFrom(b, start, offset) == Ok(chunks) && i < |chunks|
    ensures InGroup(b, offset, start, chunks, i, lo, hi, first, stop, m, stride)
    decreases |b.keys| - start
  {
    var next, n, step, group, rest := SplitOff(b, start, offset, chunks);
    if i < |group| {
      InFirstGroup(b, offset, start, chunks, i, next, n, step, group, rest);
      return 0, |group|, start + offset, next + offset, n, step;
    }
    lo, hi, first, stop, m, stride := GroupOf(b, next, offset, rest, i - |group|);
    lo, hi := lo + |group|, hi + |group|;
    InLaterGroup(b, offset, start, next, chunks, group, rest, i, lo, hi, first, stop, m, stride);
  }

  // ---------- No group can be cut into fewer chunks ----------

  /** Places at which to cut m queries against n keys: every piece has at most one query or respects the bound. */
  ghost predicate Cuts(cuts: seq<nat>, m: nat, n: nat, logits: nat) {
    && |cuts| >= 1 && cuts[0] == 0 && cuts[|cuts| - 1] == m
    && forall i :: 0 < i < |cuts| ==> cuts[i] <= cuts[i - 1] + 1 || (cuts[i] - cuts[i - 1]) * n <= logits
  }

  /** The chunk has queries, and with one more it would break the bound, or there is none. */
  predicate Maximal(c: Chunk, m: nat, n: nat, logits: nat) {
    c.qStart < c.qStop && (c.qStop < m ==> (c.qStop - c.qStart + 1) * n > logits)
  }

  /** Chunks i to j are slices of m queries against n keys, none of which could be longer. */
  ghost predicate Longest(chunks: seq<Chunk>, i: nat, j: nat, first: nat, stop: nat, m: nat, n: nat, logits: nat) {
    && Consecutive(chunks, i, j, first, stop, m)
    && forall x :: i <= x < j ==> Maximal(chunks[x], m, n, logits)
  }

  /** The k-th cut is no further than the k-th chunk reaches. */
  lemma {:induction false} CutsLagBehind(chunks: seq<Chunk>, i: nat, j: nat, first: nat, stop: nat, m: nat, n: nat, logits: nat, cuts: seq<nat>, k: nat)
    requires Longest(chunks, i, j, first, stop, m, n, logits) && Cuts(cuts, m, n, logits) && 1 <= k < |cuts| && k < j - i
    ensures cuts[k] <= chunks[i + k - 1].qStop < m
  {
    var c := chunks[i + k - 1];
    assert Maximal(c, m, n, logits) && Maximal(chunks[i + k], m, n, logits);
    assert chunks[i + k].qStart == c.qStop && chunks[i + k].qStop <= m;
    if k > 1 { CutsLagBehind(chunks, i, j, first, stop, m, n, logits, cuts, k - 1); }
    assert cuts[k - 1] <= c.qStart;
    if cuts[k] > c.qStop { SmallerProduct(c.qStop - c.qStart + 1, cuts[k] - cuts[k - 1], n); }
  }

  lemma {:induction false} CutsAreMore(chunks: seq<Chunk>, i: nat, j: nat, first: nat, stop: nat, m: nat, n: nat, logits: nat, cuts: seq<nat>)
    requires Longest(chunks, i, j, first, stop, m, n, logits) && Cuts(cuts, m, n, logits)
    ensures |cuts| - 1 >= j - i
  {
    var k := |cuts| - 1;
    assert Maximal(chunks[i], m, n, logits) && chunks[i].qStop <= m;
    if k < j - i {
      CutsLagBehind(chunks, i, j, first, stop, m, n, logits, cuts, k);
    }
  }

  lemma {:induction false} ChunkIsMaximal(b: Batch, offset: nat, c: Chunk, m: nat, n: nat)
    requires BatchOk(b) && ChunkOk(b, offset, c)
    requires m == Sum(b.queries, c.reqStart - offset, c.reqStop - offset) && n == Sum(b.keys, c.reqStart - offset, c.reqStop - offset)
    ensures Maximal(c, m, n, b.logits)
  {
  }

  lemma {:induction false} GroupIsLongest(b: Batch, offset: nat, chunks: seq<Chunk>, i: nat, j: nat, first: nat, stop: nat, m: nat, n: nat)
    requires BatchOk(b) && ChunksFrom(b, 0, offset) == Ok(chunks) && Consecutive(chunks, i, j, first, stop, m)
    requires QueriesOf(b, offset, first, stop, m) && n == Sum(b.keys, first - offset, stop - offset)
    ensures Longest(chunks, i, j, first, stop, m, n, b.logits)
  {
    EveryChunkOk(b, 0, offset);
    forall y | i <= y < j ensures Maximal(chunks[y], m, n, b.logits) {
      assert chunks[y] in chunks;
      ChunkIsMaximal(b, offset, chunks[y], m, n);
    }
  }

  /** The chunks of a group are the fewest that cover its queries within the bound. */
  lemma {:induction false} FewestChunks(b: Batch, offset: nat, chunks: seq<Chunk>, x: nat, cuts: seq<nat>)
    returns (i: nat, j: nat, m: nat, n: nat)
    requires BatchOk(b) && ChunksFrom(b, 0, offset) == Ok(chunks) && x < |chunks|
    ensures Consecutive(chunks, i, j, chunks[x].reqStart, chunks[x].reqStop, m) && i <= x < j
    ensures forall y :: 0 <= y < |chunks| ==> (chunks[y].reqStart == chunks[x].reqStart <==> i <= y < j)
    ensures offset <= chunks[x].reqStart <= chunks[x].reqStop <= offset + |b.keys|
    ensures m == Sum(b.queries, chunks[x].reqStart - offset, chunks[x].reqStop - offset)
    ensures n == Sum(b.keys, chunks[x].reqStart - offset, chunks[x].reqStop - offset)
    ensures Cuts(cuts, m, n, b.logits) ==> |cuts| - 1 >= j - i
  {
    var first, stop, stride;
    i, j, first, stop, m, stride := GroupOf(b, 0, offset, chunks, x);
    GroupIsConsecutive(chunks, i, j, first, stop, m, stride);
    n := Sum(b.keys, first - offset, stop - offset);
    GroupIsLongest(b, offset, chunks, i, j, first, stop, m, n);
    if Cuts(cuts, m, n, b.logits) { CutsAreMore(chunks, i, j, first, stop, m, n, b.logits, cuts); }
  }

  // ---------- The records of a group ----------

  /** The interval starts, and stops, of the records lo to hi, one after another. */
  function KeyStarts(metas: seq<Metadata>, lo: nat, hi: nat): seq<int>
    requires lo <= hi <= |metas|
    decreases hi - lo
  {
    if lo == hi then [] else metas[lo].ks + KeyStarts(metas, lo + 1, hi)
  }

  function KeyStops(metas: seq<Metadata>, lo: nat, hi: nat): seq<int>
    requires lo <= hi <= |metas|
    decreases hi - lo
  {
    if lo == hi then [] else metas[lo].ke + KeyStops(metas, lo + 1, hi)
  }

  lemma {:induction false} NoIntervals(x: Input)
    requires InputOk(x) && x.qStart == x.qStop
    ensures Intervals(x, [], [])
  {
  }

  /** The queries of requests start to end from q on, of m. */
  function Rest(a: Attention, start: nat, end: nat, q: nat, m: nat): Input
    requires ChunkFits(a, Chunk(start, end, q, m))
  {
    InputOf(a, Chunk(start, end, q, m))
  }

  /** These are the intervals of the queries from q on. */
  ghost predicate RestIntervals(a: Attention, start: nat, end: nat, q: nat, m: nat, ks: seq<int>, ke: seq<int>) {
    ChunkFits(a, Chunk(start, end, q, m)) && InputOk(Rest(a, start, end, q, m)) && Intervals(Rest(a, start, end, q, m), ks, ke)
  }

  /** The intervals of records k to hi, joined, are those of the queries from q on. */
  ghost predicate RecordsMeet(a: Attention, start: nat, end: nat, q: nat, m: nat, metas: seq<Metadata>, k: nat, hi: nat) {
    k <= hi <= |metas| && RestIntervals(a, start, end, q, m, KeyStarts(metas, k, hi), KeyStops(metas, k, hi))
  }

  lemma {:induction false} NothingLeft(a: Attention, start: nat, end: nat, q: nat, m: nat, metas: seq<Metadata>, k: nat, hi: nat)
    requires ChunkFits(a, Chunk(start, end, q, m)) && q == m && k == hi <= |metas|
    ensures RecordsMeet(a, start, end, q, m, metas, k, hi)
  {
    InputIsOk(a, Chunk(start, end, q, m));
    NoIntervals(Rest(a, start, end, q, m));
  }

  /** The record of a slice, put before the intervals of the queries after it. */
  lemma {:induction false} JoinSlice(a: Attention, start: nat, end: nat, q: nat, cut: nat, m: nat, metas: seq<Metadata>, k: nat, hi: nat)
    requires k < hi <= |metas| && cut <= m
    requires ChunkFits(a, Chunk(start, end, q, cut)) && DescribesChunk(metas[k], a, Chunk(start, end, q, cut))
    requires RecordsMeet(a, start, end, cut, m, metas, k + 1, hi)
    ensures RecordsMeet(a, start, end, q, m, metas, k, hi)
  {
    var x := Rest(a, start, end, q, m);
    InputIsOk(a, Chunk(start, end, q, m));
    assert x.(qStop := cut) == InputOf(a, Chunk(start, end, q, cut)) && x.(qStart := cut) == Rest(a, start, end, cut, m);
    IntervalsJoin(x, cut, metas[k].ks, metas[k].ke, KeyStarts(metas, k + 1, hi), KeyStops(metas, k + 1, hi));
  }

  /** The slices' queries follow one another from zero to m. */
  ghost predicate Consecutive(chunks: seq<Chunk>, lo: nat, hi: nat, start: nat, end: nat, m: nat) {
    && lo < hi <= |chunks| && chunks[lo].qStart == 0 && chunks[hi - 1].qStop == m
    && (forall i :: lo <= i < hi ==> chunks[i].reqStart == start && chunks[i].reqStop == end && chunks[i].qStop <= m)
    && (forall i :: lo < i < hi ==> chunks[i].qStart > 0 && chunks[i].qStart == chunks[i - 1].qStop)
  }

  lemma {:induction false} SliceStarts(start: nat, end: nat, m: nat, stride: nat, q: nat)
    requires stride > 0
    ensures var s := Slices(start, end, m, stride, q);
      && (s != [] ==> s[0].qStart == q && s[|s| - 1].qStop == m)
      && (forall j :: 0 <= j < |s| ==> s[j].qStop <= m && s[j].reqStart == start && s[j].reqStop == end)
      && (forall j :: 0 < j < |s| ==> s[j].qStart > 0 && s[j].qStart == s[j - 1].qStop)
    decreases m - q
  {
    if q < m { SliceStarts(start, end, m, stride, q + stride); }
  }

  lemma {:induction false} GroupIsConsecutive(chunks: seq<Chunk>, lo: nat, hi: nat, first: nat, stop: nat, m: nat, stride: nat)
    requires GroupAt(chunks, lo, hi, first, stop, m, stride)
    ensures Consecutive(chunks, lo, hi, first, stop, m)
  {
    SliceStarts(first, stop, m, stride, 0);
    var s := chunks[lo..hi];
    assert s[0] == chunks[lo] && s[|s| - 1] == chunks[hi - 1];
    forall i | lo <= i < hi
      ensures chunks[i].reqStart == first && chunks[i].reqStop == stop && chunks[i].qStop <= m
      ensures i > lo ==> chunks[i].qStart > 0 && chunks[i].qStart == chunks[i - 1].qStop
    {
      assert s[i - lo] == chunks[i] && (i > lo ==> s[i - lo - 1] == chunks[i - 1]);
    }
  }

  // ---------- The groups of a build ----------

  ghost predicate Increasing(from: seq<nat>) { forall i, j :: 0 <= i < j < |from| ==> from[i] < from[j] }

  /** From place k on, the sequence has the numbers lo to hi. */
  ghost predicate RunAt(from: seq<nat>, k: nat, lo: nat, hi: nat) {
    lo <= hi && k + (hi - lo) <= |from| && forall j :: k <= j < k + (hi - lo) ==> from[j] == lo + (j - k)
  }

  lemma {:induction false} NextPlace(from: seq<nat>, p: nat, l: nat)
    requires Increasing(from) && p < |from| && l < |from| && from[l] == from[p] + 1
    ensures l == p + 1
  {
    assert p + 1 == |from| || from[p] < from[p + 1];
  }

  /** An increasing sequence that contains lo to hi has them next to each other. */
  lemma {:induction false} RunOf(from: seq<nat>, lo: nat, hi: nat) returns (k: nat)
    requires lo < hi && Increasing(from) && forall i :: lo <= i < hi ==> i in from
    ensures RunAt(from, k, lo, hi)
    decreases hi
  {
    if lo + 1 == hi {
      assert lo in from;
      k :| 0 <= k < |from| && from[k] == lo;
    } else {
      k := RunOf(from, lo, hi - 1);
      assert hi - 1 in from;
      var l :| 0 <= l < |from| && from[l] == hi - 1;
      assert from[k + (hi - 1 - lo) - 1] == hi - 2;
      NextPlace(from, k + (hi - 1 - lo) - 1, l);
    }
  }

  lemma {:induction false} RunIsExact(from: seq<nat>, k: nat, lo: nat, hi: nat, l: nat)
    requires Increasing(from) && RunAt(from, k, lo, hi) && l < |from|
    ensures k <= l < k + (hi - lo) <==> lo <= from[l] < hi
  {
    if lo <= from[l] < hi { assert from[k + (from[l] - lo)] == from[l]; }
  }

  predicate SameRequests(c: Chunk, d: Chunk) { c.reqStart == d.reqStart && c.reqStop == d.reqStop }

  /** The record says which requests and tokens the chunk is for, and that only a first slice gathers. */
  predicate Header(starts: seq<nat>, c: Chunk, m: Metadata) {
    && m.reqStart == c.reqStart < |starts| && m.reqStop == c.reqStop
    && m.tokenStart == starts[c.reqStart] + c.qStart && m.tokenStop == starts[c.reqStart] + c.qStop
    && (m.skipGather <==> c.qStart > 0)
  }

  /** Records carry their chunks' headers, and a group's chunks have records all or none. */
  ghost predicate Filed(starts: seq<nat>, chunks: seq<Chunk>, metas: seq<Metadata>, from: seq<nat>) {
    && |from| == |metas| && Increasing(from)
    && (forall k :: 0 <= k < |from| ==> from[k] < |chunks| && Header(starts, chunks[from[k]], metas[k]))
    && (forall i, j :: 0 <= i < |chunks| && 0 <= j < |chunks| && SameRequests(chunks[i], chunks[j]) && i in from ==> j in from)
  }

  lemma {:induction false} RecordAt(a: Attention, chunks: seq<Chunk>, metas: seq<Metadata>, from: seq<nat>, l: nat)
    requires Fitting(a, chunks) && Built(a, chunks, metas, from, |chunks|) && l < |metas|
    ensures l < |from| && from[l] < |chunks| && ChunkFits(a, chunks[from[l]]) && DescribesChunk(metas[l], a, chunks[from[l]])
  {
  }

  lemma {:induction false} DescribedHeader(a: Attention, c: Chunk, m: Metadata)
    requires ChunkFits(a, c) && DescribesChunk(m, a, c)
    ensures Header(a.starts, c, m)
  {
  }

  lemma {:induction false} BuiltIsFiled(a: Attention, chunks: seq<Chunk>, metas: seq<Metadata>, from: seq<nat>)
    requires Fitting(a, chunks) && Built(a, chunks, metas, from, |chunks|)
    ensures Filed(a.starts, chunks, metas, from)
  {
    forall k | 0 <= k < |from| ensures from[k] < |chunks| && Header(a.starts, chunks[from[k]], metas[k]) {
      RecordAt(a, chunks, metas, from, k);
      DescribedHeader(a, chunks[from[k]], metas[k]);
    }
    forall i, j | 0 <= i < |chunks| && 0 <= j < |chunks| && SameRequests(chunks[i], chunks[j]) && i in from ensures j in from {
      assert KeysOf(a, chunks[i]) == KeysOf(a, chunks[j]);
    }
  }

  /** Records of the same requests mean the same gathered keys. */
  lemma {:induction false} SameGather(a: Attention, c: Chunk, d: Chunk, m: Metadata, m': Metadata)
    requires ChunkFits(a, c) && ChunkFits(a, d) && SameRequests(c, d)
    requires DescribesChunk(m, a, c) && DescribesChunk(m', a, d)
    ensures m.cu == m'.cu && m.tokenToSeq == m'.tokenToSeq
  {
    OwnersAgree(InputOf(a, c), InputOf(a, d), m.tokenToSeq, m'.tokenToSeq);
  }

  /** Records lo to hi are those of the requests from start on. */
  ghost predicate AllOfRequest(metas: seq<Metadata>, lo: int, hi: int, start: nat) {
    forall l :: 0 <= l < |metas| ==> (lo <= l < hi <==> metas[l].reqStart == start)
  }

  lemma {:induction false} RunIsOfRequests(starts: seq<nat>, chunks: seq<Chunk>, metas: seq<Metadata>, from: seq<nat>,
                                           lo: nat, hi: nat, first: nat, stop: nat, m: nat, stride: nat, k: nat)
    requires Filed(starts, chunks, metas, from) && GroupAt(chunks, lo, hi, first, stop, m, stride) && RunAt(from, k, lo, hi)
    ensures AllOfRequest(metas, k, k + (hi - lo), first)
  {
    forall l | 0 <= l < |metas| ensures k <= l < k + (hi - lo) <==> metas[l].reqStart == first {
      RunIsExact(from, k, lo, hi, l);
    }
  }

  /** A group one of whose chunks has a record has a run of records. */
  lemma {:induction false} GroupRun(starts: seq<nat>, chunks: seq<Chunk>, metas: seq<Metadata>, from: seq<nat>,
                                    lo: nat, hi: nat, first: nat, stop: nat, m: nat, stride: nat, i: nat)
    returns (k: nat)
    requires Filed(starts, chunks, metas, from) && GroupAt(chunks, lo, hi, first, stop, m, stride) && lo <= i < hi && i in from
    ensures RunAt(from, k, lo, hi) && AllOfRequest(metas, k, k + (hi - lo), first)
  {
    GroupIsConsecutive(chunks, lo, hi, first, stop, m, stride);
    forall l | lo <= l < hi ensures l in from {
      assert SameRequests(chunks[i], chunks[l]);
    }
    k := RunOf(from, lo, hi);
    RunIsOfRequests(starts, chunks, metas, from, lo, hi, first, stop, m, stride, k);
  }

  /** The chunks i to j and the records from lo on that belong to the group of record k. */
  lemma {:induction false} RecordGroup(starts: seq<nat>, decodes: nat, b: Batch, chunks: seq<Chunk>, metas: seq<Metadata>, from: seq<nat>, k: nat)
    returns (i: nat, j: nat, m: nat, stride: nat, lo: nat)
    requires Filed(starts, chunks, metas, from) && k < |metas| && BatchOk(b) && ChunksFrom(b, 0, decodes) == Ok(chunks)
    ensures QueriesOf(b, decodes, metas[k].reqStart, metas[k].reqStop, m)
    ensures GroupAt(chunks, i, j, metas[k].reqStart, metas[k].reqStop, m, stride)
    ensures RunAt(from, lo, i, j) && AllOfRequest(metas, lo, lo + (j - i), metas[k].reqStart)
  {
    assert from[k] in from;
    var first, stop;
    i, j, first, stop, m, stride := GroupOf(b, 0, decodes, chunks, from[k]);
    GroupIsConsecutive(chunks, i, j, first, stop, m, stride);
    lo := GroupRun(starts, chunks, metas, from, i, j, metas[k].reqStart, metas[k].reqStop, m, stride, from[k]);
  }

  // ---------- The whole group ----------

  /** Record k is that of chunk x, a slice of the group from query q to query cut. */
  lemma {:induction false} SliceOfRun(a: Attention, chunks: seq<Chunk>, metas: seq<Metadata>, from: seq<nat>,
                                      i: nat, j: nat, start: nat, end: nat, m: nat, k: nat, x: nat, q: nat, cut: nat)
    requires Fitting(a, chunks) && Built(a, chunks, metas, from, |chunks|)
    requires Consecutive(chunks, i, j, start, end, m) && i <= x < j && k < |from| && from[k] == x
    requires q == chunks[x].qStart && cut == chunks[x].qStop
    ensures k < |metas| && ChunkFits(a, Chunk(start, end, q, cut)) && DescribesChunk(metas[k], a, Chunk(start, end, q, cut))
  {
    RecordAt(a, chunks, metas, from, k);
    assert chunks[x] == Chunk(start, end, q, cut);
  }

  /** Where the slice ends the next one begins, and the last one ends with the group. */
  lemma {:induction false} CutOfSlice(chunks: seq<Chunk>, i: nat, j: nat, start: nat, end: nat, m: nat, x: nat)
    requires Consecutive(chunks, i, j, start, end, m) && i <= x < j
    ensures chunks[x].qStop <= m && (if x + 1 == j then chunks[x].qStop == m else chunks[x].qStop == chunks[x + 1].qStart)
  {
  }

  lemma {:induction false} AfterLastSlice(a: Attention, start: nat, end: nat, q: nat, cut: nat, m: nat, metas: seq<Metadata>, hi: nat)
    requires ChunkFits(a, Chunk(start, end, q, cut)) && cut == m && hi <= |metas|
    ensures RecordsMeet(a, start, end, cut, m, metas, hi, hi)
  {
    NothingLeft(a, start, end, cut, m, metas, hi, hi);
  }

  lemma {:induction false} RunPlace(from: seq<nat>, lo: nat, i: nat, j: nat, k: nat, x: nat)
    requires RunAt(from, lo, i, j) && i <= x < j && k == lo + (x - i)
    ensures k < |from| && from[k] == x && lo + (j - i) <= |from|
  {
  }

  /** Slice x of chunks i to j has its record among those from lo on, and ends where the next slice begins, or with the group. */
  ghost predicate Sliced(a: Attention, chunks: seq<Chunk>, metas: seq<Metadata>,
                         i: nat, j: nat, start: nat, end: nat, m: nat, lo: nat, x: nat) {
    && i <= x < j <= |chunks| && lo + (x - i) < |metas| && chunks[x].qStop <= m
    && ChunkFits(a, Chunk(start, end, chunks[x].qStart, chunks[x].qStop))
    && DescribesChunk(metas[lo + (x - i)], a, Chunk(start, end, chunks[x].qStart, chunks[x].qStop))
    && chunks[x].qStop == if x + 1 == j then m else chunks[x + 1].qStart
  }

  lemma {:induction false} SliceAt(a: Attention, chunks: seq<Chunk>, metas: seq<Metadata>, from: seq<nat>,
                                   i: nat, j: nat, start: nat, end: nat, m: nat, lo: nat, x: nat)
    requires Fitting(a, chunks) && Built(a, chunks, metas, from, |chunks|)
    requires Consecutive(chunks, i, j, start, end, m) && RunAt(from, lo, i, j) && i <= x < j
    ensures Sliced(a, chunks, metas, i, j, start, end, m, lo, x)
  {
    RunPlace(from, lo, i, j, lo + (x - i), x);
    CutOfSlice(chunks, i, j, start, end, m, x);
    SliceOfRun(a, chunks, metas, from, i, j, start, end, m, lo + (x - i), x, chunks[x].qStart, chunks[x].qStop);
  }

  lemma {:induction false} LastIntervals(a: Attention, chunks: seq<Chunk>, metas: seq<Metadata>,
                                         i: nat, j: nat, start: nat, end: nat, m: nat, lo: nat, x: nat, q: nat, k: nat, hi: nat)
    requires Sliced(a, chunks, metas, i, j, start, end, m, lo, x) && k == lo + (x - i) && q == chunks[x].qStart
    requires x + 1 == j && hi == k + 1
    ensures RecordsMeet(a, start, end, q, m, metas, k, hi)
  {
    AfterLastSlice(a, start, end, q, m, m, metas, hi);
    JoinSlice(a, start, end, q, m, m, metas, k, hi);
  }

  lemma {:induction false} NextIntervals(a: Attention, chunks: seq<Chunk>, metas: seq<Metadata>,
                                         i: nat, j: nat, start: nat, end: nat, m: nat, lo: nat, x: nat, q: nat, cut: nat, k: nat, hi: nat)
    requires Sliced(a, chunks, metas, i, j, start, end, m, lo, x) && k == lo + (x - i) && q == chunks[x].qStart
    requires x + 1 < j && cut == chunks[x + 1].qStart && RecordsMeet(a, start, end, cut, m, metas, k + 1, hi)
    ensures RecordsMeet(a, start, end, q, m, metas, k, hi)
  {
    JoinSlice(a, start, end, q, cut, m, metas, k, hi);
  }

  /** From slice x on, the records' intervals are those of the queries from its start on. */
  lemma {:induction false} SlicesMeet(a: Attention, chunks: seq<Chunk>, metas: seq<Metadata>,
                                      i: nat, j: nat, start: nat, end: nat, m: nat, lo: nat, x: nat, q: nat, k: nat, hi: nat)
    requires forall y :: i <= y < j ==> Sliced(a, chunks, metas, i, j, start, end, m, lo, y)
    requires i <= x < j <= |chunks| && k == lo + (x - i) && hi == lo + (j - i) && q == chunks[x].qStart
    ensures RecordsMeet(a, start, end, q, m, metas, k, hi)
    decreases j - x
  {
    if x + 1 == j {
      LastIntervals(a, chunks, metas, i, j, start, end, m, lo, x, q, k, hi);
    } else {
      var cut := chunks[x + 1].qStart;
      SlicesMeet(a, chunks, metas, i, j, start, end, m, lo, x + 1, cut, k + 1, hi);
      NextIntervals(a, chunks, metas, i, j, start, end, m, lo, x, q, cut, k, hi);
    }
  }

  lemma {:induction false} RunIntervals(a: Attention, chunks: seq<Chunk>, metas: seq<Metadata>, from: seq<nat>,
                                        i: nat, j: nat, start: nat, end: nat, m: nat, lo: nat, hi: nat)
    requires Fitting(a, chunks) && Built(a, chunks, metas, from, |chunks|)
    requires Consecutive(chunks, i, j, start, end, m) && RunAt(from, lo, i, j) && hi == lo + (j - i)
    ensures RecordsMeet(a, start, end, 0, m, metas, lo, hi)
  {
    forall x | i <= x < j ensures Sliced(a, chunks, metas, i, j, start, end, m, lo, x) {
      SliceAt(a, chunks, metas, from, i, j, start, end, m, lo, x);
    }
    SlicesMeet(a, chunks, metas, i, j, start, end, m, lo, i, 0, lo, hi);
  }

  /** Records lo to hi follow one another in the batch, from one place to another. */
  ghost predicate InSuccession(metas: seq<Metadata>, lo: nat, hi: nat, start: int, stop: int) {
    && lo < hi <= |metas| && metas[lo].tokenStart == start && metas[hi - 1].tokenStop == stop
    && forall l :: lo < l < hi ==> metas[l].tokenStart == metas[l - 1].tokenStop
  }

  /** Only the first of them gathers keys. */
  ghost predicate GathersOnce(metas: seq<Metadata>, lo: nat, hi: nat) {
    hi <= |metas| && forall l :: lo <= l < hi ==> (metas[l].skipGather <==> l > lo)
  }

  lemma {:induction false} RunHeader(starts: seq<nat>, chunks: seq<Chunk>, metas: seq<Metadata>, from: seq<nat>,
                                     i: nat, j: nat, start: nat, end: nat, m: nat, lo: nat, hi: nat, l: nat, x: nat)
    requires Filed(starts, chunks, metas, from) && Consecutive(chunks, i, j, start, end, m)
    requires RunAt(from, lo, i, j) && hi == lo + (j - i) && lo <= l < hi && x == i + (l - lo)
    ensures l < |metas| && x < |chunks| && start < |starts|
    ensures metas[l].tokenStart == starts[start] + chunks[x].qStart && metas[l].tokenStop == starts[start] + chunks[x].qStop
    ensures metas[l].skipGather <==> x > i
  {
    assert from[l] == x;
  }

  lemma {:induction false} HeadersMeet(starts: seq<nat>, chunks: seq<Chunk>, metas: seq<Metadata>, from: seq<nat>,
                                       i: nat, j: nat, start: nat, end: nat, m: nat, lo: nat, hi: nat, l: nat, x: nat)
    requires Filed(starts, chunks, metas, from) && Consecutive(chunks, i, j, start, end, m)
    requires RunAt(from, lo, i, j) && hi == lo + (j - i) && lo < l < hi && x == i + (l - lo)
    ensures l < |metas| && metas[l].tokenStart == metas[l - 1].tokenStop
  {
    RunHeader(starts, chunks, metas, from, i, j, start, end, m, lo, hi, l, x);
    RunHeader(starts, chunks, metas, from, i, j, start, end, m, lo, hi, l - 1, x - 1);
  }

  lemma {:induction false} RunSucceeds(starts: seq<nat>, chunks: seq<Chunk>, metas: seq<Metadata>, from: seq<nat>,
                                       i: nat, j: nat, start: nat, end: nat, m: nat, lo: nat, hi: nat)
    requires Filed(starts, chunks, metas, from) && Consecutive(chunks, i, j, start, end, m)
    requires RunAt(from, lo, i, j) && hi == lo + (j - i)
    ensures start < |starts| && InSuccession(metas, lo, hi, starts[start], starts[start] + m)
  {
    RunHeader(starts, chunks, metas, from, i, j, start, end, m, lo, hi, lo, i);
    RunHeader(starts, chunks, metas, from, i, j, start, end, m, lo, hi, hi - 1, j - 1);
    forall l | lo < l < hi ensures metas[l].tokenStart == metas[l - 1].tokenStop {
      HeadersMeet(starts, chunks, metas, from, i, j, start, end, m, lo, hi, l, i + (l - lo));
    }
  }

  lemma {:induction false} RunGathersOnce(starts: seq<nat>, chunks: seq<Chunk>, metas: seq<Metadata>, from: seq<nat>,
                                          i: nat, j: nat, start: nat, end: nat, m: nat, lo: nat, hi: nat)
    requires Filed(starts, chunks, metas, from) && Consecutive(chunks, i, j, start, end, m)
    requires RunAt(from, lo, i, j) && hi == lo + (j - i)
    ensures GathersOnce(metas, lo, hi)
  {
    forall l | lo <= l < hi ensures metas[l].skipGather <==> l > lo {
      RunHeader(starts, chunks, metas, from, i, j, start, end, m, lo, hi, l, i + (l - lo));
    }
  }

  /** Any two of them mean the same gathered keys. */
  ghost predicate SharedKeys(metas: seq<Metadata>, lo: nat, hi: nat) {
    hi <= |metas| && forall l :: lo <= l < hi ==> metas[l].cu == metas[lo].cu && metas[l].tokenToSeq == metas[lo].tokenToSeq
  }

  lemma {:induction false} RunShares(a: Attention, chunks: seq<Chunk>, metas: seq<Metadata>, from: seq<nat>,
                                     i: nat, j: nat, start: nat, end: nat, m: nat, lo: nat, hi: nat)
    requires Fitting(a, chunks) && Built(a, chunks, metas, from, |chunks|)
    requires Consecutive(chunks, i, j, start, end, m) && RunAt(from, lo, i, j) && hi == lo + (j - i)
    ensures SharedKeys(metas, lo, hi)
  {
    forall l | lo <= l < hi ensures metas[l].cu == metas[lo].cu && metas[l].tokenToSeq == metas[lo].tokenToSeq {
      RecordAt(a, chunks, metas, from, l);
      RecordAt(a, chunks, metas, from, lo);
      SameGather(a, chunks[from[lo]], chunks[from[l]], metas[lo], metas[l]);
    }
  }

  /**
   Records lo to hi are the whole group of requests start to end: the intervals
   of the uncut group, in succession from its first to its last query, with one
   gather that serves all.
   */
  ghost predicate WholeGroup(a: Attention, start: nat, end: nat, metas: seq<Metadata>, lo: nat, hi: nat) {
    && start <= end < |a.starts| && a.starts[start] <= a.starts[end] && lo < hi <= |metas|
    && RestIntervals(a, start, end, 0, a.starts[end] - a.starts[start], KeyStarts(metas, lo, hi), KeyStops(metas, lo, hi))
    && InSuccession(metas, lo, hi, a.starts[start], a.starts[end])
    && GathersOnce(metas, lo, hi) && SharedKeys(metas, lo, hi)
  }

  lemma {:induction false} RunIsPlaced(a: Attention, chunks: seq<Chunk>, metas: seq<Metadata>, from: seq<nat>,
                                       i: nat, j: nat, start: nat, end: nat, m: nat, lo: nat, hi: nat)
    requires Fitting(a, chunks) && Built(a, chunks, metas, from, |chunks|)
    requires Consecutive(chunks, i, j, start, end, m) && RunAt(from, lo, i, j) && hi == lo + (j - i)
    ensures start < |a.starts| && InSuccession(metas, lo, hi, a.starts[start], a.starts[start] + m)
    ensures GathersOnce(metas, lo, hi)
  {
    BuiltIsFiled(a, chunks, metas, from);
    RunSucceeds(a.starts, chunks, metas, from, i, j, start, end, m, lo, hi);
    RunGathersOnce(a.starts, chunks, metas, from, i, j, start, end, m, lo, hi);
  }

  lemma {:induction false} PartsMakeWhole(a: Attention, start: nat, end: nat, m: nat, metas: seq<Metadata>, lo: nat, hi: nat)
    requires start < end < |a.starts| && a.starts[end] == a.starts[start] + m && lo < hi <= |metas|
    requires RecordsMeet(a, start, end, 0, m, metas, lo, hi)
    requires InSuccession(metas, lo, hi, a.starts[start], a.starts[start] + m)
    requires GathersOnce(metas, lo, hi) && SharedKeys(metas, lo, hi)
    ensures WholeGroup(a, start, end, metas, lo, hi)
  {
  }

  lemma {:induction false} RunIsWhole(a: Attention, chunks: seq<Chunk>, metas: seq<Metadata>, from: seq<nat>,
                                      i: nat, j: nat, start: nat, end: nat, m: nat, lo: nat, hi: nat)
    requires Fitting(a, chunks) && Built(a, chunks, metas, from, |chunks|)
    requires Consecutive(chunks, i, j, start, end, m) && RunAt(from, lo, i, j) && hi == lo + (j - i)
    requires start < end < |a.starts| && a.starts[end] == a.starts[start] + m
    ensures WholeGroup(a, start, end, metas, lo, hi)
  {
    RunIntervals(a, chunks, metas, from, i, j, start, end, m, lo, hi);
    RunIsPlaced(a, chunks, metas, from, i, j, start, end, m, lo, hi);
    RunShares(a, chunks, metas, from, i, j, start, end, m, lo, hi);
    PartsMakeWhole(a, start, end, m, metas, lo, hi);
  }

  /** The chunks i to j and the records from lo on that belong to the group of record k. */
  lemma {:induction false} BuiltGroup(a: Attention, decodes: nat, b: Batch, chunks: seq<Chunk>, metas: seq<Metadata>, from: seq<nat>, k: nat)
    returns (i: nat, j: nat, m: nat, lo: nat, hi: nat)
    requires Fitting(a, chunks) && Built(a, chunks, metas, from, |chunks|) && k < |metas|
    requires BatchOk(b) && ChunksFrom(b, 0, decodes) == Ok(chunks)
    ensures QueriesOf(b, decodes, metas[k].reqStart, metas[k].reqStop, m)
    ensures Consecutive(chunks, i, j, metas[k].reqStart, metas[k].reqStop, m)
    ensures RunAt(from, lo, i, j) && hi == lo + (j - i) && lo <= k < hi <= |metas|
    ensures AllOfRequest(metas, lo, hi, metas[k].reqStart)
  {
    var stride;
    BuiltIsFiled(a, chunks, metas, from);
    i, j, m, stride, lo := RecordGroup(a.starts, decodes, b, chunks, metas, from, k);
    hi := lo + (j - i);
    GroupIsConsecutive(chunks, i, j, metas[k].reqStart, metas[k].reqStop, m, stride);
  }

  lemma {:induction false} QueriesInBatch(a: Attention, decodes: nat, workspace: nat, logitsBytes: nat, start: nat, end: nat, m: nat)
    requires AttentionOk(a) && decodes <= |a.lens|
    requires QueriesOf(PrefillBatch(a, decodes, workspace, logitsBytes), decodes, start, end, m)
    ensures start < end < |a.starts| && a.starts[end] == a.starts[start] + m
  {
    QuerySums(a, decodes, start - decodes, end - decodes);
  }

  /**
   However the split cut it, the records of a group follow one another, are all
   the records of its requests, and together are the whole group.
   */
  lemma {:induction false} GroupConcatenates(a: Attention, decodes: nat, workspace: nat, logitsBytes: nat,
                                             chunks: seq<Chunk>, metas: seq<Metadata>, from: seq<nat>, k: nat)
    returns (lo: nat, hi: nat)
    requires AttentionOk(a) && decodes <= |a.lens|
    requires ChunksFrom(PrefillBatch(a, decodes, workspace, logitsBytes), 0, decodes) == Ok(chunks)
    requires Fitting(a, chunks) && Built(a, chunks, metas, from, |chunks|) && k < |metas|
    ensures lo <= k < hi <= |metas|
    ensures AllOfRequest(metas, lo, hi, metas[k].reqStart)
    ensures WholeGroup(a, metas[k].reqStart, metas[k].reqStop, metas, lo, hi)
  {
    var i, j, m;
    i, j, m, lo, hi := BuiltGroup(a, decodes, PrefillBatch(a, decodes, workspace, logitsBytes), chunks, metas, from, k);
    QueriesInBatch(a, decodes, workspace, logitsBytes, metas[k].reqStart, metas[k].reqStop, m);
    RunIsWhole(a, chunks, metas, from, i, j, metas[k].reqStart, metas[k].reqStop, m, lo, hi);
  }
}

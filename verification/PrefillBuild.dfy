/**
 The prefill part of build in results/tonyd2wild-indexer-audit/image-indexer.py:
 splitting, then one metadata record per chunk, leaving out chunks without
 compressed keys; and what the two steps cover together.
 */
module PrefillBuild {
  import opened Common
  import opened PrefillSplit
  import opened PrefillMetadata

  /** The prefill requests follow the decodes: their compressed lengths and query lengths. */
  function QueryLengths(a: Attention, decodes: nat): (s: seq<nat>)
    requires AttentionOk(a) && decodes <= |a.lens|
    ensures |s| == |a.lens| - decodes
    ensures forall i :: 0 <= i < |s| ==> s[i] == a.starts[decodes + i + 1] - a.starts[decodes + i]
  {
    seq(|a.lens| - decodes, i requires 0 <= i < |a.lens| - decodes => a.starts[decodes + i + 1] - a.starts[decodes + i])
  }

  function PrefillBatch(a: Attention, decodes: nat, workspace: nat, logitsBytes: nat): (b: Batch)
    requires AttentionOk(a) && decodes <= |a.lens|
    ensures BatchOk(b) && |b.keys| == |a.lens| - decodes
  {
    Batch(Compressed(a)[decodes..], QueryLengths(a, decodes), workspace, logitsBytes / 4)
  }

  lemma {:induction false} QuerySums(a: Attention, decodes: nat, lo: nat, hi: nat)
    requires AttentionOk(a) && decodes <= |a.lens| && lo <= hi <= |a.lens| - decodes
    ensures Sum(QueryLengths(a, decodes), lo, hi) == a.starts[decodes + hi] - a.starts[decodes + lo]
    decreases hi
  {
    if lo < hi { QuerySums(a, decodes, lo, hi - 1); }
  }

  /** Compressed keys gathered for a chunk. */
  function KeysOf(a: Attention, c: Chunk): nat
    requires ChunkFits(a, c)
  {
    Sum(Compressed(a), c.reqStart, c.reqStop)
  }

  ghost predicate Fitting(a: Attention, chunks: seq<Chunk>) {
    forall i :: 0 <= i < |chunks| ==> ChunkFits(a, chunks[i])
  }

  ghost predicate DescribesChunk(m: Metadata, a: Attention, c: Chunk)
    requires ChunkFits(a, c)
  {
    Describes(m, InputOf(a, c), a.starts[c.reqStart]) && m.reqStart == c.reqStart && m.reqStop == c.reqStop
  }

  /** The records are those of the chunks numbered in from, which are the ones with keys among the first count. */
  ghost predicate Built(a: Attention, chunks: seq<Chunk>, metas: seq<Metadata>, from: seq<nat>, count: nat)
    requires Fitting(a, chunks) && count <= |chunks|
  {
    && |from| == |metas|
    && (forall k :: 0 <= k < |from| ==> from[k] < count && DescribesChunk(metas[k], a, chunks[from[k]]))
    && (forall k, l :: 0 <= k < l < |from| ==> from[k] < from[l])
    && (forall i :: 0 <= i < count ==> (i in from <==> KeysOf(a, chunks[i]) > 0))
  }

  /** One program per request of the group. */
  function Programs(n: nat): (order: seq<nat>)
    ensures forall k :: k in order <==> 0 <= k < n
  {
    if n == 0 then [] else Programs(n - 1) + [n - 1]
  }

  /** A chunk without keys has no record. */
  lemma {:induction false} BuiltSkips(a: Attention, chunks: seq<Chunk>, metas: seq<Metadata>, from: seq<nat>, i: nat)
    requires Fitting(a, chunks) && i < |chunks| && Built(a, chunks, metas, from, i) && KeysOf(a, chunks[i]) == 0
    ensures Built(a, chunks, metas, from, i + 1)
  {
    forall j | 0 <= j < i + 1 ensures j in from <==> KeysOf(a, chunks[j]) > 0 { }
  }

  lemma {:induction false} InAppended(from: seq<nat>, i: nat, j: nat)
    ensures j in from + [i] <==> j in from || j == i
  {
  }

  lemma {:induction false} BuiltAdds(a: Attention, chunks: seq<Chunk>, metas: seq<Metadata>, from: seq<nat>, i: nat, m: Metadata)
    requires Fitting(a, chunks) && i < |chunks| && Built(a, chunks, metas, from, i) && KeysOf(a, chunks[i]) > 0
    requires DescribesChunk(m, a, chunks[i])
    ensures Built(a, chunks, metas + [m], from + [i], i + 1)
  {
    var records, numbers := metas + [m], from + [i];
    forall j | 0 <= j < i + 1 ensures j in numbers <==> KeysOf(a, chunks[j]) > 0 {
      InAppended(from, i, j);
    }
    forall k | 0 <= k < |numbers| ensures numbers[k] < i + 1 && DescribesChunk(records[k], a, chunks[numbers[k]]) {
      assert k < |from| ==> records[k] == metas[k] && numbers[k] == from[k];
    }
  }

  method BuildChunks(a: Attention, chunks: seq<Chunk>, block: nat) returns (metas: seq<Metadata>, ghost from: seq<nat>)
    requires Fitting(a, chunks) && block >= 1
    ensures Built(a, chunks, metas, from, |chunks|)
  {
    metas, from := [], [];
    for i := 0 to |chunks|
      invariant Built(a, chunks, metas, from, i)
    {
      var c := chunks[i];
      var m := BuildChunk(a, c, Programs(c.reqStop - c.reqStart), block);
      if m.Some? {
        BuiltAdds(a, chunks, metas, from, i, m.value);
        metas, from := metas + [m.value], from + [i];
      } else {
        BuiltSkips(a, chunks, metas, from, i);
      }
    }
  }

  lemma {:induction false} ChunkOkFits(a: Attention, decodes: nat, workspace: nat, logitsBytes: nat, c: Chunk)
    requires AttentionOk(a) && decodes <= |a.lens|
    requires ChunkOk(PrefillBatch(a, decodes, workspace, logitsBytes), decodes, c)
    ensures ChunkFits(a, c)
  {
    QuerySums(a, decodes, c.reqStart - decodes, c.reqStop - decodes);
  }

  /** What build does for the prefill requests. */
  method BuildPrefill(a: Attention, decodes: nat, workspace: nat, logitsBytes: nat, block: nat)
    returns (r: Result<seq<Metadata>, Error>, ghost chunks: seq<Chunk>, ghost from: seq<nat>)
    requires AttentionOk(a) && decodes <= |a.lens| && block >= 1
    ensures r.Err? <==> exists lo, hi :: VacantRun(PrefillBatch(a, decodes, workspace, logitsBytes), 0, lo, hi)
    ensures r.Ok? ==> ChunksFrom(PrefillBatch(a, decodes, workspace, logitsBytes), 0, decodes) == Ok(chunks)
    ensures r.Ok? ==> Fitting(a, chunks) && Built(a, chunks, r.value, from, |chunks|)
  {
    ghost var b := PrefillBatch(a, decodes, workspace, logitsBytes);
    chunks, from := [], [];
    RaisesIff(b, 0, decodes);
    var specs := Split(Compressed(a)[decodes..], QueryLengths(a, decodes), workspace, logitsBytes, decodes);
    if specs.Err? { return Err(specs.error), chunks, from; }
    chunks := specs.value;
    EveryChunkOk(b, 0, decodes);
    forall i | 0 <= i < |chunks| ensures ChunkFits(a, chunks[i]) {
      assert chunks[i] in chunks;
      ChunkOkFits(a, decodes, workspace, logitsBytes, chunks[i]);
    }
    var metas;
    metas, from := BuildChunks(a, specs.value, block);
    r := Ok(metas);
  }

  // ---------- What the records cover ----------

  function TokenStart(b: Batch, offset: nat, c: Chunk): int
    requires offset <= c.reqStart && c.reqStart - offset <= |b.queries|
  {
    QueryBase(b, c.reqStart - offset) + c.qStart
  }

  function TokenStop(b: Batch, offset: nat, c: Chunk): int
    requires offset <= c.reqStart && c.reqStart - offset <= |b.queries|
  {
    QueryBase(b, c.reqStart - offset) + c.qStop
  }

  /** The chunks are non-empty, follow each other without gap or overlap, and fill lo to hi. */
  ghost predicate Chained(b: Batch, offset: nat, chunks: seq<Chunk>, lo: int, hi: int)
    requires Placed(b, offset, chunks)
  {
    if chunks == [] then lo >= hi
    else
      assert chunks[0] in chunks && forall c :: c in chunks[1..] ==> c in chunks;
      TokenStart(b, offset, chunks[0]) == lo && Chained(b, offset, chunks[1..], TokenStop(b, offset, chunks[0]), hi)
  }

  lemma {:induction false} RangeTail(lo: int, mid: int, stop: int, hi: int, rest: seq<int>)
    requires mid < stop && Range(mid, stop) + rest == Range(lo, hi)
    ensures mid == lo && stop <= hi && rest == Range(stop, hi)
  {
    assert (Range(mid, stop) + rest)[0] == mid;
    forall i | 0 <= i < |rest| ensures rest[i] == stop + i {
      assert rest[i] == (Range(mid, stop) + rest)[i + (stop - mid)];
    }
  }

  lemma {:induction false} TileIsChained(b: Batch, offset: nat, chunks: seq<Chunk>, lo: int, hi: int)
    requires Tile(b, offset, chunks, lo, hi) && forall c :: c in chunks ==> c.qStart < c.qStop
    ensures Chained(b, offset, chunks, lo, hi)
  {
    if chunks != [] {
      var c := chunks[0];
      assert c in chunks && forall d :: d in chunks[1..] ==> d in chunks;
      RangeTail(lo, TokenStart(b, offset, c), TokenStop(b, offset, c), hi, AllTokens(b, offset, chunks[1..]));
      TileIsChained(b, offset, chunks[1..], TokenStop(b, offset, c), hi);
    }
  }

  /** Earlier chunks end before later ones begin. */
  lemma {:induction false} ChainOrder(b: Batch, offset: nat, chunks: seq<Chunk>, lo: int, hi: int, i: nat, j: nat)
    requires Placed(b, offset, chunks) && Chained(b, offset, chunks, lo, hi) && i <= j < |chunks|
    requires forall c :: c in chunks ==> c.qStart < c.qStop
    ensures chunks[i] in chunks && chunks[j] in chunks
    ensures lo <= TokenStart(b, offset, chunks[j])
    ensures i < j ==> TokenStop(b, offset, chunks[i]) <= TokenStart(b, offset, chunks[j])
  {
    assert chunks[0] in chunks && forall d :: d in chunks[1..] ==> d in chunks;
    if j > 0 {
      ChainOrder(b, offset, chunks[1..], TokenStop(b, offset, chunks[0]), hi, if i > 0 then i - 1 else 0, j - 1);
    }
  }

  /** Every position is in some chunk. */
  lemma {:induction false} ChainHas(b: Batch, offset: nat, chunks: seq<Chunk>, lo: int, hi: int, p: int) returns (i: nat)
    requires Placed(b, offset, chunks) && Chained(b, offset, chunks, lo, hi) && lo <= p < hi
    ensures i < |chunks| && chunks[i] in chunks
    ensures TokenStart(b, offset, chunks[i]) <= p < TokenStop(b, offset, chunks[i])
  {
    assert chunks[0] in chunks && forall d :: d in chunks[1..] ==> d in chunks;
    if p < TokenStop(b, offset, chunks[0]) {
      i := 0;
    } else {
      var k := ChainHas(b, offset, chunks[1..], TokenStop(b, offset, chunks[0]), hi, p);
      i := k + 1;
    }
  }

  lemma {:induction false} SplitIsChained(b: Batch, offset: nat, chunks: seq<Chunk>)
    requires BatchOk(b) && ChunksFrom(b, 0, offset) == Ok(chunks)
    ensures Placed(b, offset, chunks) && Chained(b, offset, chunks, 0, QueryBase(b, |b.keys|))
    ensures forall c :: c in chunks ==> ChunkOk(b, offset, c)
  {
    ChunksTile(b, 0, offset);
    EveryChunkOk(b, 0, offset);
    TileIsChained(b, offset, chunks, 0, QueryBase(b, |b.keys|));
  }

  /** Positions among the prefill queries are batch positions less the decode tokens. */
  lemma {:induction false} TokensInBatch(a: Attention, decodes: nat, workspace: nat, logitsBytes: nat, c: Chunk)
    requires AttentionOk(a) && decodes <= c.reqStart <= |a.lens|
    ensures var b := PrefillBatch(a, decodes, workspace, logitsBytes);
      && TokenStart(b, decodes, c) == a.starts[c.reqStart] + c.qStart - a.starts[decodes]
      && TokenStop(b, decodes, c) == a.starts[c.reqStart] + c.qStop - a.starts[decodes]
  {
    QuerySums(a, decodes, 0, c.reqStart - decodes);
  }

  lemma {:induction false} ChunksInOrder(a: Attention, decodes: nat, workspace: nat, logitsBytes: nat, chunks: seq<Chunk>, i: nat, j: nat)
    requires AttentionOk(a) && decodes <= |a.lens| && i <= j < |chunks| && Fitting(a, chunks)
    requires ChunksFrom(PrefillBatch(a, decodes, workspace, logitsBytes), 0, decodes) == Ok(chunks)
    ensures chunks[j].qStart < chunks[j].qStop
    ensures i < j ==> a.starts[chunks[i].reqStart] + chunks[i].qStop <= a.starts[chunks[j].reqStart] + chunks[j].qStart
  {
    var b := PrefillBatch(a, decodes, workspace, logitsBytes);
    SplitIsChained(b, decodes, chunks);
    ChainOrder(b, decodes, chunks, 0, QueryBase(b, |b.keys|), i, j);
    TokensInBatch(a, decodes, workspace, logitsBytes, chunks[i]);
    TokensInBatch(a, decodes, workspace, logitsBytes, chunks[j]);
  }

  lemma {:induction false} RecordTokens(a: Attention, chunks: seq<Chunk>, metas: seq<Metadata>, from: seq<nat>, k: nat)
    requires Fitting(a, chunks) && Built(a, chunks, metas, from, |chunks|) && k < |metas|
    ensures from[k] < |chunks| && metas[k].tokenStart == a.starts[chunks[from[k]].reqStart] + chunks[from[k]].qStart
    ensures metas[k].tokenStop == a.starts[chunks[from[k]].reqStart] + chunks[from[k]].qStop
  {
    assert DescribesChunk(metas[k], a, chunks[from[k]]);
  }

  /** Chunks are non-empty, and earlier ones end before later ones begin. */
  ghost predicate InOrder(a: Attention, chunks: seq<Chunk>)
    requires Fitting(a, chunks)
  {
    forall i, j :: 0 <= i <= j < |chunks| ==>
      chunks[j].qStart < chunks[j].qStop &&
      (i < j ==> a.starts[chunks[i].reqStart] + chunks[i].qStop <= a.starts[chunks[j].reqStart] + chunks[j].qStart)
  }

  lemma {:induction false} SplitIsInOrder(a: Attention, decodes: nat, workspace: nat, logitsBytes: nat, chunks: seq<Chunk>)
    requires AttentionOk(a) && decodes <= |a.lens| && Fitting(a, chunks)
    requires ChunksFrom(PrefillBatch(a, decodes, workspace, logitsBytes), 0, decodes) == Ok(chunks)
    ensures InOrder(a, chunks)
  {
    forall i, j | 0 <= i <= j < |chunks|
      ensures chunks[j].qStart < chunks[j].qStop
      ensures i < j ==> a.starts[chunks[i].reqStart] + chunks[i].qStop <= a.starts[chunks[j].reqStart] + chunks[j].qStart
    {
      ChunksInOrder(a, decodes, workspace, logitsBytes, chunks, i, j);
    }
  }

  /** The records are in token order and share no token. */
  lemma {:induction false} RecordsInOrder(a: Attention, chunks: seq<Chunk>, metas: seq<Metadata>, from: seq<nat>, k: nat, l: nat)
    requires Fitting(a, chunks) && InOrder(a, chunks) && Built(a, chunks, metas, from, |chunks|) && k <= l < |metas|
    ensures metas[l].tokenStart < metas[l].tokenStop
    ensures k < l ==> metas[k].tokenStop <= metas[l].tokenStart
  {
    RecordTokens(a, chunks, metas, from, k);
    RecordTokens(a, chunks, metas, from, l);
  }

  /** Token t of request r is in chunk i. */
  ghost predicate InChunk(a: Attention, c: Chunk, r: nat, t: nat)
    requires ChunkFits(a, c)
  {
    c.reqStart <= r < c.reqStop && a.starts[c.reqStart] + c.qStart <= t < a.starts[c.reqStart] + c.qStop
  }

  lemma {:induction false} SomeChunk(a: Attention, decodes: nat, workspace: nat, logitsBytes: nat, chunks: seq<Chunk>, r: nat, t: nat)
    returns (i: nat)
    requires AttentionOk(a) && decodes <= r < |a.lens| && a.starts[r] <= t < a.starts[r + 1]
    requires ChunksFrom(PrefillBatch(a, decodes, workspace, logitsBytes), 0, decodes) == Ok(chunks) && Fitting(a, chunks)
    ensures i < |chunks| && InChunk(a, chunks[i], r, t)
  {
    var b := PrefillBatch(a, decodes, workspace, logitsBytes);
    SplitIsChained(b, decodes, chunks);
    QuerySums(a, decodes, 0, |b.keys|);
    assert a.starts[decodes] <= a.starts[r] && a.starts[r + 1] <= a.starts[|a.lens|];
    i := ChainHas(b, decodes, chunks, 0, QueryBase(b, |b.keys|), t - a.starts[decodes]);
    TokensInBatch(a, decodes, workspace, logitsBytes, chunks[i]);
    OwnerBetween(a, chunks[i], r, t);
  }

  lemma {:induction false} OwnerBetween(a: Attention, c: Chunk, r: nat, t: nat)
    requires ChunkFits(a, c) && r < |a.lens| && a.starts[r] <= t < a.starts[r + 1]
    requires a.starts[c.reqStart] <= t < a.starts[c.reqStop]
    ensures c.reqStart <= r < c.reqStop
  {
    assert a.starts[Min(r + 1, c.reqStart)] <= a.starts[c.reqStart];
    assert a.starts[Min(c.reqStop, r)] <= a.starts[r];
  }

  /** At token t the record holds the keys of t's own request, up to t's position. */
  ghost predicate Covers(a: Attention, m: Metadata, r: nat, t: nat)
    requires AttentionOk(a) && r < |a.lens| && a.starts[r] <= t
  {
    && m.reqStart <= r < m.reqStop && m.tokenStart <= t < m.tokenStop
    && var p := t - m.tokenStart;
       && p < |m.ks| == |m.ke|
       && m.ks[p] == Sum(Compressed(a), m.reqStart, r)
       && m.ke[p] == m.ks[p] + PositionsUpTo(a, r, t) / a.ratio
       && m.ke[p] <= Sum(Compressed(a), m.reqStart, r + 1)
  }

  lemma {:induction false} RecordCovers(a: Attention, c: Chunk, m: Metadata, r: nat, t: nat)
    requires ChunkFits(a, c) && DescribesChunk(m, a, c) && InChunk(a, c, r, t)
    requires a.starts[r] <= t < a.starts[r + 1]
    ensures Covers(a, m, r, t)
  {
    InputParts(a, c, r);
    IntervalIsOwnHistory(m, InputOf(a, c), a.starts[c.reqStart], r - c.reqStart, a, r, t);
    StaysInSegment(a, c.reqStart, r, PositionsUpTo(a, r, t));
  }

  lemma {:induction false} RecordOf(a: Attention, chunks: seq<Chunk>, metas: seq<Metadata>, from: seq<nat>, i: nat) returns (k: nat)
    requires Fitting(a, chunks) && Built(a, chunks, metas, from, |chunks|) && i < |chunks| && KeysOf(a, chunks[i]) > 0
    ensures k < |metas| && DescribesChunk(metas[k], a, chunks[i])
  {
    assert i in from;
    k :| 0 <= k < |from| && from[k] == i;
  }

  predicate InRecord(m: Metadata, t: nat) { m.tokenStart <= t < m.tokenStop }

  /** Only one chunk has the token. */
  lemma {:induction false} ChunkIsUnique(a: Attention, chunks: seq<Chunk>, i: nat, j: nat, t: nat)
    requires Fitting(a, chunks) && InOrder(a, chunks) && i < |chunks| && j < |chunks|
    requires a.starts[chunks[i].reqStart] + chunks[i].qStart <= t < a.starts[chunks[i].reqStart] + chunks[i].qStop
    requires a.starts[chunks[j].reqStart] + chunks[j].qStart <= t < a.starts[chunks[j].reqStart] + chunks[j].qStop
    ensures i == j
  {
  }

  /** A record that has the token is the record of the token's chunk. */
  lemma {:induction false} RecordIsOfChunk(a: Attention, chunks: seq<Chunk>, metas: seq<Metadata>, from: seq<nat>, i: nat, k: nat, r: nat, t: nat)
    requires Fitting(a, chunks) && InOrder(a, chunks) && Built(a, chunks, metas, from, |chunks|)
    requires i < |chunks| && InChunk(a, chunks[i], r, t) && k < |metas| && InRecord(metas[k], t)
    ensures from[k] == i && DescribesChunk(metas[k], a, chunks[i]) && KeysOf(a, chunks[i]) > 0
  {
    RecordTokens(a, chunks, metas, from, k);
    ChunkIsUnique(a, chunks, i, from[k], t);
    assert from[k] in from;
  }

  /**
   The token is in chunk i; it is in a record exactly when the chunk's requests
   have compressed keys together, then in one record only, and there its
   interval is its own history.
   */
  ghost predicate CoveredOnce(a: Attention, chunks: seq<Chunk>, metas: seq<Metadata>, i: nat, r: nat, t: nat)
    requires AttentionOk(a) && Fitting(a, chunks) && i < |chunks| && r < |a.lens| && a.starts[r] <= t
  {
    && InChunk(a, chunks[i], r, t)
    && ((exists k :: 0 <= k < |metas| && InRecord(metas[k], t)) <==> KeysOf(a, chunks[i]) > 0)
    && (forall k, l :: 0 <= k < |metas| && 0 <= l < |metas| && InRecord(metas[k], t) && InRecord(metas[l], t) ==> k == l)
    && (forall k :: 0 <= k < |metas| && InRecord(metas[k], t) ==> Covers(a, metas[k], r, t))
  }

  lemma {:induction false} OnlyRecord(a: Attention, chunks: seq<Chunk>, metas: seq<Metadata>, from: seq<nat>, i: nat, k: nat, l: nat, r: nat, t: nat)
    requires Fitting(a, chunks) && InOrder(a, chunks) && Built(a, chunks, metas, from, |chunks|)
    requires i < |chunks| && InChunk(a, chunks[i], r, t)
    requires k < |metas| && InRecord(metas[k], t) && l < |metas| && InRecord(metas[l], t)
    ensures k == l
  {
    RecordIsOfChunk(a, chunks, metas, from, i, k, r, t);
    RecordIsOfChunk(a, chunks, metas, from, i, l, r, t);
  }

  lemma {:induction false} RecordExists(a: Attention, chunks: seq<Chunk>, metas: seq<Metadata>, from: seq<nat>, i: nat, r: nat, t: nat)
    requires Fitting(a, chunks) && InOrder(a, chunks) && Built(a, chunks, metas, from, |chunks|)
    requires i < |chunks| && InChunk(a, chunks[i], r, t)
    ensures (exists k :: 0 <= k < |metas| && InRecord(metas[k], t)) <==> KeysOf(a, chunks[i]) > 0
  {
    if KeysOf(a, chunks[i]) > 0 {
      var k := RecordOf(a, chunks, metas, from, i);
      assert InRecord(metas[k], t);
    }
    if k :| 0 <= k < |metas| && InRecord(metas[k], t) { RecordIsOfChunk(a, chunks, metas, from, i, k, r, t); }
  }

  /** Every prefill token is in a record exactly when its group has compressed keys, once, with its own history. */
  lemma {:induction false} TokenIsCovered(a: Attention, decodes: nat, workspace: nat, logitsBytes: nat,
                                          chunks: seq<Chunk>, metas: seq<Metadata>, from: seq<nat>, r: nat, t: nat)
    returns (i: nat)
    requires AttentionOk(a) && decodes <= r < |a.lens| && a.starts[r] <= t < a.starts[r + 1]
    requires ChunksFrom(PrefillBatch(a, decodes, workspace, logitsBytes), 0, decodes) == Ok(chunks)
    requires Fitting(a, chunks) && Built(a, chunks, metas, from, |chunks|)
    ensures i < |chunks| && CoveredOnce(a, chunks, metas, i, r, t)
  {
    i := SomeChunk(a, decodes, workspace, logitsBytes, chunks, r, t);
    SplitIsInOrder(a, decodes, workspace, logitsBytes, chunks);
    RecordExists(a, chunks, metas, from, i, r, t);
    forall k, l | 0 <= k < |metas| && 0 <= l < |metas| && InRecord(metas[k], t) && InRecord(metas[l], t) ensures k == l {
      OnlyRecord(a, chunks, metas, from, i, k, l, r, t);
    }
    forall k | 0 <= k < |metas| && InRecord(metas[k], t) ensures Covers(a, metas[k], r, t) {
      RecordIsOfChunk(a, chunks, metas, from, i, k, r, t);
      RecordCovers(a, chunks[i], metas[k], r, t);
    }
  }
}

/**
 split_indexer_prefill_chunks of
 results/tonyd2wild-indexer-audit/image-indexer.py: requests are grouped
 greedily under a workspace bound and a bound on queries times keys, and a
 request too large for the second is cut along its queries.
 */
module PrefillSplit {
  import opened Common

  /** Half-open slices of requests and of the group's queries. */
  datatype Chunk = Chunk(reqStart: nat, reqStop: nat, qStart: nat, qStop: nat)

  datatype Error = ZeroStep

  /** Key and query lengths per request, and the two limits. */
  datatype Batch = Batch(keys: seq<nat>, queries: seq<nat>, workspace: nat, logits: nat)

  predicate BatchOk(b: Batch) { |b.keys| == |b.queries| }

  function Sum(s: seq<nat>, lo: nat, hi: nat): nat
    requires lo <= hi <= |s|
    decreases hi
  {
    if lo == hi then 0 else Sum(s, lo, hi - 1) + s[hi - 1]
  }

  lemma {:induction false} SumSplits(s: seq<nat>, lo: nat, mid: nat, hi: nat)
    requires lo <= mid <= hi <= |s|
    ensures Sum(s, lo, hi) == Sum(s, lo, mid) + Sum(s, mid, hi)
    decreases hi
  {
    if mid < hi { SumSplits(s, lo, mid, hi - 1); }
  }

  predicate Allowed(b: Batch, m: nat, n: nat) { n <= b.workspace && m * n <= b.logits }

  /** Requests lo to hi respect both limits together. */
  predicate Fits(b: Batch, lo: nat, hi: nat)
    requires BatchOk(b) && lo <= hi <= |b.keys|
  {
    Allowed(b, Sum(b.queries, lo, hi), Sum(b.keys, lo, hi))
  }

  lemma {:induction false} AllowedShrinks(b: Batch, m: nat, n: nat, m': nat, n': nat)
    requires Allowed(b, m, n) && m' <= m && n' <= n
    ensures Allowed(b, m', n')
  {
    assert m' * n' <= m * n' <= m * n;
  }

  /** Fewer requests fit where more do. */
  lemma {:induction false} FitsShrinks(b: Batch, lo: nat, hi: nat, lo': nat, hi': nat)
    requires BatchOk(b) && lo <= lo' <= hi' <= hi <= |b.keys| && Fits(b, lo, hi)
    ensures Fits(b, lo', hi')
  {
    SumSplits(b.keys, lo, lo', hi);
    SumSplits(b.keys, lo', hi', hi);
    SumSplits(b.queries, lo, lo', hi);
    SumSplits(b.queries, lo', hi', hi);
    AllowedShrinks(b, Sum(b.queries, lo, hi), Sum(b.keys, lo, hi), Sum(b.queries, lo', hi'), Sum(b.keys, lo', hi'));
  }

  /** A request that breaks a limit on its own. */
  predicate Oversize(b: Batch, i: nat)
    requires BatchOk(b) && i < |b.keys|
  {
    !Fits(b, i, i + 1)
  }

  /** As many requests as fit, and no fewer than possible; or one that does not fit at all. */
  predicate IsGroup(b: Batch, start: nat, end: nat)
    requires BatchOk(b)
  {
    start < end <= |b.keys| &&
    if Oversize(b, start) then end == start + 1
    else Fits(b, start, end) && (end < |b.keys| ==> !Fits(b, start, end + 1))
  }

  lemma {:induction false} GroupIsUnique(b: Batch, start: nat, end: nat, end': nat)
    requires BatchOk(b) && IsGroup(b, start, end) && IsGroup(b, start, end')
    ensures end == end'
  {
    if end < end' { if !Oversize(b, start) { FitsShrinks(b, start, end', start, end + 1); } }
    if end' < end { if !Oversize(b, start) { FitsShrinks(b, start, end, start, end' + 1); } }
  }

  /** The end of the group that begins at start. */
  ghost function GroupEnd(b: Batch, start: nat): (end: nat)
    requires BatchOk(b) && start < |b.keys|
    ensures IsGroup(b, start, end)
  {
    if Oversize(b, start) then start + 1 else LastFitting(b, start, start + 1)
  }

  ghost function LastFitting(b: Batch, start: nat, end: nat): (last: nat)
    requires BatchOk(b) && start <= end <= |b.keys| && Fits(b, start, end)
    ensures end <= last <= |b.keys| && Fits(b, start, last)
    ensures last < |b.keys| ==> !Fits(b, start, last + 1)
    decreases |b.keys| - end
  {
    if end < |b.keys| && Fits(b, start, end + 1) then LastFitting(b, start, end + 1) else end
  }

  /** Queries per chunk of a group with m queries and n keys. */
  function Stride(b: Batch, m: nat, n: nat): nat {
    if n > 0 then Max(1, b.logits / n) else m
  }

  /** The group's queries from q on, in slices of stride. */
  function Slices(start: nat, end: nat, m: nat, stride: nat, q: nat): seq<Chunk>
    requires stride > 0
    decreases m - q
  {
    if q >= m then [] else [Chunk(start, end, q, q + Min(stride, m - q))] + Slices(start, end, m, stride, q + stride)
  }

  /** A group with neither queries nor keys: the slicing step would be zero. */
  predicate Vacant(b: Batch, start: nat, end: nat)
    requires BatchOk(b) && start <= end <= |b.keys|
  {
    Sum(b.queries, start, end) == 0 && Sum(b.keys, start, end) == 0
  }

  ghost function GroupChunks(b: Batch, start: nat, end: nat, offset: nat): seq<Chunk>
    requires BatchOk(b) && start <= end <= |b.keys| && !Vacant(b, start, end)
  {
    var m, n := Sum(b.queries, start, end), Sum(b.keys, start, end);
    Slices(start + offset, end + offset, m, Stride(b, m, n), 0)
  }

  function After(chunks: seq<Chunk>, rest: Result<seq<Chunk>, Error>): Result<seq<Chunk>, Error> {
    match rest
    case Err(e) => Err(e)
    case Ok(more) => Ok(chunks + more)
  }

  lemma {:induction false} AfterAfter(chunks: seq<Chunk>, more: seq<Chunk>, rest: Result<seq<Chunk>, Error>)
    ensures After([], rest) == rest
    ensures After(chunks, After(more, rest)) == After(chunks + more, rest)
  {
    if rest.Ok? {
      assert [] + rest.value == rest.value;
      assert chunks + (more + rest.value) == chunks + more + rest.value;
    }
  }

  /** The chunks of requests start.. on, group by group. */
  ghost function ChunksFrom(b: Batch, start: nat, offset: nat): Result<seq<Chunk>, Error>
    requires BatchOk(b) && start <= |b.keys|
    decreases |b.keys| - start
  {
    if start == |b.keys| then Ok([])
    else
      var end := GroupEnd(b, start);
      if Vacant(b, start, end) then Err(ZeroStep)
      else
        After(GroupChunks(b, start, end, offset), ChunksFrom(b, end, offset))
  }

  // ---------- The method ----------

  /** The inner while loop, and the single request taken when not even that fits. */
  method TakeGroup(b: Batch, start: nat) returns (end: nat, m: nat, n: nat)
    requires BatchOk(b) && start < |b.keys|
    ensures IsGroup(b, start, end)
    ensures m == Sum(b.queries, start, end) && n == Sum(b.keys, start, end)
  {
    end, m, n := start, 0, 0;
    var full := false;
    while end < |b.keys| && !full
      invariant start <= end <= |b.keys|
      invariant m == Sum(b.queries, start, end) && n == Sum(b.keys, start, end)
      invariant end > start ==> Fits(b, start, end)
      invariant full ==> end < |b.keys| && !Fits(b, start, end + 1)
      decreases |b.keys| - end, !full
    {
      var q, s := b.queries[end], b.keys[end];
      if Allowed(b, m + q, n + s) {
        m, n, end := m + q, n + s, end + 1;
      } else {
        full := true;
      }
    }
    if end == start {
      m, n, end := b.queries[end], b.keys[end], end + 1;
      assert Sum(b.queries, start, end) == Sum(b.queries, start, start) + m;
      assert Sum(b.keys, start, end) == Sum(b.keys, start, start) + n;
    } else {
      FitsShrinks(b, start, end, start, start + 1);
    }
  }

  method CutGroup(start: nat, end: nat, m: nat, stride: nat) returns (chunks: seq<Chunk>)
    requires stride > 0
    ensures chunks == Slices(start, end, m, stride, 0)
  {
    chunks := [];
    var q := 0;
    while q < m
      invariant chunks + Slices(start, end, m, stride, q) == Slices(start, end, m, stride, 0)
      decreases m - q
    {
      chunks := chunks + [Chunk(start, end, q, q + Min(stride, m - q))];
      q := q + stride;
    }
  }

  method Split(keys: seq<nat>, queries: seq<nat>, workspace: nat, logitsBytes: nat, offset: nat)
    returns (r: Result<seq<Chunk>, Error>)
    requires |keys| == |queries|
    ensures r == ChunksFrom(Batch(keys, queries, workspace, logitsBytes / 4), 0, offset)
  {
    var b := Batch(keys, queries, workspace, logitsBytes / 4);
    var chunks, end := [], 0;
    AfterAfter([], [], ChunksFrom(b, 0, offset));
    while end < |keys|
      invariant end <= |keys|
      invariant ChunksFrom(b, 0, offset) == After(chunks, ChunksFrom(b, end, offset))
    {
      var start, m, n := end, 0, 0;
      end, m, n := TakeGroup(b, start);
      GroupIsUnique(b, start, end, GroupEnd(b, start));
      if n == 0 && m == 0 { return Err(ZeroStep); }
      var more := CutGroup(start + offset, end + offset, m, Stride(b, m, n));
      AfterAfter(chunks, more, ChunksFrom(b, end, offset));
      chunks := chunks + more;
    }
    assert chunks + [] == chunks;
    return Ok(chunks);
  }

  // ---------- When it raises ----------

  predicate AllVacant(b: Batch, lo: nat, hi: nat)
    requires BatchOk(b) && hi <= |b.keys|
  {
    forall i :: lo <= i < hi ==> b.keys[i] == 0 && b.queries[i] == 0
  }

  /** Requests lo to hi are empty and cut off on both sides, by an oversize request or by the ends of the range. */
  predicate VacantRun(b: Batch, start: nat, lo: nat, hi: nat)
    requires BatchOk(b)
  {
    && start <= lo < hi <= |b.keys| && AllVacant(b, lo, hi)
    && (lo == start || Oversize(b, lo - 1))
    && (hi == |b.keys| || Oversize(b, hi))
  }

  lemma {:induction false} VacantSums(b: Batch, lo: nat, hi: nat)
    requires BatchOk(b) && lo <= hi <= |b.keys|
    ensures AllVacant(b, lo, hi) <==> Vacant(b, lo, hi)
    decreases hi
  {
    if lo < hi { VacantSums(b, lo, hi - 1); }
  }

  lemma {:induction false} VacantFits(b: Batch, lo: nat, hi: nat)
    requires BatchOk(b) && lo <= hi <= |b.keys| && Vacant(b, lo, hi)
    ensures Fits(b, lo, hi) && (hi < |b.keys| ==> (Fits(b, lo, hi + 1) <==> !Oversize(b, hi)))
  {
    if hi < |b.keys| {
      SumSplits(b.keys, lo, hi, hi + 1);
      SumSplits(b.queries, lo, hi, hi + 1);
    }
  }

  /** An empty request joins any group that fits. */
  lemma {:induction false} VacantJoins(b: Batch, lo: nat, hi: nat)
    requires BatchOk(b) && lo <= hi < |b.keys| && b.keys[hi] == 0 && b.queries[hi] == 0
    ensures Fits(b, lo, hi) ==> Fits(b, lo, hi + 1)
  {
  }

  /** An empty first group is a vacant run, and a vacant run at the start is the first group. */
  lemma {:induction false} RunAtStart(b: Batch, start: nat, hi: nat)
    requires BatchOk(b) && start < hi <= |b.keys| && AllVacant(b, start, hi)
    ensures VacantRun(b, start, start, hi) <==> hi == GroupEnd(b, start)
  {
    var end := GroupEnd(b, start);
    VacantSums(b, start, hi);
    VacantFits(b, start, hi);
    FitsShrinks(b, start, hi, start, start + 1);
    if VacantRun(b, start, start, hi) { GroupIsUnique(b, start, hi, end); }
  }

  /** Whatever follows an oversize request starts a group. */
  lemma {:induction false} OversizeEndsGroup(b: Batch, start: nat, i: nat)
    requires BatchOk(b) && start < |b.keys| && start <= i < GroupEnd(b, start) && Oversize(b, i)
    ensures GroupEnd(b, start) == i + 1
  {
    if !Oversize(b, start) { FitsShrinks(b, start, GroupEnd(b, start), i, i + 1); }
  }

  /** Past a group that is not empty the same runs are cut off. */
  lemma {:induction false} RunStays(b: Batch, start: nat, end: nat, lo: nat, hi: nat)
    requires BatchOk(b) && start < |b.keys| && end == GroupEnd(b, start) && VacantRun(b, end, lo, hi)
    ensures VacantRun(b, start, lo, hi)
  {
    if lo == end && !Oversize(b, start) { VacantJoins(b, start, end); }
  }

  lemma {:induction false} RunIsLater(b: Batch, start: nat, end: nat, lo: nat, hi: nat)
    requires BatchOk(b) && start < |b.keys| && end == GroupEnd(b, start) && !Vacant(b, start, end)
    requires VacantRun(b, start, lo, hi)
    ensures VacantRun(b, end, lo, hi)
  {
    VacantSums(b, start, end);
    if lo == start {
      RunAtStart(b, start, hi);
    } else if lo < end {
      OversizeEndsGroup(b, start, lo - 1);
    }
  }

  /** The source raises exactly when some run of empty requests is cut off on both sides. */
  lemma {:induction false} RaisesIff(b: Batch, start: nat, offset: nat)
    requires BatchOk(b) && start <= |b.keys|
    ensures ChunksFrom(b, start, offset).Err? <==> exists lo, hi :: VacantRun(b, start, lo, hi)
    decreases |b.keys| - start
  {
    if start < |b.keys| {
      var end := GroupEnd(b, start);
      VacantSums(b, start, end);
      if Vacant(b, start, end) {
        RunAtStart(b, start, end);
      } else {
        RaisesIff(b, end, offset);
        if exists lo, hi :: VacantRun(b, end, lo, hi) {
          var lo, hi :| VacantRun(b, end, lo, hi);
          RunStays(b, start, end, lo, hi);
        }
        if exists lo, hi :: VacantRun(b, start, lo, hi) {
          var lo, hi :| VacantRun(b, start, lo, hi);
          RunIsLater(b, start, end, lo, hi);
        }
      }
    }
  }

  /** One request without queries and keys is enough. */
  lemma {:induction false} EmptyRequestRaises(workspace: nat, logits: nat, offset: nat)
    ensures ChunksFrom(Batch([0], [0], workspace, logits), 0, offset) == Err(ZeroStep)
  {
    var b := Batch([0], [0], workspace, logits);
    assert VacantRun(b, 0, 0, 1);
    RaisesIff(b, 0, offset);
  }

  lemma {:induction false} RunHasEmpty(b: Batch, lo: nat, hi: nat)
    requires BatchOk(b) && VacantRun(b, 0, lo, hi)
    ensures lo < |b.queries| && b.queries[lo] == 0
  {
  }

  /** It raises only when some request has no query. */
  lemma {:induction false} RaisesOnlyOnEmpty(b: Batch, offset: nat)
    requires BatchOk(b)
    ensures ChunksFrom(b, 0, offset).Err? ==> exists i :: 0 <= i < |b.queries| && b.queries[i] == 0
  {
    RaisesIff(b, 0, offset);
    if ChunksFrom(b, 0, offset).Err? {
      var lo, hi :| VacantRun(b, 0, lo, hi);
      RunHasEmpty(b, lo, hi);
    }
  }

  // ---------- What the chunks cover ----------

  /** Position of request i's first query among all queries. */
  function QueryBase(b: Batch, i: nat): nat
    requires i <= |b.queries|
  {
    Sum(b.queries, 0, i)
  }

  /** The query tokens a chunk stands for. */
  function Tokens(b: Batch, offset: nat, c: Chunk): seq<int>
    requires offset <= c.reqStart && c.reqStart - offset <= |b.queries|
  {
    var base := QueryBase(b, c.reqStart - offset);
    Range(base + c.qStart, base + c.qStop)
  }

  predicate Placed(b: Batch, offset: nat, chunks: seq<Chunk>) {
    forall i :: 0 <= i < |chunks| ==> offset <= chunks[i].reqStart && chunks[i].reqStart - offset <= |b.queries|
  }

  function AllTokens(b: Batch, offset: nat, chunks: seq<Chunk>): seq<int>
    requires Placed(b, offset, chunks)
  {
    if chunks == [] then []
    else Tokens(b, offset, chunks[0]) + AllTokens(b, offset, chunks[1..])
  }

  lemma {:induction false} AllTokensAppend(b: Batch, offset: nat, left: seq<Chunk>, right: seq<Chunk>)
    requires Placed(b, offset, left) && Placed(b, offset, right)
    ensures Placed(b, offset, left + right)
    ensures AllTokens(b, offset, left + right) == AllTokens(b, offset, left) + AllTokens(b, offset, right)
  {
    if left == [] {
      assert left + right == right;
    } else {
      AllTokensAppend(b, offset, left[1..], right);
      assert (left + right)[1..] == left[1..] + right && (left + right)[0] == left[0];
    }
  }

  lemma {:induction false} RangesJoin(lo: int, mid: int, hi: int)
    requires lo <= mid <= hi
    ensures Range(lo, mid) + Range(mid, hi) == Range(lo, hi)
  {
  }

  /** Read in order, the chunks name the query tokens lo to hi, once each and ascending. */
  ghost predicate Tile(b: Batch, offset: nat, chunks: seq<Chunk>, lo: int, hi: int) {
    Placed(b, offset, chunks) && AllTokens(b, offset, chunks) == Range(lo, hi)
  }

  lemma {:induction false} TilesJoin(b: Batch, offset: nat, left: seq<Chunk>, right: seq<Chunk>, lo: int, mid: int, hi: int)
    requires Tile(b, offset, left, lo, mid) && Tile(b, offset, right, mid, hi) && lo <= mid <= hi
    ensures Tile(b, offset, left + right, lo, hi)
  {
    AllTokensAppend(b, offset, left, right);
    RangesJoin(lo, mid, hi);
  }

  lemma {:induction false} OneTiles(b: Batch, offset: nat, c: Chunk, base: nat)
    requires offset <= c.reqStart && c.reqStart - offset <= |b.queries| && base == QueryBase(b, c.reqStart - offset)
    ensures Tile(b, offset, [c], base + c.qStart, base + c.qStop)
  {
    assert AllTokens(b, offset, [c][1..]) == [];
    assert Tokens(b, offset, c) + [] == Tokens(b, offset, c);
  }

  /** A slice of start's queries, before the slices that tile the rest of them. */
  lemma {:induction false} SliceJoins(b: Batch, offset: nat, c: Chunk, rest: seq<Chunk>, base: nat, lo: int, mid: int, hi: int)
    requires offset <= c.reqStart && c.reqStart - offset <= |b.queries| && base == QueryBase(b, c.reqStart - offset)
    requires lo == base + c.qStart <= mid == base + c.qStop <= hi && Tile(b, offset, rest, mid, hi)
    ensures Tile(b, offset, [c] + rest, lo, hi)
  {
    OneTiles(b, offset, c, base);
    TilesJoin(b, offset, [c], rest, lo, mid, hi);
  }

  lemma {:induction false} SlicesTile(b: Batch, offset: nat, start: nat, end: nat, m: nat, stride: nat, q: nat)
    requires stride > 0 && start <= |b.queries| && q <= m
    ensures Tile(b, offset, Slices(start + offset, end, m, stride, q), QueryBase(b, start) + q, QueryBase(b, start) + m)
    decreases m - q
  {
    if q < m {
      var c, base := Chunk(start + offset, end, q, q + Min(stride, m - q)), QueryBase(b, start);
      FirstSlice(start + offset, end, m, stride, q);
      SlicesTile(b, offset, start, end, m, stride, c.qStop);
      SliceJoins(b, offset, c, Slices(start + offset, end, m, stride, c.qStop), base, base + q, base + c.qStop, base + m);
    }
  }

  lemma {:induction false} FirstSlice(start: nat, end: nat, m: nat, stride: nat, q: nat)
    requires stride > 0 && q < m
    ensures Slices(start, end, m, stride, q)
      == [Chunk(start, end, q, q + Min(stride, m - q))] + Slices(start, end, m, stride, q + Min(stride, m - q))
  {
  }

  lemma {:induction false} GroupTiles(b: Batch, start: nat, end: nat, offset: nat)
    requires BatchOk(b) && start <= end <= |b.keys| && !Vacant(b, start, end)
    ensures Tile(b, offset, GroupChunks(b, start, end, offset), QueryBase(b, start), QueryBase(b, end))
    ensures QueryBase(b, start) <= QueryBase(b, end)
  {
    var m, n := Sum(b.queries, start, end), Sum(b.keys, start, end);
    SumSplits(b.queries, 0, start, end);
    SlicesTile(b, offset, start, end + offset, m, Stride(b, m, n), 0);
  }

  /** Taken in order, the chunks name every query token once and in order. */
  lemma {:induction false} ChunksTile(b: Batch, start: nat, offset: nat)
    requires BatchOk(b) && start <= |b.keys| && ChunksFrom(b, start, offset).Ok?
    ensures Tile(b, offset, ChunksFrom(b, start, offset).value, QueryBase(b, start), QueryBase(b, |b.keys|))
    decreases |b.keys| - start
  {
    if start < |b.keys| {
      var end := GroupEnd(b, start);
      GroupTiles(b, start, end, offset);
      ChunksTile(b, end, offset);
      SumSplits(b.queries, 0, end, |b.keys|);
      TilesJoin(b, offset, GroupChunks(b, start, end, offset), ChunksFrom(b, end, offset).value,
                QueryBase(b, start), QueryBase(b, end), QueryBase(b, |b.keys|));
    }
  }

  // ---------- What each chunk respects ----------

  /** The promises made for one chunk: whole groups, the two limits, who may be cut, and that neither one query nor one request more would fit. */
  ghost predicate ChunkOk(b: Batch, offset: nat, c: Chunk)
    requires BatchOk(b)
  {
    && offset <= c.reqStart <= c.reqStop && IsGroup(b, c.reqStart - offset, c.reqStop - offset)
    && var lo, hi := c.reqStart - offset, c.reqStop - offset;
       var m, n := Sum(b.queries, lo, hi), Sum(b.keys, lo, hi);
       && c.qStart < c.qStop <= m
       && (c.qStop == c.qStart + 1 || (c.qStop - c.qStart) * n <= b.logits)
       && (c.qStop < m ==> (c.qStop - c.qStart + 1) * n > b.logits)
       && (n > b.workspace ==> hi == lo + 1)
       && (hi > lo + 1 ==> c.qStart == 0 && c.qStop == m)
       && (hi < |b.keys| && n <= b.workspace && m * n <= b.logits ==>
             n + b.keys[hi] > b.workspace || (m + b.queries[hi]) * (n + b.keys[hi]) > b.logits)
  }

  lemma {:induction false} QuotientTimes(e: nat, n: nat, m: nat)
    requires n > 0
    ensures (e / n) * n <= e < (e / n + 1) * n && (m * n <= e ==> m <= e / n)
  {
    assert e == (e / n) * n + e % n;
    if m > e / n {
      assert m * n >= (e / n + 1) * n;
    }
  }

  lemma {:induction false} NoRequestMore(b: Batch, lo: nat, hi: nat, m: nat, n: nat)
    requires BatchOk(b) && IsGroup(b, lo, hi) && m == Sum(b.queries, lo, hi) && n == Sum(b.keys, lo, hi)
    requires hi < |b.keys| && n <= b.workspace && m * n <= b.logits
    ensures n + b.keys[hi] > b.workspace || (m + b.queries[hi]) * (n + b.keys[hi]) > b.logits
  {
  }

  lemma {:induction false} SliceOk(b: Batch, offset: nat, start: nat, end: nat, q: nat)
    requires BatchOk(b) && IsGroup(b, start, end) && !Vacant(b, start, end)
    requires var m, n := Sum(b.queries, start, end), Sum(b.keys, start, end);
      q < m && (q == 0 || q >= Stride(b, m, n))
    ensures var m, n := Sum(b.queries, start, end), Sum(b.keys, start, end);
      ChunkOk(b, offset, Chunk(start + offset, end + offset, q, q + Min(Stride(b, m, n), m - q)))
  {
    var m, n := Sum(b.queries, start, end), Sum(b.keys, start, end);
    var stride := Stride(b, m, n);
    if end < |b.keys| && n <= b.workspace && m * n <= b.logits { NoRequestMore(b, start, end, m, n); }
    if n > 0 {
      QuotientTimes(b.logits, n, m);
      if stride > 1 { SmallerProduct(Min(stride, m - q), b.logits / n, n); }
      SmallerProduct(b.logits / n + 1, stride + 1, n);
    }
  }

  lemma {:induction false} SlicesOk(b: Batch, offset: nat, start: nat, end: nat, q: nat)
    requires BatchOk(b) && IsGroup(b, start, end) && !Vacant(b, start, end)
    requires q == 0 || q >= Stride(b, Sum(b.queries, start, end), Sum(b.keys, start, end))
    ensures var m, n := Sum(b.queries, start, end), Sum(b.keys, start, end);
      forall c :: c in Slices(start + offset, end + offset, m, Stride(b, m, n), q) ==> ChunkOk(b, offset, c)
    decreases Sum(b.queries, start, end) - q
  {
    var m, n := Sum(b.queries, start, end), Sum(b.keys, start, end);
    if q < m {
      SliceOk(b, offset, start, end, q);
      SlicesOk(b, offset, start, end, q + Stride(b, m, n));
    }
  }

  /** Every chunk comes from one greedy group, has a single query or respects the bound on queries times keys, ends its group unless one query more would break that bound, and only single-request groups are cut or exceed the workspace. */
  lemma {:induction false} EveryChunkOk(b: Batch, start: nat, offset: nat)
    requires BatchOk(b) && start <= |b.keys| && ChunksFrom(b, start, offset).Ok?
    ensures forall c :: c in ChunksFrom(b, start, offset).value ==> ChunkOk(b, offset, c)
    decreases |b.keys| - start
  {
    if start < |b.keys| {
      SlicesOk(b, offset, start, GroupEnd(b, start), 0);
      EveryChunkOk(b, GroupEnd(b, start), offset);
    }
  }
}

/**
 _prepare_decode_tensors of results/tonyd2wild-indexer-audit/image-indexer.py
 with the repair of bench/repro/indexer_block_table_width.py: every token of
 every decode request becomes an entry of its own, in buffers that persist from
 step to step and hold the request lengths that are still being read.
 */
module DecodeExpansion {
  import opened Common
  import opened PrefillSplit
  import opened PrefillMetadata

  /** Rows of block numbers in strided storage. */
  datatype Table = Table(storage: seq<int>, rows: nat, cols: nat, rowStride: nat, colStride: nat)

  predicate TableOk(t: Table) {
    forall b, j :: 0 <= b < t.rows && 0 <= j < t.cols ==>
      0 <= Place(t, b, j) < |t.storage|
  }

  function Place(t: Table, b: int, j: int): int { b * t.rowStride + j * t.colStride }

  /** Entry j of row b, and zero beyond the row's end. */
  function Entry(t: Table, b: nat, j: nat): int
    requires TableOk(t) && b < t.rows
  {
    if j < t.cols then t.storage[Place(t, b, j)] else 0
  }

  /** The decode requests of one step. */
  datatype Step = Step(seqLens: seq<int>, lens: seq<nat>, table: Table)

  predicate StepOk(s: Step) {
    |s.lens| > 0 && |s.seqLens| == |s.lens| && s.table.rows == |s.lens| && TableOk(s.table)
  }

  function Count(s: Step): nat { Sum(s.lens, 0, |s.lens|) }

  function StartsOf(s: Step): (offsets: seq<nat>)
    ensures |offsets| == |s.lens| + 1 && offsets[|s.lens|] == Count(s)
  {
    Cumulative(s.lens, 0, |s.lens|)
  }

  /** The request entry t stands for. */
  function RequestOf(s: Step, t: nat): (b: nat)
    requires t < Count(s)
    ensures b < |s.lens| && StartsOf(s)[b] <= t < StartsOf(s)[b + 1]
  {
    CumulativeIsOffsets(s.lens, 0, |s.lens|);
    OwnerOf(StartsOf(s), t)
  }

  /** Keys visible to entry t: those of its request up to its own token; none for padding. */
  function VisibleKeys(s: Step, t: nat): int
    requires StepOk(s)
  {
    if t < Count(s) then
      var b := RequestOf(s, t);
      s.seqLens[b] - s.lens[b] + (t - StartsOf(s)[b]) + 1
    else 0
  }

  /** Entry j of the block-table row of entry t: its request's row, zero-extended; zero for padding. */
  function VisibleBlock(s: Step, t: nat, j: nat): int
    requires StepOk(s)
  {
    if t < Count(s) then Entry(s.table, RequestOf(s, t), j) else 0
  }

  lemma {:induction false} EntryRequest(s: Step, b: nat, j: nat)
    requires StepOk(s) && b < |s.lens| && j < s.lens[b]
    ensures var t := Sum(s.lens, 0, b) + j; t < Count(s) && RequestOf(s, t) == b && StartsOf(s)[b] == Sum(s.lens, 0, b)
  {
    SumSplits(s.lens, 0, b + 1, |s.lens|);
    CumulativeIsOffsets(s.lens, 0, |s.lens|);
    OwnerIsUnique(StartsOf(s), Sum(s.lens, 0, b) + j, b);
  }

  /**
   Token j of request b is the entry after all tokens of the requests before it
   and its own j predecessors. Its request's last token sees all keys, every
   earlier one as many fewer as there are tokens after it, and each reads the
   request's row of the source table, with zeros beyond the row's end.
   */
  lemma {:induction false} EntryMeans(s: Step, b: nat, j: nat, column: nat)
    requires StepOk(s) && b < |s.lens| && j < s.lens[b]
    ensures var t := Sum(s.lens, 0, b) + j;
      && t < Count(s)
      && VisibleKeys(s, t) + (s.lens[b] - 1 - j) == s.seqLens[b]
      && (column < s.table.cols ==>
            0 <= b * s.table.rowStride + column * s.table.colStride < |s.table.storage|
            && VisibleBlock(s, t, column) == s.table.storage[b * s.table.rowStride + column * s.table.colStride])
      && (column >= s.table.cols ==> VisibleBlock(s, t, column) == 0)
  {
    EntryRequest(s, b, j);
    assert column < s.table.cols ==> 0 <= Place(s.table, b, column) < |s.table.storage|;
  }

  /** The entries after the last token are padding. */
  lemma {:induction false} PaddingMeans(s: Step, t: nat, column: nat)
    requires StepOk(s) && t >= Sum(s.lens, 0, |s.lens|)
    ensures VisibleKeys(s, t) == 0 && VisibleBlock(s, t, column) == 0
  {
  }

  /** torch.repeat_interleave */
  function Repeated<T>(values: seq<T>, counts: seq<nat>, upTo: nat): seq<T>
    requires upTo <= |values| && upTo <= |counts|
  {
    if upTo == 0 then []
    else Repeated(values, counts, upTo - 1) + seq(counts[upTo - 1], _ => values[upTo - 1])
  }

  lemma {:induction false} RepeatedAt<T>(values: seq<T>, counts: seq<nat>, upTo: nat, b: nat, t: nat)
    requires b < upTo <= |values| && upTo <= |counts|
    requires Sum(counts, 0, b) <= t < Sum(counts, 0, b + 1)
    ensures |Repeated(values, counts, upTo)| == Sum(counts, 0, upTo)
    ensures t < |Repeated(values, counts, upTo)| && Repeated(values, counts, upTo)[t] == values[b]
    decreases upTo
  {
    RepeatedSize(values, counts, upTo);
    RepeatedSize(values, counts, upTo - 1);
    SumSplits(counts, 0, b + 1, upTo);
    if b < upTo - 1 {
      SumSplits(counts, 0, b + 1, upTo - 1);
      RepeatedAt(values, counts, upTo - 1, b, t);
    }
  }

  lemma {:induction false} RepeatedSize<T>(values: seq<T>, counts: seq<nat>, upTo: nat)
    requires upTo <= |values| && upTo <= |counts|
    ensures |Repeated(values, counts, upTo)| == Sum(counts, 0, upTo)
  {
    if upTo > 0 { RepeatedSize(values, counts, upTo - 1); }
  }

  lemma {:induction false} RepeatedOf<T>(s: Step, values: seq<T>, t: nat)
    requires |values| == |s.lens| && t < Count(s)
    ensures |Repeated(values, s.lens, |s.lens|)| == Count(s)
    ensures Repeated(values, s.lens, |s.lens|)[t] == values[RequestOf(s, t)]
  {
    RepeatedAt(values, s.lens, |s.lens|, RequestOf(s, t), t);
  }

  datatype Error = TableTooNarrow | ColumnStride

  /** How much of the buffers is the result, and whether the caller must pad. */
  datatype Outcome = Outcome(batch: nat, requiresPadding: bool)

  function MinLen(s: seq<nat>): (m: nat)
    requires s != []
    ensures m in s && forall k :: 0 <= k < |s| ==> m <= s[k]
  {
    if |s| == 1 then s[0]
    else
      var rest := MinLen(s[..|s| - 1]);
      Min(rest, s[|s| - 1])
  }

  function MaxLen(s: seq<nat>): (m: nat)
    requires s != []
    ensures m in s && forall k :: 0 <= k < |s| ==> s[k] <= m
  {
    if |s| == 1 then s[0]
    else
      var rest := MaxLen(s[..|s| - 1]);
      Max(rest, s[|s| - 1])
  }

  lemma {:induction false} UniformSums(lens: seq<nat>, m: nat, hi: nat)
    requires hi <= |lens| && forall k :: 0 <= k < |lens| ==> lens[k] == m
    ensures Sum(lens, 0, hi) == hi * m
  {
    if hi > 0 { UniformSums(lens, m, hi - 1); }
  }

  lemma {:induction false} DividesInto(t: nat, m: nat, n: nat)
    requires m >= 1 && t < n * m
    ensures t / m < n && (t / m) * m <= t < (t / m + 1) * m && t % m == t - (t / m) * m
  {
    var q := t / m;
    assert t == q * m + t % m;
    if q >= n { SmallerProduct(n, q, m); }
  }

  /** With equal lengths, the request of an entry is found by division. */
  lemma {:induction false} UniformRequest(s: Step, m: nat, t: nat)
    requires StepOk(s) && m >= 1 && (forall k :: 0 <= k < |s.lens| ==> s.lens[k] == m) && t < |s.lens| * m
    ensures Count(s) == |s.lens| * m && RequestOf(s, t) == t / m && t - StartsOf(s)[RequestOf(s, t)] == t % m
  {
    UniformSums(s.lens, m, |s.lens|);
    DividesInto(t, m, |s.lens|);
    var b := t / m;
    UniformSums(s.lens, m, b);
    UniformSums(s.lens, m, b + 1);
    CumulativeIsOffsets(s.lens, 0, |s.lens|);
    OwnerIsUnique(StartsOf(s), t, b);
  }
}

/** The builder object whose persistent buffers receive the decode expansion. */
module DecodeBuffers {
  import opened Common
  import opened PrefillSplit
  import opened PrefillMetadata
  import opened DecodeExpansion

  class Builder {
    const seqLens: array<int>
    const decodeLens: array<int>
    const tables: array2<int>

    predicate Valid() {
      seqLens != decodeLens && seqLens.Length == decodeLens.Length == tables.Length0
    }

    constructor (capacity: nat, width: nat)
      ensures Valid() && fresh(seqLens) && fresh(decodeLens) && fresh(tables)
      ensures seqLens.Length == capacity && tables.Length1 == width
    {
      seqLens := new int[capacity];
      decodeLens := new int[capacity];
      tables := new int[capacity, width];
    }

    /** Row t of the expanded table is what entry t should see. */
    ghost predicate RowDone(s: Step, t: nat)
      requires StepOk(s)
      reads tables
    {
      t < tables.Length0 && forall j :: 0 <= j < tables.Length1 ==> tables[t, j] == VisibleBlock(s, t, j)
    }

    /** Entry t is complete: a single-token request with its row and its keys. */
    ghost predicate EntryDone(s: Step, t: nat)
      requires Valid() && StepOk(s)
      reads seqLens, decodeLens, tables
    {
      RowDone(s, t) && seqLens[t] == VisibleKeys(s, t) && decodeLens[t] == 1
    }

    /** The request lengths are still in the buffer that the result will overwrite. */
    ghost predicate LensStored(s: Step)
      requires Valid()
      reads decodeLens
    {
      |s.lens| <= decodeLens.Length && forall b :: 0 <= b < |s.lens| ==> decodeLens[b] == s.lens[b]
    }

    // ---------- Uniform lengths: the kernel ----------

    /** The block-table loop of one program: masked loads, zero outside the source row. */
    method CopyRow(s: Step, b: nat, t: nat, block: nat)
      requires StepOk(s) && b < |s.lens| && t < tables.Length0 && block >= 1 && s.table.colStride == 1
      modifies tables
      ensures forall j :: 0 <= j < tables.Length1 ==> tables[t, j] == Entry(s.table, b, j)
      ensures forall i, j :: 0 <= i < tables.Length0 && 0 <= j < tables.Length1 && i != t ==> tables[i, j] == old(tables[i, j])
    {
      var width := tables.Length1;
      var i := 0;
      while i < width
        invariant forall j :: 0 <= j < Min(i, width) ==> tables[t, j] == Entry(s.table, b, j)
        invariant forall k, j :: 0 <= k < tables.Length0 && 0 <= j < width && k != t ==> tables[k, j] == old(tables[k, j])
        decreases width - i
      {
        for lane := 0 to block
          invariant forall j :: 0 <= j < Min(i + lane, width) ==> tables[t, j] == Entry(s.table, b, j)
          invariant forall k, j :: 0 <= k < tables.Length0 && 0 <= j < width && k != t ==> tables[k, j] == old(tables[k, j])
        {
          var off := i + lane;
          if off < width {
            assert Place(s.table, b, off) == b * s.table.rowStride + off;
            tables[t, off] := if off < s.table.cols then s.table.storage[b * s.table.rowStride + off] else 0;
          }
        }
        i := i + block;
      }
    }
  
    /** One program of the kernel. */
    method UniformProgram(s: Step, m: nat, t: nat, block: nat)
      requires Valid() && StepOk(s) && m >= 1 && (forall k :: 0 <= k < |s.lens| ==> s.lens[k] == m)
      requires t < |s.lens| * m <= seqLens.Length && block >= 1 && s.table.colStride == 1
      modifies seqLens, decodeLens, tables
      ensures EntryDone(s, t)
      ensures forall u :: 0 <= u < seqLens.Length && u != t ==>
        seqLens[u] == old(seqLens[u]) && decodeLens[u] == old(decodeLens[u])
      ensures forall u, j :: 0 <= u < tables.Length0 && 0 <= j < tables.Length1 && u != t ==> tables[u, j] == old(tables[u, j])
    {
      var req, local := t / m, t % m;
      DividesInto(t, m, |s.lens|);
      UniformRequest(s, m, t);
      seqLens[t] := s.seqLens[req] - m + local + 1;
      CopyRow(s, req, t, block);
      decodeLens[t] := 1;
    }

    /** The launch, programs in any order. */
    method Launch(s: Step, m: nat, order: seq<nat>, block: nat)
      requires Valid() && StepOk(s) && m >= 1 && (forall k :: 0 <= k < |s.lens| ==> s.lens[k] == m)
      requires |s.lens| * m <= seqLens.Length && block >= 1 && s.table.colStride == 1
      requires (forall t :: t in order ==> t < |s.lens| * m)
      modifies seqLens, decodeLens, tables
      ensures forall t :: t in order ==> EntryDone(s, t)
    {
      for i := 0 to |order|
        invariant forall t :: t in order[..i] ==> EntryDone(s, t)
      {
        assert order[i] in order;
        UniformProgram(s, m, order[i], block);
        assert order[..i + 1] == order[..i] + [order[i]];
      }
      assert order[..|order|] == order;
    }

    method ZeroTail(total: nat)
      requires total <= seqLens.Length
      modifies seqLens
      ensures forall u :: 0 <= u < total ==> seqLens[u] == old(seqLens[u])
      ensures forall u :: total <= u < seqLens.Length ==> seqLens[u] == 0
    {
      for t := total to seqLens.Length
        invariant forall u :: 0 <= u < total ==> seqLens[u] == old(seqLens[u])
        invariant forall u :: total <= u < t ==> seqLens[u] == 0
      {
        seqLens[t] := 0;
      }
    }

    /** The kernel branch: one program per entry, then the unused tail. */
    method ExpandUniform(s: Step, m: nat, order: seq<nat>, block: nat) returns (o: Outcome)
      requires Valid() && StepOk(s) && m >= 1 && (forall k :: 0 <= k < |s.lens| ==> s.lens[k] == m)
      requires |s.lens| * m <= seqLens.Length && block >= 1 && s.table.colStride == 1
      requires forall t :: t in order <==> 0 <= t < |s.lens| * m
      modifies seqLens, decodeLens, tables
      ensures o == Outcome(Count(s), false)
      ensures Count(s) <= seqLens.Length && forall t :: 0 <= t < Count(s) ==> EntryDone(s, t)
      ensures forall t :: Count(s) <= t < seqLens.Length ==> seqLens[t] == 0
    {
      UniformSums(s.lens, m, |s.lens|);
      var total := |s.lens| * m;
      Launch(s, m, order, block);
      label launched:
      ZeroTail(total);
      forall t | 0 <= t < total ensures EntryDone(s, t) {
        assert t in order;
        assert old@launched(EntryDone(s, t));
        assert old@launched(RowDone(s, t));
      }
      return Outcome(total, false);
    }

    // ---------- Variable lengths ----------

    /** The lengths, read out of the buffer they share with the result. */
    method StoredLens(s: Step) returns (counts: seq<nat>)
      requires Valid() && LensStored(s)
      ensures counts == s.lens
    {
      counts := decodeLens[..|s.lens|];
    }

    /** Context offsets repeated per token, plus the running index; zero in the rest of the buffer. */
    method StoreVisibleKeys(s: Step, starts: seq<nat>)
      requires Valid() && StepOk(s) && LensStored(s) && Count(s) <= seqLens.Length
      requires |starts| == |s.lens| && forall b :: 0 <= b < |starts| ==> starts[b] == StartsOf(s)[b]
      modifies seqLens
      ensures forall t :: 0 <= t < seqLens.Length ==> seqLens[t] == VisibleKeys(s, t)
    {
      var counts := StoredLens(s);
      var contexts := seq(|counts|, b requires 0 <= b < |counts| => s.seqLens[b] - counts[b] - starts[b]);
      var offsets := Repeated(contexts, counts, |counts|);
      RepeatedSize(contexts, counts, |counts|);
      for t := 0 to |offsets|
        invariant forall u :: 0 <= u < t ==> seqLens[u] == VisibleKeys(s, u)
      {
        RepeatedOf(s, contexts, t);
        seqLens[t] := offsets[t] + t + 1;
      }
      for t := |offsets| to seqLens.Length
        invariant forall u :: 0 <= u < t ==> seqLens[u] == VisibleKeys(s, u)
      {
        seqLens[t] := 0;
      }
    }

    /** Source rows repeated per token into the first columns; zero in the columns beyond them. */
    method StoreRows(s: Step)
      requires Valid() && StepOk(s) && LensStored(s) && Count(s) <= tables.Length0 && s.table.cols <= tables.Length1
      modifies tables
      ensures forall t :: 0 <= t < Count(s) ==> RowDone(s, t)
    {
      var counts := StoredLens(s);
      var ids := seq(|counts|, b => b);
      var rows := Repeated(ids, counts, |counts|);
      RepeatedSize(ids, counts, |counts|);
      for t := 0 to |rows|
        invariant forall u :: 0 <= u < t ==> RowDone(s, u)
      {
        RepeatedOf(s, ids, t);
        StoreRow(s, rows[t], t);
      }
    }

    method StoreRow(s: Step, b: nat, t: nat)
      requires StepOk(s) && b < |s.lens| && t < tables.Length0 && s.table.cols <= tables.Length1
      modifies tables
      ensures forall j :: 0 <= j < tables.Length1 ==> tables[t, j] == Entry(s.table, b, j)
      ensures forall i, j :: 0 <= i < tables.Length0 && 0 <= j < tables.Length1 && i != t ==> tables[i, j] == old(tables[i, j])
    {
      for j := 0 to tables.Length1
        invariant forall k :: 0 <= k < j ==> tables[t, k] == Entry(s.table, b, k)
        invariant forall i, k :: 0 <= i < tables.Length0 && 0 <= k < tables.Length1 && i != t ==> tables[i, k] == old(tables[i, k])
      {
        tables[t, j] := Entry(s.table, b, j);
      }
    }

    method ZeroRows(s: Step, n: nat)
      requires StepOk(s) && Count(s) <= n <= tables.Length0
      requires forall t :: 0 <= t < Count(s) ==> RowDone(s, t)
      modifies tables
      ensures forall t :: 0 <= t < n ==> RowDone(s, t)
    {
      assert forall u, k :: 0 <= u < Count(s) && 0 <= k < tables.Length1 ==> RowDone(s, u) && tables[u, k] == VisibleBlock(s, u, k);
      for t := Count(s) to n
        invariant forall u, k :: 0 <= u < t && 0 <= k < tables.Length1 ==> tables[u, k] == VisibleBlock(s, u, k)
      {
        for j := 0 to tables.Length1
          invariant forall u, k :: 0 <= u < t && 0 <= k < tables.Length1 ==> tables[u, k] == VisibleBlock(s, u, k)
          invariant forall k :: 0 <= k < j ==> tables[t, k] == 0
        {
          tables[t, j] := 0;
        }
      }
    }

    method ExpandVariable(s: Step, starts: seq<nat>, n: nat) returns (o: Outcome)
      requires Valid() && StepOk(s) && LensStored(s) && Count(s) <= n <= seqLens.Length
      requires s.table.cols <= tables.Length1
      requires |starts| == |s.lens| && forall b :: 0 <= b < |starts| ==> starts[b] == StartsOf(s)[b]
      modifies seqLens, decodeLens, tables
      ensures o == Outcome(n, false)
      ensures forall t :: 0 <= t < n ==> EntryDone(s, t)
      ensures forall t :: n <= t < seqLens.Length ==> seqLens[t] == 0
    {
      StoreVisibleKeys(s, starts);
      StoreRows(s);
      ZeroRows(s, n);
      for t := 0 to n
        invariant forall u :: 0 <= u < n ==> RowDone(s, u)
        invariant forall u :: 0 <= u < seqLens.Length ==> seqLens[u] == VisibleKeys(s, u)
        invariant forall u :: 0 <= u < t ==> decodeLens[u] == 1
      {
        decodeLens[t] := 1;
      }
      return Outcome(n, false);
    }

    // ---------- The native path, and the choice ----------

    /** Two-dimensional context lengths, stored row by row. */
    method StoreNative(s: Step, m: nat)
      requires Valid() && StepOk(s) && |s.lens| * m <= seqLens.Length
      modifies seqLens
      ensures forall t :: 0 <= t < |s.lens| * m ==> seqLens[t] == NativeKeys(s, m, t)
    {
      for t := 0 to |s.lens| * m
        invariant forall u :: 0 <= u < t ==> seqLens[u] == NativeKeys(s, m, u)
      {
        NativePlace(t, m, |s.lens|);
        seqLens[t] := s.seqLens[t / m] - m + 1 + t % m;
      }
    }

    predicate Flattens(s: Step, useNative: bool)
      requires StepOk(s)
      ensures Flattens(s, useNative) <==> !useNative && exists b :: 0 <= b < |s.lens| && s.lens[b] > 1
    {
      var high := MaxLen(s.lens);
      assert exists b :: 0 <= b < |s.lens| && s.lens[b] == high;
      !useNative && high > 1
    }

    method Prepare(s: Step, starts: seq<nat>, n: nat, useNative: bool, nextN: nat, order: seq<nat>, block: nat)
      returns (r: Result<Outcome, DecodeExpansion.Error>)
      requires Valid() && StepOk(s) && LensStored(s) && block >= 1
      requires |starts| == |s.lens| && forall b :: 0 <= b < |starts| ==> starts[b] == StartsOf(s)[b]
      requires Count(s) <= n <= seqLens.Length
      requires useNative && nextN > 1 ==> |s.lens| * MaxLen(s.lens) <= seqLens.Length
      requires forall t :: t in order <==> 0 <= t < |s.lens| * MaxLen(s.lens)
      modifies seqLens, decodeLens, tables
      ensures r.Err? <==> Flattens(s, useNative) && (s.table.cols > tables.Length1 || s.table.colStride != 1)
      ensures r.Ok? && Flattens(s, useNative) ==>
        && !r.value.requiresPadding
        && r.value.batch == Returned(s.lens, n)
        && (forall t :: 0 <= t < r.value.batch ==> EntryDone(s, t))
        && (forall t :: r.value.batch <= t < seqLens.Length ==> seqLens[t] == 0)
      ensures r.Ok? && !Flattens(s, useNative) ==>
        && r.value == Outcome(|s.lens|, MinLen(s.lens) != MaxLen(s.lens))
        && LensStored(s)
        && (useNative && nextN > 1 ==> forall t :: 0 <= t < |s.lens| * MaxLen(s.lens) ==>
              seqLens[t] == NativeKeys(s, MaxLen(s.lens), t))
    {
      var low, high := MinLen(s.lens), MaxLen(s.lens);
      if !useNative && high > 1 {
        if s.table.cols > tables.Length1 { return Err(TableTooNarrow); }
        if s.table.colStride != 1 { return Err(ColumnStride); }
        var o;
        if low == high {
          UniformSums(s.lens, high, |s.lens|);
          o := ExpandUniform(s, high, order, block);
        } else {
          o := ExpandVariable(s, starts, n);
        }
        return Ok(o);
      }
      if useNative && nextN > 1 { StoreNative(s, high); }
      return Ok(Outcome(|s.lens|, low != high));
    }
  }

  lemma {:induction false} NativePlace(t: nat, m: nat, n: nat)
    requires t < n * m
    ensures m >= 1 && t / m < n
  {
    if m >= 1 { DividesInto(t, m, n); }
  }

  /** Position t of the flat form of a table with m columns. */
  function NativeKeys(s: Step, m: nat, t: nat): int
    requires StepOk(s)
  {
    if m >= 1 && t / m < |s.lens| then s.seqLens[t / m] - m + 1 + t % m else 0
  }

  /** Token j of request b attends to the keys up to its own position. */
  lemma {:induction false} NativeEntry(s: Step, m: nat, b: nat, j: nat)
    requires StepOk(s) && b < |s.lens| && j < m
    ensures b * m + j < |s.lens| * m && NativeKeys(s, m, b * m + j) == s.seqLens[b] - m + 1 + j
  {
    var t := b * m + j;
    SmallerProduct(b + 1, |s.lens|, m);
    DividesInto(t, m, |s.lens|);
    if t / m < b { SmallerProduct(t / m + 1, b, m); }
    if b < t / m { SmallerProduct(b + 1, t / m, m); }
  }

  /** Where the lengths are equal, the two-dimensional form says what the expansion says. */
  lemma {:induction false} NativeAgrees(s: Step, m: nat, t: nat)
    requires StepOk(s) && m >= 1 && (forall k :: 0 <= k < |s.lens| ==> s.lens[k] == m) && t < |s.lens| * m
    ensures NativeKeys(s, m, t) == VisibleKeys(s, t)
  {
    DividesInto(t, m, |s.lens|);
    UniformRequest(s, m, t);
  }

  /** How many entries the flattened result has when n are requested. */
  function Returned(lens: seq<nat>, n: nat): nat
    requires lens != []
  {
    if MinLen(lens) == MaxLen(lens) then Sum(lens, 0, |lens|) else n
  }

  /**
   The executable specification asks for n entries, the last ones padding. The
   kernel branch recomputes the count, so it is met exactly when the lengths
   differ or no padding was requested.
   */
  lemma {:induction false} MeetsRequestIff(lens: seq<nat>, n: nat)
    requires lens != [] && Sum(lens, 0, |lens|) <= n
    ensures Returned(lens, n) == n <==> (exists a, b :: a in lens && b in lens && a < b) || n == Sum(lens, 0, |lens|)
  {
    var low, high := MinLen(lens), MaxLen(lens);
    if low < high { assert low in lens && high in lens; }
    if exists a, b :: a in lens && b in lens && a < b {
      var a, b :| a in lens && b in lens && a < b;
      assert low <= a && b <= high;
    }
  }

  /** Two requests of two tokens and one padding entry: four entries come back. */
  lemma {:induction false} PaddingDropped()
    ensures Returned([2, 2], 5) == 4
  {
    assert MinLen([2, 2]) == MaxLen([2, 2]) by {
      assert MinLen([2, 2]) in [2, 2] && MaxLen([2, 2]) in [2, 2];
    }
    assert Sum([2, 2], 0, 1) == Sum([2, 2], 0, 0) + 2;
    assert Sum([2, 2], 0, 2) == Sum([2, 2], 0, 1) + 2;
  }
}

/**
 The offset check of header in bench/repack_dense_int8.py: entries are sorted
 by their offsets and must follow one another; this accepts exactly the files
 whose tensors tile the payload.
 */
module SafetensorsHeader {
  import opened Common

  datatype Dtype = BF16 | F16 | F32 | F64 | I8 | U8 | I16 | I32 | I64 | Boolean | F8E4M3 | F8E5M2

  function Width(d: Dtype): nat {
    match d
    case F64 => 8
    case I64 => 8
    case F32 => 4
    case I32 => 4
    case BF16 => 2
    case F16 => 2
    case I16 => 2
    case _ => 1
  }

  /** The element sizes of the types. */
  lemma {:induction false} WidthsAre(d: Dtype)
    ensures Width(d) == 8 <==> d == F64 || d == I64
    ensures Width(d) == 4 <==> d == F32 || d == I32
    ensures Width(d) == 2 <==> d == BF16 || d == F16 || d == I16
    ensures Width(d) == 1 || Width(d) == 2 || Width(d) == 4 || Width(d) == 8
  {
  }

  /** One entry of the header; an unknown dtype name is None. */
  datatype Info = Info(dtype: Option<Dtype>, shape: seq<int>, offsets: seq<int>)

  function Product(shape: seq<int>): int {
    if shape == [] then 1 else Product(shape[..|shape| - 1]) * shape[|shape| - 1]
  }

  lemma {:induction false} ProductAdds(shape: seq<int>, n: int)
    ensures Product([]) == 1 && Product(shape + [n]) == Product(shape) * n
  {
    assert (shape + [n])[..|shape|] == shape;
  }

  function ByteCount(e: Info): int
    requires e.dtype.Some?
  {
    Product(e.shape) * Width(e.dtype.value)
  }

  /** Everything about an entry but its place. */
  predicate WellFormed(e: Info) {
    && e.dtype.Some? && |e.offsets| == 2
    && (forall i :: 0 <= i < |e.shape| ==> e.shape[i] >= 0)
    && e.offsets[1] - e.offsets[0] == ByteCount(e)
  }

  lemma {:induction false} ProductNotNegative(shape: seq<int>)
    requires forall i :: 0 <= i < |shape| ==> shape[i] >= 0
    ensures Product(shape) >= 0
  {
    if shape != [] { ProductNotNegative(shape[..|shape| - 1]); }
  }

  lemma {:induction false} SpanNotNegative(e: Info)
    requires WellFormed(e)
    ensures e.offsets[0] <= e.offsets[1]
  {
    ProductNotNegative(e.shape);
  }

  // ---------- Tiling ----------

  /** One ends where or before the other begins. */
  predicate Apart(a: Info, b: Info)
    requires |a.offsets| == 2 && |b.offsets| == 2
  {
    a.offsets[1] <= b.offsets[0] || b.offsets[1] <= a.offsets[0]
  }

  ghost predicate AllWellFormed(es: seq<Info>) { forall i :: 0 <= i < |es| ==> WellFormed(es[i]) }

  ghost predicate AllApart(es: seq<Info>)
    requires AllWellFormed(es)
  {
    forall i, j :: 0 <= i < j < |es| ==> Apart(es[i], es[j])
  }

  predicate Covers(e: Info, p: int) { |e.offsets| == 2 && e.offsets[0] <= p < e.offsets[1] }

  /** Some entry has byte p. */
  ghost predicate Covered(es: seq<Info>, p: int) { exists e :: e in es && Covers(e, p) }

  predicate Inside(e: Info, start: int, size: int) { |e.offsets| == 2 && start <= e.offsets[0] <= e.offsets[1] <= size }

  /** The entries lie between start and size, no two overlap, and every byte between belongs to one. */
  ghost predicate TilesFrom(es: seq<Info>, start: int, size: int) {
    && AllWellFormed(es) && AllApart(es) && start <= size
    && (forall i :: 0 <= i < |es| ==> Inside(es[i], start, size))
    && (forall p :: start <= p < size ==> Covered(es, p))
  }

  ghost predicate Tiles(es: seq<Info>, size: nat) { TilesFrom(es, 0, size) }

  // ---------- Sorting by offsets ----------

  /** Order of lists of integers: first difference decides, a proper prefix comes first. */
  predicate LexLeq(a: seq<int>, b: seq<int>) {
    if a == [] then true
    else if b == [] then false
    else a[0] < b[0] || (a[0] == b[0] && LexLeq(a[1..], b[1..]))
  }

  /** e placed before the first entry that does not sort below it. */
  function Insert(e: Info, es: seq<Info>): seq<Info> {
    if es == [] || LexLeq(e.offsets, es[0].offsets) then [e] + es else [es[0]] + Insert(e, es[1..])
  }

  /** A stable sort. */
  function SortedByOffsets(es: seq<Info>): seq<Info> {
    if es == [] then [] else Insert(es[0], SortedByOffsets(es[1..]))
  }

  lemma {:induction false} InsertMembers(e: Info, es: seq<Info>)
    ensures forall x :: x in Insert(e, es) <==> x == e || x in es
  {
    if es != [] && !LexLeq(e.offsets, es[0].offsets) {
      InsertMembers(e, es[1..]);
      assert es == [es[0]] + es[1..];
    }
  }

  lemma {:induction false} SortMembers(es: seq<Info>)
    ensures forall x :: x in SortedByOffsets(es) <==> x in es
  {
    if es != [] {
      SortMembers(es[1..]);
      InsertMembers(es[0], SortedByOffsets(es[1..]));
      assert es == [es[0]] + es[1..];
    }
  }

  /** Pairs, told by recursion: the first against the rest, and the rest. */
  ghost predicate Pairwise(es: seq<Info>)
    requires forall x :: x in es ==> |x.offsets| == 2
  {
    es == [] || (ApartFromAll(es[0], es[1..]) && Pairwise(es[1..]))
  }

  ghost predicate ApartFromAll(e: Info, es: seq<Info>)
    requires |e.offsets| == 2 && forall x :: x in es ==> |x.offsets| == 2
  {
    forall x :: x in es ==> Apart(e, x)
  }

  lemma {:induction false} ApartFromInserted(f: Info, e: Info, es: seq<Info>)
    requires |f.offsets| == 2 && |e.offsets| == 2 && forall x :: x in es ==> |x.offsets| == 2
    ensures forall x :: x in Insert(e, es) ==> |x.offsets| == 2
    ensures ApartFromAll(f, Insert(e, es)) <==> Apart(f, e) && ApartFromAll(f, es)
  {
    InsertMembers(e, es);
  }

  lemma {:induction false} InsertPairwise(e: Info, es: seq<Info>)
    requires |e.offsets| == 2 && forall x :: x in es ==> |x.offsets| == 2
    ensures forall x :: x in Insert(e, es) ==> |x.offsets| == 2
    ensures Pairwise(Insert(e, es)) <==> ApartFromAll(e, es) && Pairwise(es)
  {
    InsertMembers(e, es);
    if es == [] || LexLeq(e.offsets, es[0].offsets) {
      assert ([e] + es)[1..] == es;
    } else {
      var rest := es[1..];
      assert forall x :: x in rest ==> x in es;
      InsertPairwise(e, rest);
      ApartFromInserted(es[0], e, rest);
      assert Insert(e, es)[0] == es[0] && Insert(e, es)[1..] == Insert(e, rest);
      assert ApartFromAll(e, es) <==> Apart(e, es[0]) && ApartFromAll(e, rest);
    }
  }

  lemma {:induction false} SortPairwise(es: seq<Info>)
    requires forall x :: x in es ==> |x.offsets| == 2
    ensures forall x :: x in SortedByOffsets(es) ==> |x.offsets| == 2
    ensures Pairwise(SortedByOffsets(es)) <==> Pairwise(es)
  {
    SortMembers(es);
    if es != [] {
      assert forall x :: x in es[1..] ==> x in es;
      SortMembers(es[1..]);
      SortPairwise(es[1..]);
      InsertPairwise(es[0], SortedByOffsets(es[1..]));
    }
  }

  lemma {:induction false} PairwiseIff(es: seq<Info>)
    requires AllWellFormed(es)
    ensures (forall x :: x in es ==> |x.offsets| == 2) && (Pairwise(es) <==> AllApart(es))
  {
    if es != [] {
      PairwiseIff(es[1..]);
      assert forall i :: 0 < i < |es| ==> es[i] == es[1..][i - 1];
      if AllApart(es) {
        forall x | x in es[1..] ensures Apart(es[0], x) {
          var j :| 0 <= j < |es[1..]| && es[1..][j] == x;
          assert x == es[j + 1];
        }
      }
      if Pairwise(es) {
        forall i, j | 0 <= i < j < |es| ensures Apart(es[i], es[j]) {
          if i == 0 { assert es[j] in es[1..]; } else { assert Apart(es[1..][i - 1], es[1..][j - 1]); }
        }
      }
    }
  }

  /** Offsets in order, and with equal starts the shorter first. */
  predicate Below(a: Info, b: Info)
    requires |a.offsets| == 2 && |b.offsets| == 2
  {
    a.offsets[0] < b.offsets[0] || (a.offsets[0] == b.offsets[0] && a.offsets[1] <= b.offsets[1])
  }

  lemma {:induction false} LexOfPairs(a: Info, b: Info)
    requires |a.offsets| == 2 && |b.offsets| == 2
    ensures LexLeq(a.offsets, b.offsets) <==> Below(a, b)
  {
    var x, y := a.offsets, b.offsets;
    assert x[1..][1..] == [] && y[1..][1..] == [];
    assert LexLeq(x[1..], y[1..]) <==> x[1] < y[1] || (x[1] == y[1] && LexLeq([], []));
  }

  ghost predicate Ascending(es: seq<Info>)
    requires forall x :: x in es ==> |x.offsets| == 2
  {
    forall i, j :: 0 <= i < j < |es| ==> Below(es[i], es[j])
  }

  lemma {:induction false} InsertAscending(e: Info, es: seq<Info>)
    requires |e.offsets| == 2 && (forall x :: x in es ==> |x.offsets| == 2) && Ascending(es)
    ensures forall x :: x in Insert(e, es) ==> |x.offsets| == 2
    ensures Ascending(Insert(e, es))
  {
    InsertMembers(e, es);
    if es != [] {
      LexOfPairs(e, es[0]);
      if !LexLeq(e.offsets, es[0].offsets) {
        InsertAscending(e, es[1..]);
        InsertMembers(e, es[1..]);
        var rest := Insert(e, es[1..]);
        forall j | 0 <= j < |rest| ensures Below(es[0], rest[j]) {
          assert rest[j] in rest;
          if rest[j] != e { var k :| 0 <= k < |es[1..]| && es[1..][k] == rest[j]; assert rest[j] == es[k + 1]; }
        }
      }
    }
  }

  lemma {:induction false} SortAscending(es: seq<Info>)
    requires forall x :: x in es ==> |x.offsets| == 2
    ensures (forall x :: x in SortedByOffsets(es) ==> |x.offsets| == 2) && Ascending(SortedByOffsets(es))
  {
    SortMembers(es);
    if es != [] {
      assert forall x :: x in es[1..] ==> x in es;
      SortMembers(es[1..]);
      SortAscending(es[1..]);
      InsertAscending(es[0], SortedByOffsets(es[1..]));
    }
  }

  // ---------- The loop ----------

  /** Entries from the given start on, each beginning where the one before ends; where they end. */
  function EndOf(es: seq<Info>, start: int): Option<int> {
    if es == [] then Some(start)
    else if !WellFormed(es[0]) || es[0].offsets[0] != start then None
    else EndOf(es[1..], es[0].offsets[1])
  }

  method CheckOffsets(es: seq<Info>) returns (r: Option<int>)
    ensures r == EndOf(SortedByOffsets(es), 0)
  {
    var sorted := SortedByOffsets(es);
    var end := 0;
    for i := 0 to |sorted|
      invariant EndOf(sorted, 0) == EndOf(sorted[i..], end)
    {
      var e := sorted[i];
      assert sorted[i..][0] == e && sorted[i..][1..] == sorted[i + 1..];
      if !WellFormed(e) || e.offsets[0] != end { return None; }
      end := e.offsets[1];
    }
    assert sorted[|sorted|..] == [];
    return Some(end);
  }

  // ---------- Accepted exactly when tiled ----------

  lemma {:induction false} ChainTiles(es: seq<Info>, start: int)
    requires EndOf(es, start).Some?
    ensures TilesFrom(es, start, EndOf(es, start).value)
  {
    if es != [] {
      var rest, mid, size := es[1..], es[0].offsets[1], EndOf(es, start).value;
      SpanNotNegative(es[0]);
      ChainTiles(rest, mid);
      PrependTile(es, start, mid, size);
    }
  }

  lemma {:induction false} PrependTile(es: seq<Info>, start: int, mid: int, size: int)
    requires es != [] && TilesFrom(es[1..], mid, size)
    requires WellFormed(es[0]) && es[0].offsets == [start, mid] && start <= mid
    ensures TilesFrom(es, start, size)
  {
    var rest := es[1..];
    forall i | 0 <= i < |es| ensures WellFormed(es[i]) && Inside(es[i], start, size) {
      if i > 0 { assert es[i] == rest[i - 1]; }
    }
    forall i, j | 0 <= i < j < |es| ensures Apart(es[i], es[j]) {
      if i > 0 { assert Apart(rest[i - 1], rest[j - 1]); } else { assert Inside(rest[j - 1], mid, size); }
    }
    forall p | start <= p < size ensures Covered(es, p) {
      if p < mid { assert Covers(es[0], p); } else { assert Covered(rest, p); }
    }
  }

  lemma {:induction false} FirstBegins(es: seq<Info>, start: int, size: int)
    requires TilesFrom(es, start, size) && es != []
    requires (forall x :: x in es ==> |x.offsets| == 2) && Ascending(es)
    ensures es[0].offsets[0] == start
  {
    assert Inside(es[0], start, size);
    forall i | 0 <= i < |es| ensures es[0].offsets[0] <= es[i].offsets[0] {
      if i > 0 { assert Below(es[0], es[i]); }
    }
    if start < size { assert Covered(es, start); }
  }

  /** The first of a sorted tiling begins at its start, and the rest tile on from its end. */
  lemma {:induction false} FirstTile(es: seq<Info>, start: int, size: int)
    requires TilesFrom(es, start, size) && es != []
    requires (forall x :: x in es ==> |x.offsets| == 2) && Ascending(es)
    ensures es[0].offsets[0] == start && TilesFrom(es[1..], es[0].offsets[1], size)
  {
    FirstBegins(es, start, size);
    var rest, mid := es[1..], es[0].offsets[1];
    forall i | 0 <= i < |rest| ensures WellFormed(rest[i]) && Inside(rest[i], mid, size) {
      assert Below(es[0], es[i + 1]) && Apart(es[0], es[i + 1]) && Inside(es[i + 1], start, size);
    }
    forall i, j | 0 <= i < j < |rest| ensures Apart(rest[i], rest[j]) { assert Apart(es[i + 1], es[j + 1]); }
    assert Inside(es[0], start, size);
    forall p | mid <= p < size ensures Covered(rest, p) {
      assert Covered(es, p);
      var e :| e in es && Covers(e, p);
      assert e in rest;
    }
  }

  lemma {:induction false} TilesChain(es: seq<Info>, start: int, size: int)
    requires TilesFrom(es, start, size)
    requires (forall x :: x in es ==> |x.offsets| == 2) && Ascending(es)
    ensures EndOf(es, start) == Some(size)
  {
    if es == [] {
      assert start < size ==> Covered(es, start);
    } else {
      FirstTile(es, start, size);
      forall i, j | 0 <= i < j < |es[1..]| ensures Below(es[1..][i], es[1..][j]) { assert Below(es[i + 1], es[j + 1]); }
      assert WellFormed(es[0]);
      TilesChain(es[1..], es[0].offsets[1], size);
    }
  }

  /** Sorting does not change what is tiled. */
  lemma {:induction false} SortingKeepsTiles(es: seq<Info>, size: nat)
    ensures Tiles(es, size) <==> Tiles(SortedByOffsets(es), size)
  {
    var sorted := SortedByOffsets(es);
    SortMembers(es);
    forall i | 0 <= i < |es| ensures es[i] in sorted { }
    forall i | 0 <= i < |sorted| ensures sorted[i] in es { }
    forall p ensures Covered(es, p) <==> Covered(sorted, p) { }
    if AllWellFormed(es) {
      PairwiseIff(es);
      PairwiseIff(sorted);
      SortPairwise(es);
    }
  }

  /** The check succeeds with the given payload size exactly when the entries tile a payload of that size. */
  lemma {:induction false} AcceptedIffTiled(es: seq<Info>, size: nat)
    ensures EndOf(SortedByOffsets(es), 0) == Some(size) <==> Tiles(es, size)
  {
    var sorted := SortedByOffsets(es);
    SortingKeepsTiles(es, size);
    if EndOf(sorted, 0) == Some(size) { ChainTiles(sorted, 0); }
    if Tiles(sorted, size) {
      SortMembers(es);
      SortAscending(es);
      TilesChain(sorted, 0, size);
    }
  }
}

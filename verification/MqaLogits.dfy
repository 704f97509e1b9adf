/**
 The two paged multi-query logits kernels of bench/repro/sm12x_mqa_old.py.
 Tensors are functions of their logical indices, and minus infinity is None;
 both kernels store the same untiled sum over heads and dimensions.
 */
module MqaLogits {
  import opened Common

  datatype Inputs = Inputs(
    q: (int, int, int, int) -> real,
    k: (int, int, int) -> real,
    scale: (int, int) -> real,
    weight: (int, int) -> real,
    contextLen: (int, int) -> int,
    blockTable: (int, int) -> int,
    shape: Shape)

  datatype Shape = Shape(rows: nat, width: nat, nextN: nat, heads: nat, dim: nat, blockSize: nat, tokenStart: nat)

  predicate ShapeOk(s: Shape) { s.nextN >= 1 && s.blockSize >= 1 }

  /** A logical row: its batch entry and its query position. */
  function BatchOf(s: Shape, row: nat): nat
    requires ShapeOk(s)
  {
    row / s.nextN
  }

  function PosOf(s: Shape, row: nat): int
    requires ShapeOk(s)
  {
    row - BatchOf(s, row) * s.nextN
  }

  /** Where a token's key lives: the block of its page and the place inside it. */
  function RankOf(s: Shape, n: nat): nat
    requires ShapeOk(s)
  {
    n / s.blockSize
  }

  function OffsetOf(s: Shape, n: nat): int
    requires ShapeOk(s)
  {
    n - RankOf(s, n) * s.blockSize
  }

  // ---------- The untiled definition ----------

  function Product(x: Inputs, b: int, p: int, h: int, block: int, off: int, d: int): real {
    x.q(b, p, h, d) * x.k(block, off, d)
  }

  /** Dot product of query head h and one key over dimensions lo to hi. */
  function Dot(x: Inputs, b: int, p: int, h: int, block: int, off: int, lo: int, hi: int): real
    decreases hi - lo
  {
    if hi <= lo then 0.0 else Dot(x, b, p, h, block, off, lo, hi - 1) + Product(x, b, p, h, block, off, hi - 1)
  }

  function Relu(v: real): real { if v >= 0.0 then v else 0.0 }

  /** One head's share: the scaled score, not below zero, times the head's weight. */
  function Share(score: real, scale: real, weight: real): real { Relu(score * scale) * weight }

  function HeadShare(x: Inputs, row: nat, block: int, off: int, h: int): real
    requires ShapeOk(x.shape)
  {
    Share(Dot(x, BatchOf(x.shape, row), PosOf(x.shape, row), h, block, off, 0, x.shape.dim),
          x.scale(block, off), x.weight(row, h))
  }

  function HeadSum(x: Inputs, row: nat, block: int, off: int, lo: int, hi: int): real
    requires ShapeOk(x.shape)
    decreases hi - lo
  {
    if hi <= lo then 0.0 else HeadSum(x, row, block, off, lo, hi - 1) + HeadShare(x, row, block, off, hi - 1)
  }

  predicate InContext(x: Inputs, row: nat, col: nat)
    requires ShapeOk(x.shape)
  {
    x.shape.tokenStart + col < x.contextLen(BatchOf(x.shape, row), PosOf(x.shape, row))
  }

  function Logit(x: Inputs, row: nat, col: nat): Option<real>
    requires ShapeOk(x.shape)
  {
    var n := x.shape.tokenStart + col;
    if InContext(x, row, col)
    then Some(HeadSum(x, row, x.blockTable(BatchOf(x.shape, row), RankOf(x.shape, n)), OffsetOf(x.shape, n), 0, x.shape.heads))
    else None
  }

  lemma {:induction false} DotSplits(x: Inputs, b: int, p: int, h: int, block: int, off: int, lo: int, mid: int, hi: int)
    requires lo <= mid <= hi
    ensures Dot(x, b, p, h, block, off, lo, hi) == Dot(x, b, p, h, block, off, lo, mid) + Dot(x, b, p, h, block, off, mid, hi)
    decreases hi - mid
  {
    if mid < hi { DotSplits(x, b, p, h, block, off, lo, mid, hi - 1); }
  }

  lemma {:induction false} HeadSumSplits(x: Inputs, row: nat, block: int, off: int, lo: int, mid: int, hi: int)
    requires ShapeOk(x.shape) && lo <= mid <= hi
    ensures HeadSum(x, row, block, off, lo, hi) == HeadSum(x, row, block, off, lo, mid) + HeadSum(x, row, block, off, mid, hi)
    decreases hi - mid
  {
    if mid < hi { HeadSumSplits(x, row, block, off, lo, mid, hi - 1); }
  }

  // ---------- What a logit is ----------

  function Total(s: seq<real>): real {
    if s == [] then 0.0 else Total(s[..|s| - 1]) + s[|s| - 1]
  }

  /** Block and place of the key that logical column col of a row is about. */
  function KeyBlock(x: Inputs, row: nat, col: nat): int
    requires ShapeOk(x.shape)
  {
    x.blockTable(row / x.shape.nextN, (x.shape.tokenStart + col) / x.shape.blockSize)
  }

  function KeyPlace(x: Inputs, col: nat): int
    requires ShapeOk(x.shape)
  {
    (x.shape.tokenStart + col) % x.shape.blockSize
  }

  /** Products of query head h and that key, dimension by dimension. */
  function Products(x: Inputs, row: nat, col: nat, h: int): (s: seq<real>)
    requires ShapeOk(x.shape)
    ensures |s| == x.shape.dim
    ensures forall d :: 0 <= d < |s| ==>
      s[d] == x.q(row / x.shape.nextN, row % x.shape.nextN, h, d) * x.k(KeyBlock(x, row, col), KeyPlace(x, col), d)
  {
    seq(x.shape.dim, d => x.q(row / x.shape.nextN, row % x.shape.nextN, h, d) * x.k(KeyBlock(x, row, col), KeyPlace(x, col), d))
  }

  /** Their sum, scaled. */
  function Score(x: Inputs, row: nat, col: nat, h: int): real
    requires ShapeOk(x.shape)
  {
    Total(Products(x, row, col, h)) * x.scale(KeyBlock(x, row, col), KeyPlace(x, col))
  }

  /** What every head adds: nothing for a score that is not positive. */
  function Terms(x: Inputs, row: nat, col: nat): (s: seq<real>)
    requires ShapeOk(x.shape)
    ensures |s| == x.shape.heads
    ensures forall h :: 0 <= h < |s| ==> s[h] == if Score(x, row, col, h) > 0.0 then Score(x, row, col, h) * x.weight(row, h) else 0.0
  {
    seq(x.shape.heads, h => if Score(x, row, col, h) > 0.0 then Score(x, row, col, h) * x.weight(row, h) else 0.0)
  }

  /** v is minus infinity past the row's context, and what the heads add up to otherwise. */
  predicate IsLogit(x: Inputs, row: nat, col: nat, v: Option<real>)
    requires ShapeOk(x.shape)
  {
    v == if x.shape.tokenStart + col < x.contextLen(row / x.shape.nextN, row % x.shape.nextN)
         then Some(Total(Terms(x, row, col))) else None
  }

  lemma {:induction false} DotIsTotal(x: Inputs, row: nat, col: nat, h: int, n: nat)
    requires ShapeOk(x.shape) && n <= x.shape.dim
    ensures Dot(x, row / x.shape.nextN, row % x.shape.nextN, h, KeyBlock(x, row, col), KeyPlace(x, col), 0, n)
         == Total(Products(x, row, col, h)[..n])
  {
    if n > 0 {
      DotIsTotal(x, row, col, h, n - 1);
      assert Products(x, row, col, h)[..n][..n - 1] == Products(x, row, col, h)[..n - 1];
    }
  }

  lemma {:induction false} PlacesAgree(x: Inputs, row: nat, col: nat)
    requires ShapeOk(x.shape)
    ensures BatchOf(x.shape, row) == row / x.shape.nextN && PosOf(x.shape, row) == row % x.shape.nextN
    ensures x.blockTable(BatchOf(x.shape, row), RankOf(x.shape, x.shape.tokenStart + col)) == KeyBlock(x, row, col)
    ensures OffsetOf(x.shape, x.shape.tokenStart + col) == KeyPlace(x, col)
  {
  }

  lemma {:induction false} ShareIsTerm(x: Inputs, row: nat, col: nat, h: nat)
    requires ShapeOk(x.shape) && h < x.shape.heads
    ensures HeadShare(x, row, KeyBlock(x, row, col), KeyPlace(x, col), h) == Terms(x, row, col)[h]
  {
    PlacesAgree(x, row, col);
    DotIsTotal(x, row, col, h, x.shape.dim);
    assert Products(x, row, col, h)[..x.shape.dim] == Products(x, row, col, h);
  }

  lemma {:induction false} HeadSumIsTotal(x: Inputs, row: nat, col: nat, n: nat)
    requires ShapeOk(x.shape) && n <= x.shape.heads
    ensures HeadSum(x, row, KeyBlock(x, row, col), KeyPlace(x, col), 0, n) == Total(Terms(x, row, col)[..n])
  {
    if n > 0 {
      HeadSumIsTotal(x, row, col, n - 1);
      ShareIsTerm(x, row, col, n - 1);
      assert Terms(x, row, col)[..n][..n - 1] == Terms(x, row, col)[..n - 1];
    }
  }

  lemma {:induction false} HeadsAddUp(x: Inputs, row: nat, col: nat, block: int, place: int)
    requires ShapeOk(x.shape) && block == KeyBlock(x, row, col) && place == KeyPlace(x, col)
    ensures HeadSum(x, row, block, place, 0, x.shape.heads) == Total(Terms(x, row, col))
  {
    HeadSumIsTotal(x, row, col, x.shape.heads);
    assert Terms(x, row, col)[..x.shape.heads] == Terms(x, row, col);
  }

  lemma {:induction false} ContextAgrees(x: Inputs, row: nat, col: nat, block: int, place: int)
    requires ShapeOk(x.shape) && block == KeyBlock(x, row, col) && place == KeyPlace(x, col)
    ensures Logit(x, row, col) ==
      if x.shape.tokenStart + col < x.contextLen(row / x.shape.nextN, row % x.shape.nextN)
      then Some(HeadSum(x, row, block, place, 0, x.shape.heads)) else None
  {
    PlacesAgree(x, row, col);
  }

  lemma {:induction false} LogitIs(x: Inputs, row: nat, col: nat)
    requires ShapeOk(x.shape)
    ensures IsLogit(x, row, col, Logit(x, row, col))
  {
    var block, place := KeyBlock(x, row, col), KeyPlace(x, col);
    HeadsAddUp(x, row, col, block, place);
    ContextAgrees(x, row, col, block, place);
  }

  lemma {:induction false} TotalIsNotNegative(s: seq<real>)
    requires forall i :: 0 <= i < |s| ==> s[i] >= 0.0
    ensures Total(s) >= 0.0
  {
    if s != [] { TotalIsNotNegative(s[..|s| - 1]); }
  }

  lemma {:induction false} ProductIsNotNegative(x: real, y: real)
    requires x >= 0.0 && y >= 0.0
    ensures x * y >= 0.0
  {
  }

  /** With weights that are not negative, no stored number is. */
  lemma {:induction false} LogitIsNotNegative(x: Inputs, row: nat, col: nat, v: Option<real>)
    requires ShapeOk(x.shape) && IsLogit(x, row, col, v)
    requires forall h :: 0 <= h < x.shape.heads ==> x.weight(row, h) >= 0.0
    ensures v.Some? ==> v.value >= 0.0
  {
    forall h | 0 <= h < x.shape.heads ensures Terms(x, row, col)[h] >= 0.0 {
      if Score(x, row, col, h) > 0.0 { ProductIsNotNegative(Score(x, row, col, h), x.weight(row, h)); }
    }
    TotalIsNotNegative(Terms(x, row, col));
  }

  /** Inputs that differ at most in what this lane does not read, and in the weights of heads that do not score. */
  ghost predicate ReadsSame(x: Inputs, y: Inputs, row: nat, col: nat)
    requires ShapeOk(x.shape)
  {
    var b, p, block, place := row / x.shape.nextN, row % x.shape.nextN, KeyBlock(x, row, col), KeyPlace(x, col);
    && x.shape == y.shape && y.contextLen(b, p) == x.contextLen(b, p) && KeyBlock(y, row, col) == block
    && y.scale(block, place) == x.scale(block, place)
    && (forall h, d :: 0 <= h < x.shape.heads && 0 <= d < x.shape.dim ==> y.q(b, p, h, d) == x.q(b, p, h, d))
    && (forall d :: 0 <= d < x.shape.dim ==> y.k(block, place, d) == x.k(block, place, d))
    && (forall h :: 0 <= h < x.shape.heads && Score(x, row, col, h) > 0.0 ==> y.weight(row, h) == x.weight(row, h))
  }

  lemma {:induction false} ScoresAgree(x: Inputs, y: Inputs, row: nat, col: nat, h: nat)
    requires ShapeOk(x.shape) && ReadsSame(x, y, row, col) && h < x.shape.heads
    ensures Score(x, row, col, h) == Score(y, row, col, h)
  {
    var b, p, block, place := row / x.shape.nextN, row % x.shape.nextN, KeyBlock(x, row, col), KeyPlace(x, col);
    var s, t := Products(x, row, col, h), Products(y, row, col, h);
    forall d | 0 <= d < x.shape.dim ensures s[d] == t[d] {
      assert y.q(b, p, h, d) == x.q(b, p, h, d) && y.k(block, place, d) == x.k(block, place, d);
    }
    assert s == t;
  }

  /**
   A lane depends on its own row's query, on the one key that the block table
   names for its column, and on the weights of the heads that score: nothing
   else changes what is stored.
   */
  lemma {:induction false} LogitReadsOnly(x: Inputs, y: Inputs, row: nat, col: nat, v: Option<real>)
    requires ShapeOk(x.shape) && ReadsSame(x, y, row, col)
    ensures IsLogit(x, row, col, v) <==> IsLogit(y, row, col, v)
  {
    forall h | 0 <= h < x.shape.heads ensures Terms(x, row, col)[h] == Terms(y, row, col)[h] {
      ScoresAgree(x, y, row, col, h);
    }
    assert Terms(x, row, col) == Terms(y, row, col);
  }

  /** With a single head that scores, the number stored is its scaled product times its weight. */
  lemma {:induction false} OneHead(x: Inputs, row: nat, col: nat, v: Option<real>)
    requires ShapeOk(x.shape) && x.shape.heads == 1 && IsLogit(x, row, col, v) && v.Some?
    requires Total(Products(x, row, col, 0)) * x.scale(KeyBlock(x, row, col), KeyPlace(x, col)) > 0.0
    ensures v.value == Total(Products(x, row, col, 0)) * x.scale(KeyBlock(x, row, col), KeyPlace(x, col)) * x.weight(row, 0)
  {
    OneTotal(Terms(x, row, col)[0]);
    assert Terms(x, row, col) == [Terms(x, row, col)[0]];
  }

  lemma {:induction false} TotalAdds(s: seq<real>, t: seq<real>)
    ensures Total(s + t) == Total(s) + Total(t)
  {
    if t == [] {
      assert s + t == s;
    } else {
      TotalAdds(s, t[..|t| - 1]);
      assert (s + t)[..|s + t| - 1] == s + t[..|t| - 1];
    }
  }

  lemma {:induction false} OneTotal(v: real)
    ensures Total([v]) == v
  {
    assert [v][..0] == [];
  }

  // ---------- Masked tiles ----------

  /** One dimension tile: lanes outside the head, or of a masked query or key, load zero. */
  method TileSum(x: Inputs, qMask: bool, kMask: bool, b: int, p: int, h: int, block: int, off: int, d0: nat, blockD: nat)
    returns (sum: real)
    requires d0 <= x.shape.dim
    ensures sum == if qMask && kMask then Dot(x, b, p, h, block, off, d0, Min(d0 + blockD, x.shape.dim)) else 0.0
  {
    sum := 0.0;
    for lane := 0 to blockD
      invariant sum == if qMask && kMask then Dot(x, b, p, h, block, off, d0, Min(d0 + lane, x.shape.dim)) else 0.0
    {
      var d := d0 + lane;
      var q := if qMask && d < x.shape.dim then x.q(b, p, h, d) else 0.0;
      var k := if kMask && d < x.shape.dim then x.k(block, off, d) else 0.0;
      sum := sum + q * k;
    }
  }

  /** The loop over dimension tiles. */
  method Scores(x: Inputs, qMask: bool, kMask: bool, b: int, p: int, h: int, block: int, off: int, blockD: nat)
    returns (scores: real)
    requires blockD >= 1
    ensures scores == if qMask && kMask then Dot(x, b, p, h, block, off, 0, x.shape.dim) else 0.0
  {
    scores := 0.0;
    var d0 := 0;
    while d0 < x.shape.dim
      invariant scores == if qMask && kMask then Dot(x, b, p, h, block, off, 0, Min(d0, x.shape.dim)) else 0.0
      decreases x.shape.dim - d0
    {
      var sum := TileSum(x, qMask, kMask, b, p, h, block, off, d0, blockD);
      DotSplits(x, b, p, h, block, off, 0, d0, Min(d0 + blockD, x.shape.dim));
      scores := scores + sum;
      d0 := d0 + blockD;
    }
  }

  // ---------- The generic kernel ----------

  /** What one lane of the two-dimensional tile computes. */
  method GenericLane(x: Inputs, row: nat, col: nat, blockD: nat) returns (v: Option<real>)
    requires ShapeOk(x.shape) && blockD >= 1
    ensures row < x.shape.rows && col < x.shape.width ==> v == Logit(x, row, col)
  {
    var s := x.shape;
    var validM, validN := row < s.rows, col < s.width;
    var batch, pos, n := BatchOf(s, row), PosOf(s, row), s.tokenStart + col;
    var contextLen := if validM then x.contextLen(batch, pos) else 0;
    var contextMask := validN && n < contextLen;
    var off := OffsetOf(s, n);
    var block := if validM && validN then x.blockTable(batch, RankOf(s, n)) else 0;
    var scale := if contextMask then x.scale(block, off) else 0.0;
    var logits := 0.0;
    for h := 0 to s.heads
      invariant contextMask && validM ==> logits == HeadSum(x, row, block, off, 0, h)
    {
      var scores := Scores(x, validM, contextMask, batch, pos, h, block, off, blockD);
      var weight := if validM then x.weight(row, h) else 0.0;
      logits := logits + Share(scores, scale, weight);
    }
    v := if contextMask && validM && validN then Some(logits) else None;
  }

  /** The part of the output a program with the given first row and column stores. */
  ghost predicate Stored(x: Inputs, now: array2<Option<real>>, r0: nat, r1: nat, c0: nat, c1: nat)
    requires ShapeOk(x.shape) && now.Length0 == x.shape.rows && now.Length1 == x.shape.width
    reads now
  {
    forall r, c :: r0 <= r < r1 && r < x.shape.rows && c0 <= c < c1 && c < x.shape.width ==> now[r, c] == Logit(x, r, c)
  }

  /** Every number of the output is what it should be. */
  ghost predicate AreLogits(x: Inputs, now: array2<Option<real>>)
    requires ShapeOk(x.shape) && now.Length0 == x.shape.rows && now.Length1 == x.shape.width
    reads now
  {
    forall r, c :: 0 <= r < x.shape.rows && 0 <= c < x.shape.width ==> IsLogit(x, r, c, now[r, c])
  }

  lemma {:induction false} StoredAreLogits(x: Inputs, now: array2<Option<real>>)
    requires ShapeOk(x.shape) && now.Length0 == x.shape.rows && now.Length1 == x.shape.width
    requires Stored(x, now, 0, x.shape.rows, 0, x.shape.width)
    ensures AreLogits(x, now)
  {
    forall r, c | 0 <= r < x.shape.rows && 0 <= c < x.shape.width ensures IsLogit(x, r, c, now[r, c]) {
      LogitIs(x, r, c);
    }
  }

  /** One row of a tile. */
  method GenericRow(x: Inputs, row: nat, n0: nat, blockN: nat, blockD: nat, out: array2<Option<real>>)
    requires ShapeOk(x.shape) && blockD >= 1 && out.Length0 == x.shape.rows && out.Length1 == x.shape.width
    modifies out
    ensures Stored(x, out, row, row + 1, n0, n0 + blockN)
    ensures forall r, c :: 0 <= r < out.Length0 && 0 <= c < out.Length1 && old(out[r, c]) == Logit(x, r, c) ==> out[r, c] == Logit(x, r, c)
  {
    for j := 0 to blockN
      invariant Stored(x, out, row, row + 1, n0, n0 + j)
      invariant forall r, c :: 0 <= r < out.Length0 && 0 <= c < out.Length1 && old(out[r, c]) == Logit(x, r, c) ==> out[r, c] == Logit(x, r, c)
    {
      var v := GenericLane(x, row, n0 + j, blockD);
      if row < x.shape.rows && n0 + j < x.shape.width { out[row, n0 + j] := v; }
    }
  }

  /** One program: a tile of rows and columns, stored under its mask. */
  method GenericProgram(x: Inputs, m0: nat, n0: nat, blockM: nat, blockN: nat, blockD: nat, out: array2<Option<real>>)
    requires ShapeOk(x.shape) && blockD >= 1 && out.Length0 == x.shape.rows && out.Length1 == x.shape.width
    modifies out
    ensures Stored(x, out, m0, m0 + blockM, n0, n0 + blockN)
    ensures forall r, c :: 0 <= r < out.Length0 && 0 <= c < out.Length1 && old(out[r, c]) == Logit(x, r, c) ==> out[r, c] == Logit(x, r, c)
  {
    for i := 0 to blockM
      invariant Stored(x, out, m0, m0 + i, n0, n0 + blockN)
      invariant forall r, c :: 0 <= r < out.Length0 && 0 <= c < out.Length1 && old(out[r, c]) == Logit(x, r, c) ==> out[r, c] == Logit(x, r, c)
    {
      GenericRow(x, m0 + i, n0, blockN, blockD, out);
    }
  }

  /** The launch: a grid of programs that covers every row and column. */
  method Generic(x: Inputs, blockM: nat, blockN: nat, blockD: nat, out: array2<Option<real>>)
    requires ShapeOk(x.shape) && blockM >= 1 && blockN >= 1 && blockD >= 1
    requires out.Length0 == x.shape.rows && out.Length1 == x.shape.width
    modifies out
    ensures Stored(x, out, 0, x.shape.rows, 0, x.shape.width) && AreLogits(x, out)
  {
    var m0 := 0;
    while m0 < x.shape.rows
      invariant Stored(x, out, 0, m0, 0, x.shape.width)
      decreases x.shape.rows - m0
    {
      var n0 := 0;
      while n0 < x.shape.width
        invariant Stored(x, out, 0, m0, 0, x.shape.width) && Stored(x, out, m0, m0 + blockM, 0, n0)
        decreases x.shape.width - n0
      {
        GenericProgram(x, m0, n0, blockM, blockN, blockD, out);
        n0 := n0 + blockN;
      }
      m0 := m0 + blockM;
    }
    StoredAreLogits(x, out);
  }

  // ---------- The row-wise kernel ----------

  /** One head tile: heads beyond the last contribute nothing. */
  method HeadTile(x: Inputs, validRow: bool, contextMask: bool, row: nat, block: int, off: int, scale: real, h0: nat, blockH: nat, blockD: nat)
    returns (sum: real)
    requires ShapeOk(x.shape) && blockD >= 1 && h0 <= x.shape.heads
    requires contextMask ==> scale == x.scale(block, off)
    ensures validRow && contextMask ==> sum == HeadSum(x, row, block, off, h0, Min(h0 + blockH, x.shape.heads))
  {
    sum := 0.0;
    for lane := 0 to blockH
      invariant validRow && contextMask ==> sum == HeadSum(x, row, block, off, h0, Min(h0 + lane, x.shape.heads))
    {
      var h := h0 + lane;
      var validH := h < x.shape.heads;
      var scores := Scores(x, validRow && validH, contextMask, BatchOf(x.shape, row), PosOf(x.shape, row), h, block, off, blockD);
      var weight := if validRow && validH then x.weight(row, h) else 0.0;
      sum := sum + Share(scores, scale, weight);
    }
  }

  method RowwiseLane(x: Inputs, row: nat, col: nat, blockH: nat, blockD: nat) returns (v: Option<real>)
    requires ShapeOk(x.shape) && blockH >= 1 && blockD >= 1
    ensures row < x.shape.rows && col < x.shape.width ==> v == Logit(x, row, col)
  {
    var s := x.shape;
    var validRow, validN := row < s.rows, col < s.width;
    var batch, n := BatchOf(s, row), s.tokenStart + col;
    var contextLen := if validRow then x.contextLen(batch, PosOf(s, row)) else 0;
    var contextMask := validN && n < contextLen;
    var off := OffsetOf(s, n);
    var block := if validRow && contextMask then x.blockTable(batch, RankOf(s, n)) else 0;
    var scale := if contextMask then x.scale(block, off) else 0.0;
    var logits, h0 := 0.0, 0;
    while h0 < s.heads
      invariant validRow && contextMask ==> logits == HeadSum(x, row, block, off, 0, Min(h0, s.heads))
      decreases s.heads - h0
    {
      var sum := HeadTile(x, validRow, contextMask, row, block, off, scale, h0, blockH, blockD);
      HeadSumSplits(x, row, block, off, 0, h0, Min(h0 + blockH, s.heads));
      logits := logits + sum;
      h0 := h0 + blockH;
    }
    v := if contextMask && validRow then Some(logits) else None;
  }

  /** One program: a window of columns of one row, all minus infinity when it begins past the context. */
  method RowwiseProgram(x: Inputs, row: nat, n0: nat, blockN: nat, blockH: nat, blockD: nat, out: array2<Option<real>>)
    requires ShapeOk(x.shape) && blockH >= 1 && blockD >= 1 && out.Length0 == x.shape.rows && out.Length1 == x.shape.width
    modifies out
    ensures Stored(x, out, row, row + 1, n0, n0 + blockN)
    ensures forall r, c :: 0 <= r < out.Length0 && 0 <= c < out.Length1 && old(out[r, c]) == Logit(x, r, c) ==> out[r, c] == Logit(x, r, c)
  {
    var contextLen := if row < x.shape.rows then x.contextLen(BatchOf(x.shape, row), PosOf(x.shape, row)) else 0;
    var past := x.shape.tokenStart + n0 >= contextLen;
    for j := 0 to blockN
      invariant Stored(x, out, row, row + 1, n0, n0 + j)
      invariant forall r, c :: 0 <= r < out.Length0 && 0 <= c < out.Length1 && old(out[r, c]) == Logit(x, r, c) ==> out[r, c] == Logit(x, r, c)
    {
      var v := None;
      if !past { v := RowwiseLane(x, row, n0 + j, blockH, blockD); }
      if row < x.shape.rows && n0 + j < x.shape.width { out[row, n0 + j] := v; }
    }
  }

  method Rowwise(x: Inputs, blockN: nat, blockH: nat, blockD: nat, out: array2<Option<real>>)
    requires ShapeOk(x.shape) && blockN >= 1 && blockH >= 1 && blockD >= 1
    requires out.Length0 == x.shape.rows && out.Length1 == x.shape.width
    modifies out
    ensures Stored(x, out, 0, x.shape.rows, 0, x.shape.width) && AreLogits(x, out)
  {
    for row := 0 to x.shape.rows
      invariant Stored(x, out, 0, row, 0, x.shape.width)
    {
      var n0 := 0;
      while n0 < x.shape.width
        invariant Stored(x, out, 0, row, 0, x.shape.width) && Stored(x, out, row, row + 1, 0, n0)
        decreases x.shape.width - n0
      {
        RowwiseProgram(x, row, n0, blockN, blockH, blockD, out);
        n0 := n0 + blockN;
      }
    }
    StoredAreLogits(x, out);
  }

  /** From any buffer contents and with any tile sizes, the two kernels leave the same logits. */
  method KernelsAgree(x: Inputs, blockM: nat, blockN: nat, blockD: nat, blockN': nat, blockH: nat, blockD': nat,
                      out: array2<Option<real>>, out': array2<Option<real>>)
    requires ShapeOk(x.shape) && blockM >= 1 && blockN >= 1 && blockD >= 1 && blockN' >= 1 && blockH >= 1 && blockD' >= 1
    requires out != out' && out.Length0 == out'.Length0 == x.shape.rows && out.Length1 == out'.Length1 == x.shape.width
    modifies out, out'
    ensures forall r, c :: 0 <= r < x.shape.rows && 0 <= c < x.shape.width ==> out[r, c] == out'[r, c]
  {
    Generic(x, blockM, blockN, blockD, out);
    Rowwise(x, blockN', blockH, blockD', out');
  }
}

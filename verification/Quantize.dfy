/**
 quantize of bench/repack_dense_int8.py: round-to-nearest-even against a scale
 per group, four lanes to a 32-bit word, a block of rows at a time. Weights are
 real numbers; the serialized scale type is a rounding function.
 */
module Quantize {
  import opened Common

  const ROW_VALUES := 256 * 1024

  datatype Error = BadShape | RowTooWide | BadScale

  /** Largest absolute value of row[lo..hi]. */
  function Peak(row: seq<real>, lo: nat, hi: nat): (m: real)
    requires lo <= hi <= |row|
    ensures m >= 0.0 && forall j :: lo <= j < hi ==> Abs(row[j]) <= m
    decreases hi
  {
    if lo == hi then 0.0
    else
      var rest := Peak(row, lo, hi - 1);
      if Abs(row[hi - 1]) > rest then Abs(row[hi - 1]) else rest
  }

  /** Zero groups use scale one. */
  function RawScale(peak: real): real { if peak == 0.0 then 1.0 else peak / 127.0 }

  // ---------- Rounding ----------

  /** To the nearest integer, and to the even one from half way. */
  function RoundEven(x: real): int {
    var f := x.Floor;
    var d := x - f as real;
    if d < 0.5 then f else if d > 0.5 then f + 1 else if f % 2 == 0 then f else f + 1
  }

  function Clamp(q: int): int { if q < -127 then -127 else if q > 127 then 127 else q }

  function Level(v: real, scale: real): int
    requires scale > 0.0
  {
    Clamp(RoundEven(v / scale))
  }

  lemma {:induction false} RoundEvenIsNear(x: real)
    ensures Abs(x - RoundEven(x) as real) <= 0.5
  {
  }

  /** Within reach of the scale, no clamping moves a value by more than half a step. */
  lemma {:induction false} ClampIsNear(x: real)
    requires Abs(x) <= 127.5
    ensures Abs(x - Clamp(RoundEven(x)) as real) <= 0.5
  {
    RoundEvenIsNear(x);
  }

  lemma {:induction false} ScaleError(v: real, scale: real, x: real, q: real)
    requires scale > 0.0 && x == v / scale && Abs(x - q) <= 0.5
    ensures Abs(v - q * scale) <= scale / 2.0
  {
    assert v == x * scale;
    var e := x - q;
    assert v - q * scale == e * scale;
    assert e * scale <= 0.5 * scale && -e * scale <= 0.5 * scale;
  }

  lemma {:induction false} QuotientBound(v: real, scale: real, k: real)
    requires scale > 0.0 && Abs(v) <= k * scale
    ensures Abs(v / scale) <= k
  {
    assert v == (v / scale) * scale;
  }

  /** A dequantized value is at most half a step away, as long as the scale reaches it. */
  lemma {:induction false} LevelIsNear(v: real, scale: real)
    requires scale > 0.0 && Abs(v) <= 127.5 * scale
    ensures Abs(v - Level(v, scale) as real * scale) <= scale / 2.0
  {
    QuotientBound(v, scale, 127.5);
    ClampIsNear(v / scale);
    ScaleError(v, scale, v / scale, Level(v, scale) as real);
  }

  /** The unrounded scale reaches every value of its group. */
  lemma {:induction false} RawScaleReaches(row: seq<real>, lo: nat, hi: nat, j: nat)
    requires lo <= j < hi <= |row|
    ensures RawScale(Peak(row, lo, hi)) > 0.0 && Abs(row[j]) <= 127.5 * RawScale(Peak(row, lo, hi))
  {
  }

  /** Exactly half way the even neighbour is taken. */
  lemma {:induction false} TiesGoToEven(x: real)
    ensures Abs(x - RoundEven(x) as real) == 0.5 ==> RoundEven(x) % 2 == 0
  {
  }

  /** No level is nearer to x than its own. */
  lemma {:induction false} ClampIsNearest(x: real, q: int)
    requires -127 <= q <= 127
    ensures -127 <= Clamp(RoundEven(x)) <= 127
    ensures Abs(x - Clamp(RoundEven(x)) as real) <= Abs(x - q as real)
  {
    RoundEvenIsNear(x);
    NearestInteger(x, RoundEven(x), q);
  }

  lemma {:induction false} NearestInteger(x: real, n: int, q: int)
    requires Abs(x - n as real) <= 0.5
    ensures Abs(x - n as real) <= Abs(x - q as real)
    ensures n > 127 >= q ==> Abs(x - 127.0) <= Abs(x - q as real)
    ensures n < -127 <= q ==> Abs(x + 127.0) <= Abs(x - q as real)
  {
    if q < n { assert (q + 1) as real <= n as real; }
    if q > n { assert (n + 1) as real <= q as real; }
    if n > 127 { assert n as real >= 128.0; }
    if n < -127 { assert n as real <= -128.0; }
  }

  /** The distance to a step, measured in steps. */
  lemma {:induction false} StepDistance(v: real, scale: real, x: real, q: real)
    requires scale > 0.0 && x * scale == v
    ensures Abs(v - q * scale) == Abs(x - q) * scale
  {
    var e := x - q;
    assert v - q * scale == e * scale;
    if e < 0.0 { assert -e * scale >= 0.0; } else { assert e * scale >= 0.0; }
  }

  lemma {:induction false} ScaledOrder(x: real, y: real, scale: real)
    requires x <= y && scale > 0.0
    ensures x * scale <= y * scale
  {
  }

  lemma {:induction false} QuotientTimesScale(v: real, scale: real) returns (x: real)
    requires scale > 0.0
    ensures x == v / scale && x * scale == v
  {
    x := v / scale;
  }

  /** Level l reads back at least as near to v as level q. */
  predicate NoFarther(v: real, l: real, q: real, scale: real) { Abs(v - l * scale) <= Abs(v - q * scale) }

  lemma {:induction false} NearerStep(v: real, scale: real, x: real, l: real, q: real)
    requires scale > 0.0 && x * scale == v && Abs(x - l) <= Abs(x - q)
    ensures NoFarther(v, l, q, scale)
  {
    StepDistance(v, scale, x, l);
    StepDistance(v, scale, x, q);
    ScaledOrder(Abs(x - l), Abs(x - q), scale);
  }

  /** The stored level reads back at least as near as any other level of the range would. */
  lemma {:induction false} LevelIsNearest(v: real, scale: real, q: int)
    requires scale > 0.0 && -127 <= q <= 127
    ensures NoFarther(v, Level(v, scale) as real, q as real, scale)
  {
    var x := QuotientTimesScale(v, scale);
    ClampIsNearest(x, q);
    NearerStep(v, scale, x, Clamp(RoundEven(x)) as real, q as real);
  }

  lemma {:induction false} PeakIsMet(row: seq<real>, lo: nat, hi: nat)
    requires lo <= hi <= |row|
    ensures Peak(row, lo, hi) == 0.0 || exists j :: lo <= j < hi && Abs(row[j]) == Peak(row, lo, hi)
    decreases hi
  {
    if lo < hi { PeakIsMet(row, lo, hi - 1); }
  }

  /** A group's scale before rounding: one if all its weights are zero, otherwise the largest is 127 steps. */
  ghost predicate ScaleFits(row: seq<real>, lo: nat, hi: nat, scale: real)
    requires hi <= |row|
  {
    if forall j :: lo <= j < hi ==> row[j] == 0.0 then scale == 1.0
    else
      && (forall j :: lo <= j < hi ==> Abs(row[j]) <= 127.0 * scale)
      && exists j :: lo <= j < hi && Abs(row[j]) == 127.0 * scale
  }

  lemma {:induction false} RawScaleFits(row: seq<real>, lo: nat, hi: nat)
    requires lo < hi <= |row|
    ensures ScaleFits(row, lo, hi, RawScale(Peak(row, lo, hi)))
  {
    PeakIsMet(row, lo, hi);
    var m := Peak(row, lo, hi);
    if m == 0.0 {
      forall j | lo <= j < hi ensures row[j] == 0.0 { assert Abs(row[j]) <= m; }
    } else {
      assert 127.0 * RawScale(m) == m;
      var j :| lo <= j < hi && Abs(row[j]) == m;
      assert row[j] != 0.0;
    }
  }

  // ---------- Packing ----------

  const WORD := 0x1_0000_0000

  /** A 32-bit pattern read as a signed word. */
  function Signed(n: int): int
    requires 0 <= n < WORD
  {
    if n < 0x8000_0000 then n else n - WORD
  }

  /** Bitwise or of two patterns. */
  function Or(m: nat, n: nat): nat
    decreases m + n
  {
    if m == 0 && n == 0 then 0 else Max(m % 2, n % 2) + 2 * Or(m / 2, n / 2)
  }

  function PowerOfTwo(k: nat): (p: nat)
    ensures p >= 1
  {
    if k == 0 then 1 else 2 * PowerOfTwo(k - 1)
  }

  /** n shifted left by k bits. */
  function Shifted(n: nat, k: nat): nat {
    if k == 0 then n else 2 * Shifted(n, k - 1)
  }

  lemma {:induction false} OrZero(n: nat)
    ensures Or(0, n) == n
  {
    if n > 0 { OrZero(n / 2); }
  }

  lemma {:induction false} OrDoubles(m: nat, high: nat)
    ensures Or(m, 2 * high) == m % 2 + 2 * Or(m / 2, high)
  {
    assert 2 * high % 2 == 0 && 2 * high / 2 == high;
    if m == 0 && high == 0 { OrZero(0); }
  }

  /** Bits that do not meet add up. */
  lemma {:induction false} OrOfApart(low: nat, high: nat, k: nat)
    requires low < PowerOfTwo(k)
    ensures Or(low, Shifted(high, k)) == low + Shifted(high, k)
  {
    if k == 0 {
      OrZero(high);
    } else {
      OrDoubles(low, Shifted(high, k - 1));
      OrOfApart(low / 2, high, k - 1);
    }
  }

  lemma {:induction false} ShiftedByFour(n: nat, k: nat)
    ensures Shifted(n, k + 4) == 16 * Shifted(n, k) && PowerOfTwo(k + 4) == 16 * PowerOfTwo(k)
  {
    assert Shifted(n, k + 4) == 2 * Shifted(n, k + 3) == 4 * Shifted(n, k + 2) == 8 * Shifted(n, k + 1);
    assert PowerOfTwo(k + 4) == 2 * PowerOfTwo(k + 3) == 4 * PowerOfTwo(k + 2) == 8 * PowerOfTwo(k + 1);
  }

  lemma {:induction false} ShiftedByBytes(n: nat)
    ensures Shifted(n, 8) == 256 * n && Shifted(n, 16) == 65536 * n && Shifted(n, 24) == 16777216 * n
    ensures PowerOfTwo(8) == 256 && PowerOfTwo(16) == 65536 && PowerOfTwo(24) == 16777216
  {
    ShiftedByFour(n, 0);
    ShiftedByFour(n, 4);
    ShiftedByFour(n, 8);
    ShiftedByFour(n, 12);
    ShiftedByFour(n, 16);
    ShiftedByFour(n, 20);
  }

  predicate Lane(q: int) { -127 <= q <= 127 }

  /** Four bytes, shifted to their places and joined. */
  function Joined(x: nat, y: nat, z: nat, t: nat): nat {
    Or(Or(Or(x, Shifted(y, 8)), Shifted(z, 16)), Shifted(t, 24))
  }

  lemma {:induction false} JoinSecond(x: nat, y: nat)
    requires x < 256 && y < 256
    ensures Or(x, Shifted(y, 8)) == x + 256 * y < 65536
  {
    ShiftedByBytes(y);
    OrOfApart(x, y, 8);
  }

  lemma {:induction false} JoinThird(low: nat, z: nat)
    requires low < 65536 && z < 256
    ensures Or(low, Shifted(z, 16)) == low + 65536 * z < 16777216
  {
    ShiftedByBytes(z);
    OrOfApart(low, z, 16);
  }

  lemma {:induction false} JoinFourth(low: nat, t: nat)
    requires low < 16777216 && t < 256
    ensures Or(low, Shifted(t, 24)) == low + 16777216 * t < WORD
  {
    ShiftedByBytes(t);
    OrOfApart(low, t, 24);
  }

  lemma {:induction false} JoinedIsSum(x: nat, y: nat, z: nat, t: nat)
    requires x < 256 && y < 256 && z < 256 && t < 256
    ensures Joined(x, y, z, t) == x + y * 256 + z * 65536 + t * 16777216 < WORD
  {
    JoinSecond(x, y);
    JoinThird(x + 256 * y, z);
    JoinFourth(x + 256 * y + 65536 * z, t);
  }

  /** Four levels, stored as q + 128 from the low byte up. */
  function Packed(a: int, b: int, c: int, d: int): int
    requires Lane(a) && Lane(b) && Lane(c) && Lane(d)
  {
    JoinedIsSum(a + 128, b + 128, c + 128, d + 128);
    Signed(Joined(a + 128, b + 128, c + 128, d + 128))
  }

  /** What the loader reads back from lane j of a word. */
  function Unpacked(w: int, j: nat): int {
    var shifted := if j == 0 then Pattern(w) else if j == 1 then Pattern(w) / 256 else if j == 2 then Pattern(w) / 65536
                   else Pattern(w) / 16777216;
    shifted % 256 - 128
  }

  /** Reading a signed word's pattern gives the pattern back. */
  function Pattern(w: int): int { if w < 0 then w + WORD else w }

  lemma {:induction false} PatternOfSigned(n: int)
    requires 0 <= n < WORD
    ensures -0x8000_0000 <= Signed(n) < 0x8000_0000 && Pattern(Signed(n)) == n
  {
  }

  /** The bytes of a pattern, from the low one up. */
  lemma {:induction false} Bytes(x: int, y: int, z: int, t: int)
    requires 0 <= x < 256 && 0 <= y < 256 && 0 <= z < 256 && 0 <= t < 256
    ensures var n := x + y * 256 + z * 65536 + t * 16777216;
      0 <= n < WORD && n % 256 == x && n / 256 % 256 == y && n / 65536 % 256 == z && n / 16777216 % 256 == t
  {
    var n := x + y * 256 + z * 65536 + t * 16777216;
    assert n / 256 == y + z * 256 + t * 65536;
    assert n / 65536 == z + t * 256;
    assert n / 16777216 == t;
  }

  lemma {:induction false} BytesRead(x: int, y: int, z: int, t: int, n: int)
    requires 0 <= x < 256 && 0 <= y < 256 && 0 <= z < 256 && 0 <= t < 256
    requires n == x + y * 256 + z * 65536 + t * 16777216 && 0 <= n < WORD
    ensures var w := Signed(n);
      -0x8000_0000 <= w < 0x8000_0000 &&
      Unpacked(w, 0) == x - 128 && Unpacked(w, 1) == y - 128 && Unpacked(w, 2) == z - 128 && Unpacked(w, 3) == t - 128
  {
    Bytes(x, y, z, t);
    PatternOfSigned(n);
  }

  /** The word of four levels, as a signed number: the first level in the low byte, each stored as its level and 128. */
  lemma {:induction false} PackedIs(a: int, b: int, c: int, d: int)
    requires Lane(a) && Lane(b) && Lane(c) && Lane(d)
    ensures var n := (a + 128) + 0x100 * (b + 128) + 0x1_0000 * (c + 128) + 0x100_0000 * (d + 128);
      Packed(a, b, c, d) == if d + 128 < 128 then n else n - 0x1_0000_0000
  {
    JoinedIsSum(a + 128, b + 128, c + 128, d + 128);
  }

  /** Every lane survives, also when the top byte makes the word negative. */
  lemma {:induction false} LanesSurvive(a: int, b: int, c: int, d: int)
    requires Lane(a) && Lane(b) && Lane(c) && Lane(d)
    ensures var w := Packed(a, b, c, d);
      -0x8000_0000 <= w < 0x8000_0000 &&
      Unpacked(w, 0) == a && Unpacked(w, 1) == b && Unpacked(w, 2) == c && Unpacked(w, 3) == d
  {
    JoinedIsSum(a + 128, b + 128, c + 128, d + 128);
    BytesRead(a + 128, b + 128, c + 128, d + 128, Joined(a + 128, b + 128, c + 128, d + 128));
  }

  lemma {:induction false} LaneReads(a: int, b: int, c: int, d: int, i: nat, q: int)
    requires Lane(a) && Lane(b) && Lane(c) && Lane(d) && i < 4
    requires q == if i == 0 then a else if i == 1 then b else if i == 2 then c else d
    ensures Unpacked(Packed(a, b, c, d), i) == q
  {
    LanesSurvive(a, b, c, d);
  }

  // ---------- Rows ----------

  /** How a row is laid out: groups of equal width, words of four lanes; and rounding to the serialized scale type. */
  datatype Format = Format(group: nat, groups: nat, words: nat, rounded: real -> real)

  predicate Fits(f: Format, k: nat) { f.group >= 1 && k == f.groups * f.group && k == 4 * f.words }

  function GroupStart(f: Format, g: nat): nat { g * f.group }

  lemma {:induction false} GroupsFit(f: Format, k: nat, g: nat)
    requires Fits(f, k) && g < f.groups
    ensures GroupStart(f, g) <= GroupStart(f, g + 1) <= k
  {
    SmallerProduct(g, g + 1, f.group);
    SmallerProduct(g + 1, f.groups, f.group);
  }

  function ScaleAt(row: seq<real>, f: Format, g: nat): real
    requires Fits(f, |row|) && g < f.groups
  {
    GroupsFit(f, |row|, g);
    f.rounded(RawScale(Peak(row, GroupStart(f, g), GroupStart(f, g + 1))))
  }

  /** The group of weight j. */
  function GroupOf(f: Format, k: nat, j: nat): (g: nat)
    requires Fits(f, k) && j < k
    ensures g < f.groups && GroupStart(f, g) <= j < GroupStart(f, g + 1)
  {
    InGroup(f, k, j);
    j / f.group
  }

  lemma {:induction false} InGroup(f: Format, k: nat, j: nat)
    requires Fits(f, k) && j < k
    ensures j / f.group < f.groups && GroupStart(f, j / f.group) <= j < GroupStart(f, j / f.group + 1)
  {
    var q := j / f.group;
    assert j == q * f.group + j % f.group;
    if f.groups <= q { SmallerProduct(f.groups, q, f.group); }
  }

  ghost predicate ScalesOk(row: seq<real>, f: Format)
    requires Fits(f, |row|)
  {
    forall g :: 0 <= g < f.groups ==> ScaleAt(row, f, g) > 0.0
  }

  /** The level of a weight under a scale; a scale that is not positive is rejected before it is used. */
  function LevelOf(v: real, scale: real): (q: int)
    ensures Lane(q)
  {
    if scale > 0.0 then Level(v, scale) else 0
  }

  function LevelAt(row: seq<real>, f: Format, j: nat): (q: int)
    requires Fits(f, |row|) && j < |row|
    ensures Lane(q)
  {
    LevelOf(row[j], ScaleAt(row, f, GroupOf(f, |row|, j)))
  }

  function WordAt(row: seq<real>, f: Format, w: nat): int
    requires Fits(f, |row|) && w < f.words
  {
    Packed(LevelAt(row, f, 4 * w), LevelAt(row, f, 4 * w + 1), LevelAt(row, f, 4 * w + 2), LevelAt(row, f, 4 * w + 3))
  }

  /** The words of a row. */
  function WordsOf(row: seq<real>, f: Format): (words: seq<int>)
    requires Fits(f, |row|)
    ensures |words| == f.words && forall w :: 0 <= w < |words| ==> words[w] == WordAt(row, f, w)
  {
    seq(f.words, w requires 0 <= w < f.words => WordAt(row, f, w))
  }

  /** The stored form of one row. */
  ghost predicate RowStored(row: seq<real>, f: Format, words: seq<int>, scales: seq<real>)
    requires Fits(f, |row|)
  {
    && words == WordsOf(row, f)
    && |scales| == f.groups && (forall g :: 0 <= g < |scales| ==> scales[g] == ScaleAt(row, f, g))
  }

  /** The dequantized value is at most half a step away. */
  predicate Near(v: real, q: int, scale: real) { Abs(v - q as real * scale) <= scale / 2.0 }

  predicate Reaches(scale: real, v: real) { scale > 0.0 && Abs(v) <= 127.5 * scale }

  /** The outermost level is 127 steps away. */
  lemma {:induction false} StepBound(l: real, scale: real, far: real) returns (step: real)
    requires scale > 0.0 && -127.0 <= l <= 127.0 && far == 127.0 * scale
    ensures step == l * scale && -far <= step <= far
  {
    step := l * scale;
    var above, below := 127.0 - l, 127.0 + l;
    assert above * scale >= 0.0;
    assert below * scale >= 0.0;
  }

  /** No level is near a value out of reach. */
  lemma {:induction false} NearIsReached(v: real, q: int, scale: real)
    requires scale > 0.0 && Lane(q) && Near(v, q, scale)
    ensures Reaches(scale, v)
  {
    var far := 127.0 * scale;
    var step := StepBound(q as real, scale, far);
    assert Abs(v - step) <= scale / 2.0;
    assert Abs(v) <= far + scale / 2.0;
  }

  /** A weight is read back to half a step exactly when its scale reaches it. */
  lemma {:induction false} LevelOfIsNear(v: real, scale: real)
    requires scale > 0.0
    ensures Near(v, LevelOf(v, scale), scale) <==> Reaches(scale, v)
  {
    if Reaches(scale, v) { LevelIsNear(v, scale); }
    if Near(v, LevelOf(v, scale), scale) { NearIsReached(v, LevelOf(v, scale), scale); }
  }

  /** Lane i of word w holds the level of weight 4w + i. */
  lemma {:induction false} LaneOfWord(row: seq<real>, f: Format, w: nat, i: nat)
    requires Fits(f, |row|) && w < f.words && i < 4
    ensures Unpacked(WordAt(row, f, w), i) == LevelAt(row, f, 4 * w + i)
  {
    LaneReads(LevelAt(row, f, 4 * w), LevelAt(row, f, 4 * w + 1), LevelAt(row, f, 4 * w + 2), LevelAt(row, f, 4 * w + 3),
              i, LevelAt(row, f, 4 * w + i));
  }

  /** Reading a weight back from the stored row is at most half a step off exactly when its scale reaches it. */
  lemma {:induction false} StoredWeightIsNear(row: seq<real>, f: Format, words: seq<int>, scales: seq<real>, w: nat, i: nat)
    requires Fits(f, |row|) && RowStored(row, f, words, scales) && w < f.words && i < 4
    requires scales[GroupOf(f, |row|, 4 * w + i)] > 0.0
    ensures Near(row[4 * w + i], Unpacked(words[w], i), scales[GroupOf(f, |row|, 4 * w + i)]) <==>
      Reaches(scales[GroupOf(f, |row|, 4 * w + i)], row[4 * w + i])
  {
    LaneOfWord(row, f, w, i);
    var g := GroupOf(f, |row|, 4 * w + i);
    assert scales[g] == ScaleAt(row, f, g);
    LevelOfIsNear(row[4 * w + i], scales[g]);
  }

  /** Every stored scale is the rounded scale of its group's largest weight. */
  lemma {:induction false} StoredScaleIs(row: seq<real>, f: Format, words: seq<int>, scales: seq<real>, g: nat) returns (raw: real)
    requires Fits(f, |row|) && RowStored(row, f, words, scales) && g < f.groups
    ensures scales[g] == f.rounded(raw) && g * f.group < (g + 1) * f.group <= |row|
    ensures ScaleFits(row, g * f.group, (g + 1) * f.group, raw)
  {
    GroupsFit(f, |row|, g);
    assert (g + 1) * f.group == g * f.group + f.group;
    raw := RawScale(Peak(row, GroupStart(f, g), GroupStart(f, g + 1)));
    RawScaleFits(row, g * f.group, (g + 1) * f.group);
  }

  /** Reading a weight back from the stored row is as near as its scale allows. */
  lemma {:induction false} StoredWeightIsNearest(row: seq<real>, f: Format, words: seq<int>, scales: seq<real>, w: nat, i: nat, q: int)
    requires Fits(f, |row|) && RowStored(row, f, words, scales) && w < f.words && i < 4 && Lane(q)
    requires scales[GroupOf(f, |row|, 4 * w + i)] > 0.0
    ensures NoFarther(row[4 * w + i], Unpacked(words[w], i) as real, q as real, scales[GroupOf(f, |row|, 4 * w + i)])
  {
    LaneOfWord(row, f, w, i);
    var g := GroupOf(f, |row|, 4 * w + i);
    assert scales[g] == ScaleAt(row, f, g);
    LevelIsNearest(row[4 * w + i], scales[g], q);
  }

  /** With scales kept exactly, every weight is within reach. */
  lemma {:induction false} ExactScaleReaches(row: seq<real>, f: Format, j: nat)
    requires Fits(f, |row|) && j < |row| && forall x :: f.rounded(x) == x
    ensures Reaches(ScaleAt(row, f, GroupOf(f, |row|, j)), row[j])
  {
    var g := GroupOf(f, |row|, j);
    GroupsFit(f, |row|, g);
    RawScaleReaches(row, GroupStart(f, g), GroupStart(f, g + 1), j);
  }

  // ---------- The matrix ----------

  predicate ShapeOk(n: nat, k: nat, group: nat) { group >= 1 && n >= 1 && k >= 1 && k % 4 == 0 && k % group == 0 }

  /** The layout of rows of k weights, given the group width. */
  function Layout(k: nat, group: nat, rounded: real -> real): (f: Format)
    requires group >= 1
  {
    Format(group, k / group, k / 4, rounded)
  }

  lemma {:induction false} LayoutFits(n: nat, k: nat, group: nat, rounded: real -> real)
    requires ShapeOk(n, k, group)
    ensures Fits(Layout(k, group, rounded), k)
  {
    assert k == (k / group) * group + k % group;
  }

  method RowScales(row: seq<real>, f: Format) returns (ok: bool, scales: seq<real>)
    requires Fits(f, |row|)
    ensures ok <==> ScalesOk(row, f)
    ensures ok ==> |scales| == f.groups && forall g :: 0 <= g < |scales| ==> scales[g] == ScaleAt(row, f, g)
  {
    scales := [];
    for g := 0 to f.groups
      invariant |scales| == g
      invariant forall h :: 0 <= h < g ==> scales[h] == ScaleAt(row, f, h) && scales[h] > 0.0
    {
      var scale := ScaleAt(row, f, g);
      if scale <= 0.0 { return false, []; }
      scales := scales + [scale];
    }
    ok := true;
  }

  method RowWords(row: seq<real>, f: Format) returns (words: seq<int>)
    requires Fits(f, |row|)
    ensures words == WordsOf(row, f)
  {
    ghost var target := WordsOf(row, f);
    words := [];
    for w := 0 to f.words
      invariant |target| == f.words && words == target[..w]
    {
      var word := WordAt(row, f, w);
      OneMore(words, word, target);
      words := words + [word];
    }
  }

  lemma {:induction false} OneMore<T>(s: seq<T>, x: T, target: seq<T>)
    requires |s| < |target| && s == target[..|s|] && x == target[|s|]
    ensures s + [x] == target[..|s| + 1]
  {
  }

  method QuantizeRow(row: seq<real>, f: Format) returns (ok: bool, words: seq<int>, scales: seq<real>)
    requires Fits(f, |row|)
    ensures ok <==> ScalesOk(row, f)
    ensures ok ==> RowStored(row, f, words, scales)
  {
    words := [];
    ok, scales := RowScales(row, f);
    if ok { words := RowWords(row, f); }
  }

  ghost predicate AllFit(weight: seq<seq<real>>, f: Format) {
    forall i :: 0 <= i < |weight| ==> Fits(f, |weight[i]|)
  }

  ghost predicate AllScalesOk(weight: seq<seq<real>>, f: Format)
    requires AllFit(weight, f)
  {
    forall i :: 0 <= i < |weight| ==> ScalesOk(weight[i], f)
  }

  /** The loop over blocks of rows; the block size leaves no trace. */
  method QuantizeBlocks(weight: seq<seq<real>>, f: Format, block: nat) returns (ok: bool, packed: seq<seq<int>>, scales: seq<seq<real>>)
    requires AllFit(weight, f) && block >= 1
    ensures ok <==> AllScalesOk(weight, f)
    ensures ok ==> |packed| == |scales| == |weight|
    ensures ok ==> forall i :: 0 <= i < |weight| ==> RowStored(weight[i], f, packed[i], scales[i])
  {
    var n := |weight|;
    var words := new seq<int>[n];
    var rows := new seq<real>[n];
    var begin := 0;
    while begin < n
      invariant begin <= n
      invariant forall i :: 0 <= i < begin ==> ScalesOk(weight[i], f) && RowStored(weight[i], f, words[i], rows[i])
      decreases n - begin
    {
      var end := Min(n, begin + block);
      for i := begin to end
        invariant forall j :: 0 <= j < i ==> ScalesOk(weight[j], f) && RowStored(weight[j], f, words[j], rows[j])
      {
        var fine, w, s := QuantizeRow(weight[i], f);
        if !fine { return false, [], []; }
        words[i], rows[i] := w, s;
      }
      begin := end;
    }
    return true, words[..], rows[..];
  }

  /** Checks the shape, bounds the block by the scratch limit, and quantizes. */
  method QuantizeMatrix(weight: seq<seq<real>>, k: nat, group: nat, rounded: real -> real, rowBlock: nat)
    returns (r: Result<(seq<seq<int>>, seq<seq<real>>), Error>)
    requires forall i :: 0 <= i < |weight| ==> |weight[i]| == k
    ensures r.Ok? ==>
      rowBlock >= 1 && |weight| >= 1 && k >= 1 && group >= 1 && k % 4 == 0 && k % group == 0 && k <= 262_144
    ensures rowBlock >= 1 && |weight| >= 1 && k >= 1 && group >= 1 && k % 4 == 0 && k % group == 0 && k <= 262_144 ==>
      AllFit(weight, Layout(k, group, rounded)) && (r.Ok? <==> AllScalesOk(weight, Layout(k, group, rounded)))
    ensures r.Ok? ==> |r.value.0| == |r.value.1| == |weight| && AllFit(weight, Layout(k, group, rounded))
    ensures r.Ok? ==> forall i :: 0 <= i < |weight| ==>
      RowStored(weight[i], Layout(k, group, rounded), r.value.0[i], r.value.1[i])
    ensures r.Ok? ==> forall i, g :: 0 <= i < |weight| && 0 <= g < |r.value.1[i]| ==> r.value.1[i][g] > 0.0
  {
    var n := |weight|;
    if rowBlock < 1 || !ShapeOk(n, k, group) { return Err(BadShape); }
    if k > ROW_VALUES { return Err(RowTooWide); }
    AtLeastOne(ROW_VALUES, k);
    LayoutFits(n, k, group, rounded);
    var ok, packed, scales := QuantizeBlocks(weight, Layout(k, group, rounded), Min(n, Min(rowBlock, ROW_VALUES / k)));
    if !ok { return Err(BadScale); }
    return Ok((packed, scales));
  }

  lemma {:induction false} LayoutIs(n: nat, k: nat, group: nat, rounded: real -> real, f: Format)
    requires ShapeOk(n, k, group) && f == Layout(k, group, rounded)
    ensures Fits(f, k) && f.group == group && f.groups == k / group && f.words == k / 4 && f.rounded == rounded
    ensures forall j :: 0 <= j < k ==> GroupOf(f, k, j) == j / group
  {
    LayoutFits(n, k, group, rounded);
  }

  /**
   What a quantized row holds: a word per four weights and a scale per group of
   the requested width, and each weight, read back with its group's scale, as
   near as any level would be.
   */
  lemma {:induction false} QuantizedRowMeans(row: seq<real>, n: nat, k: nat, group: nat, f: Format,
                                             words: seq<int>, scales: seq<real>, w: nat, i: nat, g: nat, q: int)
    requires ShapeOk(n, k, group) && |row| == k && f == Layout(k, group, f.rounded) && Fits(f, k) && RowStored(row, f, words, scales)
    requires w < k / 4 && i < 4 && g == (4 * w + i) / group && -127 <= q <= 127
    ensures |words| == k / 4 && |scales| == k / group && g < |scales| && 4 * w + i < k
    ensures scales[g] > 0.0 ==> NoFarther(row[4 * w + i], Unpacked(words[w], i) as real, q as real, scales[g])
  {
    LayoutIs(n, k, group, f.rounded, f);
    assert GroupOf(f, k, 4 * w + i) == g;
    if scales[g] > 0.0 { StoredWeightIsNearest(row, f, words, scales, w, i, q); }
  }

  /** Each of its scales is the rounded scale of the group's own weights. */
  lemma {:induction false} QuantizedScaleMeans(row: seq<real>, n: nat, k: nat, group: nat, rounded: real -> real,
                                               words: seq<int>, scales: seq<real>, g: nat) returns (raw: real)
    requires ShapeOk(n, k, group) && |row| == k && g < k / group
    requires Fits(Layout(k, group, rounded), k) && RowStored(row, Layout(k, group, rounded), words, scales)
    ensures |scales| == k / group && scales[g] == rounded(raw)
    ensures (g + 1) * group <= k && ScaleFits(row, g * group, (g + 1) * group, raw)
  {
    raw := StoredScaleIs(row, Layout(k, group, rounded), words, scales, g);
  }

  /** A matrix of the right shape is refused only for a group whose rounded scale is not positive. */
  lemma {:induction false} BadScaleIs(weight: seq<seq<real>>, n: nat, k: nat, group: nat, rounded: real -> real)
    returns (i: nat, g: nat, raw: real)
    requires ShapeOk(n, k, group) && AllFit(weight, Layout(k, group, rounded)) && !AllScalesOk(weight, Layout(k, group, rounded))
    ensures i < |weight| && (g + 1) * group <= |weight[i]| && ScaleFits(weight[i], g * group, (g + 1) * group, raw)
    ensures rounded(raw) <= 0.0
  {
    var f := Layout(k, group, rounded);
    i :| 0 <= i < |weight| && !ScalesOk(weight[i], f);
    g :| 0 <= g < f.groups && ScaleAt(weight[i], f, g) <= 0.0;
    GroupsFit(f, |weight[i]|, g);
    assert (g + 1) * group == g * group + group;
    raw := RawScale(Peak(weight[i], GroupStart(f, g), GroupStart(f, g + 1)));
    RawScaleFits(weight[i], g * group, (g + 1) * group);
  }

  lemma {:induction false} AtLeastOne(n: nat, k: nat)
    requires 1 <= k <= n
    ensures n / k >= 1
  {
    var q := n / k;
    assert n == q * k + n % k;
    assert q == 0 ==> q * k == 0;
  }
}

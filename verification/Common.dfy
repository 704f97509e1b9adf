/** Small datatypes and sequence facts shared by every other module. */
module Common {

  datatype Option<+T> = None | Some(value: T)

  /** A value, or the exception the source raises instead. */
  datatype Result<+T, +E> = Ok(value: T) | Err(error: E)

  function Max(a: int, b: int): int { if a >= b then a else b }

  function Min(a: int, b: int): int { if a <= b then a else b }

  /** The integers lo, lo+1, ..., hi-1 (empty when hi <= lo). */
  function Range(lo: int, hi: int): (r: seq<int>)
    ensures |r| == Max(0, hi - lo)
    ensures forall i :: 0 <= i < |r| ==> r[i] == lo + i
    ensures forall p :: p in r <==> lo <= p < hi
    decreases hi - lo
  {
    if hi <= lo then [] else Range(lo, hi - 1) + [hi - 1]
  }

  /** Concatenation of a sequence of sequences. */
  function Flatten<T>(parts: seq<seq<T>>): seq<T> {
    if parts == [] then [] else parts[0] + Flatten(parts[1..])
  }

  /** A finite set of integers inside [lo, hi) has at most hi - lo members. */
  lemma {:induction false} SetInRange(s: set<int>, lo: int, hi: int)
    requires lo <= hi
    requires forall p :: p in s ==> lo <= p < hi
    ensures |s| <= hi - lo
    decreases hi - lo
  {
    if lo == hi {
      assert s == {};
    } else {
      SetInRange(s - {lo}, lo + 1, hi);
    }
  }

  lemma {:induction false} MapInRange<V>(m: map<int, V>, lo: int, hi: int)
    requires lo <= hi
    requires forall p :: p in m ==> lo <= p < hi
    ensures |m| <= hi - lo
  {
    SetInRange(m.Keys, lo, hi);
  }

  lemma {:induction false} SubsetSize<T>(a: set<T>, b: set<T>)
    requires a <= b
    ensures |a| <= |b|
    decreases |a|
  {
    if a != {} {
      var x :| x in a;
      SubsetSize(a - {x}, b - {x});
    }
  }

  /** One for a condition that holds, to be added up. */
  function One(condition: bool): nat { if condition then 1 else 0 }

  function Abs(x: real): real { if x < 0.0 then -x else x }

  lemma {:induction false} SmallerProduct(x: nat, y: nat, n: nat)
    requires x <= y
    ensures x * n <= y * n
  {
  }
}

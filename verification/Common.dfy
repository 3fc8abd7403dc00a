/** Small shared vocabulary: an optional value, as the source's nullable pointers and "infinite" ticks. */
module Common {

  datatype Option<+T> = None | Some(value: T)

  /** The integers lo, lo+1, ..., hi-1. */
  function Range(lo: nat, hi: nat): (r: seq<nat>)
    requires lo <= hi
    ensures |r| == hi - lo
    ensures forall i :: 0 <= i < |r| ==> r[i] == lo + i
  {
    seq(hi - lo, i requires 0 <= i => lo + i)
  }

  function Max(a: int, b: int): int {
    if a < b then b else a
  }
}

/** Division facts that the solver does not find by itself. */
module Arith {

  lemma DivShift(t: nat, k: nat, m: nat)
    requires m > 0
    ensures (t + k * m) / m == t / m + k && (t + k * m) % m == t % m
  {
    assert t + k * m == m * (t / m + k) + t % m;
    DivUnique(t + k * m, t / m + k, t % m, m);
  }

  lemma DivUnique(x: nat, q: nat, r: nat, m: nat)
    requires m > 0 && x == m * q + r && r < m
    ensures x / m == q && x % m == r
  {
    assert x == m * (x / m) + x % m;
    assert (x / m - q) * m == r - x % m;
    SmallMultiple(x / m - q, m);
  }

  lemma SmallMultiple(d: int, m: int)
    requires m >= 0
    ensures d > 0 ==> d * m >= m
    ensures d < 0 ==> d * m <= -m
  {
    if d > 0 { AtLeast(d, m); }
    if d < 0 {
      AtLeast(-d, m);
      assert (-d) * m == -(d * m);
    }
  }

  lemma {:induction false} AtLeast(d: nat, m: nat)
    requires d > 0
    ensures d * m >= m
  {
    if d > 1 {
      AtLeast(d - 1, m);
      assert d * m == (d - 1) * m + m;
    }
  }

  lemma DivOrder(a: nat, b: nat, ratio: nat)
    requires ratio > 0 && a <= b
    ensures a / ratio <= b / ratio
  {
    assert a == a / ratio * ratio + a % ratio && b == b / ratio * ratio + b % ratio;
    assert (a / ratio - b / ratio) * ratio == a / ratio * ratio - b / ratio * ratio;
    SmallMultiple(a / ratio - b / ratio, ratio);
  }

  lemma MultipleOf(q: nat, m: nat)
    requires m > 0
    ensures m * q / m == q && m * q % m == 0
  {
    DivUnique(m * q, q, 0, m);
  }
}

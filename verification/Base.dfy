/** Small shared vocabulary: optional values, minima and rounding up. */
module Base {

  datatype Option<+T> = None | Some(value: T)

  function Min(a: int, b: int): int {
    if a <= b then a else b
  }

  function Max(a: int, b: int): int {
    if a >= b then a else b
  }

  /** Division rounded up, as in the number of pages a list needs. */
  function CeilDiv(a: int, b: int): (c: int)
    requires b > 0
    ensures a >= 0 ==> c >= 0
  {
    (a + b - 1) / b
  }

  lemma MulMonotone(x: int, y: int, b: nat)
    requires x <= y
    ensures x * b <= y * b
  {
  }

  /** The quotient is where multiples of the divisor enclose the dividend. */
  lemma QuotientBetween(x: int, w: nat, q: int)
    requires w >= 1
    ensures q <= x / w <==> q * w <= x
    ensures (x / w) * w <= x < (x / w) * w + w
  {
    var d := x / w;
    assert x == d * w + x % w;
    if q <= d {
      MulMonotone(q, d, w);
    } else {
      MulMonotone(d + 1, q, w);
      assert (d + 1) * w == d * w + w;
    }
  }

  /** `CeilDiv(n, b)` is the least number of blocks of size `b` that covers `n`. */
  lemma CeilDivIsLeastCover(n: nat, b: nat, c: nat)
    requires b >= 1
    ensures c * b >= n <==> c >= CeilDiv(n, b)
  {
    QuotientBetween(n + b - 1, b, c + 1);
    assert (c + 1) * b == c * b + b;
  }

  lemma DivMonotone(x: int, y: int, w: nat)
    requires w >= 1 && x <= y
    ensures x / w <= y / w
  {
    QuotientBetween(x, w, x / w);
    QuotientBetween(y, w, x / w);
  }

  function Sum(q: seq<nat>): nat {
    if q == [] then 0 else q[0] + Sum(q[1..])
  }

  lemma {:induction false} SumAppend(p: seq<nat>, q: seq<nat>)
    ensures Sum(p + q) == Sum(p) + Sum(q)
  {
    if p == [] {
      assert p + q == q;
    } else {
      SumAppend(p[1..], q);
      assert (p + q)[1..] == p[1..] + q;
    }
  }
}

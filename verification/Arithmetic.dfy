/** Remainders by a symbolic divisor, which the solver does not manage unaided. */
module Arithmetic {

  lemma MultipleAtLeast(v: nat, p: int, q: int)
    requires p > q
    ensures p * v >= q * v + v
  {
    var d := p - q - 1;
    assert p * v == q * v + v + d * v;
    assert d * v >= 0;
  }

  lemma SameRemainder(v: nat, p: int, x: nat, q: int, y: nat)
    requires x < v && y < v && p * v + x == q * v + y
    ensures p == q && x == y
  {
    if p > q { MultipleAtLeast(v, p, q); }
    if p < q { MultipleAtLeast(v, q, p); }
  }

  /** The remainder is the only one of its kind. */
  lemma RemainderIs(n: nat, v: nat, q: int, x: nat)
    requires x < v && n == q * v + x
    ensures n % v == x && n / v == q
  {
    SameRemainder(v, q, x, n / v, n % v);
  }

  /** Counting up, remainders run through 0 .. m - 1 in turn. */
  lemma RemainderNext(n: nat, m: nat)
    requires m >= 1
    ensures (n + 1) % m == if n % m + 1 >= m then 0 else n % m + 1
  {
    var q, x := n / m, n % m;
    if x + 1 == m { RemainderIs(n + 1, m, q + 1, 0); } else { RemainderIs(n + 1, m, q, x + 1); }
  }

  /** Remainders may be taken before adding. */
  lemma RemainderShift(n: nat, d: nat, m: nat)
    requires m >= 1
    ensures (n % m + d) % m == (n + d) % m
  {
    var q, x := n / m, n % m;
    var p, y := (x + d) / m, (x + d) % m;
    assert n + d == (q + p) * m + y;
    RemainderIs(n + d, m, q + p, y);
  }
}

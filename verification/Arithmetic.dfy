/**
 The few facts about products, quotients and remainders the other modules need.
 */
module Arithmetic {
  lemma MoreTimes(q: nat, q': nat, d: nat)
    requires q < q'
    ensures q * d + d <= q' * d
  {
    assert q' * d == (q' - 1) * d + d;
    if q + 1 < q' {
      MoreTimes(q, q' - 1, d);
    }
  }

  lemma DivUnique(q: nat, q': nat, d: nat, r: nat, r': nat)
    requires q * d + r == q' * d + r' && r < d && r' < d
    ensures q == q' && r == r'
  {
    if q < q' {
      MoreTimes(q, q', d);
    } else if q' < q {
      MoreTimes(q', q, d);
    }
  }

  lemma Small(v: nat, m: nat)
    requires v < m
    ensures v % m == v
  {
  }

  lemma SameRemainder(q: nat, r: nat, q': nat, r': nat, q'': nat, r'': nat, b: nat, m: nat)
    requires r' < m && r'' < m && r + b == q' * m + r' && q * m + r + b == q'' * m + r''
    ensures r' == r''
  {
    assert (q + q') * m == q * m + q' * m;
    DivUnique(q + q', q'', m, r', r'');
  }

  lemma AddMod(a: nat, b: nat, m: nat)
    requires m > 0
    ensures (a % m + b) % m == (a + b) % m
  {
    var r, s := a % m, a % m + b;
    SameRemainder(a / m, r, s / m, s % m, (a + b) / m, (a + b) % m, b, m);
  }

  /** A multiple of `p` below `m` times `p`. */
  lemma InPlace(a: nat, m: nat, p: nat)
    requires a < m && p > 0
    ensures a * p < m * p && (a * p < p <==> a == 0)
  {
    MoreTimes(a, m, p);
    if a > 0 {
      MoreTimes(0, a, p);
    }
  }

  /** Of a number in two digits of base `p` the first is zero exactly when it is
      below `p`. */
  lemma FirstDigit(a: nat, b: nat, p: nat)
    requires b < p
    ensures a * p + b < p <==> a == 0
    ensures a * p == 0 <==> a == 0
  {
    if a > 0 {
      MoreTimes(0, a, p);
    }
  }

  lemma AddMultiple(k: nat, m: nat, y: nat)
    requires m > 0
    ensures (k * m + y) % m == y % m
  {
    var x := k * m + y;
    Collect(k, y / m, m);
    DivUnique(x / m, k + y / m, m, x % m, y % m);
  }

  lemma Collect(a: nat, b: nat, m: nat)
    ensures (a + b) * m == a * m + b * m
  {
  }
}

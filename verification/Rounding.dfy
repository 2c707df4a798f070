/**
 Exact round-half-even on rationals, written with a numerator and a positive
 denominator: the `round` the calendar places touches with.
 */
module Rounding {

  function RoundHalfEven(a: int, b: int): (r: int)
    requires b > 0
  {
    var q, rem := a / b, a % b;
    if 2 * rem < b then q
    else if 2 * rem > b then q + 1
    else if q % 2 == 0 then q
    else q + 1
  }

  /** `r` is a nearest integer to a/b, and an even one when two are equally near. */
  ghost predicate Nearest(a: int, b: int, r: int) {
    NearestBy(a, b, r, r * b)
  }

  /** `Nearest` with the product `rb` of `r` and `b` named, which keeps proofs linear. */
  ghost predicate NearestBy(a: int, b: int, r: int, rb: int) {
    && 2 * rb - b <= 2 * a <= 2 * rb + b
    && (2 * a == 2 * rb - b || 2 * a == 2 * rb + b ==> r % 2 == 0)
  }

  lemma DivMod(a: int, b: int)
    requires b > 0
    ensures a == (a / b) * b + a % b
    ensures 0 <= a % b < b
  {
  }

  lemma DivModUnique(a: int, b: int, q: int, r: int)
    requires b > 0 && a == q * b + r && 0 <= r < b
    ensures a / b == q && a % b == r
  {
    DivMod(a, b);
    MulSteps(a / b, q, b);
  }

  lemma MulAdd(x: int, y: int, b: int)
    ensures (x + y) * b == x * b + y * b
    ensures b * (x + y) == b * x + b * y
  {
  }

  lemma MulSub(x: int, y: int, b: int)
    ensures (x - y) * b == x * b - y * b
    ensures b * (x - y) == b * x - b * y
  {
  }

  lemma MulSign(x: int, y: int)
    ensures x >= 0 && y >= 0 ==> x * y >= 0
  {
  }

  lemma MulAssoc(x: int, y: int, z: int)
    ensures x * y * z == x * (y * z)
    ensures x * y * z == y * (x * z)
    ensures x * y * z == z * (x * y)
  {
  }

  /** The steps of a multiplication table, for reasoning about products by order alone. */
  lemma MulSteps(x: int, y: int, b: int)
    requires b > 0
    ensures x == y ==> x * b == y * b
    ensures x < y ==> x * b + b <= y * b
    ensures x + 1 < y ==> x * b + 2 * b <= y * b
    ensures y < x ==> y * b + b <= x * b
    ensures y + 1 < x ==> y * b + 2 * b <= x * b
  {
    MulGap(y - x, b);
    MulSub(y, x, b);
  }

  lemma MulGap(k: int, b: int)
    requires b > 0
    ensures k >= 1 ==> k * b >= b
    ensures k >= 2 ==> k * b >= 2 * b
    ensures k <= -1 ==> k * b <= -b
    ensures k <= -2 ==> k * b <= -2 * b
  {
    assert (k - 1) * b == k * b - b;
    assert (k + 1) * b == k * b + b;
    assert (k - 2) * b == k * b - 2 * b;
    assert (k + 2) * b == k * b + 2 * b;
  }

  lemma RoundIsNearest(a: int, b: int)
    requires b > 0
    ensures Nearest(a, b, RoundHalfEven(a, b))
  {
    DivMod(a, b);
    var q := a / b;
    assert (q + 1) * b == q * b + b;
  }

  /** Only one integer is nearest, so `Nearest` determines the rounding. */
  lemma NearestIsUnique(a: int, b: int, r: int, s: int)
    requires b > 0
    requires Nearest(a, b, r) && Nearest(a, b, s)
    ensures r == s
  {
    MulSteps(r, s, b);
    UniqueByOrder(a, b, r, s, r * b, s * b);
  }

  lemma UniqueByOrder(a: int, b: int, r: int, s: int, rb: int, sb: int)
    requires b > 0
    requires NearestBy(a, b, r, rb) && NearestBy(a, b, s, sb)
    requires r < s ==> rb + b <= sb
    requires r + 1 < s ==> rb + 2 * b <= sb
    requires s < r ==> sb + b <= rb
    requires s + 1 < r ==> sb + 2 * b <= rb
    ensures r == s
  {
  }

  lemma RoundEquals(a: int, b: int, r: int)
    requires b > 0 && Nearest(a, b, r)
    ensures RoundHalfEven(a, b) == r
  {
    RoundIsNearest(a, b);
    NearestIsUnique(a, b, r, RoundHalfEven(a, b));
  }

  lemma RoundMonotone(a: int, c: int, b: int)
    requires b > 0 && a <= c
    ensures RoundHalfEven(a, b) <= RoundHalfEven(c, b)
  {
    RoundIsNearest(a, b);
    RoundIsNearest(c, b);
    var r, s := RoundHalfEven(a, b), RoundHalfEven(c, b);
    MulSteps(r, s, b);
    MonotoneByOrder(a, c, b, r, s, r * b, s * b);
  }

  lemma MonotoneByOrder(a: int, c: int, b: int, r: int, s: int, rb: int, sb: int)
    requires b > 0 && a <= c
    requires NearestBy(a, b, r, rb) && NearestBy(c, b, s, sb)
    requires s < r ==> sb + b <= rb
    requires s + 1 < r ==> sb + 2 * b <= rb
    ensures r <= s
  {
  }
}

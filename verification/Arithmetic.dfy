// Facts about division and remainder that the other modules share.
module Arithmetic {

  function Min(a: int, b: int): int {
    if a <= b then a else b
  }

  function Max(a: int, b: int): int {
    if a >= b then a else b
  }

  // x // block * block, the largest multiple of block that is at most x.
  function Floor(x: int, block: int): int
    requires block > 0
  {
    x - x % block
  }

  lemma DivModUnique(x: int, b: int, q: int, r: int)
    requires b > 0 && 0 <= r < b && x == q * b + r
    ensures x / b == q && x % b == r
  {
    var d := x / b - q;
    assert d * b == r - x % b by {
      assert x == (x / b) * b + x % b;
      assert d * b == (x / b) * b - q * b;
    }
    if d != 0 {
      NonzeroMultiple(d, b);
    }
  }

  lemma NonzeroMultiple(d: int, b: int)
    requires d != 0 && b > 0
    ensures d * b >= b || d * b <= -b
  {
    if d > 0 {
      assert (d - 1) * b >= 0;
    } else {
      assert (-d - 1) * b >= 0;
    }
  }

  lemma FloorIsMultiple(x: int, b: int)
    requires b > 0
    ensures Floor(x, b) == x / b * b
    ensures Floor(x, b) % b == 0
  {
    assert x == (x / b) * b + x % b;
    DivModUnique(Floor(x, b), b, x / b, 0);
  }

  lemma SumOfMultiples(a: int, c: int, b: int)
    requires b > 0 && a % b == 0 && c % b == 0
    ensures (a + c) % b == 0 && (a - c) % b == 0
  {
    var p, q := a / b, c / b;
    assert a == p * b && c == q * b;
    assert a + c == (p + q) * b && a - c == (p - q) * b;
    DivModUnique(a + c, b, p + q, 0);
    DivModUnique(a - c, b, p - q, 0);
  }

  lemma MultipleAtLeastBlock(a: int, b: int)
    requires b > 0 && a % b == 0 && a > 0
    ensures a >= b
  {
    if a < b {
      DivModUnique(a, b, 0, a);
    }
  }

  lemma SelfMultiple(b: int)
    requires b > 0
    ensures b % b == 0 && 0 % b == 0
  {
    DivModUnique(b, b, 1, 0);
    DivModUnique(0, b, 0, 0);
  }

  // Floor(x, b) is the largest multiple up to x, Floor(x, b) + b the first one past it.
  lemma FloorIsLargest(m: int, x: int, b: int)
    requires b > 0 && m % b == 0
    ensures m <= x ==> m <= Floor(x, b)
    ensures m > x ==> m >= Floor(x, b) + b
  {
    FloorIsMultiple(x, b);
    SumOfMultiples(m, Floor(x, b), b);
    if m > Floor(x, b) {
      MultipleAtLeastBlock(m - Floor(x, b), b);
    }
  }

  lemma FloorMonotone(x: int, y: int, b: int)
    requires b > 0 && x <= y
    ensures Floor(x, b) <= Floor(y, b)
    ensures y >= Floor(x, b) + b ==> Floor(y, b) >= Floor(x, b) + b
  {
    FloorIsMultiple(x, b);
    SelfMultiple(b);
    SumOfMultiples(Floor(x, b), b, b);
    FloorIsLargest(Floor(x, b), y, b);
    FloorIsLargest(Floor(x, b) + b, y, b);
  }

  lemma FloorShift(x: int, m: int, b: int)
    requires b > 0 && m % b == 0
    ensures m + Floor(x - m, b) == Floor(x, b)
  {
    var q := m / b;
    assert m == q * b;
    assert x - m == (x / b - q) * b + x % b by {
      assert x == (x / b) * b + x % b;
      assert (x / b - q) * b == (x / b) * b - q * b;
    }
    DivModUnique(x - m, b, x / b - q, x % b);
  }
}

/** Facts about integer division that the frame and sample arithmetic rests on. */
module Arithmetic {

  /** A multiple of d that lies strictly between -d and d is zero. */
  lemma SmallMultiple(e: int, d: int)
    requires 0 < d && -d < e * d < d
    ensures e == 0
  {
    if 1 <= e {
      MulMonotone(1, e, d);
    } else if e <= -1 {
      MulMonotone(e, -1, d);
    }
  }

  lemma DivModUnique(a: int, d: int, q: int, r: int)
    requires 0 < d && 0 <= r < d && a == q * d + r
    ensures a / d == q && a % d == r
  {
    Distribute(a / d, q, d);
    SmallMultiple(a / d - q, d);
  }

  lemma Distribute(a: int, b: int, c: int)
    ensures (a - b) * c == a * c - b * c && (a + b) * c == a * c + b * c
  {
  }

  lemma MulMonotone(a: int, b: int, c: int)
    requires a <= b && 0 <= c
    ensures a * c <= b * c
  {
  }

  lemma CancelFactor(a: int, b: int, c: int)
    requires c != 0 && a * c == b * c
    ensures a == b
  {
    assert (a - b) * c == 0;
  }

  lemma MultipleMod(q: int, d: int)
    requires 0 < d
    ensures (q * d) % d == 0 && (q * d) / d == q
  {
    DivModUnique(q * d, d, q, 0);
  }

  lemma PositiveMultiple(a: int, d: int)
    requires 0 < d && 0 < a && a % d == 0
    ensures d <= a
  {
    if a < d {
      DivModUnique(a, d, 0, a);
    }
  }

  lemma PositiveQuotient(a: nat, g: nat)
    requires 0 < a && 0 < g && a % g == 0
    ensures 0 < a / g && a / g * g == a
  {
    PositiveMultiple(a, g);
  }

  /** A product as repeated addition, for widths that grow by one block at a time. */
  function Times(k: nat, n: nat): nat
  {
    if k == 0 then 0 else Times(k - 1, n) + n
  }

  lemma {:induction false} TimesIsProduct(k: nat, n: nat)
    ensures Times(k, n) == k * n
    decreases k
  {
    if k > 0 {
      TimesIsProduct(k - 1, n);
      Distribute(k, 1, n);
    }
  }

  /** Dividing by a product is dividing twice. */
  lemma DivTwice(a: int, b: int, c: int)
    requires 0 < b && 0 < c && a % (b * c) == 0
    ensures a % b == 0 && (a / b) % c == 0 && (a / b) / c == a / (b * c)
  {
    var q := a / (b * c);
    assert a == q * (b * c) == (q * c) * b;
    MultipleMod(q * c, b);
    MultipleMod(q, c);
  }

  /** Dividing twice without remainder is dividing by the product without remainder. */
  lemma WholeTwice(a: int, b: int, c: int)
    requires 0 < b && 0 < c && a % b == 0 && (a / b) % c == 0
    ensures a % (b * c) == 0
  {
    var q := a / b / c;
    assert a == (q * c) * b == q * (b * c);
    MultipleMod(q, b * c);
  }

  /** Taking one d away leaves the remainder and lowers the quotient by one. */
  lemma ModStep(a: int, d: int)
    requires 0 < d
    ensures (a - d) % d == a % d && (a - d) / d == a / d - 1
  {
    Distribute(a / d, 1, d);
    DivModUnique(a - d, d, a / d - 1, a % d);
  }

  lemma Regroup(c: int, q: int, b: int, r: int)
    ensures c * (q * b + r) == q * (c * b) + c * r
  {
  }

  lemma ScaledRemainder(c: int, b: int, r: int)
    requires 0 < c && 0 <= r < b
    ensures 0 <= c * r < c * b
  {
    MulMonotone(0, r, c);
    MulMonotone(r + 1, b, c);
    Distribute(r, 1, c);
  }

  /** A common factor of dividend and divisor does not change the quotient. */
  lemma DivCancel(c: int, a: int, b: int)
    requires 0 < c && 0 < b
    ensures 0 < c * b && (c * a) / (c * b) == a / b && (c * a) % (c * b) == c * (a % b)
  {
    var q, r := a / b, a % b;
    ScaledRemainder(c, b, r);
    Regroup(c, q, b, r);
    var n, d := c * a, c * b;
    DivModUnique(n, d, q, c * r);
  }

  /** Whole quotients compare like their dividends. */
  lemma DivMonotone(a: int, b: int, d: int)
    requires 0 < d && a <= b
    ensures a / d <= b / d
  {
    if a / d > b / d {
      MulMonotone(b / d + 1, a / d, d);
      assert false;
    }
  }

  /** The greatest common divisor, by Euclid's algorithm. */
  function Gcd(a: nat, b: nat): (g: nat)
    requires 0 < a || 0 < b
    ensures 0 < g && a % g == 0 && b % g == 0
    decreases b
  {
    if b == 0 then a
    else
      var g := Gcd(b, a % b);
      assert a % g == 0 by { DividesCombination(a, b, g); }
      g
  }

  lemma DividesCombination(a: nat, b: nat, g: nat)
    requires 0 < b && 0 < g && b % g == 0 && (a % b) % g == 0
    ensures a % g == 0
  {
    var k := (a / b) * (b / g) + (a % b) / g;
    calc {
      a;
      (a / b) * b + a % b;
      (a / b) * ((b / g) * g) + ((a % b) / g) * g;
      ((a / b) * (b / g)) * g + ((a % b) / g) * g;
      k * g;
    }
    MultipleMod(k, g);
  }

  /** No common divisor exceeds the greatest one. */
  lemma {:induction false} GcdIsGreatest(a: nat, b: nat, d: nat)
    requires 0 < a || 0 < b
    requires 0 < d && a % d == 0 && b % d == 0
    ensures Gcd(a, b) % d == 0
    decreases b
  {
    if b != 0 {
      var k := a / d - (a / b) * (b / d);
      calc {
        a % b;
        a - (a / b) * b;
        (a / d) * d - (a / b) * ((b / d) * d);
        (a / d) * d - ((a / b) * (b / d)) * d;
        k * d;
      }
      MultipleMod(k, d);
      GcdIsGreatest(b, a % b, d);
    }
  }
}

/** The decimal arithmetic that the cost rules use: 28 significant digits, ties to even, as in the
    General Decimal Arithmetic specification's default context. Values here are never negative. */
module Decimals {

  const PRECISION: nat := 28

  /** `coef / 10^places`. */
  datatype Decimal = Decimal(coef: nat, places: nat)

  function Pow10(k: nat): (r: nat)
    ensures r > 0
  {
    if k == 0 then 1 else 10 * Pow10(k - 1)
  }

  /** `a / b` rounded to the nearest whole number, a tie to the even one. */
  function HalfEven(a: nat, b: nat): nat
    requires b > 0
  {
    var q, r := a / b, a % b;
    if 2 * r < b || (2 * r == b && q % 2 == 0) then q else q + 1
  }

  lemma TenMoves(a: nat, p: nat)
    ensures (10 * a) * p == a * (10 * p)
  {
  }

  /** How far `a / b` must be scaled up to have 28 digits before the point. */
  function Scale(a: nat, b: nat): (k: nat)
    requires 0 < a && 0 < b
    ensures k > 0 ==> a * Pow10(k - 1) < Pow10(PRECISION - 1) * b
    ensures a * Pow10(k) >= Pow10(PRECISION - 1) * b
    decreases Pow10(PRECISION - 1) * b - a
  {
    if a >= Pow10(PRECISION - 1) * b then 0
    else
      var k := Scale(10 * a, b);
      TenMoves(a, Pow10(k));
      TenMoves(a, if k > 0 then Pow10(k - 1) else 1);
      k + 1
  }

  /** Trailing zeros are dropped down to the exponent that an exact quotient should have. */
  function Stripped(d: Decimal, ideal: nat): Decimal
    decreases d.places
  {
    if d.places > ideal && d.coef % 10 == 0 then Stripped(Decimal(d.coef / 10, d.places - 1), ideal) else d
  }

  /** Rounded to 28 digits, when there are more. */
  function Fix(d: Decimal): Decimal
    decreases d.places
  {
    if d.coef < Pow10(PRECISION) || d.places == 0 then d
    else
      var k := Excess(d.coef, d.places);
      Decimal(HalfEven(d.coef, Pow10(k)), d.places - k)
  }

  function Excess(coef: nat, most: nat): (k: nat)
    ensures k <= most
  {
    if coef < Pow10(PRECISION) || most == 0 then 0 else 1 + Excess(coef / 10, most - 1)
  }

  /** A decimal over a whole number. */
  function Divide(d: Decimal, n: nat): Decimal
    requires n > 0
  {
    if d.coef == 0 then d
    else
      var k := Scale(d.coef, n);
      var quotient := Decimal(HalfEven(d.coef * Pow10(k), n), d.places + k);
      if d.coef * Pow10(k) % n == 0 then Stripped(quotient, d.places) else quotient
  }

  function Plus(a: Decimal, b: Decimal): Decimal {
    if a.places >= b.places then Fix(Decimal(a.coef + b.coef * Pow10(a.places - b.places), a.places))
    else Fix(Decimal(a.coef * Pow10(b.places - a.places) + b.coef, b.places))
  }

  function Times(a: Decimal, b: Decimal): Decimal {
    Fix(Decimal(a.coef * b.coef, a.places + b.places))
  }

  /** Comparison is exact. */
  predicate Above(a: Decimal, b: Decimal) {
    a.coef * Pow10(b.places) > b.coef * Pow10(a.places)
  }

  /** `quantize(Decimal("0.01"))`. */
  function Quantize2(d: Decimal): Decimal {
    if d.places <= 2 then Decimal(d.coef * Pow10(2 - d.places), 2)
    else Decimal(HalfEven(d.coef, Pow10(d.places - 2)), 2)
  }

  // ---------- rounding ----------

  lemma Monotone(n: nat, x: nat, y: nat)
    ensures x <= y ==> n * x <= n * y
    ensures n * x < n * y ==> x < y
  {
    if x <= y {
      assert n * y == n * x + n * (y - x);
    } else {
      assert n * x == n * y + n * (x - y);
    }
  }

  lemma DivMod(a: nat, b: nat, q: nat, r: nat)
    requires b > 0 && a == q * b + r && r < b
    ensures a / b == q && a % b == r
  {
    var q', r' := a / b, a % b;
    Monotone(b, q + 1, q');
    Monotone(b, q' + 1, q);
    assert b * (q + 1) == q * b + b && b * (q' + 1) == q' * b + b;
    assert a == q' * b + r';
  }

  /** Rounding is off by at most half. */
  lemma HalfEvenNear(a: nat, b: nat)
    requires b > 0
    ensures 2 * a - b <= 2 * b * HalfEven(a, b) <= 2 * a + b
  {
    var q, r := a / b, a % b;
    assert a == q * b + r;
    assert 2 * b * (q + 1) == 2 * (q * b) + 2 * b;
  }

  /** Two whole numbers are as near as each other: the even one is taken. */
  lemma TieIsEven(a: nat, b: nat)
    requires b > 0 && 2 * (a % b) == b
    ensures HalfEven(a, b) % 2 == 0
  {
  }

  lemma {:induction false} ExcessIs(coef: nat, most: nat)
    ensures var k := Excess(coef, most);
      && (coef < Pow10(PRECISION + k) || k == most) && (k > 0 ==> coef >= Pow10(PRECISION + k - 1))
    decreases most
  {
    if coef >= Pow10(PRECISION) && most > 0 {
      ExcessIs(coef / 10, most - 1);
      var k := Excess(coef / 10, most - 1);
      assert Pow10(PRECISION + k + 1) == 10 * Pow10(PRECISION + k);
      if k > 0 {
        assert Pow10(PRECISION + k) == 10 * Pow10(PRECISION + k - 1);
      }
    }
  }

  /** The result of an addition or multiplication is exact when 28 digits hold it, and otherwise rounded to the
      nearest number that they hold, as far as it has decimals. */
  lemma FixIsNearest(d: Decimal)
    ensures var f := Fix(d);
      && f.places <= d.places
      && var k := d.places - f.places;
      && 2 * d.coef - Pow10(k) <= 2 * Pow10(k) * f.coef <= 2 * d.coef + Pow10(k)
      && (k == 0 ==> f == d) && (k > 0 ==> d.coef >= Pow10(28 + k - 1))
      && (d.coef < Pow10(28 + k) || f.places == 0)
  {
    hide HalfEven, Excess;
    var k := Excess(d.coef, d.places);
    ExcessIs(d.coef, d.places);
    HalfEvenNear(d.coef, Pow10(k));
    assert Pow10(0) == 1;
    if k == 0 {
      HalfEvenOfMultiple(d.coef, 1);
      assert d.coef * 1 == d.coef;
    }
  }

  /** An even number of wholes passes through. */
  lemma HalfEvenShift(m: nat, a: nat, b: nat)
    requires b > 0 && m % 2 == 0
    ensures HalfEven(m * b + a, b) == m + HalfEven(a, b)
  {
    var q, r := a / b, a % b;
    assert m * b + a == (m + q) * b + r;
    DivMod(m * b + a, b, m + q, r);
  }

  lemma HalfEvenOfMultiple(m: nat, b: nat)
    requires b > 0
    ensures HalfEven(m * b, b) == m && (m * b) % b == 0
  {
    DivMod(m * b, b, m, 0);
  }

  lemma Pow10Even(k: nat)
    requires k > 0
    ensures Pow10(k) % 2 == 0
  {
  }

  lemma TenTimes(a: nat, b: nat)
    ensures 10 * (a * b) == (10 * a) * b
  {
  }

  lemma {:induction false} Pow10Adds(j: nat, k: nat)
    ensures Pow10(j + k) == Pow10(j) * Pow10(k)
    decreases j
  {
    if j > 0 {
      Pow10Adds(j - 1, k);
      TenTimes(Pow10(j - 1), Pow10(k));
    }
  }

  lemma {:induction false} Pow10Grows(j: nat, k: nat)
    requires j <= k
    ensures Pow10(j) <= Pow10(k)
    decreases k
  {
    if j < k {
      Pow10Grows(j, k - 1);
    }
  }

  lemma BelowHalf(r: nat, n: nat, t: nat)
    requires 2 * r < n < t
    ensures 2 * HalfEven(r * t, n) < t
  {
    hide HalfEven;
    Doubled(r, n, t);
    NearHalf(r * t, n, t, HalfEven(r * t, n), n * t) by { HalfEvenNear(r * t, n); }
  }

  lemma AboveHalf(r: nat, n: nat, t: nat)
    requires 0 < n < 2 * r && n < t
    ensures t < 2 * HalfEven(r * t, n)
  {
    hide HalfEven;
    Doubled(r, n, t);
    NearHalf(r * t, n, t, HalfEven(r * t, n), n * t) by { HalfEvenNear(r * t, n); }
  }

  lemma Doubled(r: nat, n: nat, t: nat)
    ensures 2 * r < n ==> 2 * (r * t) + t <= n * t
    ensures n < 2 * r ==> n * t + t <= 2 * (r * t)
  {
    Monotone(t, 2 * r + 1, n);
    Monotone(t, n + 1, 2 * r);
    assert t * (2 * r + 1) == 2 * (r * t) + t && t * (n + 1) == n * t + t && t * (2 * r) == 2 * (r * t);
  }

  lemma NearHalf(p: nat, n: nat, t: nat, d: nat, nt: nat)
    requires nt == n * t && 0 < n < t && 2 * p - n <= 2 * n * d <= 2 * p + n
    ensures 2 * p + t <= nt ==> 2 * d < t
    ensures nt + t <= 2 * p ==> t < 2 * d
  {
    assert n * (2 * d) == 2 * n * d;
    Monotone(n, 2 * d, t);
    Monotone(n, t, 2 * d);
  }

  lemma OneShort(r: nat, n: nat, t: nat)
    requires r < n
    ensures r * t + t <= n * t
  {
    Monotone(t, r + 1, n);
    assert t * (r + 1) == r * t + t;
  }

  lemma BelowOne(r: nat, n: nat, t: nat)
    requires r < n < t
    ensures HalfEven(r * t, n) < t
  {
    hide HalfEven;
    OneShort(r, n, t);
    NearLess(r * t, n, t, HalfEven(r * t, n), n * t) by { HalfEvenNear(r * t, n); }
  }

  lemma NearLess(p: nat, n: nat, t: nat, d: nat, nt: nat)
    requires nt == n * t && p + t <= nt && n < t && 2 * n * d <= 2 * p + n
    ensures d < t
  {
    assert n * (2 * d) == 2 * n * d;
    assert n * (2 * t) == 2 * nt;
    Monotone(n, 2 * d, 2 * t);
  }

  lemma AtHalf(r: nat, n: nat, t: nat)
    requires 0 < n == 2 * r && t % 2 == 0
    ensures 2 * HalfEven(r * t, n) == t
  {
    hide HalfEven;
    var h := t / 2;
    assert r * t == h * n by {
      assert t == 2 * h;
      assert r * (2 * h) == h * (2 * r);
    }
    HalfEvenOfMultiple(h, n);
  }

  /** The fraction `r / n` keeps its side of one half when it is rounded at the scale `t`. */
  lemma SideIsKept(r: nat, n: nat, t: nat)
    requires r < n < t && t % 2 == 0
    ensures var d := HalfEven(r * t, n);
      d < t && (2 * r < n <==> 2 * d < t) && (2 * r == n <==> 2 * d == t)
  {
    hide HalfEven;
    BelowOne(r, n, t);
    if 2 * r < n {
      BelowHalf(r, n, t);
    } else if 2 * r > n {
      AboveHalf(r, n, t);
    } else {
      AtHalf(r, n, t);
    }
  }

  lemma Scaled(a: nat, n: nat, t: nat)
    requires 0 < n
    ensures a * t == ((a / n) * t) * n + (a % n) * t
  {
    var q, r := a / n, a % n;
    assert a == q * n + r;
    assert (q * n + r) * t == (q * n) * t + r * t;
    assert (q * n) * t == (q * t) * n;
  }

  lemma TimesEven(q: nat, t: nat)
    requires t % 2 == 0
    ensures (q * t) % 2 == 0
  {
    var h := t / 2;
    assert t == 2 * h;
    assert q * (2 * h) == 2 * (q * h);
  }

  /** A product that the next two lemmas do not look into. */
  function Product(a: nat, b: nat): nat {
    a * b
  }

  lemma HalfEvenAtScale(a: nat, n: nat, t: nat, q: nat, r: nat)
    requires 0 < n && t % 2 == 0 && q == a / n && r == a % n
    ensures HalfEven(Product(a, t), n) == Product(q, t) + HalfEven(Product(r, t), n)
  {
    hide HalfEven;
    Scaled(a, n, t);
    TimesEven(q, t);
    HalfEvenShift(q * t, r * t, n);
  }

  lemma RoundingThenRounding(a: nat, n: nat, t: nat, q: nat, r: nat)
    requires 0 < n < t && t % 2 == 0 && q == a / n && r == a % n
    ensures HalfEven(HalfEven(Product(a, t), n), t) == HalfEven(a, n)
  {
    hide HalfEven, Product;
    HalfEvenAtScale(a, n, t, q, r);
    SideOfProduct(r, n, t);
    SameDecision(a, n, HalfEven(Product(a, t), n), t, q, HalfEven(Product(r, t), n));
  }

  lemma SideOfProduct(r: nat, n: nat, t: nat)
    requires r < n < t && t % 2 == 0
    ensures var d := HalfEven(Product(r, t), n);
      d < t && (2 * r < n <==> 2 * d < t) && (2 * r == n <==> 2 * d == t)
  {
    hide HalfEven;
    SideIsKept(r, n, t);
  }

  /** Rounding first at a finer even scale than `n` and then to whole numbers is rounding once. */
  lemma RoundingTwiceIsOnce(a: nat, n: nat, t: nat)
    requires 0 < n < t && t % 2 == 0
    ensures HalfEven(HalfEven(a * t, n), t) == HalfEven(a, n)
  {
    hide HalfEven;
    RoundingThenRounding(a, n, t, a / n, a % n);
  }

  lemma SameDecision(a: nat, n: nat, c: nat, t: nat, q: nat, d: nat)
    requires 0 < n && q == a / n && c == Product(q, t) + d && d < t
    requires (2 * (a % n) < n <==> 2 * d < t) && (2 * (a % n) == n <==> 2 * d == t)
    ensures HalfEven(c, t) == HalfEven(a, n)
  {
    DivMod(c, t, q, d);
  }

  // ---------- a mean in cents ----------

  lemma HalfEvenTenths(c: nat, p: nat)
    requires p > 0
    ensures HalfEven(10 * c, 10 * p) == HalfEven(c, p)
  {
    var q, r := c / p, c % p;
    assert 10 * c == q * (10 * p) + 10 * r by {
      assert c == q * p + r;
      assert q * (10 * p) == 10 * (q * p);
    }
    DivMod(10 * c, 10 * p, q, 10 * r);
  }

  lemma {:induction false} QuantizeStripped(d: Decimal)
    requires d.places >= 2
    ensures Quantize2(Stripped(d, 2)) == Quantize2(d)
    decreases d.places
  {
    if d.places > 2 && d.coef % 10 == 0 {
      var less := Decimal(d.coef / 10, d.places - 1);
      QuantizeStripped(less);
      HalfEvenTenths(less.coef, Pow10(less.places - 2));
      if less.places == 2 {
        HalfEvenOfMultiple(less.coef, 1);
      }
    }
  }

  lemma ScaleIsEnough(a: nat, n: nat)
    requires 0 < a < Pow10(PRECISION - 1) && 0 < n
    ensures Pow10(Scale(a, n)) > n && Scale(a, n) > 0
  {
    var t := Pow10(Scale(a, n));
    Monotone(n, a + 1, Pow10(PRECISION - 1));
    assert a * t > a * n by {
      assert a * t >= Pow10(PRECISION - 1) * n == n * Pow10(PRECISION - 1) >= n * (a + 1) == a * n + n;
    }
    Monotone(a, n, t);
  }

  /** Dividing cents by a whole number with 28 digits and then rounding to cents gives the mean's
      nearest cent, ties to even: the intermediate rounding never shows. */
  lemma MeanInCents(a: nat, n: nat)
    requires a < Pow10(PRECISION - 1) && 0 < n
    ensures Quantize2(Divide(Decimal(a, 2), n)) == Decimal(HalfEven(a, n), 2)
  {
    hide HalfEven, Scale, Stripped;
    if a == 0 {
      HalfEvenOfMultiple(0, n);
    } else {
      var k := Scale(a, n);
      ScaleIsEnough(a, n);
      Pow10Even(k);
      RoundingTwiceIsOnce(a, n, Pow10(k));
      QuantizeStripped(Decimal(HalfEven(a * Pow10(k), n), 2 + k));
    }
  }

  // ---------- a percentage ----------

  lemma StripOne(m: nat, k: nat)
    requires k > 0
    ensures Stripped(Decimal(10 * m, k), 0) == Stripped(Decimal(m, k - 1), 0)
  {
  }

  function WithZeros(c: nat, k: nat): nat {
    if k == 0 then c else 10 * WithZeros(c, k - 1)
  }

  lemma {:induction false} ZerosArePower(c: nat, k: nat)
    ensures WithZeros(c, k) == c * Pow10(k)
    decreases k
  {
    if k > 0 {
      ZerosArePower(c, k - 1);
      TenMoves(c, Pow10(k - 1));
    }
  }

  lemma {:induction false} StripTens(c: nat, k: nat)
    requires k >= 2
    ensures Stripped(Decimal(WithZeros(c, k - 2), k), 0) == Stripped(Decimal(c, 2), 0)
    decreases k
  {
    hide Stripped;
    if k > 2 {
      StripOne(WithZeros(c, k - 3), k);
      StripTens(c, k - 1);
    }
  }

  lemma SmallPowers()
    ensures Pow10(0) == 1 && Pow10(1) == 10 && Pow10(2) == 100 && 10000 <= Pow10(PRECISION - 1) <= Pow10(PRECISION)
  {
    assert Pow10(4) == 10000;
    Pow10Grows(4, PRECISION - 1);
    Pow10Grows(PRECISION - 1, PRECISION);
  }

  /** `Decimal(pct) / 100` is exact, with at most two places. */
  lemma Hundredths(pct: nat)
    requires pct <= 1000
    ensures Divide(Decimal(pct, 0), 100) == Stripped(Decimal(pct, 2), 0)
  {
    hide HalfEven, Scale, Pow10, Stripped;
    if pct == 0 {
      StripOne(0, 2);
      StripOne(0, 1);
      AlreadyStripped(0);
    } else {
      SmallPowers();
      var k := Scale(pct, 100);
      ScaleIsEnough(pct, 100);
      assert k != 1;
      ZerosArePower(pct, k);
      var z := WithZeros(pct, k - 2);
      assert WithZeros(pct, k) == 100 * z by {
        assert WithZeros(pct, k) == 10 * WithZeros(pct, k - 1);
      }
      HalfEvenOfMultiple(z, 100);
      StripTens(pct, k);
    }
  }

  lemma AlreadyStripped(c: nat)
    ensures Stripped(Decimal(c, 0), 0) == Decimal(c, 0)
  {
  }

  lemma {:induction false} StrippedValue(d: Decimal, ideal: nat)
    ensures var r := Stripped(d, ideal); r.places <= d.places && r.coef * Pow10(d.places - r.places) == d.coef
    decreases d.places
  {
    if d.places > ideal && d.coef % 10 == 0 {
      var less := Decimal(d.coef / 10, d.places - 1);
      StrippedValue(less, ideal);
      var r := Stripped(less, ideal);
      TenMoves(r.coef, Pow10(less.places - r.places));
    }
  }

  lemma FixIsExact(d: Decimal)
    requires d.coef < Pow10(PRECISION)
    ensures Fix(d) == d
  {
  }

  /** `1 + pct / 100` is exact. */
  lemma Factor(pct: nat)
    requires pct <= 1000
    ensures var f := Plus(Decimal(1, 0), Divide(Decimal(pct, 0), 100));
      f.places <= 2 && f.coef * Pow10(2 - f.places) == 100 + pct && f.coef <= 1100
  {
    hide Stripped, Divide, Fix, HalfEven, Scale, Pow10;
    Hundredths(pct);
    StrippedValue(Decimal(pct, 2), 0);
    SmallPowers();
    var x := Stripped(Decimal(pct, 2), 0);
    assert x.places == 0 || x.places == 1 || x.places == 2;
    assert x.coef <= 1000 && Pow10(x.places) <= 100;
    FixIsExact(Decimal(Pow10(x.places) + x.coef, x.places));
  }

  /** `total > ref * (1 + pct / 100)`, computed with 28 digits, is the exact test on whole cents. */
  lemma AboveByPercent(total: nat, ref: nat, pct: nat)
    requires pct <= 1000 && ref < Pow10(PRECISION - 4)
    ensures Above(Decimal(total, 2), Times(Decimal(ref, 2), Plus(Decimal(1, 0), Divide(Decimal(pct, 0), 100))))
            <==> 100 * total > ref * (100 + pct)
  {
    hide Stripped, Divide, Plus, Fix, Pow10;
    Factor(pct);
    var f := Plus(Decimal(1, 0), Divide(Decimal(pct, 0), 100));
    assert ref * f.coef < Pow10(PRECISION) by {
      Monotone(ref, f.coef, 1100);
      TenThousandfold();
    }
    FixIsExact(Decimal(ref * f.coef, 2 + f.places));
    PercentScales(total, ref, f.coef, f.places);
  }

  lemma TenThousandfold()
    ensures Pow10(PRECISION) == Pow10(PRECISION - 4) * 10000
  {
    Pow10Adds(4, PRECISION - 4);
    assert Pow10(4) == 10000;
  }

  lemma PercentScales(total: nat, ref: nat, f: nat, p: nat)
    requires p <= 2
    ensures total * Pow10(2 + p) > (ref * f) * Pow10(2) <==> 100 * total > ref * (f * Pow10(2 - p))
  {
    assert Pow10(0) == 1 && Pow10(1) == 10 && Pow10(2) == 100 && Pow10(3) == 1000 && Pow10(4) == 10000;
    assert ref * (f * Pow10(2 - p)) == (ref * f) * Pow10(2 - p);
  }
}

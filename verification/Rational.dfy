/** Exact fractions as the relayer's arithmetic handles them, and integer division with its floor laws. */
module Rational {

  datatype Fraction = Fraction(num: int, den: int)

  type Rat = r: Fraction | r.den > 0 witness Fraction(0, 1)

  function Abs(x: int): nat {
    if x < 0 then -x else x
  }

  function Gcd(a: nat, b: nat): nat
    decreases b
  {
    if b == 0 then a else Gcd(b, a % b)
  }

  lemma DivModIdentity(a: nat, b: nat)
    requires b > 0
    ensures a == b * (a / b) + a % b
  {
  }

  /** The gcd divides both numbers; the witnesses are the reduced terms. */
  lemma {:induction false} GcdDivides(a: nat, b: nat) returns (x: nat, y: nat)
    requires b > 0
    ensures Gcd(a, b) > 0 && a == Gcd(a, b) * x && b == Gcd(a, b) * y
    decreases b
  {
    var g := Gcd(a, b);
    var q, r := a / b, a % b;
    DivModIdentity(a, b);
    if r == 0 {
      assert Gcd(b, r) == b && g == b;
      x, y := q, 1;
    } else {
      var x', y' := GcdDivides(b, r);
      // b == g * x', r == g * y'
      x, y := x' * q + y', x';
      assert b * q == g * (x' * q) by {
        MulAssoc(g, x', q);
      }
      assert g * (x' * q) + g * y' == g * (x' * q + y') by {
        MulDist(g, x' * q, y');
      }
    }
  }

  lemma MulAssoc(a: int, b: int, c: int)
    ensures (a * b) * c == a * (b * c)
  {
  }

  lemma MulDist(a: int, b: int, c: int)
    ensures a * b + a * c == a * (b + c)
  {
  }

  lemma MulCancel(g: nat, x: nat)
    requires g > 0
    ensures g * x / g == x
  {
    var q := g * x / g;
    DivModIdentity(g * x, g);
    ScaleOrder(q, x, g);
    assert g * x < g * (q + 1);
    ScaleOrder(q + 1, x, g);
  }

  /** Lowest terms, as big.Rat keeps every value. */
  function Reduce(num: int, den: int): (r: Fraction)
    requires den > 0
  {
    var g := Gcd(Abs(num), den);
    if g == 0 then Fraction(num, den)
    else Fraction(if num < 0 then -(Abs(num) / g) else Abs(num) / g, den / g)
  }

  /** Reducing keeps the value: both terms shrink by one common factor. */
  lemma ReduceScales(num: int, den: int) returns (g: nat)
    requires den > 0
    ensures var r := Reduce(num, den);
      g > 0 && r.den > 0 && num == g * r.num && den == g * r.den
  {
    g := Gcd(Abs(num), den);
    var x, y := GcdDivides(Abs(num), den);
    MulCancel(g, x);
    MulCancel(g, y);
    assert Abs(num) / g == x && den / g == y;
    MulNonZero(g, y);
    MulNeg(g, x);
  }

  lemma MulNonZero(g: nat, y: nat)
    requires g * y > 0
    ensures y > 0
  {
  }

  lemma MulNeg(g: int, x: int)
    ensures g * (-x) == -(g * x)
  {
  }

  lemma ReducePositive(num: int, den: int)
    requires den > 0
    ensures Reduce(num, den).den > 0
  {
    var g := ReduceScales(num, den);
  }

  function Mul(a: Rat, b: Rat): (r: Rat) {
    assert a.den * b.den > 0;
    ReducePositive(a.num * b.num, a.den * b.den);
    Reduce(a.num * b.num, a.den * b.den)
  }

  function Add(a: Rat, b: Rat): Rat {
    assert a.den * b.den > 0;
    Fraction(a.num * b.den + b.num * a.den, a.den * b.den)
  }

  predicate LessEq(a: Rat, b: Rat) {
    a.num * b.den <= b.num * a.den
  }

  /** Division that truncates toward zero. */
  function Quo(a: int, b: int): int
    requires b > 0
  {
    if a >= 0 then a / b else -(-a / b)
  }

  function Pow10(d: int): nat
    ensures Pow10(d) >= 1
    decreases if d > 0 then d else 0
  {
    if d <= 0 then 1 else 10 * Pow10(d - 1)
  }

  /** The powers of ten: ten to the sum is the product. A negative exponent counts as zero. */
  lemma {:induction false} Pow10Sum(a: nat, b: nat)
    ensures Pow10(0) == 1 && Pow10(1) == 10 && Pow10(a + b) == Pow10(a) * Pow10(b)
    ensures forall d :: d < 0 ==> Pow10(d) == 1
  {
    if a > 0 {
      Pow10Sum(a - 1, b);
      MulAssoc(10, Pow10(a - 1), Pow10(b));
    }
  }

  // ---------- floors ----------

  ghost predicate IsFloor(r: int, n: int, d: int) {
    r * d <= n < (r + 1) * d
  }

  lemma QuoIsFloor(n: nat, d: nat)
    requires d > 0
    ensures IsFloor(Quo(n, d), n, d) && Quo(n, d) >= 0
  {
    DivModIdentity(n, d);
    var q := n / d;
    assert (q + 1) * d == q * d + d;
  }

  lemma FloorUnique(r: int, s: int, n: int, d: int)
    requires d > 0 && IsFloor(r, n, d) && IsFloor(s, n, d)
    ensures r == s
  {
    FloorMonotone(r, n, d, s, n, d);
    FloorMonotone(s, n, d, r, n, d);
  }

  /** Cancelling or adding a common factor leaves the floor where it is. */
  lemma FloorScales(r: int, n: int, d: int, g: int)
    requires g > 0
    ensures IsFloor(r, n, d) <==> IsFloor(r, g * n, g * d)
  {
    assert r * (g * d) == g * (r * d) && (r + 1) * (g * d) == g * ((r + 1) * d);
    ScaleOrder(r * d, n, g);
    ScaleOrder((r + 1) * d, n, g);
  }

  lemma ScaleOrder(x: int, y: int, g: int)
    requires g > 0
    ensures x <= y <==> g * x <= g * y
  {
    if x <= y {
      assert g * (y - x) >= 0;
    } else {
      assert g * (x - y) > 0;
    }
  }

  lemma FloorMonotone(ra: int, na: int, da: int, rb: int, nb: int, db: int)
    requires da > 0 && db > 0 && IsFloor(ra, na, da) && IsFloor(rb, nb, db)
    requires na * db <= nb * da
    ensures ra <= rb
  {
    ScaleOrder(ra * da, na, db);
    ScaleOrder((rb + 1) * db, nb, da);
    assert (da * db) * ra == db * (ra * da);
    assert (da * db) * (rb + 1) == da * ((rb + 1) * db);
    ScaleOrder(rb + 1, ra, da * db);
  }

  /** The floor of a sum exceeds the sum of the floors by at most one. */
  lemma FloorOfSum(ra: int, na: int, da: int, rb: int, nb: int, db: int, r: int)
    requires da > 0 && db > 0 && IsFloor(ra, na, da) && IsFloor(rb, nb, db)
    requires IsFloor(r, na * db + nb * da, da * db)
    ensures ra + rb <= r <= ra + rb + 1
  {
    var d := da * db;
    assert d > 0;
    ScaleOrder(ra * da, na, db);
    ScaleOrder(rb * db, nb, da);
    assert (ra + rb) * d == db * (ra * da) + da * (rb * db);
    ScaleOrder((ra + 1) * da, na, db);
    ScaleOrder((rb + 1) * db, nb, da);
    assert (ra + rb + 2) * d == db * ((ra + 1) * da) + da * ((rb + 1) * db);
    assert (ra + rb) * d <= na * db + nb * da < (ra + rb + 2) * d;
    ScaleOrder(r + 1, ra + rb, d);
    ScaleOrder(ra + rb + 2, r, d);
  }

  // ---------- real values ----------

  function Real(r: Rat): real {
    r.num as real / r.den as real
  }

  lemma RealProduct(x: int, y: int)
    ensures (x * y) as real == (x as real) * (y as real)
  {
  }

  lemma RealOrder(x: real, y: real, g: real)
    requires g > 0.0 && g * x <= g * y
    ensures x <= y
  {
    assert g * (y - x) >= 0.0;
  }
}

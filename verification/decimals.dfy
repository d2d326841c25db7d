/**
 * Arbitrary-precision decimals as the shopspring `decimal` package represents
 * them: an integer coefficient and a power-of-ten exponent. The value of
 * `Decimal(c, e)` is `c * 10^e`, exactly. Parsing from and rendering to text are
 * not part of this module: a parse is given as its result (`None` when the text
 * is not a decimal numeral).
 */
module Decimals {
  import opened Wrappers
  import opened GoInts
  import opened Contracts

  datatype Decimal = Decimal(coef: int, exp: int)

  /** The zero value `decimal.Decimal{}`, which a failed parse leaves behind. */
  const Zero: Decimal := Decimal(0, 0)

  function Pow10Nat(n: nat): (p: nat)
    ensures p >= 1
  {
    if n == 0 then 1 else 10 * Pow10Nat(n - 1)
  }

  /** 10^e as a real number, for any integer e. */
  function Pow10(e: int): (p: real)
    ensures p > 0.0
  {
    if e >= 0 then Pow10Nat(e) as real else 1.0 / (Pow10Nat(-e) as real)
  }

  /** The exact value a decimal denotes. */
  function Value(d: Decimal): real {
    d.coef as real * Pow10(d.exp)
  }

  lemma {:induction false} Pow10NatAdd(a: nat, b: nat)
    ensures Pow10Nat(a + b) == Pow10Nat(a) * Pow10Nat(b)
    decreases a
  {
    if a > 0 {
      Pow10NatAdd(a - 1, b);
    }
  }

  /** Exponents add: 10^(a+b) = 10^a * 10^b. */
  lemma Pow10Add(a: int, b: int)
    ensures Pow10(a + b) == Pow10(a) * Pow10(b)
  {
    if a < 0 && b >= 0 {
      Pow10AddLeft(b, a);
    } else {
      Pow10AddLeft(a, b);
    }
  }

  lemma Pow10AddLeft(a: int, b: int)
    requires a >= 0 || b < 0
    ensures Pow10(a + b) == Pow10(a) * Pow10(b)
  {
    if a >= 0 && b >= 0 {
      Pow10AddNonNeg(a, b);
    } else if a < 0 {
      Pow10AddNeg(a, b);
    } else if a + b >= 0 {
      Pow10AddMixedUp(a, b);
    } else {
      Pow10AddMixedDown(a, b);
    }
  }

  lemma Pow10AddNonNeg(a: nat, b: nat)
    ensures Pow10(a + b) == Pow10(a) * Pow10(b)
  {
    Pow10NatAdd(a, b);
    NatProductAsReal(Pow10Nat(a), Pow10Nat(b));
  }

  lemma Pow10AddNeg(a: int, b: int)
    requires a < 0 && b < 0
    ensures Pow10(a + b) == Pow10(a) * Pow10(b)
  {
    var x, y := Pow10Nat(-a), Pow10Nat(-b);
    Pow10NatAdd(-a, -b);
    NatProductAsReal(x, y);
    Reciprocal(x as real, y as real);
    assert Pow10(a) == 1.0 / (x as real) && Pow10(b) == 1.0 / (y as real);
    assert Pow10(a + b) == 1.0 / ((x * y) as real);
  }

  lemma Pow10AddMixedUp(a: int, b: int)
    requires a >= 0 && b < 0 && a + b >= 0
    ensures Pow10(a + b) == Pow10(a) * Pow10(b)
  {
    var x, y := Pow10Nat(a + b), Pow10Nat(-b);
    Pow10NatAdd(a + b, -b);
    NatProductAsReal(x, y);
    CancelRight(x as real, y as real);
    assert Pow10(a) == (x * y) as real && Pow10(b) == 1.0 / (y as real);
    assert Pow10(a + b) == x as real;
  }

  lemma Pow10AddMixedDown(a: int, b: int)
    requires a >= 0 && b < 0 && a + b < 0
    ensures Pow10(a + b) == Pow10(a) * Pow10(b)
  {
    var x, y := Pow10Nat(a), Pow10Nat(-(a + b));
    Pow10NatAdd(a, -(a + b));
    NatProductAsReal(x, y);
    CancelLeft(x as real, y as real);
    assert Pow10(a) == x as real && Pow10(b) == 1.0 / ((x * y) as real);
    assert Pow10(a + b) == 1.0 / (y as real);
  }

  // Single steps of real arithmetic. They are lemmas rather than inline
  // assertions so that each proof sees only the instance it needs: with the
  // facts inline, the nonlinear real reasoning exhausts the solver.

  lemma NatProductAsReal(x: int, y: int)
    ensures (x * y) as real == x as real * y as real
  {
  }

  lemma Reciprocal(x: real, y: real)
    requires x > 0.0 && y > 0.0
    ensures 1.0 / (x * y) == (1.0 / x) * (1.0 / y)
  {
  }

  lemma CancelRight(x: real, y: real)
    requires y > 0.0
    ensures (x * y) * (1.0 / y) == x
  {
  }

  lemma CancelLeft(x: real, y: real)
    requires x > 0.0 && y > 0.0
    ensures x * (1.0 / (x * y)) == 1.0 / y
  {
  }

  lemma Rearrange(x: real, y: real, p: real, q: real, xy: real, pq: real)
    requires xy == x * y && pq == p * q
    ensures xy * pq == (x * p) * (y * q)
  {
  }

  lemma ProductValue(ca: int, ea: int, cb: int, eb: int)
    ensures (ca * cb) as real * Pow10(ea + eb) == (ca as real * Pow10(ea)) * (cb as real * Pow10(eb))
  {
    NatProductAsReal(ca, cb);
    Pow10Add(ea, eb);
    Rearrange(ca as real, cb as real, Pow10(ea), Pow10(eb), (ca * cb) as real, Pow10(ea + eb));
  }

  /** `Mul` is exact: the value of the product is the product of the values. */
  lemma MulValue(a: Decimal, b: Decimal)
    ensures Value(Mul(a, b)) == Value(a) * Value(b)
  {
    ValueUnfolds(Mul(a, b));
    ProductValue(a.coef, a.exp, b.coef, b.exp);
    ValuesMultiply(a, b);
  }

  // `Value` unfolded and folded back, as two small steps of `MulValue`.
  lemma ValueUnfolds(d: Decimal)
    ensures Value(d) == d.coef as real * Pow10(d.exp)
  {
  }

  lemma ValuesMultiply(a: Decimal, b: Decimal)
    ensures (a.coef as real * Pow10(a.exp)) * (b.coef as real * Pow10(b.exp)) == Value(a) * Value(b)
  {
  }

  /** `decimal.New(value, exp)`. */
  function New(value: int, exp: int): Decimal {
    Decimal(value, exp)
  }

  /** `Decimal.Mul`: exact multiplication. */
  function Mul(a: Decimal, b: Decimal): Decimal {
    Decimal(a.coef * b.coef, a.exp + b.exp)
  }

  /** The parsed value, or zero when the text did not parse (the parse error is dropped). */
  function ParsedOrZero(parsed: Option<Decimal>): Decimal {
    if parsed.Some? then parsed.value else Zero
  }

  /**
   * `BalanceAccuracy(Balance, exp)` (pkg/client/client.go): the parsed balance
   * multiplied by 10^exp. The rendering with `String()` is left abstract, so the
   * result is the decimal itself.
   */
  function BalanceAccuracy(parsed: Option<Decimal>, exp: Int32): (r: Decimal)
    // exact: the digits are kept and only the exponent moves, nothing is rounded
    ensures parsed.Some? ==> r.coef == parsed.value.coef && r.exp == parsed.value.exp + exp
    ensures parsed.None? ==> r.coef == 0
  {
    Mul(ParsedOrZero(parsed), New(1, exp))
  }

  /** `BalanceAccuracy` scales by exactly 10^exp; text that does not parse reads as zero. */
  lemma BalanceAccuracyScales(parsed: Option<Decimal>, exp: Int32)
    ensures Value(BalanceAccuracy(parsed, exp)) == Value(ParsedOrZero(parsed)) * Pow10(exp)
    ensures parsed.None? ==> Value(BalanceAccuracy(parsed, exp)) == 0.0
  {
    MulValue(ParsedOrZero(parsed), New(1, exp));
    assert Value(New(1, exp)) == Pow10(exp);
  }

  /** Scaling by `exp` and then by `-exp` gives back the same decimal (not only the same value). */
  lemma BalanceAccuracyRoundTrip(b: Decimal, exp: Int32)
    requires exp != MinInt32
    ensures BalanceAccuracy(Some(BalanceAccuracy(Some(b), exp)), Neg32(exp)) == b
    ensures Value(BalanceAccuracy(Some(BalanceAccuracy(Some(b), exp)), Neg32(exp))) == Value(b)
  {
  }

  /** Scaling by Go's `-exp` is scaling by 10^-exp, except at the int32 minimum where the negation wraps. */
  lemma ScaledByMinusDecimal(parsed: Option<Decimal>, exp: Int32)
    requires exp != MinInt32
    ensures Value(BalanceAccuracy(parsed, Neg32(exp))) == Value(ParsedOrZero(parsed)) * Pow10(-exp)
  {
    var e := Neg32(exp);
    BalanceAccuracyScales(parsed, e);
    SameScale(Value(BalanceAccuracy(parsed, e)), Value(ParsedOrZero(parsed)), Pow10(e), Pow10(-exp));
  }

  /** One real step of `ScaledByMinusDecimal`, kept apart from the unfolded powers of ten. */
  lemma SameScale(v: real, x: real, p: real, q: real)
    requires v == x * p && p == q
    ensures v == x * q
  {
  }

  /** 1.5 scaled by the native currency's 6 decimals is 1500000 base units. */
  lemma ScaleExample()
    ensures BalanceAccuracy(Some(Decimal(15, -1)), TrxDecimal) == Decimal(15, 5)
    ensures Value(Decimal(15, 5)) == 1500000.0
  {
    assert Pow10Nat(5) == 100000;
  }
}

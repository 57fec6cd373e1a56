/** Currency amounts: the script's `d` (an exact decimal quantized to 0.01 with
    ROUND_HALF_UP), `ds` (its text) and `Decimal(text)` (reading an amount back). */
module Money {
  import opened Wrappers
  import opened Text

  /** An exact decimal number coeff / 10^scale, as Python's Decimal holds it. */
  datatype Dec = Dec(coeff: int, scale: nat)

  function Abs(n: int): nat {
    if n < 0 then -n else n
  }

  /** The integer c is n / q rounded to the nearest integer, halves away from zero. */
  ghost predicate IsHalfUp(n: int, q: int, c: int)
    requires q > 0
  {
    var e := 2 * (c * q - n);
    -q <= e <= q && (e == q ==> n > 0) && (e == -q ==> n < 0)
  }

  /** c cents is x rounded half-up to two places: |c/100 - x| <= 1/200, and a
      result exactly half a cent away lies on the far side of zero. */
  ghost predicate IsCentRounding(x: Dec, c: int) {
    var p: int := Pow10(x.scale);
    var e := 2 * (c * p - 100 * x.coeff);
    -p <= e <= p && (e == p ==> x.coeff > 0) && (e == -p ==> x.coeff < 0)
  }

  lemma DivBounds(a: int, b: int)
    requires a >= 0 && b > 0
    ensures a - b < b * (a / b) <= a
  {
  }

  function RoundHalfUp(n: int, q: int): (c: int)
    requires q > 0
    ensures IsHalfUp(n, q, c)
  {
    var m := Abs(n);
    var k := (2 * m + q) / (2 * q);
    HalfUpOfMagnitude(m, q, k);
    if n >= 0 then k else -k
  }

  lemma HalfUpOfMagnitude(m: int, q: int, k: int)
    requires m >= 0 && q > 0 && k == (2 * m + q) / (2 * q)
    ensures -q < 2 * (k * q - m) <= q
    ensures 2 * (k * q - m) == q ==> m > 0
  {
    DivBounds(2 * m + q, 2 * q);
    assert 2 * q * k == 2 * (k * q);
  }

  /** The script's `d`: x quantized to two decimal places, half-up, as a count of cents. */
  function Cents(x: Dec): (c: int)
    ensures IsCentRounding(x, c)
  {
    if x.scale <= 2 then
      Pow10Add(x.scale, 2 - x.scale);
      x.coeff * Pow10(2 - x.scale)
    else
      var q := Pow10(x.scale - 2);
      var c := RoundHalfUp(x.coeff, q);
      Pow10Add(2, x.scale - 2);
      ScaleHalfUp(x.coeff, q, c);
      c
  }

  lemma ScaleHalfUp(n: int, q: int, c: int)
    requires q > 0 && IsHalfUp(n, q, c)
    ensures var e := 2 * (c * (100 * q) - 100 * n);
      -(100 * q) <= e <= 100 * q && (e == 100 * q ==> n > 0) && (e == -(100 * q) ==> n < 0)
  {
    assert 2 * (c * (100 * q) - 100 * n) == 100 * (2 * (c * q - n));
  }

  lemma MulAtLeast(a: int, p: int)
    requires a >= 1 && p > 0
    ensures a * p >= p
  {
  }

  /** The arithmetic core of uniqueness: two candidates within half a unit of
      n / p, ties broken by the sign of n, coincide. */
  lemma HalfUpUnique(n: int, p: int, c1: int, c2: int)
    requires p > 0
    requires -p <= 2 * (c1 * p - n) <= p && (2 * (c1 * p - n) == p ==> n > 0) && (2 * (c1 * p - n) == -p ==> n < 0)
    requires -p <= 2 * (c2 * p - n) <= p && (2 * (c2 * p - n) == p ==> n > 0) && (2 * (c2 * p - n) == -p ==> n < 0)
    ensures c1 == c2
  {
    if c1 > c2 {
      MulAtLeast(c1 - c2, p);
    } else if c2 > c1 {
      MulAtLeast(c2 - c1, p);
    }
  }

  /** Half-up rounding to cents has one answer only. */
  lemma CentRoundingUnique(x: Dec, c1: int, c2: int)
    requires IsCentRounding(x, c1) && IsCentRounding(x, c2)
    ensures c1 == c2
  {
    HalfUpUnique(100 * x.coeff, Pow10(x.scale), c1, c2);
  }

  lemma ExactArith(n: int, p: int, c: int)
    requires p > 0 && n % p == 0 && -p <= 2 * (c * p - n) <= p
    ensures c * p == n
  {
    var k := n / p;
    assert n == p * k;
    assert c * p - n == (c - k) * p;
    if c > k { MulAtLeast(c - k, p); } else if c < k { MulAtLeast(k - c, p); }
  }

  /** An amount that already has at most two decimals is not changed by `d`. */
  lemma CentsExact(x: Dec)
    requires (100 * x.coeff) % Pow10(x.scale) == 0
    ensures Cents(x) * Pow10(x.scale) == 100 * x.coeff
  {
    ExactArith(100 * x.coeff, Pow10(x.scale), Cents(x));
  }

  lemma CentsOfCents(k: int)
    ensures Cents(Dec(k, 2)) == k
  {
  }

  lemma SignArith(n: int, p: int, c: int)
    requires p > 0 && -p <= 2 * (c * p - n) <= p && (2 * (c * p - n) == p ==> n > 0) && (2 * (c * p - n) == -p ==> n < 0)
    ensures n >= 0 ==> c >= 0
    ensures n <= 0 ==> c <= 0
  {
    if n >= 0 && c < 0 { MulAtLeast(-c, p); }
    if n <= 0 && c > 0 { MulAtLeast(c, p); }
  }

  /** Rounding keeps the sign of the input (a negative input rounds to a non-positive count). */
  lemma CentsSign(x: Dec)
    ensures x.coeff >= 0 ==> Cents(x) >= 0
    ensures x.coeff <= 0 ==> Cents(x) <= 0
  {
    SignArith(100 * x.coeff, Pow10(x.scale), Cents(x));
  }

  /** The text of a quantized amount: Python's str of a Decimal with exponent -2.
      The sign comes from the operand, so a negative amount that rounds to zero
      is written "-0.00". */
  function AmountText(negative: bool, cents: nat): string {
    (if negative then "-" else "") + NatText(cents / 100) + "." + Pad2(cents % 100)
  }

  /** The script's `ds`. */
  function Ds(x: Dec): (s: string)
    ensures |s| >= 4 && s[|s| - 3] == '.' && IsDigit(s[|s| - 2]) && IsDigit(s[|s| - 1])
    ensures forall i :: 0 <= i < |s| - 3 ==> s[i] != '.'
  {
    AmountText(x.coeff < 0, Abs(Cents(x)))
  }

  /** Position of the first '.', or |s| when there is none. */
  function DotIndex(s: string): (k: nat)
    ensures k <= |s| && (k < |s| ==> s[k] == '.')
    ensures forall i :: 0 <= i < k ==> s[i] != '.'
  {
    if s == [] then 0 else if s[0] == '.' then 0 else 1 + DotIndex(s[1..])
  }

  function ParseUnsigned(s: string): Option<Dec> {
    var k := DotIndex(s);
    var whole, frac := s[..k], if k < |s| then s[k + 1..] else "";
    if AllDigits(whole) && AllDigits(frac) && |whole| + |frac| > 0 then
      AllDigitsAppend(whole, frac);
      Some(Dec(DigitsValue(whole + frac), |frac|))
    else None
  }

  /** Python's Decimal(text) for plain fixed-point text: an optional '-', digits,
      and an optional '.' followed by digits. Anything else raises (None). */
  function ParseDecimal(s: string): Option<Dec> {
    if |s| > 0 && s[0] == '-' then
      match ParseUnsigned(s[1..])
      case None => None
      case Some(u) => Some(Dec(-u.coeff, u.scale))
    else ParseUnsigned(s)
  }

  lemma ParseAmountDigits(a: nat)
    ensures ParseUnsigned(NatText(a / 100) + "." + Pad2(a % 100)) == Some(Dec(a, 2))
  {
    var w, f := NatText(a / 100), Pad2(a % 100);
    var s := w + "." + f;
    assert forall i :: 0 <= i < |w| ==> s[i] == w[i];
    assert s[|w|] == '.';
    assert DotIndex(s) == |w|;
    assert s[..|w|] == w && s[|w| + 1..] == f;
    DigitsValueAppend(w, f);
    NatTextRoundTrip(a / 100);
    Pad2Value(a % 100);
    assert Pow10(2) == 100;
  }

  lemma AmountTextParse(negative: bool, a: nat)
    ensures ParseDecimal(AmountText(negative, a)) == Some(Dec(if negative then 0 - a as int else a, 2))
  {
    if negative {
      AmountTextNegative(a);
    } else {
      AmountTextPlain(a);
    }
  }

  lemma AmountTextNegative(a: nat)
    ensures ParseDecimal(AmountText(true, a)) == Some(Dec(0 - a as int, 2))
  {
    var w, f := NatText(a / 100), Pad2(a % 100);
    var body := w + "." + f;
    PrependSign(w, f);
    assert AmountText(true, a) == "-" + body;
    ParseAmountDigits(a);
    ParseNegated(body, a, 2);
  }

  lemma PrependSign(w: string, f: string)
    ensures "-" + w + "." + f == "-" + (w + "." + f)
  {
  }

  lemma AmountTextPlain(a: nat)
    ensures ParseDecimal(AmountText(false, a)) == Some(Dec(a, 2))
  {
    var body := NatText(a / 100) + "." + Pad2(a % 100);
    assert AmountText(false, a) == body;
    assert body[0] == NatText(a / 100)[0];
    ParseAmountDigits(a);
    ParsePlain(body);
  }

  lemma ParseNegated(body: string, c: int, e: nat)
    requires ParseUnsigned(body) == Some(Dec(c, e))
    ensures ParseDecimal("-" + body) == Some(Dec(0 - c, e))
  {
    assert ("-" + body)[1..] == body;
  }

  lemma ParsePlain(body: string)
    requires |body| > 0 && IsDigit(body[0])
    ensures ParseDecimal(body) == ParseUnsigned(body)
  {
  }

  /** Reading back the text `ds` writes gives the cents `d` computed: the
      reconciliation's Decimal(t["amount"]) sees exactly the rounded value. */
  lemma DsRoundTrip(x: Dec)
    ensures ParseDecimal(Ds(x)) == Some(Dec(Cents(x), 2))
  {
    CentsSign(x);
    AmountTextParse(x.coeff < 0, Abs(Cents(x)));
  }
}

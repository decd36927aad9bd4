/** The tax helper that sales and held-order estimates share. */
module Tax {
  import Json

  /** BigInt division truncates toward zero. */
  function TruncDiv(a: int, b: int): int
    requires b > 0
  {
    if a >= 0 then a / b else -((-a) / b)
  }

  /** The two-decimal text of a rate held in hundredths. */
  function ToFixed2(hundredths: nat): string {
    Json.Decimal(hundredths / 100) + "." + [Json.HexDigit(hundredths % 100 / 10), Json.HexDigit(hundredths % 10)]
  }

  /** The text without its first dot. */
  function DropDot(s: string): string {
    if s == "" then "" else if s[0] == '.' then s[1..] else [s[0]] + DropDot(s[1..])
  }

  /** The number decimal digits denote. */
  function ParseDigits(s: string): nat {
    Json.ScanNat(0, s).0
  }

  function BasisPoints(rate: nat): nat {
    ParseDigits(DropDot(ToFixed2(rate)))
  }

  function CalculateTax(enabled: bool, rate: nat, amount: int): (r: (int, int)) {
    if !enabled then (0, amount)
    else
      var tax := TruncDiv(amount * BasisPoints(rate) + 5000, 10000);
      (tax, amount + tax)
  }

  lemma NoDotInDecimal(n: nat)
    ensures '.' !in Json.Decimal(n)
  {
  }

  lemma {:induction false} DropFirstDot(digits: string, rest: string)
    requires '.' !in digits
    ensures DropDot(digits + "." + rest) == digits + rest
  {
    if digits == "" {
      assert digits + "." + rest == "." + rest;
    } else {
      assert digits + "." + rest == [digits[0]] + (digits[1..] + "." + rest);
      DropFirstDot(digits[1..], rest);
    }
  }

  lemma {:induction false} DropDotInDecimal(n: nat, rest: string)
    ensures DropDot(Json.Decimal(n) + "." + rest) == Json.Decimal(n) + rest
  {
    NoDotInDecimal(n);
    DropFirstDot(Json.Decimal(n), rest);
  }

  /** Formatting a two-decimal rate and dropping the dot yields exactly 100 times the rate, leading zeros included. */
  lemma BasisPointsExact(rate: nat)
    ensures BasisPoints(rate) == rate
  {
    var tens, units := [Json.HexDigit(rate % 100 / 10)], [Json.HexDigit(rate % 10)];
    DropDotInDecimal(rate / 100, tens + units);
    assert ToFixed2(rate) == Json.Decimal(rate / 100) + "." + (tens + units);
    Json.ScanDecimal(rate / 100, tens + units);
    assert (tens + units)[1..] == units && units[1..] == "";
    assert Json.ScanNat(rate / 100 * 10 + rate % 100 / 10, units) == (rate, "");
  }

  /** The tax is the one integer nearest to amount·rate, ties upward; in particular the error is at most half a unit. */
  lemma TaxIsNearest(rate: nat, amount: nat, t: int)
    ensures t == CalculateTax(true, rate, amount).0 <==> -5000 < 10000 * t - amount * rate <= 5000
  {
    BasisPointsExact(rate);
    var x := amount * rate + 5000;
    assert x >= 0;
    assert 10000 * (x / 10000) <= x < 10000 * (x / 10000) + 10000;
  }

  lemma ProductMonotone(a: nat, b: nat, c: nat, d: nat)
    requires a <= b && c <= d
    ensures 0 <= a * c <= b * d
  {
    assert b * d == a * c + a * (d - c) + (b - a) * d;
  }

  /** Rounding keeps order. */
  lemma TaxMonotone(enabled: bool, rate: nat, a: nat, b: nat)
    requires a <= b
    ensures CalculateTax(enabled, rate, a).0 <= CalculateTax(enabled, rate, b).0
    ensures CalculateTax(enabled, rate, a).1 <= CalculateTax(enabled, rate, b).1
  {
    if enabled {
      var s, t := CalculateTax(true, rate, a).0, CalculateTax(true, rate, b).0;
      TaxIsNearest(rate, a, s);
      TaxIsNearest(rate, b, t);
      ProductMonotone(a, b, rate, rate);
    }
  }

  /** Rates are at most 100% (a CHECK constraint), so the tax never exceeds what is taxed. */
  lemma TaxBounded(enabled: bool, rate: nat, amount: nat)
    requires rate <= 10000
    ensures 0 <= CalculateTax(enabled, rate, amount).0 <= amount
  {
    if enabled {
      var t := CalculateTax(true, rate, amount).0;
      TaxIsNearest(rate, amount, t);
      ProductMonotone(amount, amount, rate, 10000);
    }
  }
}

/**
 * Three independent printers and readers of XSGD amounts (6 decimals), which must agree:
 * chain-gateway balance.ts `formatUnits`, dashboard format.ts `formatXsgd` and `sgdToBaseUnits`,
 * agent-orchestrator discover.ts `dollarsToBaseUnits6`.
 */
module Money {
  import opened Wrappers
  import opened Text

  const DECIMALS: nat := 6
  const UNIT: nat := 1_000_000

  function ZeroDigits(k: nat): (s: string)
    ensures AllDigits(s) && |s| == k
  {
    seq(k, _ => '0')
  }

  function PadStart(s: string, width: nat): string {
    if |s| < width then ZeroDigits(width - |s|) + s else s
  }

  /** balance.ts formatUnits. */
  function FormatUnits(base: int, decimals: nat): string {
    var digits := PadStart(IntText(if base < 0 then -base else base), decimals + 1);
    var whole, fraction := digits[..|digits| - decimals], digits[|digits| - decimals..];
    var body := if decimals == 0 then whole else whole + "." + fraction;
    if base < 0 then "-" + body else body
  }

  /** bigint division and remainder, which truncate toward zero. */
  function TruncDiv(a: int, b: nat): int
    requires b > 0
  {
    if a < 0 then -(-a / b) else a / b
  }

  function TruncRem(a: int, b: nat): int
    requires b > 0
  {
    a - TruncDiv(a, b) * b
  }

  /** format.ts formatXsgd. */
  function FormatXsgd(value: int): string {
    IntText(TruncDiv(value, UNIT)) + "." + PadStart(IntText(TruncRem(value, UNIT)), DECIMALS)
  }

  /** The text before the first dot, and the text between the first two dots, if any. */
  function SplitDot(s: string): (parts: (string, Option<string>)) {
    if s == "" then ("", None) else
    if s[0] == '.' then ("", Some(UpToDot(s[1..]))) else
      var (whole, frac) := SplitDot(s[1..]);
      ([s[0]] + whole, frac)
  }

  function UpToDot(s: string): string {
    if s == "" || s[0] == '.' then "" else [s[0]] + UpToDot(s[1..])
  }

  /** The pattern (0|[1-9][0-9]*)(\.[0-9]{1,6})? in full. */
  predicate IsPrice(s: string) {
    var (whole, frac) := SplitDot(s);
    && whole != "" && AllDigits(whole) && (whole == "0" || whole[0] != '0')
    && match frac
       case None => s == whole
       case Some(f) => 1 <= |f| <= 6 && AllDigits(f) && s == whole + "." + f
  }

  function PadFraction(frac: string): (padded: string)
    ensures |padded| == 6 && (AllDigits(frac) ==> AllDigits(padded))
  {
    (frac + ZeroDigits(6))[..6]
  }

  /** discover.ts dollarsToBaseUnits6. */
  function DollarsToBaseUnits6(price: string): Result<nat> {
    if !IsPrice(price) then Result<nat>.Err("price must be a positive decimal with at most six places") else
      var (whole, frac) := SplitDot(price);
      Result<nat>.Ok(ReadDecimal(whole) * UNIT + ReadDecimal(PadFraction(frac.GetOr(""))))
  }

  /** format.ts sgdToBaseUnits; a non-digit makes BigInt throw. */
  function SgdToBaseUnits(sgd: string): Result<nat> {
    var (whole, frac) := SplitDot(sgd);
    var padded := PadFraction(frac.GetOr(""));
    var w := if whole == "" then "0" else whole;
    if AllDigits(w) && AllDigits(padded) then Result<nat>.Ok(ReadDecimal(w) * UNIT + ReadDecimal(padded))
    else Result<nat>.Err("not a number")
  }

  /** On every price one reader accepts, the other gives the same number. */
  lemma ReadersAgree(price: string)
    ensures DollarsToBaseUnits6(price).Ok? ==> SgdToBaseUnits(price) == DollarsToBaseUnits6(price)
  {
  }

  // ---- Digits ---------------------------------------------------------------------------

  lemma {:induction false} DecimalLength(n: nat, k: nat)
    requires k > 0 && n < Pow10(k)
    ensures |Decimal(n)| <= k
  {
    if n >= 10 {
      assert Pow10(1) == 10 * Pow10(0);
      DecimalLength(n / 10, k - 1);
    }
  }

  function Pow10(k: nat): (p: nat)
    ensures p > 0
  {
    if k == 0 then 1 else 10 * Pow10(k - 1)
  }

  lemma {:induction false} ZerosReadAway(k: nat, s: string)
    requires AllDigits(s)
    ensures ReadDecimal(ZeroDigits(k) + s) == ReadDecimal(s)
  {
    var t := ZeroDigits(k) + s;
    if s == "" {
      if k > 0 {
        ZerosReadAway(k - 1, "");
        assert t[..|t| - 1] == ZeroDigits(k - 1) + "";
      } else {
        assert t == "";
      }
    } else {
      ZerosReadAway(k, s[..|s| - 1]);
      assert t[..|t| - 1] == ZeroDigits(k) + s[..|s| - 1];
    }
  }

  /** The last k digits of a long enough number spell its remainder, the others its quotient. */
  lemma {:induction false} DecimalSplits(n: nat, k: nat)
    requires n >= Pow10(k)
    ensures Decimal(n) == Decimal(n / Pow10(k)) + PadStart(Decimal(n % Pow10(k)), k) || k == 0
    ensures k > 0 ==> |PadStart(Decimal(n % Pow10(k)), k)| == k
  {
    if k > 0 {
      var p := Pow10(k - 1);
      assert Pow10(k) == 10 * p;
      assert n / 10 >= p;
      DecimalSplits(n / 10, k - 1);
      DivMod10(n, p);
      RemainderDigits(n % Pow10(k), k);
      assert Decimal(n) == Decimal(n / 10) + [Digit(n % 10)];
      var rest := n % Pow10(k);
      assert rest / 10 == n / 10 % p && rest % 10 == n % 10;
      if k == 1 {
        assert Pow10(0) == 1;
      }
    }
  }

  lemma DivMod10(n: nat, p: nat)
    requires p > 0
    ensures n / 10 / p == n / (10 * p)
    ensures n % (10 * p) / 10 == n / 10 % p
    ensures n % (10 * p) % 10 == n % 10
  {
    var q, r := n / (10 * p), n % (10 * p);
    assert n == 10 * (p * q) + r;
    assert n / 10 == p * q + r / 10 && n % 10 == r % 10;
    assert r / 10 < p;
    QuotientIs(n / 10, p, q, r / 10);
  }

  lemma QuotientIs(a: nat, p: nat, q: nat, r: nat)
    requires a == p * q + r && r < p
    ensures a / p == q && a % p == r
  {
    var q', r' := a / p, a % p;
    assert a == p * q' + r';
    assert p * q' - p * q == p * (q' - q);
    Between(p, q' - q, r - r');
  }

  lemma Between(p: nat, d: int, e: int)
    requires p > 0 && p * d == e && 0 - p < e < p
    ensures d == 0
  {
    assert d >= 1 ==> p * d >= p;
    assert d <= -1 ==> p * d <= 0 - p;
  }

  /** Padding to k digits appends the last digit to the padding of the others to k - 1. */
  lemma RemainderDigits(m: nat, k: nat)
    requires k > 0 && m < Pow10(k)
    ensures |PadStart(Decimal(m), k)| == k
    ensures k > 1 ==> PadStart(Decimal(m), k) == PadStart(Decimal(m / 10), k - 1) + [Digit(m % 10)]
    ensures k == 1 ==> PadStart(Decimal(m), k) == [Digit(m % 10)]
  {
    DecimalLength(m, k);
    if k == 1 {
      assert Pow10(1) == 10 * Pow10(0);
    } else if m < 10 {
      assert Decimal(m / 10) == "0";
      PadLast("0", k - 1, [Digit(m)]);
      assert ZeroDigits(k - 1) == ZeroDigits(k - 2) + "0";
    } else {
      DecimalLength(m / 10, k - 1);
      PadLast(Decimal(m / 10), k - 1, [Digit(m % 10)]);
    }
  }

  lemma PadLast(s: string, width: nat, last: string)
    requires |last| == 1 && |s| <= width
    ensures PadStart(s + last, width + 1) == PadStart(s, width) + last
    ensures |PadStart(s, width)| == width
    ensures s == "0" ==> PadStart(s, width) == ZeroDigits(width) && PadStart(last, width + 1) == ZeroDigits(width) + last
  {
    assert s == "0" ==> ZeroDigits(width - 1) + "0" == ZeroDigits(width);
  }

  lemma UnitIsPower()
    ensures Pow10(6) == UNIT
  {
  }

  // ---- Agreement ------------------------------------------------------------------------

  /** The gateway and the dashboard print every balance alike. */
  lemma PrintersAgreeOnBalances(n: nat)
    ensures FormatUnits(n, 6) == FormatXsgd(n)
    ensures FormatXsgd(n) == Decimal(n / UNIT) + "." + PadStart(Decimal(n % UNIT), 6)
    ensures |PadStart(Decimal(n % UNIT), 6)| == 6
  {
    UnitIsPower();
    RemainderDigits(n % UNIT, 6);
    SevenDigits(n);
    CutsAt(PadStart(Decimal(n), 7), Decimal(n / UNIT), PadStart(Decimal(n % UNIT), 6));
  }

  /** Padded to seven digits, an amount is its whole part's digits and six more. */
  lemma SevenDigits(n: nat)
    ensures PadStart(Decimal(n), 7) == Decimal(n / UNIT) + PadStart(Decimal(n % UNIT), 6)
  {
    UnitIsPower();
    RemainderDigits(n % UNIT, 6);
    if n >= UNIT {
      DecimalSplits(n, 6);
    } else {
      DecimalLength(n, 6);
      PadMore(Decimal(n));
      SmallQuotient(n);
    }
  }

  lemma PadMore(s: string)
    requires |s| <= 6
    ensures PadStart(s, 7) == "0" + PadStart(s, 6)
  {
  }

  lemma SmallQuotient(n: nat)
    requires n < 1_000_000
    ensures n / 1_000_000 == 0 && n % 1_000_000 == n && Decimal(0) == "0"
  {
  }

  lemma CutsAt(digits: string, whole: string, fraction: string)
    requires digits == whole + fraction && |fraction| == 6
    ensures digits[..|digits| - 6] == whole && digits[|digits| - 6..] == fraction
  {
  }

  /** Below zero they part: they agree exactly on non-negative amounts and on whole ones. */
  lemma PrintersAgreeExactly(value: int)
    ensures FormatUnits(value, 6) == FormatXsgd(value) <==> value >= 0 || value % UNIT == 0
  {
    if value >= 0 {
      PrintersAgreeOnBalances(value);
    } else {
      var n: nat := 0 - value;
      NegativeForms(n);
      WholeBothWays(n);
      NegativeParts(n / UNIT, n % UNIT);
    }
  }

  lemma WholeBothWays(n: nat)
    ensures (0 - n) % 1_000_000 == 0 <==> n % 1_000_000 == 0
  {
  }

  lemma NegativeForms(n: nat)
    requires n > 0
    ensures FormatUnits(0 - n, 6) == "-" + (Decimal(n / UNIT) + "." + PadStart(Decimal(n % UNIT), 6))
    ensures FormatXsgd(0 - n) == IntText(0 - n / UNIT) + "." + PadStart(IntText(0 - n % UNIT), 6)
  {
    PrintersAgreeOnBalances(n);
    assert FormatUnits(0 - n, 6) == "-" + FormatUnits(n, 6);
  }

  lemma NegativeParts(q: nat, r: nat)
    requires r < UNIT && q + r > 0
    ensures IntText(0 - q) + "." + PadStart(IntText(0 - r), 6) == "-" + (Decimal(q) + "." + PadStart(Decimal(r), 6))
            <==> r == 0
  {
    SignShows(0 - q);
    SameTail(IntText(0 - q), Decimal(q), PadStart(IntText(0 - r), 6), PadStart(Decimal(r), 6));
    if r > 0 {
      PaddedMinus(r);
    }
  }

  lemma SameTail(whole: string, digits: string, a: string, b: string)
    requires whole != ""
    ensures whole[0] != '-' ==> whole + "." + a != "-" + (digits + "." + b)
    ensures whole == "-" + digits ==> (whole + "." + a == "-" + (digits + "." + b) <==> a == b)
  {
    assert (whole + "." + a)[0] == whole[0] && ("-" + (digits + "." + b))[0] == '-';
    if whole == "-" + digits {
      assert a == (whole + "." + a)[|whole| + 1..] && b == ("-" + (digits + "." + b))[|whole| + 1..];
      assert whole + "." + b == "-" + (digits + "." + b);
    }
  }

  lemma PaddedMinus(r: int)
    requires 0 < r < UNIT
    ensures PadStart(IntText(0 - r), 6) != PadStart(Decimal(r), 6)
  {
    var text := IntText(0 - r);
    assert text[0] == '-';
    assert PadStart(text, 6)[if |text| < 6 then 6 - |text| else 0] == '-';
    assert AllDigits(PadStart(Decimal(r), 6));
  }

  lemma {:induction false} SplitsAtItsDot(whole: string, frac: string)
    requires AllDigits(whole) && AllDigits(frac)
    ensures SplitDot(whole + "." + frac) == (whole, Some(frac))
  {
    var s := whole + "." + frac;
    if whole == "" {
      assert s[1..] == frac;
      DigitsHaveNoDot(frac);
    } else {
      SplitsAtItsDot(whole[1..], frac);
      assert s[1..] == whole[1..] + "." + frac;
      assert whole == [whole[0]] + whole[1..];
    }
  }

  lemma {:induction false} DigitsHaveNoDot(s: string)
    requires AllDigits(s)
    ensures UpToDot(s) == s
  {
    if s != "" {
      DigitsHaveNoDot(s[1..]);
      assert s == [s[0]] + s[1..];
    }
  }

  lemma {:induction false} NoLeadingZero(n: nat)
    ensures Decimal(n) == "0" || Decimal(n)[0] != '0'
  {
    if n >= 10 {
      NoLeadingZero(n / 10);
    }
  }

  /** What is printed is a price, and both readers give the amount back. */
  lemma PrintedAmountReadsBack(n: nat)
    ensures DollarsToBaseUnits6(FormatXsgd(n)) == Ok(n)
    ensures SgdToBaseUnits(FormatXsgd(n)) == Ok(n)
  {
    hide Decimal;
    hide PadStart;
    hide SgdToBaseUnits;
    PrintersAgreeOnBalances(n);
    var whole, frac := Decimal(n / UNIT), PadStart(Decimal(n % UNIT), 6);
    PaddingReadsBack(n % UNIT);
    SplitsAtItsDot(whole, frac);
    NoLeadingZero(n / UNIT);
    DecimalReadsBack(n / UNIT);
    ReadersAgree(FormatXsgd(n));
  }

  lemma PaddingReadsBack(m: nat)
    requires |PadStart(Decimal(m), 6)| == 6
    ensures AllDigits(PadStart(Decimal(m), 6)) && ReadDecimal(PadStart(Decimal(m), 6)) == m
    ensures PadFraction(PadStart(Decimal(m), 6)) == PadStart(Decimal(m), 6)
  {
    var text := Decimal(m);
    DecimalReadsBack(m);
    if |text| < 6 {
      ZerosReadAway(6 - |text|, text);
    }
  }

  // ---- Exactly the prices -------------------------------------------------------------------

  /** Digits without a leading zero. */
  predicate IsWhole(whole: string) {
    whole != "" && AllDigits(whole) && (whole == "0" || whole[0] != '0')
  }

  lemma {:induction false} WholeHasNoDot(whole: string)
    requires AllDigits(whole)
    ensures SplitDot(whole) == (whole, None)
  {
    if whole != "" {
      WholeHasNoDot(whole[1..]);
      assert whole == [whole[0]] + whole[1..];
    }
  }

  lemma {:induction false} ZerosShift(s: string, k: nat)
    requires AllDigits(s)
    ensures AllDigits(s + ZeroDigits(k)) && ReadDecimal(s + ZeroDigits(k)) == ReadDecimal(s) * Pow10(k)
  {
    var t := s + ZeroDigits(k);
    if k == 0 {
      assert t == s;
    } else {
      ZerosShift(s, k - 1);
      assert ZeroDigits(k) == ZeroDigits(k - 1) + ['0'];
      assert t[..|t| - 1] == s + ZeroDigits(k - 1) && t[|t| - 1] == '0';
      TenTimes(ReadDecimal(s), Pow10(k - 1));
    }
  }

  lemma TenTimes(n: nat, p: nat)
    ensures n * p * 10 == n * (10 * p)
  {
  }

  lemma PaddedFraction(frac: string)
    requires AllDigits(frac) && |frac| <= 6
    ensures ReadDecimal(PadFraction(frac)) == ReadDecimal(frac) * Pow10(6 - |frac|)
  {
    hide ReadDecimal;
    hide Pow10;
    hide PadFraction;
    hide ZeroDigits;
    PadsWithZeros(frac);
    ZerosShift(frac, 6 - |frac|);
  }

  lemma PadsWithZeros(frac: string)
    requires |frac| <= 6
    ensures PadFraction(frac) == frac + ZeroDigits(6 - |frac|)
  {
    hide ZeroDigits;
    ZerosCut(frac);
  }

  lemma ZerosCut(frac: string)
    requires |frac| <= 6
    ensures (frac + ZeroDigits(6))[..6] == frac + ZeroDigits(6 - |frac|)
  {
    var padded := (frac + ZeroDigits(6))[..6];
    assert forall i :: |frac| <= i < 6 ==> padded[i] == '0';
  }

  lemma NoFraction()
    ensures ReadDecimal(PadFraction("")) == 0
  {
    hide PadFraction;
    hide Pow10;
    PaddedFraction("");
    assert ReadDecimal("") == 0;
  }

  /** A whole number of dollars is a price exactly when it has no leading zero. */
  lemma WholePrice(whole: string)
    requires AllDigits(whole)
    ensures DollarsToBaseUnits6(whole).Ok? <==> IsWhole(whole)
    ensures IsWhole(whole) ==> DollarsToBaseUnits6(whole) == Ok(ReadDecimal(whole) * UNIT)
  {
    hide ReadDecimal;
    hide PadFraction;
    hide SplitDot;
    hide AllDigits;
    WholeHasNoDot(whole);
    NoFraction();
  }

  /** With a dot there are one to six places, which count as what they are worth. */
  lemma PlacedPrice(whole: string, frac: string)
    requires AllDigits(whole) && AllDigits(frac)
    ensures var price := DollarsToBaseUnits6(whole + "." + frac);
            && (price.Ok? <==> IsWhole(whole) && 1 <= |frac| <= 6)
            && (price.Ok? ==> price.value == ReadDecimal(whole) * UNIT + ReadDecimal(frac) * Pow10(6 - |frac|))
  {
    hide PadFraction;
    hide SplitDot;
    hide ReadDecimal;
    hide Pow10;
    SplitsAtItsDot(whole, frac);
    if |frac| <= 6 {
      PaddedFraction(frac);
    }
  }

  /** Nothing else is a price. */
  lemma OnlyPricesAreRead(price: string)
    requires DollarsToBaseUnits6(price).Ok?
    ensures IsWhole(price)
            || exists whole, frac :: IsWhole(whole) && AllDigits(frac) && 1 <= |frac| <= 6 && price == whole + "." + frac
  {
    var (whole, frac) := SplitDot(price);
    if frac.Some? {
      assert price == whole + "." + frac.value;
    }
  }
}

/**
 * The printers of HBAR amounts: by slicing the digit string (web/lib/registry.ts), and by
 * quotient and remainder (packages/types/src/x402.ts, agent/cmd/cleargate-node/earnings.go,
 * agent/internal/tui/theme.go).
 */
module Amounts {
  import opened Common
  import opened Decimal

  const TINYBARS_PER_HBAR: nat := 100_000_000

  function Pow10(k: nat): (p: nat)
    ensures p > 0
  {
    if k == 0 then 1 else 10 * Pow10(k - 1)
  }

  function Zeros(n: nat): (s: string)
    ensures |s| == n && AllDigits(s)
  {
    if n == 0 then "" else "0" + Zeros(n - 1)
  }

  /** padStart(n, "0"), and %0nd. */
  function PadStart(s: string, n: nat): string {
    if |s| >= n then s else Zeros(n - |s|) + s
  }

  /** replace(/0+$/, ""), and TrimRight(s, "0"). */
  function TrimZeros(s: string): string {
    if s != "" && s[|s| - 1] == '0' then TrimZeros(s[..|s| - 1]) else s
  }

  /** replace(/^0+(?=\d)/, ""). */
  function StripLeadingZeros(s: string): string {
    if |s| > 1 && s[0] == '0' && IsDigit(s[1]) then StripLeadingZeros(s[1..]) else s
  }

  // ---- The printers ----

  function Hbar(tinybars: string): string {
    var padded := PadStart(tinybars, 9);
    var whole, fraction := padded[..|padded| - 8], TrimZeros(padded[|padded| - 8..]);
    if fraction == "" then whole else whole + "." + fraction
  }

  function HbarShort(tinybars: string, decimals: nat): string
    requires 1 <= decimals <= 8
  {
    var padded := PadStart(tinybars, 9);
    var whole := StripLeadingZeros(padded[..|padded| - 8]);
    var fraction := TrimZeros(padded[|padded| - 8..][..decimals]);
    if fraction != "" then whole + "." + fraction
    else if whole != "0" then whole
    else if exists i | 0 <= i < |tinybars| :: '1' <= tinybars[i] <= '9' then BelowOneUnit(decimals)
    else "0"
  }

  /** The bound shown instead of rounding an amount down to nothing. */
  function BelowOneUnit(decimals: nat): string
    requires decimals >= 1
  {
    "<" + ("0." + (Zeros(decimals - 1) + "1"))
  }

  /** formatHBAR and formatHBARBig: whole HBAR alone when nothing is left over. */
  function FormatHbar(tinybars: nat): string {
    var whole, frac := tinybars / TINYBARS_PER_HBAR, tinybars % TINYBARS_PER_HBAR;
    if frac == 0 then
      Print(whole) + " HBAR"
    else
      Print(whole) + "." + TrimZeros(PadStart(Print(frac), 8)) + " HBAR"
  }

  /** formatTinybars: the same decision made on the trimmed fraction. */
  function FormatTinybars(tinybars: string): Option<string> {
    match ParseBigInt(tinybars)
    case None => None
    case Some(value) =>
      if value < 0 then None  // amounts are not negative
      else
        var whole := value / TINYBARS_PER_HBAR;
        var frac := TrimZeros(PadStart(Print(value % TINYBARS_PER_HBAR), 8));
        Some(if |frac| > 0 then Print(whole) + "." + frac + " HBAR" else Print(whole) + " HBAR")
  }

  // ---- Digits ----

  /** `r` in exactly `k` digits. */
  function Fixed(r: nat, k: nat): (s: string)
    ensures |s| == k && AllDigits(s)
  {
    if k == 0 then "" else Fixed(r / 10, k - 1) + [DigitChar(r % 10)]
  }

  lemma DivMod10(t: nat, k: nat)
    ensures t / Pow10(k + 1) == (t / 10) / Pow10(k)
    ensures (t % Pow10(k + 1)) / 10 == (t / 10) % Pow10(k) && (t % Pow10(k + 1)) % 10 == t % 10
  {
    var p := Pow10(k);
    var q, m := (t / 10) / p, (t / 10) % p;
    DivBounds(t / 10, p);
    assert t / 10 == p * q + m;
    assert (10 * p) * q == 10 * (p * q);
    DivUnique(t, 10 * p, q);
    assert t % (10 * p) == t - (10 * p) * q;
  }

  lemma ValueOfAppended(s: string, d: nat)
    requires AllDigits(s) && d < 10
    ensures AllDigits(s + [DigitChar(d)]) && Value(s + [DigitChar(d)]) == 10 * Value(s) + d
  {
    assert (s + [DigitChar(d)])[..|s|] == s;
  }

  lemma TenthBelow(r: nat, p: nat)
    requires r < 10 * p
    ensures r / 10 < p
  {
  }

  lemma {:induction false} FixedValue(r: nat, k: nat)
    requires r < Pow10(k)
    ensures Value(Fixed(r, k)) == r
  {
    if k > 0 {
      TenthBelow(r, Pow10(k - 1));
      FixedValue(r / 10, k - 1);
      ValueOfAppended(Fixed(r / 10, k - 1), r % 10);
    }
  }

  lemma {:induction false} FixedZero(k: nat)
    ensures Fixed(0, k) == Zeros(k) && (k > 0 ==> Zeros(k) == Zeros(k - 1) + "0")
  {
    if k > 1 {
      FixedZero(k - 1);
      assert "0" + (Zeros(k - 2) + "0") == "0" + Zeros(k - 2) + "0";
    }
  }

  /** The decimal digits of a number are those of its quotient, then those of its remainder. */
  lemma {:induction false} PrintSplits(t: nat, k: nat)
    requires t / Pow10(k) > 0
    ensures Print(t) == Print(t / Pow10(k)) + Fixed(t % Pow10(k), k)
  {
    if k > 0 {
      DivMod10(t, k - 1);
      DivBounds(t, Pow10(k));
      PrintSplits(t / 10, k - 1);
    }
  }

  lemma {:induction false} PaddedPrint(r: nat, k: nat)
    requires r < Pow10(k) && k > 0
    ensures |Print(r)| <= k && PadStart(Print(r), k) == Fixed(r, k)
  {
    if r < 10 {
      FixedZero(k - 1);
      assert PadStart(Print(r), k) == Zeros(k - 1) + [DigitChar(r)];
    } else {
      assert k > 1 by {
        assert Pow10(1) == 10 * Pow10(0);
      }
      PaddedPrint(r / 10, k - 1);
      assert Zeros(k - |Print(r)|) + (Print(r / 10) + [DigitChar(r % 10)])
          == Zeros(k - |Print(r)|) + Print(r / 10) + [DigitChar(r % 10)];
    }
  }

  lemma Pow10Of8()
    ensures Pow10(8) == TINYBARS_PER_HBAR
  {
    assert Pow10(2) == 100;
    assert Pow10(4) == 10_000;
    assert Pow10(6) == 1_000_000;
  }

  // ---- The printers agree ----

  lemma {:induction false} TrimmedEmptyIffZero(r: nat, k: nat)
    requires r < Pow10(k)
    ensures TrimZeros(Fixed(r, k)) == "" <==> r == 0
  {
    if k > 0 {
      var f := Fixed(r, k);
      assert f[..k - 1] == Fixed(r / 10, k - 1) && f[k - 1] == DigitChar(r % 10);
      if r % 10 == 0 {
        TrimmedEmptyIffZero(r / 10, k - 1);
      }
    }
  }

  function Figure(whole: string, fraction: string): string {
    if fraction == "" then whole else whole + "." + fraction
  }

  /** An amount as the printers lay it out: whole HBAR, then the places that are not idle zeros. */
  function Pointed(whole: string, places: string): string {
    Figure(whole, TrimZeros(places))
  }

  /** The eight places after the point. */
  function Places(t: nat): (s: string)
    ensures |s| == 8 && AllDigits(s)
  {
    Fixed(t % TINYBARS_PER_HBAR, 8)
  }

  /** Padding to nine digits leaves the whole HBAR in front of the last eight. */
  lemma PaddedAmount(t: nat)
    ensures var padded := PadStart(Print(t), 9);
      && |padded| >= 9
      && padded[..|padded| - 8] == Print(t / TINYBARS_PER_HBAR)
      && padded[|padded| - 8..] == Places(t)
  {
    if t / TINYBARS_PER_HBAR > 0 {
      LongAmount(t);
    } else {
      ShortAmount(t);
    }
  }

  lemma LongAmount(t: nat)
    requires t / TINYBARS_PER_HBAR > 0
    ensures var whole := Print(t / TINYBARS_PER_HBAR);
      PadStart(Print(t), 9) == whole + Places(t) && |whole| >= 1
  {
    PrintedDigits(t / TINYBARS_PER_HBAR);
    LongAmountDigits(t);
  }

  lemma ShortAmount(t: nat)
    requires t < TINYBARS_PER_HBAR
    ensures PadStart(Print(t), 9) == "0" + Places(t) && Print(t / TINYBARS_PER_HBAR) == "0"
  {
    SmallPlaces(t);
    OneZeroMore(Print(t), 8);
    assert Print(0) == "0";
  }

  lemma SmallPlaces(t: nat)
    requires t < TINYBARS_PER_HBAR
    ensures |Print(t)| <= 8 && PadStart(Print(t), 8) == Places(t)
  {
    Pow10Of8();
    SmallRemainder(t);
    PaddedPrint(t, 8);
  }

  lemma SmallRemainder(t: nat)
    requires t < TINYBARS_PER_HBAR
    ensures Places(t) == Fixed(t, 8)
  {
    assert t % TINYBARS_PER_HBAR == t;
  }

  lemma OneZeroMore(s: string, k: nat)
    requires |s| <= k
    ensures PadStart(s, k + 1) == "0" + PadStart(s, k)
  {
    Regroup("0", Zeros(k - |s|), s);
    assert Zeros(0) + s == s;
  }

  lemma HbarIsPointed(t: nat)
    ensures Hbar(Print(t)) == Pointed(Print(t / TINYBARS_PER_HBAR), Places(t))
  {
    PaddedAmount(t);
  }

  lemma FormattedIsPointed(t: nat)
    ensures FormatHbar(t) == Pointed(Print(t / TINYBARS_PER_HBAR), Places(t)) + " HBAR"
    ensures PadStart(Print(t % TINYBARS_PER_HBAR), 8) == Places(t)
  {
    var r := t % TINYBARS_PER_HBAR;
    Pow10Of8();
    PaddedPrint(r, 8);
    TrimmedEmptyIffZero(r, 8);
  }

  /** Slicing the string and dividing the number print the same amount. */
  lemma PrintersAgree(t: nat)
    ensures Hbar(Print(t)) + " HBAR" == FormatHbar(t)
    ensures FormatTinybars(Print(t)) == Some(FormatHbar(t))
  {
    HbarIsPointed(t);
    FormattedIsPointed(t);
    ParsePrinted(t);
  }

  // ---- Reading an amount back ----

  /** Where the point is, or the length if there is none. */
  function PointAt(s: string): (i: nat)
    ensures i <= |s|
  {
    if s == "" || s[0] == '.' then 0 else 1 + PointAt(s[1..])
  }

  /** The digits of a figure to eight places, with no point. */
  function AllPlaces(whole: string, fraction: string): (s: string)
    requires AllDigits(whole) && AllDigits(fraction) && |fraction| <= 8
    ensures AllDigits(s)
  {
    whole + (fraction + Zeros(8 - |fraction|))
  }

  /** The tinybars a decimal HBAR figure of at most eight places stands for. */
  function ParseHbar(s: string): Option<nat> {
    var i := PointAt(s);
    var whole, fraction := s[..i], if i < |s| then s[i + 1..] else "";
    if whole == "" || !AllDigits(whole) || !AllDigits(fraction) || |fraction| > 8 || (i < |s| && fraction == "") then
      None
    else
      Some(Value(AllPlaces(whole, fraction)))
  }

  lemma {:induction false} PointAfterDigits(whole: string, rest: string)
    requires AllDigits(whole) && (rest == "" || rest[0] == '.')
    ensures PointAt(whole + rest) == |whole|
    decreases |whole|
  {
    if whole != "" {
      assert (whole + rest)[1..] == whole[1..] + rest;
      PointAfterDigits(whole[1..], rest);
    } else {
      assert whole + rest == rest;
    }
  }

  lemma {:induction false} TrimmedPadsBack(s: string)
    requires AllDigits(s)
    ensures AllDigits(TrimZeros(s)) && |TrimZeros(s)| <= |s|
    ensures TrimZeros(s) + Zeros(|s| - |TrimZeros(s)|) == s
    decreases |s|
  {
    if s != "" && s[|s| - 1] == '0' {
      var t := s[..|s| - 1];
      TrimmedPadsBack(t);
      FixedZero(|s| - |TrimZeros(s)|);
      assert TrimZeros(s) + (Zeros(|t| - |TrimZeros(t)|) + "0") == TrimZeros(t) + Zeros(|t| - |TrimZeros(t)|) + "0";
      assert t + "0" == s;
    }
  }

  /** Where a figure divides. */
  lemma FigureParts(whole: string, fraction: string)
    requires AllDigits(whole)
    ensures var s := Figure(whole, fraction);
      && PointAt(s) == |whole| <= |s| && s[..|whole|] == whole
      && (|whole| < |s| <==> fraction != "")
      && (fraction != "" ==> s[|whole| + 1..] == fraction)
  {
    PointAfterDigits(whole, "");
    PointAfterDigits(whole, "." + fraction);
    assert whole + "" == whole;
    assert whole + "." + fraction == whole + ("." + fraction);
  }

  lemma FigureReads(whole: string, fraction: string)
    requires whole != "" && AllDigits(whole) && AllDigits(fraction) && |fraction| <= 8
    ensures ParseHbar(Figure(whole, fraction)) == Some(Value(AllPlaces(whole, fraction)))
  {
    FigureParts(whole, fraction);
  }

  lemma AllPlacesOfTrimmed(whole: string, places: string)
    requires AllDigits(whole) && |places| == 8 && AllDigits(places)
    ensures AllDigits(TrimZeros(places)) && |TrimZeros(places)| <= 8
    ensures AllPlaces(whole, TrimZeros(places)) == whole + places
  {
    TrimmedPadsBack(places);
  }

  /** Reading a figure is reading its digits, trimmed or not. */
  lemma PointedReadsBack(whole: string, places: string)
    requires whole != "" && AllDigits(whole) && |places| == 8 && AllDigits(places)
    ensures AllDigits(whole + places) && ParseHbar(Pointed(whole, places)) == Some(Value(whole + places))
  {
    AllPlacesOfTrimmed(whole, places);
    FigureReads(whole, TrimZeros(places));
  }

  lemma {:induction false} LeadingZero(s: string)
    requires AllDigits(s)
    ensures Value("0" + s) == Value(s)
    decreases |s|
  {
    if s == "" {
      assert "0" + s == "0" && "0"[..0] == "";
    } else {
      var front := s[..|s| - 1];
      assert ("0" + s)[..|s|] == "0" + front;
      LeadingZero(front);
    }
  }

  /** The whole HBAR and the eight places of an amount are its digits. */
  /** Stripping leaves the same number, with no leading zero unless it is all there is. */
  lemma {:induction false} StrippedValue(s: string)
    requires AllDigits(s) && s != ""
    ensures var r := StripLeadingZeros(s);
      AllDigits(r) && r != "" && Value(r) == Value(s) && (|r| > 1 ==> r[0] != '0')
    decreases |s|
  {
    if |s| > 1 && s[0] == '0' {
      StrippedValue(s[1..]);
      LeadingZero(s[1..]);
      assert "0" + s[1..] == s;
    }
  }

  lemma DigitsValue(t: nat)
    ensures var digits := Print(t / TINYBARS_PER_HBAR) + Places(t); AllDigits(digits) && Value(digits) == t
  {
    PrintedDigits(t / TINYBARS_PER_HBAR);
    if t / TINYBARS_PER_HBAR > 0 {
      LongAmountDigits(t);
      PrintedDigits(t);
    } else {
      assert Print(0) == "0";
      Pow10Of8();
      FixedValue(t, 8);
      LeadingZero(Places(t));
    }
  }

  lemma LongAmountDigits(t: nat)
    requires t / TINYBARS_PER_HBAR > 0
    ensures Print(t) == Print(t / TINYBARS_PER_HBAR) + Places(t)
  {
    Pow10Of8();
    PrintSplits(t, 8);
  }

  /** Every printed amount parses back to the same tinybars. */
  lemma HbarRoundTrip(t: nat)
    ensures ParseHbar(Hbar(Print(t))) == Some(t)
  {
    HbarIsPointed(t);
    PrintedDigits(t / TINYBARS_PER_HBAR);
    DigitsValue(t);
    PointedReadsBack(Print(t / TINYBARS_PER_HBAR), Places(t));
  }

  // ---- Truncation ----

  lemma TenTimes(a: nat, b: nat)
    ensures 10 * (a * b) == (10 * a) * b
  {
  }

  lemma {:induction false} Pow10Add(a: nat, b: nat)
    ensures Pow10(a + b) == Pow10(a) * Pow10(b)
  {
    if a > 0 {
      Pow10Add(a - 1, b);
      TenTimes(Pow10(a - 1), Pow10(b));
    }
  }

  /** A number without its last `k` digits. */
  function Without(r: nat, k: nat): nat {
    if k == 0 then r else Without(r / 10, k - 1)
  }

  lemma {:induction false} WithoutIsQuotient(r: nat, k: nat)
    ensures Without(r, k) == r / Pow10(k)
  {
    if k > 0 {
      WithoutIsQuotient(r / 10, k - 1);
      DivMod10(r, k - 1);
    }
  }

  /** Dropping digits from the right is dividing. */
  lemma {:induction false} FixedDropsDigits(r: nat, d: nat, dropped: nat)
    ensures Fixed(r, d + dropped)[..d] == Fixed(Without(r, dropped), d)
    decreases dropped
  {
    if dropped > 0 {
      FixedDropsDigits(r / 10, d, dropped - 1);
      assert Fixed(r, d + dropped)[..d] == Fixed(r / 10, d + dropped - 1)[..d];
    }
  }

  /** Tenfold, `k` times over. */
  function Scaled(a: nat, k: nat): nat {
    if k == 0 then a else 10 * Scaled(a, k - 1)
  }

  lemma {:induction false} ScaledIsMultiplied(a: nat, k: nat)
    ensures Scaled(a, k) == Pow10(k) * a
  {
    if k > 0 {
      ScaledIsMultiplied(a, k - 1);
      TenTimes(Pow10(k - 1), a);
    }
  }

  /** Putting zeros on the right is multiplying. */
  lemma {:induction false} FixedAddsZeros(a: nat, d: nat, added: nat)
    ensures Fixed(Scaled(a, added), d + added) == Fixed(a, d) + Zeros(added)
    decreases added
  {
    if added > 0 {
      FixedAddsZeros(a, d, added - 1);
      TenfoldShifts(Scaled(a, added - 1), d + added);
      FixedZero(added);
      assert Fixed(a, d) + Zeros(added - 1) + "0" == Fixed(a, d) + (Zeros(added - 1) + "0");
    } else {
      assert Fixed(a, d) + "" == Fixed(a, d);
    }
  }

  lemma TenfoldShifts(x: nat, k: nat)
    requires k > 0
    ensures Fixed(10 * x, k) == Fixed(x, k - 1) + "0"
  {
    assert 10 * x / 10 == x;
  }

  lemma {:induction false} TrimOfZeros(s: string, n: nat)
    ensures TrimZeros(s + Zeros(n)) == TrimZeros(s)
    decreases n
  {
    if n > 0 {
      FixedZero(n);
      assert s + Zeros(n) == s + Zeros(n - 1) + "0";
      assert (s + Zeros(n))[..|s| + n - 1] == s + Zeros(n - 1);
      TrimOfZeros(s, n - 1);
    } else {
      assert s + Zeros(0) == s;
    }
  }

  /** One unit of the last place shown. */
  function Unit(decimals: nat): (u: nat)
    requires decimals <= 8
    ensures u > 0
  {
    Pow10(8 - decimals)
  }

  /** The amount cut down to whole units of the last place shown. */
  function Truncated(t: nat, decimals: nat): (v: nat)
    requires decimals <= 8
    ensures v <= t < v + Unit(decimals)
  {
    Cut(t, Unit(decimals))
  }

  function Cut(t: nat, u: nat): (v: nat)
    requires u > 0
    ensures v <= t < v + u
  {
    t - t % u
  }

  lemma Nested(u: nat, w: nat, q: nat, a: nat)
    ensures (w * u) * q == u * (w * q) && u * (w * q + a) == u * (w * q) + u * a
  {
  }

  lemma QuotientBelow(r: nat, u: nat, w: nat)
    requires u > 0 && r < w * u
    ensures r / u < w && u * (r / u) <= r
  {
    DivBounds(r, u);
    if r / u >= w {
      MulLe(u, w, r / u);
    }
  }

  lemma CutIsMultiple(t: nat, u: nat, k: nat)
    requires u > 0 && u * k <= t < u * k + u
    ensures Cut(t, u) == u * k
  {
    DivUnique(t, u, k);
  }

  lemma PartsOf(big: nat, q: nat, r: nat)
    requires r < big
    ensures (big * q + r) / big == q && (big * q + r) % big == r
  {
    DivUnique(big * q + r, big, q);
  }

  /** Cutting an amount to a unit that divides `big` cuts its remainder by `big` and keeps its quotient. */
  lemma CutWithin(t: nat, big: nat, u: nat, w: nat, q: nat, r: nat)
    requires u > 0 && w > 0 && big == w * u && t == big * q + r && r < big
    ensures var v := Cut(t, u);
      && v / big == q
      && v % big == u * (r / u)
      && r / u < w
  {
    QuotientBelow(r, u, w);
    DivBounds(r, u);
    Nested(u, w, q, r / u);
    CutIsMultiple(t, u, w * q + r / u);
    PartsOf(big, q, u * (r / u));
  }

  lemma TruncatedParts(t: nat, d: nat)
    requires d <= 8
    ensures var u, v, r := Unit(d), Truncated(t, d), t % TINYBARS_PER_HBAR;
      && v / TINYBARS_PER_HBAR == t / TINYBARS_PER_HBAR
      && v % TINYBARS_PER_HBAR == u * (r / u)
      && r / u < Pow10(d)
  {
    Pow10Of8();
    Pow10Add(d, 8 - d);
    CutWithin(t, TINYBARS_PER_HBAR, Unit(d), Pow10(d), t / TINYBARS_PER_HBAR, t % TINYBARS_PER_HBAR);
  }

  lemma PaddedDigits(a: nat, d: nat, added: nat)
    ensures TrimZeros(Fixed(Pow10(added) * a, d + added)) == TrimZeros(Fixed(a, d))
  {
    ScaledIsMultiplied(a, added);
    FixedAddsZeros(a, d, added);
    TrimOfZeros(Fixed(a, d), added);
  }

  lemma CutDigits(r: nat, a: nat, d: nat, dropped: nat)
    requires a == Without(r, dropped)
    ensures TrimZeros(Fixed(r, d + dropped)[..d]) == TrimZeros(Fixed(Pow10(dropped) * a, d + dropped))
  {
    FixedDropsDigits(r, d, dropped);
    PaddedDigits(a, d, dropped);
  }

  /** The digits the short printer slices out are the places of the amount cut down. */
  lemma ShownPlaces(t: nat, decimals: nat)
    requires 1 <= decimals <= 8
    ensures TrimZeros(Places(t)[..decimals]) == TrimZeros(Places(Truncated(t, decimals)))
  {
    var r, dropped := t % TINYBARS_PER_HBAR, 8 - decimals;
    TruncatedParts(t, decimals);
    WithoutIsQuotient(r, dropped);
    CutDigits(r, Without(r, dropped), decimals, dropped);
  }

  /** The whole part has no leading zero to strip, and is "0" only when it is nothing. */
  lemma WholePart(q: nat)
    ensures StripLeadingZeros(Print(q)) == Print(q)
    ensures Print(q) == "0" <==> q == 0
  {
    PrintedDigits(q);
    assert Print(0) == "0";
    PrintedDigits(0);
  }

  lemma {:induction false} SignificantDigit(t: nat)
    ensures (exists i | 0 <= i < |Print(t)| :: '1' <= Print(t)[i] <= '9') <==> t > 0
  {
    PrintedDigits(t);
    if t == 0 {
      assert Print(0) == "0";
    } else {
      assert IsDigit(Print(t)[0]) && Print(t)[0] != '0';
    }
  }

  lemma UnitPlaces(decimals: nat)
    requires 1 <= decimals <= 8
    ensures Unit(decimals) < TINYBARS_PER_HBAR
    ensures TrimZeros(Places(Unit(decimals))) == Zeros(decimals - 1) + "1"
  {
    UnitBelowOne(decimals);
    PaddedDigits(1, decimals, 8 - decimals);
    UnitDigits(decimals);
  }

  lemma UnitBelowOne(decimals: nat)
    requires 1 <= decimals <= 8
    ensures Unit(decimals) < TINYBARS_PER_HBAR && Unit(decimals) % TINYBARS_PER_HBAR == Pow10(8 - decimals) * 1
  {
    Pow10Of8();
    Pow10Add(decimals, 8 - decimals);
    TenfoldAtLeast(decimals, Unit(decimals));
  }

  lemma PointedBelowOne(places: string, fraction: string)
    requires TrimZeros(places) == fraction != ""
    ensures Pointed("0", places) == "0." + fraction
  {
    assert "0" + "." + fraction == "0." + fraction;
  }

  lemma UnitPointed(decimals: nat)
    requires 1 <= decimals <= 8
    ensures var u := Unit(decimals);
      BelowOneUnit(decimals) == "<" + Pointed(Print(u / TINYBARS_PER_HBAR), Places(u))
  {
    UnitPlaces(decimals);
    assert Print(0) == "0";
    PointedBelowOne(Places(Unit(decimals)), Zeros(decimals - 1) + "1");
  }

  lemma UnitPrinted(decimals: nat)
    requires 1 <= decimals <= 8
    ensures BelowOneUnit(decimals) == "<" + Hbar(Print(Unit(decimals)))
  {
    UnitPointed(decimals);
    HbarIsPointed(Unit(decimals));
  }

  lemma TenfoldAtLeast(d: nat, u: nat)
    requires d >= 1
    ensures 10 * u <= Pow10(d) * u
  {
    MulLe(u, 10, Pow10(d));
  }

  lemma UnitDigits(d: nat)
    requires d >= 1
    ensures Fixed(1, d) == Zeros(d - 1) + "1" && TrimZeros(Fixed(1, d)) == Fixed(1, d)
  {
    FixedZero(d - 1);
  }

  /** What the short printer shows of its digits, before any of them is given a value. */
  lemma ShortByParts(t: nat, decimals: nat)
    requires 1 <= decimals <= 8
    ensures var whole, fraction := Print(t / TINYBARS_PER_HBAR), TrimZeros(Places(t)[..decimals]);
      HbarShort(Print(t), decimals) == (
        if fraction != "" then whole + "." + fraction
        else if t >= TINYBARS_PER_HBAR then whole
        else if t > 0 then BelowOneUnit(decimals)
        else "0")
  {
    PaddedAmount(t);
    WholePart(t / TINYBARS_PER_HBAR);
    SignificantDigit(t);
  }

  /** When the amount cut down shows nothing. */
  lemma NothingShown(t: nat, decimals: nat)
    requires 1 <= decimals <= 8
    ensures var v := Truncated(t, decimals);
      && (v == 0 <==> t < Unit(decimals))
      && (TrimZeros(Places(t)[..decimals]) == "" <==> v % TINYBARS_PER_HBAR == 0)
      && v / TINYBARS_PER_HBAR == t / TINYBARS_PER_HBAR
  {
    CutToNothing(t, Unit(decimals));
    ShownPlaces(t, decimals);
    TruncatedParts(t, decimals);
    IdlePlaces(Truncated(t, decimals));
  }

  lemma CutToNothing(t: nat, u: nat)
    requires u > 0
    ensures Cut(t, u) == 0 <==> t < u
  {
  }

  lemma IdlePlaces(t: nat)
    ensures TrimZeros(Places(t)) == "" <==> t % TINYBARS_PER_HBAR == 0
  {
    Pow10Of8();
    TrimmedEmptyIffZero(t % TINYBARS_PER_HBAR, 8);
  }

  lemma ShortIsPointed(t: nat, decimals: nat)
    requires 1 <= decimals <= 8
    ensures var v := Truncated(t, decimals);
      HbarShort(Print(t), decimals) == (
        if 0 < t < Unit(decimals) then BelowOneUnit(decimals) else Pointed(Print(v / TINYBARS_PER_HBAR), Places(v)))
  {
    ShortByParts(t, decimals);
    ShownFigure(HbarShort(Print(t), decimals), t, decimals);
  }

  /** The parts the short printer puts together are those of the amount cut down. */
  lemma ShownFigure(figure: string, t: nat, decimals: nat)
    requires 1 <= decimals <= 8
    requires var whole, fraction := Print(t / TINYBARS_PER_HBAR), TrimZeros(Places(t)[..decimals]);
      figure == (
        if fraction != "" then whole + "." + fraction
        else if t >= TINYBARS_PER_HBAR then whole
        else if t > 0 then BelowOneUnit(decimals)
        else "0")
    ensures var v := Truncated(t, decimals);
      figure == (
        if 0 < t < Unit(decimals) then BelowOneUnit(decimals) else Pointed(Print(v / TINYBARS_PER_HBAR), Places(v)))
  {
    var v := Truncated(t, decimals);
    NothingShown(t, decimals);
    ShownPlaces(t, decimals);
    assert Print(0) == "0";
    ShownByCases(figure, Print(t / TINYBARS_PER_HBAR), TrimZeros(Places(v)), BelowOneUnit(decimals), t, Unit(decimals), v,
                 TINYBARS_PER_HBAR);
  }

  lemma ShownByCases(figure: string, whole: string, fraction: string, bound: string, t: nat, unit: nat, v: nat, n: nat)
    requires n > 0 && v <= t && v / n == t / n && (t / n == 0 ==> whole == "0")
    requires (v == 0 <==> t < unit) && (fraction == "" <==> v % n == 0)
    requires figure == (
               if fraction != "" then whole + "." + fraction
               else if t >= n then whole
               else if t > 0 then bound
               else "0")
    ensures figure == if 0 < t < unit then bound else Figure(whole, fraction)
  {
    if t < n {
      assert v / n == 0 && v % n == v;
    }
  }

  /**
   * The short printer prints exactly what the full one prints for the amount cut down to the
   * shown places, except that an amount cut down to nothing is shown as below one unit.
   */
  lemma ShortIsTruncated(t: nat, decimals: nat)
    requires 1 <= decimals <= 8
    ensures HbarShort(Print(t), decimals) ==
            if 0 < t < Unit(decimals) then "<" + Hbar(Print(Unit(decimals))) else Hbar(Print(Truncated(t, decimals)))
  {
    ShortIsPointed(t, decimals);
    HbarIsPointed(Truncated(t, decimals));
    UnitPrinted(decimals);
  }

  /**
   * What the short figure says about the amount: it parses to a value that never overstates it
   * and is within one shown unit of it, it is "0" only for nothing, and the bound is shown for
   * exactly the amounts below one unit.
   */
  lemma ShortNeverOverstates(t: nat, decimals: nat)
    requires 1 <= decimals <= 8
    ensures var s, u, v := HbarShort(Print(t), decimals), Unit(decimals), Truncated(t, decimals);
      && (s == "0" <==> t == 0)
      && (0 < t < u <==> s == "<" + Hbar(Print(u)))
      && (!(0 < t < u) ==> ParseHbar(s) == Some(v) && v <= t < v + u)
  {
    var v := Truncated(t, decimals);
    ShortIsTruncated(t, decimals);
    NothingShown(t, decimals);
    HbarRoundTrip(v);
    HbarRoundTrip(0);
    ZeroPrints();
    if !(0 < t < Unit(decimals)) {
      StartsWithDigit(v);
    }
  }

  lemma ZeroPrints()
    ensures Hbar(Print(0)) == "0"
  {
    HbarIsPointed(0);
    TrimmedEmptyIffZero(0, 8);
    Pow10Of8();
    assert Print(0) == "0";
  }

  lemma StartsWithDigit(t: nat)
    ensures Hbar(Print(t)) != "" && IsDigit(Hbar(Print(t))[0])
  {
    HbarIsPointed(t);
    PrintedDigits(t / TINYBARS_PER_HBAR);
  }
}

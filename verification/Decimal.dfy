/**
 * Decimal strings. Amounts travel as strings of digits; this is what printing one and reading
 * one back mean (math/big's String and SetString in base 10, strconv.ParseUint, BigInt).
 */
module Decimal {
  import opened Common

  const UINT64_MAX: nat := 0xFFFF_FFFF_FFFF_FFFF

  predicate IsDigit(c: char) {
    '0' <= c <= '9'
  }

  function DigitChar(d: nat): char
    requires d < 10
  {
    '0' + d as char
  }

  function DigitValue(c: char): nat
    requires IsDigit(c)
  {
    (c - '0') as nat
  }

  predicate AllDigits(s: string) {
    forall i | 0 <= i < |s| :: IsDigit(s[i])
  }

  function Value(s: string): nat
    requires AllDigits(s)
  {
    if s == "" then 0 else 10 * Value(s[..|s| - 1]) + DigitValue(s[|s| - 1])
  }

  function Print(n: nat): string {
    if n < 10 then [DigitChar(n)] else Print(n / 10) + [DigitChar(n % 10)]
  }

  function ParseNat(s: string): Option<nat> {
    if s != "" && AllDigits(s) then Some(Value(s)) else None
  }

  /** strconv.ParseUint(s, 10, 64). */
  function ParseUint64(s: string): Option<nat> {
    var n := ParseNat(s);
    if n.Some? && n.value <= UINT64_MAX then n else None
  }

  function Negated(n: Option<nat>): Option<int> {
    if n.None? then
      None
    else
      Some(0 - n.value)
  }

  /** math/big's SetString(s, 10): digits after an optional sign. */
  function ParseBigInt(s: string): Option<int> {
    if s != "" && s[0] == '-' then
      Negated(ParseNat(s[1..]))
    else if s != "" && s[0] == '+' then
      ParseNat(s[1..])
    else
      ParseNat(s)
  }

  lemma {:induction false} PrintedDigits(n: nat)
    ensures Print(n) != "" && AllDigits(Print(n)) && Value(Print(n)) == n
    ensures n > 0 ==> Print(n)[0] != '0'
  {
    if n < 10 {
      assert Print(n) == [DigitChar(n)];
      assert Value(Print(n)) == 10 * Value("") + n;
    } else {
      PrintedDigits(n / 10);
      var p := Print(n);
      assert p[..|p| - 1] == Print(n / 10);
      assert p[|p| - 1] == DigitChar(n % 10);
      assert p[0] == Print(n / 10)[0];
    }
  }

  /** A printed amount always reads back as itself, whichever reader is used. */
  lemma ParsePrinted(n: nat)
    ensures ParseNat(Print(n)) == Some(n)
    ensures ParseBigInt(Print(n)) == Some(n)
    ensures ParseUint64(Print(n)) == if n <= 18_446_744_073_709_551_615 then Some(n) else None
  {
    PrintedDigits(n);
    assert IsDigit(Print(n)[0]);
  }

  /** Whatever ParseUint accepts, SetString accepts and reads the same. */
  lemma Uint64IsBigInt(s: string)
    requires ParseUint64(s).Some?
    ensures ParseBigInt(s) == Some(ParseUint64(s).value)
  {
    assert IsDigit(s[0]);
  }

  /** A sign in front is read by math/big, and by the 64-bit reader refused. */
  lemma ParseSigned(n: nat)
    ensures ParseBigInt("-" + Print(n)) == Some(0 - n) && ParseBigInt("+" + Print(n)) == Some(n)
    ensures ParseUint64("-" + Print(n)) == ParseUint64("+" + Print(n)) == None
  {
    PrintedDigits(n);
    assert ("-" + Print(n))[1..] == Print(n) && ("+" + Print(n))[1..] == Print(n);
    assert !IsDigit(("-" + Print(n))[0]) && !IsDigit(("+" + Print(n))[0]);
  }
}

/**
 * The base64 encoder written out by hand in the browser client (client/src/browser/wallet-signer.ts,
 * and the same loop again in client/src/browser/ssh-key.ts), against the decoding that section 4
 * of RFC 4648 describes.
 */
module Base64 {
  import opened Common

  type Byte = bv8

  function ByteOf(k: nat): Byte
    requires k < 0x100
  {
    k as Byte
  }

  function ValueOf(b: Byte): (k: nat)
    ensures k < 0x100
  {
    b as nat
  }

  lemma BytePrints(b: Byte)
    ensures ByteOf(ValueOf(b)) == b
  {
  }

  lemma NextByte(b: Byte)
    requires b < 255
    ensures ValueOf(b + 1) == ValueOf(b) + 1
  {
  }

  lemma {:induction false} ByteReads(k: nat)
    requires k < 0x100
    ensures ValueOf(ByteOf(k)) == k
  {
    if k > 0 {
      ByteReads(k - 1);
      NextByte(ByteOf(k - 1));
      BytePrints(ByteOf(k - 1) + 1);
    }
  }

  const UPPER: string := "ABCDEFGHIJKLMNOPQRSTUVWXYZ"
  const LOWER: string := "abcdefghijklmnopqrstuvwxyz"
  const OTHERS: string := "0123456789+/"
  const ALPHABET: string := UPPER + LOWER + OTHERS

  // ---- Encoding ----

  function Char(six: bv8): char
    requires six < 64
  {
    ALPHABET[six as int]
  }

  /** Reading past the end of a Uint8Array gives undefined. */
  function At(bytes: seq<Byte>, i: nat): Option<Byte> {
    if i < |bytes| then Some(bytes[i]) else None
  }

  function OrZero(b: Option<Byte>): Byte {
    if b.Some? then b.value else 0
  }

  // The four characters a group adds.

  function First(a: Byte): char {
    Char(a >> 2)
  }

  function Second(a: Byte, b: Option<Byte>): char {
    Char(((a & 0x03) << 4) | (OrZero(b) >> 4))
  }

  function Third(b: Option<Byte>, c: Option<Byte>): char {
    if b.None? then '=' else Char(((b.value & 0x0f) << 2) | (OrZero(c) >> 6))
  }

  function Fourth(c: Option<Byte>): char {
    if c.None? then '=' else Char(c.value & 0x3f)
  }

  /** The four characters of one group of one, two or three bytes. */
  function EncodeGroup(g: seq<Byte>): (s: string)
    requires 1 <= |g| <= 3
    ensures |s| == 4
  {
    [First(g[0]), Second(g[0], At(g, 1)), Third(At(g, 1), At(g, 2)), Fourth(At(g, 2))]
  }

  function Encode(bytes: seq<Byte>): string {
    if bytes == [] then ""
    else if |bytes| <= 3 then EncodeGroup(bytes)
    else EncodeGroup(bytes[..3]) + Encode(bytes[3..])
  }

  method Base64(bytes: seq<Byte>) returns (out: string)
    ensures out == Encode(bytes)
  {
    out := "";
    var i := 0;
    assert bytes[0..] == bytes;
    while i < |bytes|
      invariant out + EncodeFrom(bytes, i) == Encode(bytes)
    {
      var a, b, c := bytes[i], At(bytes, i + 1), At(bytes, i + 2);
      GroupAppended(bytes, i, out, First(a), Second(a, b), Third(b, c), Fourth(c)) by {
        GroupChars(bytes, i);
      }
      out := out + [First(a)];
      out := out + [Second(a, b)];
      out := out + [Third(b, c)];
      out := out + [Fourth(c)];
      i := i + 3;
    }
  }

  function EncodeFrom(bytes: seq<Byte>, i: nat): string {
    if i <= |bytes| then Encode(bytes[i..]) else ""
  }

  lemma GroupAppended(bytes: seq<Byte>, i: nat, out: string, c0: char, c1: char, c2: char, c3: char)
    requires i < |bytes| && EncodeGroup(GroupAt(bytes, i)) == [c0, c1, c2, c3]
    ensures out + [c0] + [c1] + [c2] + [c3] + EncodeFrom(bytes, i + 3) == out + EncodeFrom(bytes, i)
  {
    GroupStep(bytes, i);
    Appended(out, c0, c1, c2, c3, EncodeFrom(bytes, i + 3));
  }

  lemma Appended(out: string, c0: char, c1: char, c2: char, c3: char, rest: string)
    ensures out + [c0] + [c1] + [c2] + [c3] + rest == out + ([c0, c1, c2, c3] + rest)
  {
  }

  lemma GroupChars(bytes: seq<Byte>, i: nat)
    requires i < |bytes|
    ensures var a, b, c, g := bytes[i], At(bytes, i + 1), At(bytes, i + 2), GroupAt(bytes, i);
      EncodeGroup(g) == [First(a), Second(a, b), Third(b, c), Fourth(c)]
  {
    var g := GroupAt(bytes, i);
    assert g[0] == bytes[i];
    assert At(g, 1) == At(bytes, i + 1);
    assert At(g, 2) == At(bytes, i + 2);
  }

  function GroupAt(bytes: seq<Byte>, i: nat): (g: seq<Byte>)
    requires i < |bytes|
    ensures 1 <= |g| <= 3
  {
    bytes[i..Min(i + 3, |bytes|)]
  }

  lemma GroupStep(bytes: seq<Byte>, i: nat)
    requires i < |bytes|
    ensures EncodeFrom(bytes, i) == EncodeGroup(GroupAt(bytes, i)) + EncodeFrom(bytes, i + 3)
  {
    var rest := bytes[i..];
    if |rest| <= 3 {
      assert rest == GroupAt(bytes, i);
    } else {
      assert rest[..3] == GroupAt(bytes, i) && rest[3..] == bytes[i + 3..];
    }
  }

  // ---- Decoding, from section 4 of RFC 4648 ----

  /** The value of a character in Table 1. */
  function Six(c: char): (v: Option<nat>)
    ensures v.Some? ==> v.value < 64
  {
    if 'A' <= c <= 'Z' then Some((c - 'A') as nat)
    else if 'a' <= c <= 'z' then Some((c - 'a') as nat + 26)
    else if '0' <= c <= '9' then Some((c - '0') as nat + 52)
    else if c == '+' then Some(62)
    else if c == '/' then Some(63)
    else None
  }

  /**
   * One quantum. With no padding it is 24 bits; with one "=" it is 16 bits and with two it is
   * 8 bits, and the bits left over must be zero (section 3.5).
   */
  function DecodeQuantum(s: string): (g: Option<seq<Byte>>)
    requires |s| == 4
    ensures g.Some? ==> 1 <= |g.value| <= 3
  {
    if Six(s[0]).None? || Six(s[1]).None? then None
    else if s[2] == '=' && s[3] == '=' then OneByte(Bits(s[0]), Bits(s[1]))
    else if Six(s[2]).None? then None
    else if s[3] == '=' then TwoBytes(Bits(s[0]), Bits(s[1]), Bits(s[2]))
    else if Six(s[3]).None? then None
    else Some(ThreeBytes(Bits(s[0]), Bits(s[1]), Bits(s[2]), Bits(s[3])))
  }

  function Bits(c: char): bv8
    requires Six(c).Some?
  {
    ByteOf(Six(c).value)
  }

  function ThreeBytes(v0: bv8, v1: bv8, v2: bv8, v3: bv8): (g: seq<Byte>)
    ensures |g| == 3
  {
    [(v0 << 2) | (v1 >> 4), ((v1 & 0x0f) << 4) | (v2 >> 2), ((v2 & 0x03) << 6) | v3]
  }

  function TwoBytes(v0: bv8, v1: bv8, v2: bv8): (g: Option<seq<Byte>>)
    ensures g.Some? ==> |g.value| == 2
  {
    if v2 & 0x03 == 0 then Some(ThreeBytes(v0, v1, v2, 0)[..2]) else None
  }

  function OneByte(v0: bv8, v1: bv8): (g: Option<seq<Byte>>)
    ensures g.Some? ==> |g.value| == 1
  {
    if v1 & 0x0f == 0 then Some(ThreeBytes(v0, v1, 0, 0)[..1]) else None
  }

  /** Padding ends the data, so every quantum but the last is a whole one. */
  function Decode(s: string): Option<seq<Byte>> {
    if s == "" then Some([])
    else if |s| < 4 then None
    else
      var first := DecodeQuantum(s[..4]);
      if first.None? || |s| == 4 then first
      else if |first.value| < 3 then None
      else
        var rest := Decode(s[4..]);
        if rest.None? then None else Some(first.value + rest.value)
  }

  // ---- One undoes the other ----

  lemma UpperReads(k: nat)
    requires k < 26
    ensures Six(UPPER[k]) == Some(k)
  {
  }

  lemma LowerReads(k: nat)
    requires k < 26
    ensures Six(LOWER[k]) == Some(k + 26)
  {
  }

  lemma OthersRead(k: nat)
    requires k < 12
    ensures Six(OTHERS[k]) == Some(k + 52)
  {
  }

  lemma AlphabetReads(k: nat)
    requires k < 64
    ensures Six(ALPHABET[k]) == Some(k)
  {
    if k < 26 {
      UpperReads(k);
    } else if k < 52 {
      LowerReads(k - 26);
    } else {
      OthersRead(k - 52);
    }
  }

  lemma CharReads(six: bv8)
    requires six < 64
    ensures Six(Char(six)).Some? && Bits(Char(six)) == six && Char(six) != '='
  {
    AlphabetReads(six as nat);
  }

  lemma SixPrints(c: char)
    requires Six(c).Some?
    ensures Bits(c) < 64 && Char(Bits(c)) == c
  {
    var k := Six(c).value;
    AlphabetReads(k);
    SixApart(ALPHABET[k], c);
    SixBits(k);
  }

  lemma SixApart(c: char, d: char)
    requires Six(c).Some? && Six(c) == Six(d)
    ensures c == d
  {
  }

  lemma SixBits(k: nat)
    requires k < 64
    ensures ByteOf(k) < 64 && ByteOf(k) as int == k
  {
    ByteReads(k);
  }

  // The shifts and masks of the encoder, undone by those of the decoder.

  lemma ThreeBack(a: Byte, b: Byte, c: Byte) returns (v0: bv8, v1: bv8, v2: bv8, v3: bv8)
    ensures v0 < 64 && v1 < 64 && v2 < 64 && v3 < 64
    ensures EncodeGroup([a, b, c]) == [Char(v0), Char(v1), Char(v2), Char(v3)]
    ensures ThreeBytes(v0, v1, v2, v3) == [a, b, c]
  {
    v0, v1, v2, v3 := a >> 2, ((a & 0x03) << 4) | (b >> 4), ((b & 0x0f) << 2) | (c >> 6), c & 0x3f;
  }

  lemma TwoBack(a: Byte, b: Byte) returns (v0: bv8, v1: bv8, v2: bv8)
    ensures v0 < 64 && v1 < 64 && v2 < 64
    ensures EncodeGroup([a, b]) == [Char(v0), Char(v1), Char(v2), '=']
    ensures TwoBytes(v0, v1, v2) == Some([a, b])
  {
    v0, v1, v2 := a >> 2, ((a & 0x03) << 4) | (b >> 4), ((b & 0x0f) << 2) | (0 >> 6);
    assert ThreeBytes(v0, v1, v2, 0)[..2] == [a, b];
  }

  lemma OneBack(a: Byte) returns (v0: bv8, v1: bv8)
    ensures v0 < 64 && v1 < 64
    ensures EncodeGroup([a]) == [Char(v0), Char(v1), '=', '=']
    ensures OneByte(v0, v1) == Some([a])
  {
    v0, v1 := a >> 2, ((a & 0x03) << 4) | (0 >> 4);
    assert ThreeBytes(v0, v1, 0, 0)[..1] == [a];
  }

  lemma ShiftsForth(v0: bv8, v1: bv8, v2: bv8, v3: bv8)
    requires v0 < 64 && v1 < 64 && v2 < 64 && v3 < 64
    ensures var a, b, c := (v0 << 2) | (v1 >> 4), ((v1 & 0x0f) << 4) | (v2 >> 2), ((v2 & 0x03) << 6) | v3;
      && a >> 2 == v0
      && ((a & 0x03) << 4) | (b >> 4) == v1
      && ((b & 0x0f) << 2) | (c >> 6) == v2
      && c & 0x3f == v3
      && (v1 & 0x0f == 0 ==> ((a & 0x03) << 4) | (0 >> 4) == v1)
      && (v2 & 0x03 == 0 ==> ((b & 0x0f) << 2) | (0 >> 6) == v2)
  {
  }

  /** And the shifts and masks of the decoder, undone by those of the encoder. */
  lemma ThreeForth(v0: bv8, v1: bv8, v2: bv8, v3: bv8)
    requires v0 < 64 && v1 < 64 && v2 < 64 && v3 < 64
    ensures EncodeGroup(ThreeBytes(v0, v1, v2, v3)) == [Char(v0), Char(v1), Char(v2), Char(v3)]
  {
    ShiftsForth(v0, v1, v2, v3);
  }

  lemma TwoForth(v0: bv8, v1: bv8, v2: bv8)
    requires v0 < 64 && v1 < 64 && v2 < 64 && TwoBytes(v0, v1, v2).Some?
    ensures EncodeGroup(TwoBytes(v0, v1, v2).value) == [Char(v0), Char(v1), Char(v2), '=']
  {
    ShiftsForth(v0, v1, v2, 0);
  }

  lemma OneForth(v0: bv8, v1: bv8)
    requires v0 < 64 && v1 < 64 && OneByte(v0, v1).Some?
    ensures EncodeGroup(OneByte(v0, v1).value) == [Char(v0), Char(v1), '=', '=']
  {
    ShiftsForth(v0, v1, 0, 0);
  }

  // Reading the characters of the values of a quantum.

  lemma ThreeRead(v0: bv8, v1: bv8, v2: bv8, v3: bv8)
    requires v0 < 64 && v1 < 64 && v2 < 64 && v3 < 64
    ensures DecodeQuantum([Char(v0), Char(v1), Char(v2), Char(v3)]) == Some(ThreeBytes(v0, v1, v2, v3))
  {
    CharReads(v0);
    CharReads(v1);
    CharReads(v2);
    CharReads(v3);
  }

  lemma TwoRead(v0: bv8, v1: bv8, v2: bv8)
    requires v0 < 64 && v1 < 64 && v2 < 64
    ensures DecodeQuantum([Char(v0), Char(v1), Char(v2), '=']) == TwoBytes(v0, v1, v2)
  {
    CharReads(v0);
    CharReads(v1);
    CharReads(v2);
  }

  lemma OneRead(v0: bv8, v1: bv8)
    requires v0 < 64 && v1 < 64
    ensures DecodeQuantum([Char(v0), Char(v1), '=', '=']) == OneByte(v0, v1)
  {
    CharReads(v0);
    CharReads(v1);
  }

  lemma GroupRoundTrip(g: seq<Byte>)
    requires 1 <= |g| <= 3
    ensures DecodeQuantum(EncodeGroup(g)) == Some(g)
  {
    if |g| == 3 {
      assert g == [g[0], g[1], g[2]];
      var v0, v1, v2, v3 := ThreeBack(g[0], g[1], g[2]);
      ThreeRead(v0, v1, v2, v3);
    } else if |g| == 2 {
      assert g == [g[0], g[1]];
      var v0, v1, v2 := TwoBack(g[0], g[1]);
      TwoRead(v0, v1, v2);
    } else {
      assert g == [g[0]];
      var v0, v1 := OneBack(g[0]);
      OneRead(v0, v1);
    }
  }

  lemma OneRoundTrip(s: string)
    requires |s| == 4 && s[2] == '=' && s[3] == '=' && DecodeQuantum(s).Some?
    ensures EncodeGroup(DecodeQuantum(s).value) == s
  {
    SixPrints(s[0]);
    SixPrints(s[1]);
    OneForth(Bits(s[0]), Bits(s[1]));
    assert s == [s[0], s[1], '=', '='];
  }

  lemma TwoRoundTrip(s: string)
    requires |s| == 4 && s[2] != '=' && s[3] == '=' && DecodeQuantum(s).Some?
    ensures EncodeGroup(DecodeQuantum(s).value) == s
  {
    SixPrints(s[0]);
    SixPrints(s[1]);
    SixPrints(s[2]);
    TwoForth(Bits(s[0]), Bits(s[1]), Bits(s[2]));
    assert s == [s[0], s[1], s[2], '='];
  }

  lemma ThreeRoundTrip(s: string)
    requires |s| == 4 && s[3] != '=' && DecodeQuantum(s).Some?
    ensures EncodeGroup(DecodeQuantum(s).value) == s
  {
    SixPrints(s[0]);
    SixPrints(s[1]);
    SixPrints(s[2]);
    SixPrints(s[3]);
    ThreeForth(Bits(s[0]), Bits(s[1]), Bits(s[2]), Bits(s[3]));
    assert s == [s[0], s[1], s[2], s[3]];
  }

  lemma QuantumRoundTrip(s: string)
    requires |s| == 4 && DecodeQuantum(s).Some?
    ensures EncodeGroup(DecodeQuantum(s).value) == s
  {
    if s[3] != '=' {
      ThreeRoundTrip(s);
    } else if s[2] != '=' {
      TwoRoundTrip(s);
    } else {
      OneRoundTrip(s);
    }
  }

  /** Decoding gives back exactly the bytes that were encoded. */
  lemma {:induction false} RoundTrip(bytes: seq<Byte>)
    ensures Decode(Encode(bytes)) == Some(bytes)
    decreases |bytes|
  {
    if |bytes| > 3 {
      var head, rest := bytes[..3], bytes[3..];
      GroupRoundTrip(head);
      RoundTrip(rest);
      var s := Encode(bytes);
      assert s[..4] == EncodeGroup(head) && s[4..] == Encode(rest);
      EncodedLength(rest);
      assert head + rest == bytes;
    } else if bytes != [] {
      GroupRoundTrip(bytes);
      assert Encode(bytes)[..4] == EncodeGroup(bytes);
    }
  }

  /** Four characters for every three bytes begun. */
  lemma {:induction false} EncodedLength(bytes: seq<Byte>)
    ensures |Encode(bytes)| == 4 * CeilDiv(|bytes|, 3)
    decreases |bytes|
  {
    if |bytes| > 3 {
      EncodedLength(bytes[3..]);
    }
  }

  /** Nothing else decodes: a string has a meaning exactly when it is what the encoder writes for it. */
  lemma {:induction false} DecodesExactlyEncodings(s: string, bytes: seq<Byte>)
    ensures Decode(s) == Some(bytes) <==> s == Encode(bytes)
    decreases |s|
  {
    RoundTrip(bytes);
    if Decode(s) == Some(bytes) && s != "" {
      var first := DecodeQuantum(s[..4]).value;
      QuantumRoundTrip(s[..4]);
      if |s| == 4 {
        assert s[..4] == s;
      } else {
        var rest := Decode(s[4..]).value;
        DecodesExactlyEncodings(s[4..], rest);
        assert s == s[..4] + s[4..];
        assert (first + rest)[..3] == first && (first + rest)[3..] == rest;
        EncodedLength(rest);
      }
    }
  }

  /** How many padding characters end a string. */
  function Padding(s: string): nat {
    if s != "" && s[|s| - 1] == '=' then 1 + Padding(s[..|s| - 1]) else 0
  }

  /** The first character of a string is not in its padding, nor is anything before it. */
  lemma {:induction false} PaddingOfTail(front: string, s: string)
    requires s != "" && s[0] != '='
    ensures Padding(front + s) == Padding(s) < |s|
    decreases |s|
  {
    var whole := front + s;
    if s[|s| - 1] == '=' {
      assert whole[..|whole| - 1] == front + s[..|s| - 1];
      PaddingOfTail(front, s[..|s| - 1]);
    }
  }

  /** Which characters of a group are padding. */
  lemma GroupMarks(g: seq<Byte>)
    requires 1 <= |g| <= 3
    ensures var s := EncodeGroup(g);
      s[0] != '=' && s[1] != '=' && (s[2] == '=' <==> |g| == 1) && (s[3] == '=' <==> |g| < 3)
  {
    if |g| == 3 {
      assert g == [g[0], g[1], g[2]];
      var v0, v1, v2, v3 := ThreeBack(g[0], g[1], g[2]);
      NeverPadding(v0);
      NeverPadding(v1);
      NeverPadding(v2);
      NeverPadding(v3);
    } else if |g| == 2 {
      assert g == [g[0], g[1]];
      var v0, v1, v2 := TwoBack(g[0], g[1]);
      NeverPadding(v0);
      NeverPadding(v1);
      NeverPadding(v2);
    } else {
      assert g == [g[0]];
      var v0, v1 := OneBack(g[0]);
      NeverPadding(v0);
      NeverPadding(v1);
    }
  }

  lemma NeverPadding(six: bv8)
    requires six < 64
    ensures Char(six) != '='
  {
    CharReads(six);
  }

  lemma PaddingOfFour(s: string)
    requires |s| == 4 && s[1] != '=' && (s[2] == '=' ==> s[3] == '=')
    ensures Padding(s) == if s[3] != '=' then 0 else if s[2] != '=' then 1 else 2
  {
    assert Padding(s) == if s[3] != '=' then 0 else 1 + Padding(s[..3]);
    assert s[..3][..2] == s[..2] && Padding(s[..2]) == 0;
  }

  lemma GroupPadding(g: seq<Byte>)
    requires 1 <= |g| <= 3
    ensures Padding(EncodeGroup(g)) == 3 - |g|
    ensures forall i | 0 <= i < 1 + |g| :: EncodeGroup(g)[i] != '='
  {
    GroupMarks(g);
    PaddingOfFour(EncodeGroup(g));
  }

  predicate PaddedBy(s: string, n: nat) {
    Padding(s) == n <= |s| && forall i | 0 <= i < |s| - n :: s[i] != '='
  }

  lemma PaddedAfter(front: string, s: string, n: nat)
    requires s != "" && s[0] != '=' && PaddedBy(s, n) && PaddedBy(front, 0)
    ensures PaddedBy(front + s, n)
  {
    PaddingOfTail(front, s);
  }

  /** One "=" for each byte the last group is short of three, and none anywhere else. */
  lemma {:induction false} PaddingCount(bytes: seq<Byte>)
    ensures PaddedBy(Encode(bytes), (0 - |bytes|) % 3)
    decreases |bytes|
  {
    if |bytes| > 3 {
      var head, rest := EncodeGroup(bytes[..3]), Encode(bytes[3..]);
      GroupPadding(bytes[..3]);
      PaddingCount(bytes[3..]);
      StartsWithChar(bytes[3..]);
      PaddedAfter(head, rest, (0 - (|bytes| - 3)) % 3);
    } else if bytes != [] {
      GroupPadding(bytes);
    }
  }

  lemma StartsWithChar(bytes: seq<Byte>)
    requires bytes != []
    ensures Encode(bytes) != "" && Encode(bytes)[0] != '='
  {
    GroupMarks(if |bytes| <= 3 then bytes else bytes[..3]);
  }
}

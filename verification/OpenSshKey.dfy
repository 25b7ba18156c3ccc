/**
 * The OpenSSH public key blob the browser client writes for a lease's key
 * (client/src/browser/ssh-key.ts): section 4 of RFC 8709, with strings as in section 5 of RFC 4251.
 */
module OpenSshKey {
  import opened Common
  import opened Base64

  /** "ssh-ed25519" in UTF-8. */
  const SSH_ED25519: seq<Byte> := [115, 115, 104, 45, 101, 100, 50, 53, 53, 49, 57]

  lemma NameIs(i: nat)
    requires i < 11
    ensures |SSH_ED25519| == 11 && "ssh-ed25519"[i] == ValueOf(SSH_ED25519[i]) as char
  {
    ByteReads("ssh-ed25519"[i] as nat);
    assert SSH_ED25519[i] == ByteOf("ssh-ed25519"[i] as nat);
  }

  const TWO_TO_THE_32: nat := 0x1_0000_0000

  /** Four bytes, most significant first; setUint32 keeps a number modulo 2^32. */
  function Uint32(n: nat): (s: seq<Byte>)
    ensures |s| == 4
  {
    Digits(n % TWO_TO_THE_32)
  }

  function Digits(low: nat): (s: seq<Byte>)
    requires low < TWO_TO_THE_32
    ensures |s| == 4
  {
    var mid := low / 0x100;
    var high := mid / 0x100;
    [ByteOf(high / 0x100), ByteOf(high % 0x100), ByteOf(mid % 0x100), ByteOf(low % 0x100)]
  }

  /** The blob: two strings, each after its length. */
  function Blob(raw: seq<Byte>): seq<Byte> {
    Uint32(|SSH_ED25519|) + SSH_ED25519 + Uint32(|raw|) + raw
  }

  // ---- Writing it ----

  method SetUint32(view: array<Byte>, offset: nat, value: nat)
    requires offset + 4 <= view.Length
    modifies view
    ensures view[..offset] == old(view[..offset])
    ensures view[offset..offset + 4] == Uint32(value)
  {
    var bytes := Uint32(value);
    view[offset] := bytes[0];
    view[offset + 1] := bytes[1];
    view[offset + 2] := bytes[2];
    view[offset + 3] := bytes[3];
  }

  method Set(target: array<Byte>, source: seq<Byte>, offset: nat)
    requires offset + |source| <= target.Length
    modifies target
    ensures target[..offset] == old(target[..offset])
    ensures target[offset..offset + |source|] == source
  {
    for i := 0 to |source|
      invariant target[..offset] == old(target[..offset])
      invariant target[offset..offset + i] == source[..i]
    {
      target[offset + i] := source[i];
    }
  }

  method EncodeOpenSSHPublicKey(raw: seq<Byte>) returns (encoded: string)
    ensures encoded == Encode(Blob(raw))
  {
    var name := SSH_ED25519;
    var blob := new Byte[4 + |name| + 4 + |raw|](_ => 0);
    var offset := 0;
    SetUint32(blob, offset, |name|);
    offset := offset + 4;
    assert blob[..offset] == Uint32(|name|);
    Set(blob, name, offset);
    offset := offset + |name|;
    assert blob[..offset] == Uint32(|name|) + name;
    SetUint32(blob, offset, |raw|);
    offset := offset + 4;
    assert blob[..offset] == Uint32(|name|) + name + Uint32(|raw|);
    Set(blob, raw, offset);
    assert blob[..] == Blob(raw);
    encoded := Base64.Base64(blob[..]);
  }

  // ---- Reading it ----

  function Join(a: nat, b: nat, c: nat, d: nat): (n: nat)
    requires a < 0x100 && b < 0x100 && c < 0x100 && d < 0x100
    ensures n < TWO_TO_THE_32
  {
    0x100 * (0x100 * (0x100 * a + b) + c) + d
  }

  function FromUint32(b: seq<Byte>): (n: nat)
    requires |b| == 4
    ensures n < TWO_TO_THE_32
  {
    Join(ValueOf(b[0]), ValueOf(b[1]), ValueOf(b[2]), ValueOf(b[3]))
  }

  datatype Cut = Cut(text: seq<Byte>, rest: seq<Byte>)

  /** A string and what follows it. */
  function ReadString(b: seq<Byte>): Option<Cut> {
    if |b| < 4 then None
    else
      var n := FromUint32(b[..4]);
      if |b| - 4 < n then None else Some(Cut(b[4..4 + n], b[4 + n..]))
  }

  /** The key in a blob that names the algorithm and holds nothing after the key. */
  function ReadKey(b: seq<Byte>): Option<seq<Byte>> {
    var name := ReadString(b);
    if name.None? || name.value.text != SSH_ED25519 then None
    else
      var key := ReadString(name.value.rest);
      if key.None? || key.value.rest != [] then None else Some(key.value.text)
  }

  // ---- One undoes the other ----

  lemma Uint32Reads(n: nat)
    ensures FromUint32(Uint32(n)) == n % TWO_TO_THE_32
  {
    var low := n % TWO_TO_THE_32;
    var mid := low / 0x100;
    var high := mid / 0x100;
    ByteReads(high / 0x100);
    ByteReads(high % 0x100);
    ByteReads(mid % 0x100);
    ByteReads(low % 0x100);
  }

  lemma LastDigit(high: nat, d: nat)
    requires d < 0x100
    ensures (0x100 * high + d) / 0x100 == high && (0x100 * high + d) % 0x100 == d
  {
  }

  lemma DigitsOfJoin(a: nat, b: nat, c: nat, d: nat)
    requires a < 0x100 && b < 0x100 && c < 0x100 && d < 0x100
    ensures Digits(Join(a, b, c, d)) == [ByteOf(a), ByteOf(b), ByteOf(c), ByteOf(d)]
  {
    var high := 0x100 * a + b;
    var mid := 0x100 * high + c;
    LastDigit(mid, d);
    LastDigit(high, c);
    LastDigit(a, b);
  }

  lemma DigitsPrint(a: Byte, b: Byte, c: Byte, d: Byte)
    ensures [ByteOf(ValueOf(a)), ByteOf(ValueOf(b)), ByteOf(ValueOf(c)), ByteOf(ValueOf(d))] == [a, b, c, d]
  {
    BytePrints(a);
    BytePrints(b);
    BytePrints(c);
    BytePrints(d);
  }

  lemma SmallUint32(n: nat)
    requires n < TWO_TO_THE_32
    ensures n % TWO_TO_THE_32 == n
  {
  }

  lemma Uint32Prints(b: seq<Byte>)
    requires |b| == 4
    ensures Uint32(FromUint32(b)) == b
  {
    SmallUint32(FromUint32(b));
    DigitsOfJoin(ValueOf(b[0]), ValueOf(b[1]), ValueOf(b[2]), ValueOf(b[3]));
    DigitsPrint(b[0], b[1], b[2], b[3]);
    assert b == [b[0], b[1], b[2], b[3]];
  }

  lemma StringReads(text: seq<Byte>, rest: seq<Byte>)
    requires |text| < TWO_TO_THE_32
    ensures ReadString(Uint32(|text|) + text + rest) == Some(Cut(text, rest))
  {
    var b := Uint32(|text|) + text + rest;
    Uint32Reads(|text|);
    assert b[..4] == Uint32(|text|);
    assert b[4..4 + |text|] == text && b[4 + |text|..] == rest;
  }

  lemma StringPrints(b: seq<Byte>)
    requires ReadString(b).Some?
    ensures var c := ReadString(b).value; |c.text| < TWO_TO_THE_32 && b == Uint32(|c.text|) + c.text + c.rest
  {
    var n := FromUint32(b[..4]);
    Uint32Prints(b[..4]);
    InThree(b, n);
  }

  lemma InThree(b: seq<Byte>, n: nat)
    requires 4 + n <= |b|
    ensures b == b[..4] + b[4..4 + n] + b[4 + n..]
  {
  }

  /** The blobs that hold a key are the ones written for it, as long as its length fits the prefix. */
  lemma ReadsExactlyBlobs(b: seq<Byte>, raw: seq<Byte>)
    ensures ReadKey(b) == Some(raw) <==> b == Blob(raw) && |raw| < TWO_TO_THE_32
  {
    if ReadKey(b) == Some(raw) {
      var name := ReadString(b).value;
      StringPrints(b);
      StringPrints(name.rest);
      assert Uint32(|raw|) + raw + [] == Uint32(|raw|) + raw;
      BlobInTwo(raw);
    }
    if b == Blob(raw) && |raw| < TWO_TO_THE_32 {
      BlobInTwo(raw);
      StringReads(SSH_ED25519, Uint32(|raw|) + raw);
      assert Uint32(|raw|) + raw + [] == Uint32(|raw|) + raw;
      StringReads(raw, []);
    }
  }

  lemma BlobInTwo(raw: seq<Byte>)
    ensures Blob(raw) == Uint32(|SSH_ED25519|) + SSH_ED25519 + (Uint32(|raw|) + raw)
  {
  }

  /** What the client prints is read back, by base64 and then by the blob's own format, as the same key. */
  lemma PrintedKeyReadsBack(raw: seq<Byte>)
    ensures Decode(Encode(Blob(raw))) == Some(Blob(raw))
    ensures ReadKey(Blob(raw)) == Some(raw) <==> |raw| < TWO_TO_THE_32
  {
    RoundTrip(Blob(raw));
    ReadsExactlyBlobs(Blob(raw), raw);
  }
}

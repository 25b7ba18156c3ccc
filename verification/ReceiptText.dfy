/**
 * Receipts as lines of text, one JSON object a line (agent/internal/receipts/receipts.go): eight
 * named texts, quoted and escaped. What the results about the log ask of a decoder is shown of
 * this one: only a whole line decodes, and no two objects on one line do.
 */
module ReceiptText {
  import opened Common
  import opened Decimal
  import opened ReceiptLog

  /** A text, as the bytes it is stored in. */
  type Text = seq<Byte>

  datatype Receipt = Receipt(
    jobId: Text,
    transaction: Text,
    payer: Text,
    payTo: Text,
    amountTinybars: Text,
    asset: Text,
    network: Text,
    settledAt: Text)

  datatype Member = Member(name: Text, value: Text)

  /** A string of ASCII characters as text. */
  function Ascii(s: string): Text {
    seq(|s|, i requires 0 <= i < |s| => if s[i] < 128 as char then s[i] as int else 63)
  }

  function AsString(t: Text): string {
    seq(|t|, i requires 0 <= i < |t| => t[i] as char)
  }

  const QUOTE: Byte := 34
  const BACKSLASH: Byte := 92
  const COLON: Byte := 58
  const COMMA: Byte := 44
  const OPEN_BRACE: Byte := 123
  const CLOSE_BRACE: Byte := 125
  const LETTER_U: Byte := 117
  const ZERO: Byte := 48

  // ---- Writing ----

  /** The letter of a two-character escape: \" \\ \b \f \n \r \t. */
  function ShortEscape(b: Byte): Option<Byte> {
    match b
    case 34 => Some(34)
    case 92 => Some(92)
    case 8 => Some(98)
    case 12 => Some(102)
    case 10 => Some(110)
    case 13 => Some(114)
    case 9 => Some(116)
    case _ => None
  }

  function HexDigit(d: nat): Byte
    requires d < 16
  {
    if d < 10 then ZERO + d else 87 + d
  }

  /** json.Marshal writes other control characters, and <, > and &, by their code. */
  predicate ByCode(b: Byte) {
    b < 32 || b == 60 || b == 62 || b == 38
  }

  function Escaped(b: Byte): Text {
    if ShortEscape(b).Some? then [BACKSLASH, ShortEscape(b).value]
    else if ByCode(b) then [BACKSLASH, LETTER_U, ZERO, ZERO, HexDigit(b / 16), HexDigit(b % 16)]
    else [b]
  }

  function EscapedText(t: Text): Text {
    if t == [] then [] else Escaped(t[0]) + EscapedText(t[1..])
  }

  function Quoted(t: Text): Text {
    [QUOTE] + (EscapedText(t) + [QUOTE])
  }

  function WriteMember(m: Member): Text {
    Quoted(m.name) + ([COLON] + Quoted(m.value))
  }

  function WriteMembers(ms: seq<Member>): Text {
    if ms == [] then []
    else WriteMember(ms[0]) + if |ms| == 1 then [CLOSE_BRACE] else [COMMA] + WriteMembers(ms[1..])
  }

  function Members(r: Receipt): seq<Member> {
    [Member(Ascii("job_id"), r.jobId), Member(Ascii("transaction"), r.transaction),
     Member(Ascii("payer"), r.payer), Member(Ascii("pay_to"), r.payTo),
     Member(Ascii("amount_tinybars"), r.amountTinybars), Member(Ascii("asset"), r.asset),
     Member(Ascii("network"), r.network), Member(Ascii("settled_at"), r.settledAt)]
  }

  function Line(r: Receipt): Text {
    [OPEN_BRACE] + WriteMembers(Members(r))
  }

  // ---- Reading ----

  /** Something read, and what is left after it. */
  datatype Reading<+T> = Reading(got: T, rest: Text)

  function ShortMeans(letter: Byte): Option<Byte> {
    match letter
    case 34 => Some(34)
    case 92 => Some(92)
    case 47 => Some(47)
    case 98 => Some(8)
    case 102 => Some(12)
    case 110 => Some(10)
    case 114 => Some(13)
    case 116 => Some(9)
    case _ => None
  }

  function HexValue(b: Byte): (v: Option<nat>)
    ensures v.Some? ==> v.value < 16
  {
    if ZERO <= b < ZERO + 10 then Some(b - ZERO)
    else if 97 <= b < 103 then Some(b - 87)
    else if 65 <= b < 71 then Some(b - 55)
    else None
  }

  /** \u00 and two digits, below 128. */
  function ReadCode(s: Text): Option<Reading<Byte>> {
    if |s| < 6 || s[1] != LETTER_U || s[2] != ZERO || s[3] != ZERO || HexValue(s[4]).None? || HexValue(s[5]).None? then
      None
    else
      var code: Byte := HexValue(s[4]).value * 16 + HexValue(s[5]).value;
      if code < 128 then Some(Reading(code, s[6..])) else None
  }

  /** One byte of a quoted text. */
  function ReadByte(s: Text): (r: Option<Reading<Byte>>)
    ensures r.Some? ==> |r.value.rest| < |s|
  {
    if s == [] || s[0] < 32 || s[0] == QUOTE then None
    else if s[0] != BACKSLASH then Some(Reading(s[0], s[1..]))
    else if |s| >= 2 && ShortMeans(s[1]).Some? then Some(Reading(ShortMeans(s[1]).value, s[2..]))
    else ReadCode(s)
  }

  /** A text up to its closing quote. */
  function ReadClosed(s: Text): (r: Option<Reading<Text>>)
    ensures r.Some? ==> |r.value.rest| < |s|
    decreases |s|
  {
    if s != [] && s[0] == QUOTE then
      Some(Reading([], s[1..]))
    else if ReadByte(s).None? then
      None
    else
      var first := ReadByte(s).value;
      var others := ReadClosed(first.rest);
      if others.None? then None else Some(Reading([first.got] + others.value.got, others.value.rest))
  }

  function ReadQuoted(s: Text): (r: Option<Reading<Text>>)
    ensures r.Some? ==> |r.value.rest| < |s|
  {
    if s != [] && s[0] == QUOTE then ReadClosed(s[1..]) else None
  }

  function ReadMember(s: Text): (r: Option<Reading<Member>>)
    ensures r.Some? ==> |r.value.rest| < |s|
  {
    var name := ReadQuoted(s);
    if name.None? || name.value.rest == [] || name.value.rest[0] != COLON then
      None
    else
      var value := ReadQuoted(name.value.rest[1..]);
      if value.None? then None else Some(Reading(Member(name.value.got, value.value.got), value.value.rest))
  }

  /** Members up to the closing brace. */
  function ReadMembers(s: Text): Option<Reading<seq<Member>>>
    decreases |s|
  {
    var first := ReadMember(s);
    if first.None? || first.value.rest == [] then
      None
    else if first.value.rest[0] == CLOSE_BRACE then
      Some(Reading([first.value.got], first.value.rest[1..]))
    else if first.value.rest[0] == COMMA then
      var others := ReadMembers(first.value.rest[1..]);
      if others.None? then None else Some(Reading([first.value.got] + others.value.got, others.value.rest))
    else
      None
  }

  /** The members of an object that is the whole line. */
  function ReadObject(line: Text): Option<seq<Member>> {
    if line == [] || line[0] != OPEN_BRACE then
      None
    else
      var ms := ReadMembers(line[1..]);
      if ms.Some? && ms.value.rest == [] then Some(ms.value.got) else None
  }

  /** The value of the last member of that name; a name that is not there leaves the field empty. */
  function Field(ms: seq<Member>, name: Text): Text {
    if ms == [] then []
    else
      var last := ms[|ms| - 1];
      if last.name == name then last.value else Field(ms[..|ms| - 1], name)
  }

  function ReceiptOf(ms: seq<Member>): Receipt {
    Receipt(Field(ms, Ascii("job_id")), Field(ms, Ascii("transaction")), Field(ms, Ascii("payer")),
            Field(ms, Ascii("pay_to")), Field(ms, Ascii("amount_tinybars")), Field(ms, Ascii("asset")),
            Field(ms, Ascii("network")), Field(ms, Ascii("settled_at")))
  }

  function ReceiptIn(line: Text): Option<Receipt> {
    var ms := ReadObject(line);
    if ms.None? then None else Some(ReceiptOf(ms.value))
  }

  // ---- What is written reads back ----

  lemma ByteReadsBack(b: Byte, rest: Text)
    ensures ReadByte(Escaped(b) + rest) == Some(Reading(b, rest))
    ensures Escaped(b)[0] != QUOTE && forall i | 0 <= i < |Escaped(b)| :: Escaped(b)[i] >= 32
  {
    var s := Escaped(b) + rest;
    assert s[|Escaped(b)|..] == rest;
  }

  lemma {:induction false} ClosedReadsBack(t: Text, rest: Text)
    ensures ReadClosed(EscapedText(t) + [QUOTE] + rest) == Some(Reading(t, rest))
    decreases |t|
  {
    var s := EscapedText(t) + [QUOTE] + rest;
    if t == [] {
      assert s == [QUOTE] + rest && s[1..] == rest;
    } else {
      var others := EscapedText(t[1..]) + [QUOTE] + rest;
      assert s == Escaped(t[0]) + others;
      ByteReadsBack(t[0], others);
      ClosedReadsBack(t[1..], rest);
      assert [t[0]] + t[1..] == t;
    }
  }

  lemma QuotedReadsBack(t: Text, rest: Text)
    ensures ReadQuoted(Quoted(t) + rest) == Some(Reading(t, rest))
  {
    assert (Quoted(t) + rest)[1..] == EscapedText(t) + [QUOTE] + rest;
    ClosedReadsBack(t, rest);
  }

  lemma MemberReadsBack(m: Member, rest: Text)
    ensures ReadMember(WriteMember(m) + rest) == Some(Reading(m, rest))
  {
    var value := Quoted(m.value) + rest;
    Regroup(Quoted(m.name), [COLON] + Quoted(m.value), rest);
    Regroup([COLON], Quoted(m.value), rest);
    QuotedReadsBack(m.name, [COLON] + value);
    assert ([COLON] + value)[1..] == value;
    QuotedReadsBack(m.value, rest);
  }

  lemma LastMemberReadsBack(m: Member)
    ensures ReadMembers(WriteMember(m) + [CLOSE_BRACE]) == Some(Reading([m], []))
  {
    MemberReadsBack(m, [CLOSE_BRACE]);
    assert [CLOSE_BRACE][1..] == [];
  }

  lemma OneMoreMember(ms: seq<Member>, others: Text, all: Text)
    requires |ms| > 1 && all == WriteMember(ms[0]) + ([COMMA] + others)
    requires ReadMembers(others) == Some(Reading(ms[1..], []))
    ensures ReadMembers(all) == Some(Reading(ms, []))
  {
    MemberReadsBack(ms[0], [COMMA] + others);
    assert ([COMMA] + others)[1..] == others;
    assert [ms[0]] + ms[1..] == ms;
  }

  lemma {:induction false} MembersReadBack(ms: seq<Member>)
    requires ms != []
    ensures ReadMembers(WriteMembers(ms)) == Some(Reading(ms, []))
    decreases |ms|
  {
    if |ms| == 1 {
      LastMemberReadsBack(ms[0]);
      assert [ms[0]] == ms;
    } else {
      MembersReadBack(ms[1..]);
      OneMoreMember(ms, WriteMembers(ms[1..]), WriteMembers(ms));
    }
  }

  lemma ObjectReadsBack(r: Receipt)
    ensures ReadObject(Line(r)) == Some(Members(r))
  {
    MembersReadBack(Members(r));
    assert Line(r)[1..] == WriteMembers(Members(r));
  }

  lemma FieldStep(ms: seq<Member>, m: Member, name: Text)
    ensures Field(ms + [m], name) == if m.name == name then m.value else Field(ms, name)
  {
    assert (ms + [m])[..|ms|] == ms;
  }

  /** Members of different names, each found by its own. */
  lemma {:induction false} FieldFound(ms: seq<Member>, i: nat)
    requires i < |ms| && forall j | i < j < |ms| :: ms[j].name != ms[i].name
    ensures Field(ms, ms[i].name) == ms[i].value
    decreases |ms|
  {
    if i < |ms| - 1 {
      FieldFound(ms[..|ms| - 1], i);
    }
  }

  /** Names of the same length differ in their first letters. */
  lemma NamesDiffer(r: Receipt, i: nat, j: nat)
    requires i < j < 8
    ensures Members(r)[j].name != Members(r)[i].name
  {
    assert |Members(r)[i].name| == |Members(r)[j].name| ==> Members(r)[j].name[0] != Members(r)[i].name[0];
  }

  lemma FieldReadsBack(r: Receipt, i: nat)
    requires i < 8
    ensures Field(Members(r), Members(r)[i].name) == Members(r)[i].value
  {
    forall j | i < j < 8 ensures Members(r)[j].name != Members(r)[i].name {
      NamesDiffer(r, i, j);
    }
    FieldFound(Members(r), i);
  }

  lemma FieldsReadBack(r: Receipt)
    ensures ReceiptOf(Members(r)) == r
  {
    FieldReadsBack(r, 0);
    FieldReadsBack(r, 1);
    FieldReadsBack(r, 2);
    FieldReadsBack(r, 3);
    FieldReadsBack(r, 4);
    FieldReadsBack(r, 5);
    FieldReadsBack(r, 6);
    FieldReadsBack(r, 7);
  }

  lemma ReceiptReadsBack(r: Receipt)
    ensures ReceiptIn(Line(r)) == Some(r)
  {
    ObjectReadsBack(r);
    FieldsReadBack(r);
  }

  // ---- Nothing else does ----

  /** What is read does not depend on what follows. */
  lemma ByteFollowed(s: Text, t: Text)
    requires ReadByte(s).Some?
    ensures ReadByte(s + t) == Some(Reading(ReadByte(s).value.got, ReadByte(s).value.rest + t))
  {
    var used := |s| - |ReadByte(s).value.rest|;
    assert ReadByte(s).value.rest == s[used..];
    assert (s + t)[used..] == s[used..] + t;
  }

  lemma {:induction false} ClosedFollowed(s: Text, t: Text)
    requires ReadClosed(s).Some?
    ensures ReadClosed(s + t) == Some(Reading(ReadClosed(s).value.got, ReadClosed(s).value.rest + t))
    decreases |s|
  {
    if s[0] == QUOTE {
      assert (s + t)[1..] == s[1..] + t;
    } else {
      ByteFollowed(s, t);
      ClosedFollowed(ReadByte(s).value.rest, t);
    }
  }

  lemma QuotedFollowed(s: Text, t: Text)
    requires ReadQuoted(s).Some?
    ensures ReadQuoted(s + t) == Some(Reading(ReadQuoted(s).value.got, ReadQuoted(s).value.rest + t))
  {
    assert (s + t)[1..] == s[1..] + t;
    ClosedFollowed(s[1..], t);
  }

  lemma MemberFollowed(s: Text, t: Text)
    requires ReadMember(s).Some?
    ensures ReadMember(s + t) == Some(Reading(ReadMember(s).value.got, ReadMember(s).value.rest + t))
  {
    QuotedFollowed(s, t);
    var left := ReadQuoted(s).value.rest;
    assert (left + t)[1..] == left[1..] + t;
    QuotedFollowed(left[1..], t);
  }

  lemma {:induction false} MembersFollowed(s: Text, t: Text)
    requires ReadMembers(s).Some?
    ensures ReadMembers(s + t) == Some(Reading(ReadMembers(s).value.got, ReadMembers(s).value.rest + t))
    decreases |s|
  {
    MemberFollowed(s, t);
    var left := ReadMember(s).value.rest;
    assert (left + t)[1..] == left[1..] + t;
    if left[0] != CLOSE_BRACE {
      MembersFollowed(left[1..], t);
    }
  }

  /** So no proper beginning of a line is an object. */
  lemma BeginningsDoNotRead(line: Text, k: nat)
    requires ReadObject(line).Some? && k < |line|
    ensures ReadObject(line[..k]).None?
  {
    if k > 0 {
      var piece := line[1..k];
      assert line[..k][1..] == piece && piece + line[k..] == line[1..];
      if ReadMembers(piece).Some? {
        MembersFollowed(piece, line[k..]);
      }
    }
  }

  /** The beginning of a line: a brace, and a name that does not begin with what may follow a text. */
  predicate Begins(line: Text) {
    |line| >= 3 && line[0] == OPEN_BRACE && line[1] == QUOTE && line[2] !in {COLON, COMMA, CLOSE_BRACE}
  }

  lemma ByteCutOff(p: Text, line: Text)
    requires Begins(line) && p != [] && ReadByte(p).None?
    ensures ReadByte(p + line).None?
  {
    if |p| >= 2 && p[0] == BACKSLASH && p[1] == LETTER_U && |p| < 6 {
      assert (p + line)[|p|] == OPEN_BRACE;
    }
  }

  /** A text cut off by another line ends, if at all, at that line's first quote. */
  lemma {:induction false} ClosedCutOff(p: Text, line: Text)
    requires Begins(line) && ReadClosed(p).None?
    ensures ReadClosed(p + line).Some? ==> ReadClosed(p + line).value.rest == line[2..]
    decreases |p|
  {
    if p == [] {
      assert p + line == line && line[1..][1..] == line[2..];
      assert ReadByte(line) == Some(Reading(OPEN_BRACE, line[1..]));
    } else if ReadByte(p).None? {
      ByteCutOff(p, line);
    } else {
      ByteFollowed(p, line);
      ClosedCutOff(ReadByte(p).value.rest, line);
    }
  }

  lemma QuotedCutOff(p: Text, line: Text)
    requires Begins(line) && ReadQuoted(p).None?
    ensures ReadQuoted(p + line).Some? ==> ReadQuoted(p + line).value.rest == line[2..]
  {
    if p != [] && p[0] == QUOTE {
      assert (p + line)[1..] == p[1..] + line;
      ClosedCutOff(p[1..], line);
    }
  }

  lemma MemberCutOff(p: Text, line: Text)
    requires Begins(line) && ReadMember(p).None?
    ensures ReadMember(p + line).Some? ==> ReadMember(p + line).value.rest == line[2..]
  {
    if ReadQuoted(p).None? {
      QuotedCutOff(p, line);
    } else {
      QuotedFollowed(p, line);
      var left := ReadQuoted(p).value.rest;
      if left != [] && left[0] == COLON {
        assert (left + line)[1..] == left[1..] + line;
        QuotedCutOff(left[1..], line);
      }
    }
  }

  lemma {:induction false} MembersCutOff(p: Text, line: Text)
    requires Begins(line) && ReadMembers(p).None?
    ensures ReadMembers(p + line).None?
    decreases |p|
  {
    if ReadMember(p).None? {
      MemberCutOff(p, line);
    } else {
      MemberFollowed(p, line);
      var left := ReadMember(p).value.rest;
      if left != [] && left[0] == COMMA {
        assert (left + line)[1..] == left[1..] + line;
        MembersCutOff(left[1..], line);
      }
    }
  }

  /** Nothing at all, written before a line, makes an object of the two. */
  lemma GluedLinesDoNotRead(p: Text, line: Text)
    requires Begins(line) && p != []
    ensures ReadObject(p + line).None?
  {
    assert (p + line)[1..] == p[1..] + line;
    if ReadMembers(p[1..]).None? {
      MembersCutOff(p[1..], line);
    } else {
      MembersFollowed(p[1..], line);
    }
  }

  lemma LineBegins(r: Receipt)
    ensures Begins(Line(r))
  {
    NamesBegin(Members(r));
  }

  lemma NamesBegin(ms: seq<Member>)
    requires ms != [] && ms[0].name == Ascii("job_id")
    ensures Begins([OPEN_BRACE] + WriteMembers(ms))
  {
    var name := ms[0].name;
    assert name[0] == 106 && Escaped(name[0]) == [106];
    assert EscapedText(name)[0] == 106;
  }

  /** No control character, and nothing that can be taken for markup: those are written by their code. */
  predicate Clean(t: Text) {
    forall i | 0 <= i < |t| :: t[i] >= 32 && t[i] !in {38, 60, 62}
  }

  lemma CleanTogether(a: Text, b: Text)
    requires Clean(a) && Clean(b)
    ensures Clean(a + b)
  {
  }

  lemma {:induction false} EscapedIsClean(t: Text)
    ensures Clean(EscapedText(t))
    decreases |t|
  {
    if t != [] {
      EscapedIsClean(t[1..]);
      CleanTogether(Escaped(t[0]), EscapedText(t[1..]));
    }
  }

  lemma QuotedIsClean(t: Text)
    ensures Clean(Quoted(t))
  {
    EscapedIsClean(t);
    CleanTogether(EscapedText(t), [QUOTE]);
    CleanTogether([QUOTE], EscapedText(t) + [QUOTE]);
  }

  lemma MemberIsClean(m: Member)
    ensures Clean(WriteMember(m))
  {
    QuotedIsClean(m.name);
    QuotedIsClean(m.value);
    CleanTogether([COLON], Quoted(m.value));
    CleanTogether(Quoted(m.name), [COLON] + Quoted(m.value));
  }

  lemma {:induction false} MembersAreClean(ms: seq<Member>)
    ensures Clean(WriteMembers(ms))
    decreases |ms|
  {
    if ms != [] {
      MemberIsClean(ms[0]);
      MembersAreClean(ms[1..]);
      CleanTogether([COMMA], WriteMembers(ms[1..]));
      CleanTogether(WriteMember(ms[0]), if |ms| == 1 then [CLOSE_BRACE] else [COMMA] + WriteMembers(ms[1..]));
    }
  }

  lemma LinesAreClean(r: Receipt)
    ensures Clean(Line(r)) && NewlineFree(Line(r))
  {
    MembersAreClean(Members(r));
    CleanTogether([OPEN_BRACE], WriteMembers(Members(r)));
  }

  /** The lines of receipts, whatever their texts, are what the results about the log ask for. */
  lemma TextsAreSafe(r: Receipt, next: Receipt)
    ensures NewlineFree(Line(r)) && Line(r) != [] && ReceiptIn(Line(r)) == Some(r)
    ensures Clean(Line(r))
    ensures NoPieceDecodes(Line(r), Line(next), ReceiptIn)
  {
    LinesAreClean(r);
    ReceiptReadsBack(r);
    ObjectReadsBack(r);
    LineBegins(next);
    forall k | 0 <= k < |Line(r)|
      ensures ReceiptIn(Line(r)[..k]) == None
    {
      BeginningsDoNotRead(Line(r), k);
    }
    forall k | 0 < k <= |Line(r)|
      ensures ReceiptIn(Line(r)[..k] + Line(next)) == None
    {
      GluedLinesDoNotRead(Line(r)[..k], Line(next));
    }
  }

  // ---- The field that is summed ----

  function AmountIn(line: Text): Option<string> {
    if ReceiptIn(line).None? then None else Some(AsString(ReceiptIn(line).value.amountTinybars))
  }

  lemma AmountReads(amount: nat)
    ensures AsString(Ascii(Print(amount))) == Print(amount)
  {
    PrintedDigits(amount);
    var digits := Print(amount);
    forall i | 0 <= i < |digits| ensures AsString(Ascii(digits))[i] == digits[i] {
      assert IsDigit(digits[i]);
    }
  }

  /** The same of the amounts, which is what the earnings are summed from. */
  lemma AmountsAreSafe(r: Receipt, amount: nat, next: Receipt)
    requires r.amountTinybars == Ascii(Print(amount))
    ensures NewlineFree(Line(r)) && Line(r) != [] && AmountIn(Line(r)) == Some(Print(amount))
    ensures NoPieceDecodes(Line(r), Line(next), AmountIn)
  {
    TextsAreSafe(r, next);
    AmountReads(amount);
  }
}

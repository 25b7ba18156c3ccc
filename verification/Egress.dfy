/**
 * The egress policy of a lease: the allowlist is joined with commas on the node
 * (agent/internal/runner/lease.go), parsed back inside the proxy, and matched against the host of
 * every request (agent/lease-image/egress/main.go).
 */
module Egress {
  import opened Common

  // ---- Splitting and joining (strings.Split, strings.Join) ----

  function Find(s: string, sep: char): (i: nat)
    ensures i <= |s| && (i < |s| ==> s[i] == sep) && sep !in s[..i]
  {
    if s == "" || s[0] == sep then 0 else 1 + Find(s[1..], sep)
  }

  function Split(s: string, sep: char): (parts: seq<string>)
    ensures parts != [] && forall p | p in parts :: sep !in p
  {
    var i := Find(s, sep);
    if i == |s| then [s] else [s[..i]] + Split(s[i + 1..], sep)
  }

  function Join(parts: seq<string>, sep: char): string {
    if parts == [] then "" else if |parts| == 1 then parts[0] else parts[0] + [sep] + Join(parts[1..], sep)
  }

  lemma {:induction false} FindIs(front: string, sep: char, rest: string)
    requires sep !in front && (rest == "" || rest[0] == sep)
    ensures Find(front + rest, sep) == |front|
    decreases |front|
  {
    if front == "" {
      assert front + rest == rest;
    } else {
      assert front[0] in front && (front + rest)[1..] == front[1..] + rest;
      FindIs(front[1..], sep, rest);
    }
  }

  lemma SplitStep(front: string, sep: char, rest: string)
    requires sep !in front
    ensures Split(front + [sep] + rest, sep) == [front] + Split(rest, sep)
  {
    var s := front + [sep] + rest;
    assert s == front + ([sep] + rest);
    FindIs(front, sep, [sep] + rest);
    assert s[..|front|] == front && s[|front| + 1..] == rest;
  }

  lemma SplitWhole(s: string, sep: char)
    requires sep !in s
    ensures Split(s, sep) == [s]
  {
    FindIs(s, sep, "");
    assert s + "" == s;
  }

  lemma JoinCons(front: string, parts: seq<string>, sep: char)
    requires parts != []
    ensures Join([front] + parts, sep) == front + [sep] + Join(parts, sep)
  {
    assert ([front] + parts)[1..] == parts;
  }

  lemma InThree(s: string, i: nat)
    requires i < |s|
    ensures s == s[..i] + [s[i]] + s[i + 1..]
  {
  }

  lemma {:induction false} JoinOfSplit(s: string, sep: char)
    ensures Join(Split(s, sep), sep) == s
    decreases |s|
  {
    var i := Find(s, sep);
    if i < |s| {
      var front, rest := s[..i], s[i + 1..];
      JoinCons(front, Split(rest, sep), sep);
      JoinOfSplit(rest, sep);
      InThree(s, i);
    }
  }

  lemma {:induction false} SplitOfJoin(parts: seq<string>, sep: char)
    requires parts != [] && forall p | p in parts :: sep !in p
    ensures Split(Join(parts, sep), sep) == parts
    decreases |parts|
  {
    if |parts| == 1 {
      SplitWhole(parts[0], sep);
    } else {
      SplitOfJoin(parts[1..], sep);
      SplitStep(parts[0], sep, Join(parts[1..], sep));
    }
  }

  lemma {:induction false} SplitConcat(a: string, sep: char, b: string)
    ensures Split(a + [sep] + b, sep) == Split(a, sep) + Split(b, sep)
    decreases |a|
  {
    var i := Find(a, sep);
    if i == |a| {
      assert a[..i] == a;
      SplitStep(a, sep, b);
    } else {
      SplitConcat(a[i + 1..], sep, b);
      SplitAt(a, i, sep, b, Split(a[i + 1..], sep), Split(b, sep));
    }
  }

  lemma SplitAt(a: string, i: nat, sep: char, b: string, left: seq<string>, right: seq<string>)
    requires i < |a| && a[i] == sep && sep !in a[..i]
    requires Split(a[i + 1..] + [sep] + b, sep) == left + right
    ensures Split(a + [sep] + b, sep) == [a[..i]] + left + right
  {
    CutAt(a, i, sep, b);
    SplitStep(a[..i], sep, a[i + 1..] + [sep] + b);
    Regroup([a[..i]], left, right);
  }

  lemma CutAt(a: string, i: nat, sep: char, b: string)
    requires i < |a| && a[i] == sep
    ensures a + [sep] + b == a[..i] + [sep] + (a[i + 1..] + [sep] + b)
  {
    assert a == a[..i] + [sep] + a[i + 1..];
  }

  lemma {:induction false} JoinConcat(a: seq<string>, b: seq<string>, sep: char)
    requires a != [] && b != []
    ensures Join(a + b, sep) == Join(a, sep) + [sep] + Join(b, sep)
    decreases |a|
  {
    if |a| == 1 {
      assert (a + b)[1..] == b;
    } else {
      assert (a + b)[1..] == a[1..] + b;
      JoinConcat(a[1..], b, sep);
    }
  }

  // ---- Matching a host ----

  /** unicode.IsSpace: the White_Space property. */
  predicate IsSpace(c: char) {
    var n := c as int;
    || 0x09 <= n <= 0x0D || n == 0x20 || n == 0x85 || n == 0xA0 || n == 0x1680 || 0x2000 <= n <= 0x200A
    || n == 0x2028 || n == 0x2029 || n == 0x202F || n == 0x205F || n == 0x3000
  }

  /** The twenty-five characters with that property. */
  lemma WhiteSpaceIs(c: char)
    ensures IsSpace(c) <==>
            c as int in {0x09, 0x0A, 0x0B, 0x0C, 0x0D, 0x20, 0x85, 0xA0, 0x1680, 0x2000, 0x2001, 0x2002, 0x2003, 0x2004,
                         0x2005, 0x2006, 0x2007, 0x2008, 0x2009, 0x200A, 0x2028, 0x2029, 0x202F, 0x205F, 0x3000}
  {
  }

  /** A lower-casing of characters: the tables of the Unicode standard are a parameter. */
  type Casing = char -> char

  /**
   * What is asked of the tables: lower case is its own lower case, and no character becomes or
   * stops being a space or a comma.
   */
  ghost predicate IsLowerCasing(lower: Casing) {
    forall c: char :: lower(lower(c)) == lower(c) && IsSpace(lower(c)) == IsSpace(c) && (lower(c) == ',' <==> c == ',')
  }

  /** strings.ToLower, character by character. */
  function Lower(s: string, lower: Casing): (r: string)
    ensures |r| == |s|
  {
    seq(|s|, i requires 0 <= i < |s| => lower(s[i]))
  }

  function LowerLatin(c: char): char {
    if 'A' <= c <= 'Z' then c - 'A' + 'a' else c
  }

  lemma LatinIsLowerCasing()
    ensures IsLowerCasing(LowerLatin)
  {
  }

  function TrimDot(s: string): string {
    if s != "" && s[|s| - 1] == '.' then s[..|s| - 1] else s
  }

  predicate HasSuffix(s: string, suffix: string) {
    |suffix| <= |s| && s[|s| - |suffix|..] == suffix
  }

  /** allows, from the bare host. */
  method Allows(allowlist: seq<string>, bareHost: string, lower: Casing) returns (ok: bool)
    ensures ok <==> Allowed(allowlist, bareHost, lower)
  {
    var host := Lower(TrimDot(bareHost), lower);
    if host == "" {
      return false;
    }
    for i := 0 to |allowlist|
      invariant forall j | 0 <= j < i :: !Covers(allowlist[j], host)
    {
      SuffixIsLabels(allowlist[i], host);
      if host == allowlist[i] || HasSuffix(host, "." + allowlist[i]) {
        return true;
      }
    }
    return false;
  }

  /** The labels of a name, from the most specific to the top. */
  function Labels(name: string): seq<string> {
    Split(name, '.')
  }

  /** A name covers itself and everything below it: its labels end the other's. */
  predicate Covers(name: string, host: string) {
    var n, h := Labels(name), Labels(host);
    |n| <= |h| && h[|h| - |n|..] == n
  }

  /** What the policy means: some entry covers the host, whatever its letter case and final dot. */
  ghost predicate Allowed(allowlist: seq<string>, bareHost: string, lower: Casing) {
    var host := Lower(TrimDot(bareHost), lower);
    host != "" && exists i | 0 <= i < |allowlist| :: Covers(allowlist[i], host)
  }

  /** Some entry covers the host as it is written, up to letter case. */
  ghost predicate Listed(entries: seq<string>, host: string, lower: Casing) {
    host != "" && exists i | 0 <= i < |entries| :: Covers(entries[i], Lower(host, lower))
  }

  /** One final dot makes no difference, and nothing else is dropped: every host is one of these two. */
  lemma AllowedIffListed(entries: seq<string>, host: string, lower: Casing)
    ensures Allowed(entries, host + ".", lower) <==> Listed(entries, host, lower)
    ensures host == "" || host[|host| - 1] != '.' ==> (Allowed(entries, host, lower) <==> Listed(entries, host, lower))
  {
    assert (host + ".")[..|host|] == host;
  }

  lemma BelowIsCovered(name: string, front: string)
    ensures Covers(name, front + "." + name)
  {
    SplitConcat(front, '.', name);
    assert Labels(front + "." + name)[|Labels(front)|..] == Labels(name);
  }

  lemma EndsWith<T>(s: seq<T>, tail: seq<T>)
    requires |tail| <= |s| && s[|s| - |tail|..] == tail
    ensures s == s[..|s| - |tail|] + tail
  {
  }

  lemma CoveredIsBelow(name: string, host: string)
    requires Covers(name, host)
    ensures host == name || HasSuffix(host, "." + name)
  {
    var n, h := Labels(name), Labels(host);
    var front := h[..|h| - |n|];
    EndsWith(h, n);
    JoinOfSplit(name, '.');
    JoinOfSplit(host, '.');
    if front == [] {
      assert [] + n == n;
    } else {
      JoinConcat(front, n, '.');
      EndsWithConcat(Join(front, '.'), "." + name);
      Regroup(Join(front, '.'), ".", name);
    }
  }

  lemma EndsWithConcat(front: string, tail: string)
    ensures HasSuffix(front + tail, tail)
  {
  }

  /** The test on characters is the test on labels. */
  lemma SuffixIsLabels(name: string, host: string)
    ensures host == name || HasSuffix(host, "." + name) <==> Covers(name, host)
  {
    if HasSuffix(host, "." + name) {
      var front := host[..|host| - |name| - 1];
      assert host == front + "." + name;
      BelowIsCovered(name, front);
    }
    if Covers(name, host) {
      CoveredIsBelow(name, host);
    }
  }

  // ---- The allowlist, written and read ----

  function TrimLeft(s: string): string {
    if s != "" && IsSpace(s[0]) then TrimLeft(s[1..]) else s
  }

  function TrimRight(s: string): string {
    if s != "" && IsSpace(s[|s| - 1]) then TrimRight(s[..|s| - 1]) else s
  }

  function TrimSpace(s: string): string {
    TrimRight(TrimLeft(s))
  }

  /** Only white space goes, all of it at both ends: what is left begins and ends with something else. */
  lemma TrimSpaceTakesTheEnds(s: string) returns (front: string, back: string)
    ensures s == front + TrimSpace(s) + back
    ensures (forall c | c in front :: IsSpace(c)) && (forall c | c in back :: IsSpace(c))
    ensures var t := TrimSpace(s); t != "" ==> !IsSpace(t[0]) && !IsSpace(t[|t| - 1])
  {
    front := LeftEnd(s);
    back := RightEnd(TrimLeft(s));
    Regroup(front, TrimSpace(s), back);
    Trimmed(s);
  }

  lemma {:induction false} LeftEnd(s: string) returns (front: string)
    ensures s == front + TrimLeft(s) && forall c | c in front :: IsSpace(c)
  {
    if s != "" && IsSpace(s[0]) {
      front := LeftEnd(s[1..]);
      Regroup([s[0]], front, TrimLeft(s));
      front := [s[0]] + front;
    } else {
      front := "";
    }
  }

  lemma {:induction false} RightEnd(s: string) returns (back: string)
    ensures s == TrimRight(s) + back && forall c | c in back :: IsSpace(c)
    decreases |s|
  {
    if s != "" && IsSpace(s[|s| - 1]) {
      back := RightEnd(s[..|s| - 1]);
      Regroup(TrimRight(s), back, [s[|s| - 1]]);
      back := back + [s[|s| - 1]];
    } else {
      back := "";
    }
  }

  /** What one entry becomes. */
  function Normalize(entry: string, lower: Casing): string {
    Lower(TrimSpace(entry), lower)
  }

  /** Every entry in its final form, the empty ones left out. */
  function NormalizeAll(entries: seq<string>, lower: Casing): seq<string> {
    if entries == [] then []
    else (if Normalize(entries[0], lower) != "" then [Normalize(entries[0], lower)] else []) + NormalizeAll(entries[1..], lower)
  }

  function Parsed(raw: string, lower: Casing): seq<string> {
    NormalizeAll(Split(raw, ','), lower)
  }

  method ParseAllowlist(raw: string, lower: Casing) returns (out: seq<string>)
    ensures out == Parsed(raw, lower)
  {
    var entries := Split(raw, ',');
    out := [];
    assert entries[0..] == entries;
    for i := 0 to |entries|
      invariant out + NormalizeAll(entries[i..], lower) == NormalizeAll(entries, lower)
    {
      NormalizeStep(entries, i, lower);
      var entry := Normalize(entries[i], lower);
      if entry != "" {
        Regroup(out, [entry], NormalizeAll(entries[i + 1..], lower));
        out := out + [entry];
      }
    }
  }

  lemma NormalizeStep(entries: seq<string>, i: nat, lower: Casing)
    requires i < |entries|
    ensures var entry, rest := Normalize(entries[i], lower), NormalizeAll(entries[i + 1..], lower);
      NormalizeAll(entries[i..], lower) == if entry != "" then [entry] + rest else rest
  {
    assert entries[i..][1..] == entries[i + 1..];
  }

  /** An entry that means what it says: no comma, no space around it, its own lower case, and not empty. */
  predicate Plain(entry: string, lower: Casing) {
    && entry != ""
    && ',' !in entry
    && !IsSpace(entry[0]) && !IsSpace(entry[|entry| - 1])
    && forall i | 0 <= i < |entry| :: lower(entry[i]) == entry[i]
  }

  lemma {:induction false} Trimmed(s: string)
    ensures var t := TrimSpace(s); t != "" ==> !IsSpace(t[0]) && !IsSpace(t[|t| - 1])
    ensures forall c | c in TrimSpace(s) :: c in s
  {
    LeftTrimmed(s);
    RightTrimmed(TrimLeft(s));
  }

  lemma {:induction false} LeftTrimmed(s: string)
    ensures var t := TrimLeft(s); t != "" ==> !IsSpace(t[0])
    ensures forall c | c in TrimLeft(s) :: c in s
  {
    if s != "" && IsSpace(s[0]) {
      LeftTrimmed(s[1..]);
    }
  }

  lemma {:induction false} RightTrimmed(s: string)
    ensures var t := TrimRight(s); t != "" ==> !IsSpace(t[|t| - 1]) && s != "" && t[0] == s[0]
    ensures forall c | c in TrimRight(s) :: c in s
    decreases |s|
  {
    if s != "" && IsSpace(s[|s| - 1]) {
      RightTrimmed(s[..|s| - 1]);
    }
  }

  /** Normal forms are plain, and plain entries are their own normal form. */
  lemma NormalIsPlain(entry: string, lower: Casing)
    requires IsLowerCasing(lower) && ',' !in entry
    ensures Normalize(entry, lower) != "" ==> Plain(Normalize(entry, lower), lower)
    ensures Plain(entry, lower) ==> Normalize(entry, lower) == entry
  {
    Trimmed(entry);
    var t, n := TrimSpace(entry), Normalize(entry, lower);
    forall i | 0 <= i < |n|
      ensures n[i] != ','
    {
      assert t[i] in entry;
    }
  }

  lemma {:induction false} AllNormal(entries: seq<string>, lower: Casing)
    requires IsLowerCasing(lower)
    requires forall e | e in entries :: ',' !in e
    ensures forall e | e in NormalizeAll(entries, lower) :: Plain(e, lower)
    ensures (forall e | e in entries :: Plain(e, lower)) ==> NormalizeAll(entries, lower) == entries
    decreases |entries|
  {
    if entries != [] {
      NormalIsPlain(entries[0], lower);
      AllNormal(entries[1..], lower);
      assert entries == [entries[0]] + entries[1..];
    }
  }

  /** What the node writes is what the proxy reads, exactly when every entry is plain. */
  lemma ReadsBackIffPlain(allowlist: seq<string>, lower: Casing)
    requires IsLowerCasing(lower)
    ensures Parsed(Join(allowlist, ','), lower) == allowlist <==> forall e | e in allowlist :: Plain(e, lower)
  {
    AllNormal(Split(Join(allowlist, ','), ','), lower);
    if forall e | e in allowlist :: Plain(e, lower) {
      if allowlist == [] {
        SplitWhole("", ',');
        assert TrimSpace("") == "";
      } else {
        SplitOfJoin(allowlist, ',');
      }
    }
  }

  lemma {:induction false} NormalMembers(entries: seq<string>, lower: Casing)
    ensures forall n :: n in NormalizeAll(entries, lower) <==> n != "" && exists e | e in entries :: Normalize(e, lower) == n
    decreases |entries|
  {
    if entries != [] {
      NormalMembers(entries[1..], lower);
      assert entries == [entries[0]] + entries[1..];
    }
  }

  /**
   * The policy the proxy enforces, in terms of what was configured: a host gets through, with or
   * without a final dot, exactly when some configured entry, normalized, covers it.
   */
  lemma EnforcedPolicy(configured: seq<string>, host: string, lower: Casing)
    requires forall e | e in configured :: ',' !in e
    ensures var parsed := Parsed(Join(configured, ','), lower);
      var covered := exists e | e in configured :: Normalize(e, lower) != "" && Covers(Normalize(e, lower), Lower(host, lower));
      && (Allowed(parsed, host + ".", lower) <==> host != "" && covered)
      && (host == "" || host[|host| - 1] != '.' ==> (Allowed(parsed, host, lower) <==> host != "" && covered))
  {
    var parsed := Parsed(Join(configured, ','), lower);
    AllowedIffListed(parsed, host, lower);
    if configured == [] {
      SplitWhole("", ',');
      assert TrimSpace("") == "";
      assert parsed == [];
    } else {
      SplitOfJoin(configured, ',');
      NormalMembers(configured, lower);
      assert (exists i | 0 <= i < |parsed| :: Covers(parsed[i], Lower(host, lower))) <==>
             exists n | n in parsed :: Covers(n, Lower(host, lower));
    }
  }
}

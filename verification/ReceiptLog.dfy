/**
 * The append-only receipt log (agent/internal/receipts/receipts.go): what is read back after a
 * crash cut the file at any byte.
 */
module ReceiptLog {
  import opened Common

  type Byte = b: int | 0 <= b < 256

  const NEWLINE: Byte := 10

  predicate NewlineFree(record: seq<Byte>) {
    forall i | 0 <= i < |record| :: record[i] != NEWLINE
  }

  /** Where the first newline is, or the length if there is none. */
  function FirstNewline(raw: seq<Byte>): (i: nat)
    ensures i <= |raw| && NewlineFree(raw[..i])
    ensures i < |raw| ==> raw[i] == NEWLINE
  {
    if raw == [] || raw[0] == NEWLINE then
      0
    else
      var rest := FirstNewline(raw[1..]);
      assert raw[..1 + rest] == [raw[0]] + raw[1..][..rest];
      1 + rest
  }

  /** The lines of a file: each ended by a newline, then whatever is left, if anything. */
  function Lines(raw: seq<Byte>): seq<seq<Byte>> {
    var i := FirstNewline(raw);
    if raw == [] then []
    else if i == |raw| then [raw]
    else [raw[..i]] + Lines(raw[i + 1..])
  }

  lemma FirstNewlineIs(raw: seq<Byte>, i: nat)
    requires i <= |raw| && NewlineFree(raw[..i]) && (i < |raw| ==> raw[i] == NEWLINE)
    ensures FirstNewline(raw) == i
  {
    var f := FirstNewline(raw);
    assert forall k | 0 <= k < i :: raw[..i][k] == raw[k];
    assert forall k | 0 <= k < f :: raw[..f][k] == raw[k];
  }

  lemma LinesStep(record: seq<Byte>, rest: seq<Byte>)
    requires NewlineFree(record)
    ensures Lines(record + [NEWLINE] + rest) == [record] + Lines(rest)
  {
    var raw := record + [NEWLINE] + rest;
    assert raw[..|record|] == record && raw[|record| + 1..] == rest;
    FirstNewlineIs(raw, |record|);
  }

  lemma LinesOfPiece(piece: seq<Byte>)
    requires NewlineFree(piece)
    ensures Lines(piece) == if piece == [] then [] else [piece]
  {
    assert piece[..|piece|] == piece;
    FirstNewlineIs(piece, |piece|);
  }

  /** A newline at `i` ends the line that began at `start`. */
  lemma LineEnds(raw: seq<Byte>, start: nat, i: nat)
    requires start <= i < |raw| && (forall k | start <= k < i :: raw[k] != NEWLINE) && raw[i] == NEWLINE
    ensures Lines(raw[start..]) == [raw[start..i]] + Lines(raw[i + 1..])
  {
    assert raw[start..] == raw[start..i] + [NEWLINE] + raw[i + 1..];
    LinesStep(raw[start..i], raw[i + 1..]);
  }

  lemma LastLine(raw: seq<Byte>, start: nat)
    requires start <= |raw| && forall k | start <= k < |raw| :: raw[k] != NEWLINE
    ensures Lines(raw[start..]) == if start < |raw| then [raw[start..]] else []
  {
    LinesOfPiece(raw[start..]);
  }

  lemma LineTaken(lines: seq<seq<Byte>>, raw: seq<Byte>, start: nat, i: nat)
    requires start <= i < |raw| && (forall k | start <= k < i :: raw[k] != NEWLINE) && raw[i] == NEWLINE
    ensures lines + [raw[start..i]] + Lines(raw[i + 1..]) == lines + Lines(raw[start..])
  {
    LineEnds(raw, start, i);
    Regroup(lines, [raw[start..i]], Lines(raw[i + 1..]));
  }

  /** splitLines, with its moving start and growing slice. */
  method SplitLines(raw: seq<Byte>) returns (lines: seq<seq<Byte>>)
    ensures lines == Lines(raw)
  {
    lines := [];
    var start := 0;
    assert raw[0..] == raw;
    for i := 0 to |raw|
      invariant 0 <= start <= i && forall k | start <= k < i :: raw[k] != NEWLINE
      invariant Lines(raw) == lines + Lines(raw[start..])
    {
      if raw[i] == NEWLINE {
        LineTaken(lines, raw, start, i);
        lines := lines + [raw[start..i]];
        start := i + 1;
      }
    }
    LastLine(raw, start);
    if start < |raw| {
      lines := lines + [raw[start..]];
    }
  }

  /** The file after these records have been appended whole. */
  function File(records: seq<seq<Byte>>): seq<Byte> {
    if records == [] then [] else records[0] + [NEWLINE] + File(records[1..])
  }

  ghost predicate AllNewlineFree(records: seq<seq<Byte>>) {
    forall i | 0 <= i < |records| :: NewlineFree(records[i])
  }

  lemma {:induction false} LinesOfFile(records: seq<seq<Byte>>, tail: seq<Byte>)
    requires AllNewlineFree(records)
    ensures Lines(File(records) + tail) == records + Lines(tail)
    decreases |records|
  {
    if records == [] {
      assert File(records) + tail == tail;
    } else {
      var line, rest := records[0] + [NEWLINE], records[1..];
      LinesOfFile(rest, tail);
      Regroup(line, File(rest), tail);
      LinesStep(records[0], File(rest) + tail);
      assert records == [records[0]] + rest;
      Regroup([records[0]], rest, Lines(tail));
    }
  }

  lemma {:induction false} FileAppend(records: seq<seq<Byte>>, record: seq<Byte>)
    ensures File(records + [record]) == File(records) + record + [NEWLINE]
    decreases |records|
  {
    if records != [] {
      assert (records + [record])[1..] == records[1..] + [record];
      FileAppend(records[1..], record);
    } else {
      assert [record][1..] == [];
    }
  }

  /** How many records lie complete, newline and all, before byte `cut`. */
  function CompletedBefore(records: seq<seq<Byte>>, cut: nat): nat {
    if records == [] || cut < |records[0]| + 1 then 0 else 1 + CompletedBefore(records[1..], cut - |records[0]| - 1)
  }

  lemma {:induction false} FileCut(records: seq<seq<Byte>>, cut: nat)
    requires cut <= |File(records)|
    ensures var done := CompletedBefore(records, cut);
      && done <= |records|
      && |File(records[..done])| <= cut
      && File(records)[..cut] == File(records[..done]) + File(records)[|File(records[..done])|..cut]
      && (done == |records| ==> cut == |File(records)|)
      && (done < |records| ==>
            var piece := File(records)[|File(records[..done])|..cut];
            |piece| <= |records[done]| && piece == records[done][..|piece|])
    decreases |records|
  {
    if records == [] {
    } else if cut < |records[0]| + 1 {
      assert records[..0] == [];
    } else {
      var line, rest, after := records[0] + [NEWLINE], records[1..], cut - |records[0]| - 1;
      FileCut(rest, after);
      var done := CompletedBefore(rest, after);
      FileTake(records, done);
      CutBehind(line, File(rest), |File(rest[..done])|, after);
      Regroup(line, File(rest[..done]), File(rest)[|File(rest[..done])|..after]);
    }
  }

  lemma FileTake(records: seq<seq<Byte>>, done: nat)
    requires done < |records|
    ensures File(records[..1 + done]) == records[0] + [NEWLINE] + File(records[1..][..done])
  {
    assert records[..1 + done][1..] == records[1..][..done];
  }

  /** A cut behind the first line is a cut of what follows it. */
  lemma CutBehind(line: seq<Byte>, rest: seq<Byte>, from: nat, to: nat)
    requires from <= to <= |rest|
    ensures (line + rest)[..|line| + to] == line + rest[..to]
    ensures (line + rest)[|line| + from..|line| + to] == rest[from..to]
  {
  }

  /** The beginning of the next record that a cut leaves behind. */
  function PieceAt(records: seq<seq<Byte>>, cut: nat): seq<Byte>
    requires cut <= |File(records)|
  {
    FileCut(records, cut);
    File(records)[|File(records[..CompletedBefore(records, cut)])|..cut]
  }

  lemma LinesOfCutFile(records: seq<seq<Byte>>, cut: nat)
    requires AllNewlineFree(records) && cut <= |File(records)|
    ensures CompletedBefore(records, cut) <= |records|
    ensures var done, piece := CompletedBefore(records, cut), PieceAt(records, cut);
      Lines(File(records)[..cut]) == records[..done] + if piece == [] then [] else [piece]
  {
    FileCut(records, cut);
    var done, piece := CompletedBefore(records, cut), PieceAt(records, cut);
    assert NewlineFree(piece) by {
      if done < |records| {
        assert forall i | 0 <= i < |piece| :: piece[i] == records[done][i];
      } else {
        assert records[..done] == records;
      }
    }
    LinesOfFile(records[..done], piece);
    LinesOfPiece(piece);
  }

  /**
   * A file cut at any byte: the records completed before the cut, exactly, then at most one
   * piece, which is the beginning of the next record.
   */
  lemma CutFileReadsBack(records: seq<seq<Byte>>, cut: nat)
    requires AllNewlineFree(records) && cut <= |File(records)|
    ensures var done, lines := CompletedBefore(records, cut), Lines(File(records)[..cut]);
      && done <= |records|
      && done <= |lines| <= done + 1
      && lines[..done] == records[..done]
      && (|lines| == done + 1 ==>
            done < |records| && 0 < |lines[done]| <= |records[done]| && lines[done] == records[done][..|lines[done]|])
  {
    FileCut(records, cut);
    LinesOfCutFile(records, cut);
    if CompletedBefore(records, cut) == |records| {
      assert records[..|records|] == records;
    }
  }

  /**
   * The next append after a crash. A receipt appended to a file that ends inside an earlier
   * record is glued to that piece; it comes back as a line of its own exactly when the crash
   * wrote nothing of its line or all of it.
   */
  lemma AppendAfterCrash(records: seq<seq<Byte>>, lost: seq<Byte>, written: nat, next: seq<Byte>)
    requires AllNewlineFree(records) && NewlineFree(lost) && NewlineFree(next) && next != []
    requires written <= |lost| + 1
    ensures var lines := Lines(File(records) + (lost + [NEWLINE])[..written] + next + [NEWLINE]);
      && lines == records + (if written == |lost| + 1 then [lost, next] else [lost[..written] + next])
      && (lines[|lines| - 1] == next <==> written == 0 || written == |lost| + 1)
  {
    var piece := (lost + [NEWLINE])[..written];
    if written == |lost| + 1 {
      assert piece == lost + [NEWLINE];
      AppendAfterWholeLine(records, lost, next);
    } else {
      assert piece == lost[..written];
      AppendToPiece(records, piece, next);
      assert written == 0 ==> piece + next == next;
      assert written > 0 ==> |piece + next| > |next|;
    }
  }

  lemma AppendAfterWholeLine(records: seq<seq<Byte>>, whole: seq<Byte>, next: seq<Byte>)
    requires AllNewlineFree(records) && NewlineFree(whole) && NewlineFree(next)
    ensures Lines(File(records) + (whole + [NEWLINE]) + next + [NEWLINE]) == records + [whole, next]
  {
    var longer := records + [whole];
    FileAppend(records, whole);
    Regroup(File(records), whole, [NEWLINE]);
    AppendToPiece(longer, [], next);
    assert File(longer) + [] == File(longer) && [] + next == next;
    assert longer + [next] == records + [whole, next];
  }

  /** An append to a file that ends in a piece of a line continues that line. */
  lemma AppendToPiece(records: seq<seq<Byte>>, piece: seq<Byte>, next: seq<Byte>)
    requires AllNewlineFree(records) && NewlineFree(piece) && NewlineFree(next)
    ensures Lines(File(records) + piece + next + [NEWLINE]) == records + [piece + next]
  {
    var file, line := File(records), piece + next;
    LinesStep(line, []);
    assert line + [NEWLINE] + [] == line + [NEWLINE] && Lines([]) == [];
    LinesOfFile(records, line + [NEWLINE]);
    Regroup(file, piece, next);
    Regroup(file, line, [NEWLINE]);
  }

  // ---- Reading receipts ----

  /** All: the lines that decode, in order. Empty and undecodable lines are skipped. */
  function Decoded<R>(lines: seq<seq<Byte>>, decode: seq<Byte> -> Option<R>): seq<R> {
    if lines == [] then []
    else
      (if lines[0] != [] && decode(lines[0]).Some? then [decode(lines[0]).value] else []) + Decoded(lines[1..], decode)
  }

  method All<R>(file: seq<Byte>, decode: seq<Byte> -> Option<R>) returns (out: seq<R>)
    ensures out == Decoded(Lines(file), decode)
  {
    var lines := SplitLines(file);
    out := [];
    assert lines[0..] == lines;
    for i := 0 to |lines|
      invariant out + Decoded(lines[i..], decode) == Decoded(lines, decode)
    {
      DecodedStep(lines, i, decode);
      if lines[i] != [] && decode(lines[i]).Some? {
        Regroup(out, [decode(lines[i]).value], Decoded(lines[i + 1..], decode));
        out := out + [decode(lines[i]).value];
      }
    }
  }

  lemma DecodedStep<R>(lines: seq<seq<Byte>>, i: nat, decode: seq<Byte> -> Option<R>)
    requires i < |lines|
    ensures Decoded(lines[i..], decode) ==
            if lines[i] != [] && decode(lines[i]).Some? then [decode(lines[i]).value] + Decoded(lines[i + 1..], decode)
            else Decoded(lines[i + 1..], decode)
  {
    assert lines[i..][1..] == lines[i + 1..];
  }

  lemma {:induction false} DecodedAppend<R>(a: seq<seq<Byte>>, b: seq<seq<Byte>>, decode: seq<Byte> -> Option<R>)
    ensures Decoded(a + b, decode) == Decoded(a, decode) + Decoded(b, decode)
    decreases |a|
  {
    if a == [] {
      assert a + b == b;
    } else {
      assert (a + b)[1..] == a[1..] + b;
      DecodedAppend(a[1..], b, decode);
    }
  }

  lemma {:induction false} DecodedWhole<R>(records: seq<seq<Byte>>, receipts: seq<R>, decode: seq<Byte> -> Option<R>)
    requires |records| == |receipts|
    requires forall i | 0 <= i < |records| :: records[i] != [] && decode(records[i]) == Some(receipts[i])
    ensures Decoded(records, decode) == receipts
    decreases |records|
  {
    if records != [] {
      DecodedWhole(records[1..], receipts[1..], decode);
      assert receipts == [receipts[0]] + receipts[1..];
    }
  }

  lemma DecodedOne<R>(line: seq<Byte>, decode: seq<Byte> -> Option<R>)
    requires line != []
    ensures Decoded([line], decode) == if decode(line).Some? then [decode(line).value] else []
  {
    assert [line][1..] == [];
  }

  /** What a beginning of a record decodes to, when no proper one does. */
  lemma DecodedPiece<R>(last: seq<Byte>, written: nat, decode: seq<Byte> -> Option<R>)
    requires written <= |last| && last != [] && decode(last).Some?
    requires forall k | 0 <= k < |last| :: decode(last[..k]) == None
    ensures var piece := last[..written];
      Decoded(if piece == [] then [] else [piece], decode) == if written == |last| then [decode(last).value] else []
  {
    var piece := last[..written];
    if piece != [] {
      DecodedOne(piece, decode);
    }
    if written == |last| {
      assert piece == last;
    }
  }

  /**
   * No receipt is lost or invented by a crash: with an encoding of which no beginning decodes,
   * a log cut at any byte reads back as the receipts completed before the cut, and one more
   * only if all that is missing of it is its newline.
   */
  lemma CutLogKeepsItsReceipts<R>(records: seq<seq<Byte>>, receipts: seq<R>, decode: seq<Byte> -> Option<R>, cut: nat)
    requires AllNewlineFree(records) && |records| == |receipts| && cut <= |File(records)|
    requires forall i | 0 <= i < |records| :: records[i] != [] && decode(records[i]) == Some(receipts[i])
    requires forall i, k | 0 <= i < |records| && 0 <= k < |records[i]| :: decode(records[i][..k]) == None
    ensures var done, all := CompletedBefore(records, cut), Decoded(Lines(File(records)[..cut]), decode);
      && done <= |receipts|
      && (all == receipts[..done]
          || (done < |receipts| && all == receipts[..done + 1] && cut == |File(records[..done])| + |records[done]|))
  {
    LinesOfCutFile(records, cut);
    FileCut(records, cut);
    var done, piece := CompletedBefore(records, cut), PieceAt(records, cut);
    DecodedWhole(records[..done], receipts[..done], decode);
    DecodedAppend(records[..done], if piece == [] then [] else [piece], decode);
    if done == |records| {
      assert records[..done] == records && piece == [];
      assert receipts[..done] + [] == receipts[..done];
    } else {
      assert piece == records[done][..|piece|];
      DecodedPiece(records[done], |piece|, decode);
      OneMore(receipts, done);
    }
  }

  lemma OneMore<T>(items: seq<T>, k: nat)
    requires k < |items|
    ensures items[..k] + [items[k]] == items[..k + 1] && items[..k] + [] == items[..k]
  {
  }

  // ---- What a crash and the append after it leave to read ----

  /** Records that decode, each to its receipt. */
  ghost predicate Decodes<R>(records: seq<seq<Byte>>, receipts: seq<R>, decode: seq<Byte> -> Option<R>) {
    && |records| == |receipts|
    && forall i | 0 <= i < |records| :: records[i] != [] && decode(records[i]) == Some(receipts[i])
  }

  /** Neither a proper beginning of a record decodes, nor any beginning with another record after it. */
  ghost predicate NoPieceDecodes<R>(record: seq<Byte>, next: seq<Byte>, decode: seq<Byte> -> Option<R>) {
    && (forall k | 0 <= k < |record| :: decode(record[..k]) == None)
    && (forall k | 0 < k <= |record| :: decode(record[..k] + next) == None)
  }

  /** What a log reads back that died `written` bytes into a line: it has that receipt once its text is whole. */
  lemma ReadAfterCrash<R>(records: seq<seq<Byte>>, receipts: seq<R>, last: seq<Byte>, lastR: R, next: seq<Byte>,
                          decode: seq<Byte> -> Option<R>, written: nat)
    requires AllNewlineFree(records) && NewlineFree(last) && written <= |last| + 1
    requires Decodes(records, receipts, decode) && last != [] && decode(last) == Some(lastR)
    requires NoPieceDecodes(last, next, decode)
    ensures Decoded(Lines(File(records) + (last + [NEWLINE])[..written]), decode) ==
            receipts + if written >= |last| then [lastR] else []
  {
    DecodedWhole(records, receipts, decode);
    if written == |last| + 1 {
      assert (last + [NEWLINE])[..written] == last + [NEWLINE];
      LinesWithOneMore(records, last);
      DecodedAppend(records, [last], decode);
      DecodedOne(last, decode);
    } else {
      var piece := last[..written];
      assert (last + [NEWLINE])[..written] == piece;
      LinesOfFile(records, piece);
      LinesOfPiece(piece);
      DecodedAppend(records, Lines(piece), decode);
      DecodedPiece(last, written, decode);
    }
  }

  lemma LinesWithOneMore(records: seq<seq<Byte>>, last: seq<Byte>)
    requires AllNewlineFree(records) && NewlineFree(last)
    ensures Lines(File(records) + (last + [NEWLINE])) == records + [last]
  {
    FileAppend(records, last);
    Regroup(File(records), last, [NEWLINE]);
    LinesOfFile(records + [last], []);
    assert File(records + [last]) + [] == File(records + [last]) && Lines([]) == [];
    assert records + [last] + [] == records + [last];
  }

  /**
   * What is left once the next receipt has been appended to such a log. If the dying append wrote
   * nothing, or its whole line, both are there. Otherwise the new receipt is lost with the old
   * one, even where the old one was still read back before and only its newline was missing.
   */
  lemma ReadAfterNextAppend<R>(records: seq<seq<Byte>>, receipts: seq<R>, last: seq<Byte>, lastR: R,
                               next: seq<Byte>, nextR: R, decode: seq<Byte> -> Option<R>, written: nat)
    requires AllNewlineFree(records) && NewlineFree(last) && NewlineFree(next) && written <= |last| + 1
    requires Decodes(records, receipts, decode)
    requires last != [] && decode(last) == Some(lastR) && next != [] && decode(next) == Some(nextR)
    requires NoPieceDecodes(last, next, decode)
    ensures Decoded(Lines(File(records) + (last + [NEWLINE])[..written] + next + [NEWLINE]), decode) ==
            receipts + if written == 0 then [nextR] else if written == |last| + 1 then [lastR, nextR] else []
  {
    AppendAfterCrash(records, last, written, next);
    DecodedWhole(records, receipts, decode);
    if written == |last| + 1 {
      DecodedAppend(records, [last, next], decode);
      DecodedWhole([last, next], [lastR, nextR], decode);
    } else {
      DecodedAppend(records, [last[..written] + next], decode);
      assert written == 0 ==> last[..written] + next == next;
      assert written > 0 ==> decode(last[..written] + next) == None;
      DecodedOne(last[..written] + next, decode);
    }
  }

  // ---- The log ----

  /** The log's file, remembered as the whole lines in it and the piece of a line after them. */
  class Log {
    var file: seq<Byte>
    ghost var records: seq<seq<Byte>>
    ghost var piece: seq<Byte>

    ghost predicate Valid()
      reads this
    {
      file == File(records) + piece && AllNewlineFree(records) && NewlineFree(piece)
    }

    constructor ()
      ensures Valid() && records == [] && piece == []
    {
      file, records, piece := [], [], [];
    }

    /**
     * Append: the whole line is written, or the process dies having written `written` bytes of it.
     * The line that is there to read continues whatever piece an earlier death left.
     */
    method Append(record: seq<Byte>, written: nat)
      requires Valid() && NewlineFree(record) && written <= |record| + 1
      modifies this
      ensures Valid()
      ensures written == |record| + 1 ==> records == old(records) + [old(piece) + record] && piece == []
      ensures written <= |record| ==> records == old(records) && piece == old(piece) + record[..written]
    {
      file := file + (record + [NEWLINE])[..written];
      if written == |record| + 1 {
        FileGrows(records, piece, record);
        records, piece := records + [piece + record], [];
      } else {
        assert (record + [NEWLINE])[..written] == record[..written];
        Regroup(File(records), piece, record[..written]);
        piece := piece + record[..written];
      }
    }

    /** All, on the file as it stands. */
    method ReadAll<R>(decode: seq<Byte> -> Option<R>) returns (out: seq<R>)
      requires Valid()
      ensures out == Decoded(records + if piece == [] then [] else [piece], decode)
    {
      LinesOfFile(records, piece);
      LinesOfPiece(piece);
      out := All(file, decode);
    }
  }

  lemma FileGrows(records: seq<seq<Byte>>, piece: seq<Byte>, record: seq<Byte>)
    ensures File(records) + piece + (record + [NEWLINE])[..|record| + 1] == File(records + [piece + record]) + []
  {
    assert (record + [NEWLINE])[..|record| + 1] == record + [NEWLINE];
    FileAppend(records, piece + record);
    Regroup(File(records), piece, record + [NEWLINE]);
    Regroup(piece, record, [NEWLINE]);
    Regroup(File(records), piece + record, [NEWLINE]);
  }
}

/**
 * What the node says it has earned: the sum over its receipt log
 * (agent/cmd/cleargate-node/earnings.go).
 */
module Earnings {
  import opened Common
  import opened Decimal
  import opened ReceiptLog

  /** The sum of the amounts that read as integers; the others are passed over. */
  function Earned(amounts: seq<string>): int {
    if amounts == [] then 0
    else (if ParseBigInt(amounts[0]).Some? then ParseBigInt(amounts[0]).value else 0) + Earned(amounts[1..])
  }

  /** showEarnings, without its printing. */
  method ShowEarnings(all: seq<string>) returns (total: int)
    ensures total == Earned(all)
  {
    total := 0;
    assert all[0..] == all;
    for i := 0 to |all|
      invariant total + Earned(all[i..]) == Earned(all)
    {
      assert all[i..][0] == all[i] && all[i..][1..] == all[i + 1..];
      var amount := ParseBigInt(all[i]);
      if amount.Some? {
        total := total + amount.value;
      }
    }
  }

  /** One more receipt adds its amount, or takes it off if that is negative; one that is no integer changes nothing. */
  lemma OneMoreReceipt(amounts: seq<string>, amount: nat, text: string)
    ensures Earned(amounts + [Print(amount)]) == Earned(amounts) + amount
    ensures Earned(amounts + ["-" + Print(amount)]) == Earned(amounts) - amount
    ensures text == "" || !IsDigit(text[|text| - 1]) ==> Earned(amounts + [text]) == Earned(amounts)
  {
    ParsePrinted(amount);
    ParseSigned(amount);
    EarnedAppend(amounts, [Print(amount)]);
    EarnedAppend(amounts, ["-" + Print(amount)]);
    EarnedAppend(amounts, [text]);
  }

  function Printed(amounts: seq<nat>): (s: seq<string>)
    ensures |s| == |amounts|
  {
    seq(|amounts|, i requires 0 <= i < |amounts| => Print(amounts[i]))
  }

  lemma {:induction false} PrintedAmountsAddUp(amounts: seq<nat>)
    ensures Earned(Printed(amounts)) == Sum(amounts)
    decreases |amounts|
  {
    if amounts != [] {
      ParsePrinted(amounts[0]);
      PrintedAmountsAddUp(amounts[1..]);
      assert Printed(amounts)[1..] == Printed(amounts[1..]);
    }
  }

  /**
   * The earnings shown after a crash that cut the log at any byte are the sum of the amounts
   * settled before the cut; the one receipt that was being written is counted only if every
   * byte of it was there.
   */
  lemma EarningsAfterCrash(records: seq<seq<Byte>>, amounts: seq<nat>, amountOf: seq<Byte> -> Option<string>, cut: nat)
    requires AllNewlineFree(records) && |records| == |amounts| && cut <= |File(records)|
    requires forall i | 0 <= i < |records| :: records[i] != [] && amountOf(records[i]) == Some(Print(amounts[i]))
    requires forall i, k | 0 <= i < |records| && 0 <= k < |records[i]| :: amountOf(records[i][..k]) == None
    ensures var done, shown := CompletedBefore(records, cut), Earned(Decoded(Lines(File(records)[..cut]), amountOf));
      && done <= |amounts|
      && (shown == Sum(amounts[..done])
          || (done < |amounts| && shown == Sum(amounts[..done + 1])
              && cut == |File(records[..done])| + |records[done]|))
  {
    CutLogKeepsItsReceipts(records, Printed(amounts), amountOf, cut);
    var done := CompletedBefore(records, cut);
    PrintedAmountsAddUp(amounts[..done]);
    assert Printed(amounts)[..done] == Printed(amounts[..done]);
    if done < |amounts| {
      PrintedAmountsAddUp(amounts[..done + 1]);
      assert Printed(amounts)[..done + 1] == Printed(amounts[..done + 1]);
    }
  }

  lemma {:induction false} EarnedAppend(a: seq<string>, b: seq<string>)
    ensures Earned(a + b) == Earned(a) + Earned(b)
    decreases |a|
  {
    if a == [] {
      assert a + b == b;
    } else {
      assert (a + b)[1..] == a[1..] + b;
      EarnedAppend(a[1..], b);
    }
  }

  lemma EarnedOne(amount: nat)
    ensures Earned([Print(amount)]) == amount
  {
    ParsePrinted(amount);
    assert [Print(amount)][1..] == [];
  }

  /**
   * The total across a crash `written` bytes into a receipt's line and the settlement after it.
   * The total only ever counts what is there to read: the interrupted receipt once its text is
   * whole, and after the next append both receipts or, in between, neither; so where just the
   * newline was missing, settling the next payment takes the total down by the last one.
   */
  lemma EarningsAcrossACrash(records: seq<seq<Byte>>, amounts: seq<nat>, last: seq<Byte>, lastAmount: nat,
                             next: seq<Byte>, nextAmount: nat, amountOf: seq<Byte> -> Option<string>, written: nat)
    requires AllNewlineFree(records) && NewlineFree(last) && NewlineFree(next) && written <= |last| + 1
    requires Decodes(records, Printed(amounts), amountOf)
    requires last != [] && amountOf(last) == Some(Print(lastAmount))
    requires next != [] && amountOf(next) == Some(Print(nextAmount))
    requires NoPieceDecodes(last, next, amountOf)
    ensures var crashed := File(records) + (last + [NEWLINE])[..written];
      var before := Earned(Decoded(Lines(crashed), amountOf));
      var after := Earned(Decoded(Lines(crashed + next + [NEWLINE]), amountOf));
      && before == Sum(amounts) + (if written >= |last| then lastAmount else 0)
      && after == Sum(amounts) +
           (if written == 0 then nextAmount else if written == |last| + 1 then lastAmount + nextAmount else 0)
      && (written == |last| ==> after == before - lastAmount)
  {
    var a, b := Print(lastAmount), Print(nextAmount);
    ReadAfterCrash(records, Printed(amounts), last, a, next, amountOf, written);
    ReadAfterNextAppend(records, Printed(amounts), last, a, next, b, amountOf, written);
    PrintedAmountsAddUp(amounts);
    EarnedOne(lastAmount);
    EarnedOne(nextAmount);
    EarnedAppend(Printed(amounts), [a]);
    EarnedAppend(Printed(amounts), [b]);
    EarnedAppend(Printed(amounts), [a, b]);
    EarnedAppend([a], [b]);
    assert [a] + [b] == [a, b];
    assert Printed(amounts) + [] == Printed(amounts);
  }
}

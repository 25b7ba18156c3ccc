/**
 * Settling one finished session at the grain of its locks (settleSession in
 * agent/internal/httpapi/sessions.go, MarkSettled in agent/internal/runner/lease.go). Every stop,
 * eviction and sweep that ends the session runs it: each looks at the state, reads the credit,
 * has it transferred with no lock held, and then marks the session settled.
 */
module SettleSections {
  import opened Common
  import opened Metering
  import Sessions

  /** A closing message: what it says was returned or is owed, and whether it was sent. */
  datatype Closing = Closing(refund: nat, transferred: bool)

  /**
   * The session's money, what has been transferred and published, and the settlers under way:
   * how many have found it pending, the amounts others have read and are to send, and the amounts
   * they are to mark as returned.
   */
  datatype Desk = Desk(
    settle: SettleState,
    credit: nat,
    refunded: nat,
    transfers: seq<nat>,
    closings: seq<Closing>,
    checked: nat,
    holding: multiset<nat>,
    marking: multiset<nat>)

  datatype Section =
    | Check                                     // the state, when settling begins
    | Read                                      // the credit
    | Send(owed: nat, refund: Sessions.Refund)  // the transfer, and how it goes
    | Mark(owed: nat)                           // MarkSettled, and the closing message

  predicate Enabled(d: Desk, c: Section) {
    match c
    case Check => true
    case Read => d.checked > 0
    case Send(owed, _) => owed in d.holding
    case Mark(owed) => owed in d.marking
  }

  function Do(d: Desk, c: Section): Desk
    requires Enabled(d, c)
  {
    match c
    case Check => if d.settle.Pending? then d.(checked := d.checked + 1) else d
    case Read =>
      var left := d.(checked := d.checked - 1);
      if d.credit == 0 then left.(marking := d.marking + multiset{0}) else left.(holding := d.holding + multiset{d.credit})
    case Send(owed, refund) => Sent(d.(holding := d.holding - multiset{owed}), owed, refund)
    case Mark(owed) =>
      Marked(d.(marking := d.marking - multiset{owed}, closings := d.closings + [Closing(owed, owed > 0)]), owed)
  }

  function Sent(d: Desk, owed: nat, refund: Sessions.Refund): Desk {
    match refund
    case NoSidecar => d.(closings := d.closings + [Closing(owed, false)])
    case TransferFailed => d
    case TransferPaid => d.(transfers := d.transfers + [owed], marking := d.marking + multiset{owed})
  }

  /** MarkSettled: whatever it said before, the session is settled for this amount. */
  function Marked(d: Desk, owed: nat): Desk {
    if d.settle.NotApplicable? then d else d.(settle := Done, refunded := owed, credit := 0)
  }

  /** A session that has just ended, owing this much. */
  function Ended(owed: nat): Desk {
    Desk(Pending, owed, 0, [], [], 0, multiset{}, multiset{})
  }

  predicate Schedule(d: Desk, cs: seq<Section>)
    decreases |cs|
  {
    cs == [] || (Enabled(d, cs[0]) && Schedule(Do(d, cs[0]), cs[1..]))
  }

  function After(d: Desk, cs: seq<Section>): Desk
    requires Schedule(d, cs)
    decreases |cs|
  {
    if cs == [] then d else After(Do(d, cs[0]), cs[1..])
  }

  /** The settlers between their check and their end. */
  function UnderWay(d: Desk): nat {
    d.checked + |d.holding| + |d.marking|
  }

  // ---- What every schedule keeps ----

  /** Amounts are the whole credit or nothing, and each transfer is marked or will be. */
  ghost predicate DeskInv(d: Desk, owed: nat) {
    && !d.settle.NotApplicable?
    && (forall a | a in d.holding :: a == owed)
    && (forall a | a in d.marking :: a == owed || a == 0)
    && (forall i | 0 <= i < |d.transfers| :: d.transfers[i] == owed)
    && (d.settle.Pending? ==> d.credit == owed && d.refunded == 0 && 0 !in d.marking && |d.transfers| == |d.marking|)
    && (d.settle.Done? ==>
          d.credit == 0 && (d.refunded == 0 || d.refunded == owed) && |d.transfers| >= 1 + d.marking[owed])
  }

  lemma ReadKeeps(d: Desk, owed: nat)
    requires owed > 0 && DeskInv(d, owed) && d.checked > 0
    ensures DeskInv(Do(d, Read), owed)
  {
  }

  lemma SendKeeps(d: Desk, owed: nat, a: nat, refund: Sessions.Refund)
    requires owed > 0 && DeskInv(d, owed) && a in d.holding
    ensures DeskInv(Do(d, Send(a, refund)), owed)
  {
  }

  lemma MarkKeeps(d: Desk, owed: nat, a: nat)
    requires owed > 0 && DeskInv(d, owed) && a in d.marking
    ensures DeskInv(Do(d, Mark(a)), owed)
  {
  }

  lemma StepKeeps(d: Desk, owed: nat, c: Section)
    requires owed > 0 && DeskInv(d, owed) && Enabled(d, c)
    ensures DeskInv(Do(d, c), owed)
  {
    match c
    case Check =>
    case Read => ReadKeeps(d, owed);
    case Send(a, refund) => SendKeeps(d, owed, a, refund);
    case Mark(a) => MarkKeeps(d, owed, a);
  }

  // ---- How much more can be sent ----

  /** The transfers made, and those that settlers under way can still make. */
  function CouldSend(d: Desk): nat {
    |d.transfers| + |d.holding| + if d.settle.Pending? then d.checked else 0
  }

  /** Nobody begins to settle; those under way go on. */
  predicate Finishing(cs: seq<Section>) {
    forall i | 0 <= i < |cs| :: !cs[i].Check?
  }

  lemma CouldSendFalls(d: Desk, owed: nat, c: Section)
    requires owed > 0 && DeskInv(d, owed) && Enabled(d, c) && !c.Check?
    ensures CouldSend(Do(d, c)) <= CouldSend(d)
  {
  }

  lemma {:induction false} AtMostCouldSend(d: Desk, owed: nat, cs: seq<Section>)
    requires owed > 0 && DeskInv(d, owed) && Schedule(d, cs) && Finishing(cs)
    ensures DeskInv(After(d, cs), owed) && |After(d, cs).transfers| <= CouldSend(d)
    decreases |cs|
  {
    if cs != [] {
      StepKeeps(d, owed, cs[0]);
      CouldSendFalls(d, owed, cs[0]);
      AtMostCouldSend(Do(d, cs[0]), owed, cs[1..]);
    }
  }

  /** What comes next when whoever can send does, before anybody marks. */
  function Next(d: Desk, owed: nat): Section {
    if |d.holding| > 0 then Send(owed, Sessions.TransferPaid)
    else if d.checked > 0 then Read
    else if owed in d.marking then Mark(owed)
    else Mark(0)
  }

  function ToDo(d: Desk): nat {
    3 * d.checked + 2 * |d.holding| + |d.marking|
  }

  lemma SomeAmount(m: multiset<nat>) returns (a: nat)
    requires |m| > 0
    ensures a in m
  {
    a :| a in m;
  }

  lemma NextSends(d: Desk, owed: nat)
    requires owed > 0 && DeskInv(d, owed) && UnderWay(d) > 0
    ensures var c := Next(d, owed);
      Enabled(d, c) && !c.Check? && ToDo(Do(d, c)) < ToDo(d) && CouldSend(Do(d, c)) == CouldSend(d)
  {
    if |d.holding| > 0 {
      var a := SomeAmount(d.holding);
    } else if d.checked == 0 {
      var a := SomeAmount(d.marking);
    }
  }

  /** Those under way go on until all are done, with every transfer they can make made. */
  ghost function Drain(d: Desk, owed: nat): seq<Section>
    requires owed > 0 && DeskInv(d, owed)
    decreases ToDo(d)
  {
    if UnderWay(d) == 0 then
      []
    else
      var c := Next(d, owed);
      NextSends(d, owed);
      StepKeeps(d, owed, c);
      [c] + Drain(Do(d, c), owed)
  }

  lemma FirstThen(d: Desk, c: Section, cs: seq<Section>)
    requires Enabled(d, c) && Schedule(Do(d, c), cs)
    ensures Schedule(d, [c] + cs) && After(d, [c] + cs) == After(Do(d, c), cs)
    ensures !c.Check? && Finishing(cs) ==> Finishing([c] + cs)
  {
    assert ([c] + cs)[1..] == cs;
  }

  lemma {:induction false} DrainSends(d: Desk, owed: nat)
    requires owed > 0 && DeskInv(d, owed)
    ensures var cs := Drain(d, owed);
      && Schedule(d, cs) && Finishing(cs) && DeskInv(After(d, cs), owed)
      && UnderWay(After(d, cs)) == 0 && |After(d, cs).transfers| == CouldSend(d)
    decreases ToDo(d)
  {
    if UnderWay(d) > 0 {
      var c := Next(d, owed);
      NextSends(d, owed);
      StepKeeps(d, owed, c);
      DrainSends(Do(d, c), owed);
      FirstThen(d, c, Drain(Do(d, c), owed));
    }
  }

  /** Settled, and whoever is still under way has read no credit or will read none. */
  predicate TooLate(d: Desk, owed: nat) {
    d.settle.Done? && |d.holding| == 0 && owed !in d.marking
  }

  lemma {:induction false} DrainMarksNothing(d: Desk, owed: nat)
    requires owed > 0 && DeskInv(d, owed) && TooLate(d, owed) && (UnderWay(d) > 0 || d.refunded == 0)
    ensures Schedule(d, Drain(d, owed)) && After(d, Drain(d, owed)).refunded == 0
    decreases ToDo(d)
  {
    if UnderWay(d) > 0 {
      var c := Next(d, owed);
      NextSends(d, owed);
      StepKeeps(d, owed, c);
      TooLateStays(d, owed, c);
      DrainMarksNothing(Do(d, c), owed);
      FirstThen(d, c, Drain(Do(d, c), owed));
    }
  }

  lemma TooLateStays(d: Desk, owed: nat, c: Section)
    requires owed > 0 && DeskInv(d, owed) && TooLate(d, owed) && Enabled(d, c) && (c.Read? || c.Mark?)
    ensures TooLate(Do(d, c), owed) && (UnderWay(Do(d, c)) > 0 || Do(d, c).refunded == 0)
  {
    if c.Read? {
      assert |Do(d, c).marking| == |d.marking| + 1;
    }
  }

  // ---- When it is settled once ----

  /** However those under way go on, the session is refunded at most once. */
  ghost predicate RefundedOnce(d: Desk) {
    forall cs: seq<Section> | Schedule(d, cs) && Finishing(cs) :: |After(d, cs).transfers| <= 1
  }

  /** However they go on, what the session says was refunded is in the end what was sent. */
  ghost predicate RefundedIsSent(d: Desk) {
    forall cs: seq<Section> | Schedule(d, cs) && Finishing(cs) && UnderWay(After(d, cs)) == 0 ::
      After(d, cs).refunded == Sum(After(d, cs).transfers)
  }

  lemma RefundedOnceIff(d: Desk, owed: nat)
    requires owed > 0 && DeskInv(d, owed)
    ensures RefundedOnce(d) <==> CouldSend(d) <= 1
  {
    if CouldSend(d) <= 1 {
      forall cs: seq<Section> | Schedule(d, cs) && Finishing(cs) ensures |After(d, cs).transfers| <= 1 {
        AtMostCouldSend(d, owed, cs);
      }
    } else {
      DrainSends(d, owed);
    }
  }

  /** Pending with at most one settler under way, or settled for what was sent with none. */
  predicate Calm(d: Desk) {
    if d.settle.Pending? then UnderWay(d) <= 1 else UnderWay(d) == 0 && d.refunded == Sum(d.transfers)
  }

  lemma SumOfTransfers(transfers: seq<nat>, owed: nat)
    requires forall i | 0 <= i < |transfers| :: transfers[i] == owed
    ensures |transfers| == 0 ==> Sum(transfers) == 0
    ensures |transfers| == 1 ==> Sum(transfers) == owed
    ensures |transfers| >= 2 ==> Sum(transfers) >= owed + owed
  {
    if |transfers| >= 1 {
      assert Sum(transfers) == transfers[0] + Sum(transfers[1..]);
    }
    if |transfers| >= 2 {
      assert Sum(transfers[1..]) == transfers[1] + Sum(transfers[1..][1..]);
    }
  }

  lemma CalmSend(d: Desk, owed: nat, a: nat, refund: Sessions.Refund)
    requires owed > 0 && DeskInv(d, owed) && Calm(d) && a in d.holding
    ensures Calm(Do(d, Send(a, refund)))
  {
    assert |d.holding| == 1;
  }

  lemma CalmMark(d: Desk, owed: nat, a: nat)
    requires owed > 0 && DeskInv(d, owed) && Calm(d) && a in d.marking
    ensures Calm(Do(d, Mark(a)))
  {
    assert |d.marking| == 1;
    SumOfTransfers(d.transfers, owed);
  }

  lemma CalmStays(d: Desk, owed: nat, c: Section)
    requires owed > 0 && DeskInv(d, owed) && Calm(d) && Enabled(d, c)
    requires c.Check? && d.settle.Pending? ==> UnderWay(d) == 0
    ensures Calm(Do(d, c))
  {
    match c
    case Check =>
    case Read =>
    case Send(a, refund) => CalmSend(d, owed, a, refund);
    case Mark(a) => CalmMark(d, owed, a);
  }

  lemma {:induction false} CalmEndsWell(d: Desk, owed: nat, cs: seq<Section>)
    requires owed > 0 && DeskInv(d, owed) && Calm(d) && Schedule(d, cs) && Finishing(cs)
    ensures DeskInv(After(d, cs), owed) && Calm(After(d, cs))
    decreases |cs|
  {
    if cs != [] {
      StepKeeps(d, owed, cs[0]);
      CalmStays(d, owed, cs[0]);
      CalmEndsWell(Do(d, cs[0]), owed, cs[1..]);
    }
  }

  lemma CalmAndIdle(d: Desk, owed: nat)
    requires DeskInv(d, owed) && Calm(d) && UnderWay(d) == 0
    ensures d.refunded == Sum(d.transfers)
  {
    SumOfTransfers(d.transfers, owed);
  }

  /** From any point, the record comes out right however those under way go on exactly when all is calm. */
  lemma RefundedIsSentIff(d: Desk, owed: nat)
    requires owed > 0 && DeskInv(d, owed)
    ensures RefundedIsSent(d) <==> Calm(d)
  {
    if Calm(d) {
      forall cs: seq<Section> | Schedule(d, cs) && Finishing(cs) && UnderWay(After(d, cs)) == 0
        ensures After(d, cs).refunded == Sum(After(d, cs).transfers)
      {
        CalmEndsWell(d, owed, cs);
        CalmAndIdle(After(d, cs), owed);
      }
    } else {
      NotCalmEndsBadly(d, owed);
    }
  }

  lemma NotCalmEndsBadly(d: Desk, owed: nat)
    requires owed > 0 && DeskInv(d, owed) && !Calm(d)
    ensures var cs := Drain(d, owed);
      Schedule(d, cs) && Finishing(cs) && UnderWay(After(d, cs)) == 0 && After(d, cs).refunded != Sum(After(d, cs).transfers)
  {
    DrainSends(d, owed);
    SumOfTransfers(d.transfers, owed);
    SumOfTransfers(After(d, Drain(d, owed)).transfers, owed);
    if CouldSend(d) <= 1 && UnderWay(d) > 0 {
      DrainMarksNothing(d, owed);
    }
  }

  // ---- Over whole schedules ----

  /** No second settler checks between another's check and its mark. */
  predicate OneAtATime(d: Desk, cs: seq<Section>)
    requires Schedule(d, cs)
    decreases |cs|
  {
    cs == [] ||
    ((cs[0].Check? && d.settle.Pending? ==> UnderWay(d) == 0) && OneAtATime(Do(d, cs[0]), cs[1..]))
  }

  /** At every point of the schedule, however those then under way go on. */
  ghost predicate AlwaysRefundedOnce(d: Desk, cs: seq<Section>)
    requires Schedule(d, cs)
    decreases |cs|
  {
    RefundedOnce(d) && (cs == [] || AlwaysRefundedOnce(Do(d, cs[0]), cs[1..]))
  }

  ghost predicate AlwaysRefundedIsSent(d: Desk, cs: seq<Section>)
    requires Schedule(d, cs)
    decreases |cs|
  {
    RefundedIsSent(d) && (cs == [] || AlwaysRefundedIsSent(Do(d, cs[0]), cs[1..]))
  }

  lemma {:induction false} FromCalm(d: Desk, owed: nat, cs: seq<Section>)
    requires owed > 0 && DeskInv(d, owed) && Calm(d) && Schedule(d, cs)
    ensures AlwaysRefundedOnce(d, cs) <==> OneAtATime(d, cs)
    ensures AlwaysRefundedIsSent(d, cs) <==> OneAtATime(d, cs)
    decreases |cs|
  {
    CalmSendsOnce(d, owed);
    RefundedOnceIff(d, owed);
    RefundedIsSentIff(d, owed);
    if cs != [] {
      var after := Do(d, cs[0]);
      StepKeeps(d, owed, cs[0]);
      if cs[0].Check? && d.settle.Pending? && UnderWay(d) > 0 {
        RefundedOnceIff(after, owed);
        RefundedIsSentIff(after, owed);
      } else {
        CalmStays(d, owed, cs[0]);
        FromCalm(after, owed, cs[1..]);
      }
    }
  }

  lemma CalmSendsOnce(d: Desk, owed: nat)
    requires owed > 0 && DeskInv(d, owed) && Calm(d)
    ensures CouldSend(d) <= 1
  {
    SumOfTransfers(d.transfers, owed);
  }

  /**
   * A session that owes something is sure to be refunded at most once, whatever the transfers and
   * however the settlers interleave, exactly when no second settler checks its state between
   * another's check and its mark; and only then is what it says it refunded sure to be what was sent.
   */
  lemma SettledOnceIffOneAtATime(owed: nat, cs: seq<Section>)
    requires owed > 0 && Schedule(Ended(owed), cs)
    ensures AlwaysRefundedOnce(Ended(owed), cs) <==> OneAtATime(Ended(owed), cs)
    ensures AlwaysRefundedIsSent(Ended(owed), cs) <==> OneAtATime(Ended(owed), cs)
  {
    FromCalm(Ended(owed), owed, cs);
  }

  /** A session that owes nothing is never refunded anything. */
  lemma {:induction false} NothingOwedNothingSent(d: Desk, cs: seq<Section>)
    requires Schedule(d, cs) && d.credit == 0 && d.refunded == 0 && |d.holding| == 0
    requires d.transfers == [] && forall a | a in d.marking :: a == 0
    ensures After(d, cs).transfers == [] && After(d, cs).refunded == 0
    decreases |cs|
  {
    if cs != [] {
      assert !cs[0].Send?;
      NothingOwedNothingSent(Do(d, cs[0]), cs[1..]);
    }
  }

  // ---- What the closing messages say ----

  function SaidSent(closings: seq<Closing>): multiset<nat> {
    if closings == [] then
      multiset{}
    else
      var last := closings[|closings| - 1];
      SaidSent(closings[..|closings| - 1]) + if last.transferred then multiset{last.refund} else multiset{}
  }

  /** Every transfer made is announced, or will be by whoever is to mark it. */
  ghost predicate Accounted(d: Desk) {
    multiset(d.transfers) == SaidSent(d.closings) + d.marking[0 := 0] && 0 !in d.holding
  }

  lemma SaidMore(closings: seq<Closing>, m: Closing)
    ensures SaidSent(closings + [m]) == SaidSent(closings) + if m.transferred then multiset{m.refund} else multiset{}
  {
    assert (closings + [m])[..|closings|] == closings;
  }

  function OneIf(a: nat): multiset<nat> {
    if a > 0 then multiset{a} else multiset{}
  }

  lemma OneMoreToMark(all: multiset<nat>, said: multiset<nat>, marking: multiset<nat>, a: nat)
    requires all == said + marking[0 := 0]
    ensures all + OneIf(a) == said + (marking + multiset{a})[0 := 0]
  {
  }

  lemma OneLessToMark(all: multiset<nat>, said: multiset<nat>, marking: multiset<nat>, a: nat)
    requires a in marking && all == said + marking[0 := 0]
    ensures all == (said + OneIf(a)) + (marking - multiset{a})[0 := 0]
  {
  }

  lemma AccountedRead(d: Desk)
    requires Accounted(d) && d.checked > 0
    ensures Accounted(Do(d, Read))
  {
    OneMoreToMark(multiset(d.transfers), SaidSent(d.closings), d.marking, 0);
  }

  lemma AccountedSend(d: Desk, owed: nat, refund: Sessions.Refund)
    requires Accounted(d) && owed in d.holding
    ensures Accounted(Do(d, Send(owed, refund)))
  {
    match refund
    case NoSidecar => SaidMore(d.closings, Closing(owed, false));
    case TransferFailed =>
    case TransferPaid =>
      OneMoreToMark(multiset(d.transfers), SaidSent(d.closings), d.marking, owed);
      assert multiset(d.transfers + [owed]) == multiset(d.transfers) + OneIf(owed);
  }

  lemma AccountedMark(d: Desk, owed: nat)
    requires Accounted(d) && owed in d.marking
    ensures Accounted(Do(d, Mark(owed)))
  {
    SaidMore(d.closings, Closing(owed, owed > 0));
    OneLessToMark(multiset(d.transfers), SaidSent(d.closings), d.marking, owed);
    assert SaidSent(Do(d, Mark(owed)).closings) == SaidSent(d.closings) + OneIf(owed);
  }

  lemma AccountedStep(d: Desk, c: Section)
    requires Accounted(d) && Enabled(d, c)
    ensures Accounted(Do(d, c))
  {
    match c
    case Check =>
    case Read => AccountedRead(d);
    case Send(owed, refund) => AccountedSend(d, owed, refund);
    case Mark(owed) => AccountedMark(d, owed);
  }

  /**
   * Whatever the record says, the closing messages do not lie: in every schedule, once nobody is
   * under way, the transfers they announce are exactly those made.
   */
  lemma {:induction false} ClosingsSayWhatWasSent(d: Desk, cs: seq<Section>)
    requires Accounted(d) && Schedule(d, cs)
    ensures Accounted(After(d, cs))
    ensures UnderWay(After(d, cs)) == 0 ==> multiset(After(d, cs).transfers) == SaidSent(After(d, cs).closings)
    decreases |cs|
  {
    if cs == [] {
      assert |d.marking| == 0 ==> d.marking[0 := 0] == multiset{};
    } else {
      AccountedStep(d, cs[0]);
      ClosingsSayWhatWasSent(Do(d, cs[0]), cs[1..]);
    }
  }

  // ---- One settler by itself ----

  function Solo(owed: nat, refund: Sessions.Refund): seq<Section> {
    [Check] + ([Read] + AfterReading(owed, refund))
  }

  function AfterReading(owed: nat, refund: Sessions.Refund): seq<Section> {
    if owed == 0 then [Mark(0)]
    else [Send(owed, refund)] + if refund.TransferPaid? then [Mark(owed)] else []
  }

  /** What a schedule from a state comes to. */
  ghost predicate ComesTo(d: Desk, cs: seq<Section>, end: Desk) {
    Schedule(d, cs) && After(d, cs) == end
  }

  lemma ComesToOne(d: Desk, c: Section)
    requires Enabled(d, c)
    ensures ComesTo(d, [c], Do(d, c))
  {
    FirstThen(d, c, []);
    assert [c] + [] == [c];
  }

  lemma ComesToStep(d: Desk, c: Section, cs: seq<Section>, end: Desk)
    requires Enabled(d, c) && ComesTo(Do(d, c), cs, end)
    ensures ComesTo(d, [c] + cs, end)
  {
    FirstThen(d, c, cs);
  }

  /** The closing message as it is published. */
  function Said(m: Sessions.Audit): Option<Closing> {
    if m.Closed? then Some(Closing(m.refund, m.transferred)) else None
  }

  /** What one settler, undisturbed, makes of a session that owes this much. */
  function SoloEnd(owed: nat, refund: Sessions.Refund): Desk {
    var d := Ended(owed);
    if owed == 0 then d.(settle := Done, closings := [Closing(0, false)])
    else
      match refund
      case NoSidecar => d.(closings := [Closing(owed, false)])
      case TransferFailed => d
      case TransferPaid =>
        d.(settle := Done, credit := 0, refunded := owed, transfers := [owed], closings := [Closing(owed, true)])
  }

  /** With the check and the reading behind it. */
  function HasRead(owed: nat): Desk {
    if owed == 0 then Ended(owed).(marking := multiset{0}) else Ended(owed).(holding := multiset{owed})
  }

  lemma ReadingComesTo(owed: nat, cs: seq<Section>, end: Desk)
    requires ComesTo(HasRead(owed), cs, end)
    ensures ComesTo(Ended(owed), [Check] + ([Read] + cs), end)
  {
    var checked := Ended(owed).(checked := 1);
    assert multiset{} + multiset{owed} == multiset{owed};
    assert Do(checked, Read) == HasRead(owed);
    ComesToStep(checked, Read, cs, end);
    ComesToStep(Ended(owed), Check, [Read] + cs, end);
  }

  lemma SendingComesTo(owed: nat, refund: Sessions.Refund)
    requires owed > 0
    ensures ComesTo(HasRead(owed), AfterReading(owed, refund), SoloEnd(owed, refund))
  {
    var sent := Do(HasRead(owed), Send(owed, refund));
    assert multiset{} + multiset{owed} == multiset{owed} && multiset{owed} - multiset{owed} == multiset{};
    if refund.TransferPaid? {
      ComesToOne(sent, Mark(owed));
      ComesToStep(HasRead(owed), Send(owed, refund), [Mark(owed)], SoloEnd(owed, refund));
    } else {
      ComesToOne(HasRead(owed), Send(owed, refund));
      assert [Send(owed, refund)] + [] == [Send(owed, refund)];
    }
  }

  lemma SoloComesTo(owed: nat, refund: Sessions.Refund)
    ensures ComesTo(Ended(owed), Solo(owed, refund), SoloEnd(owed, refund))
  {
    if owed == 0 {
      assert multiset{owed} - multiset{owed} == multiset{};
      ComesToOne(HasRead(owed), Mark(0));
    } else {
      SendingComesTo(owed, refund);
    }
    ReadingComesTo(owed, AfterReading(owed, refund), SoloEnd(owed, refund));
  }

  /** Undisturbed, its sections do to a finished session just what the one step of a run does. */
  lemma SoloIsOneStep(id: Sessions.Id, s: Sessions.Session, refund: Sessions.Refund)
    requires s.ledger.metered && s.ledger.settle.Pending? && s.ledger.refunded == 0
    ensures var owed := s.ledger.credit; var t := Sessions.SettleSession(id, s, refund);
      && Schedule(Ended(owed), Solo(owed, refund))
      && var d := After(Ended(owed), Solo(owed, refund)); var l := t.session.ledger;
         && d.settle == l.settle && d.credit == l.credit && d.refunded == l.refunded
         && t.session.book.transfers == s.book.transfers + d.transfers
         && |t.published| == |d.closings| <= 1
         && (d.closings != [] ==> Said(t.published[0]) == Some(d.closings[0]))
  {
    SoloComesTo(s.ledger.credit, refund);
  }
}

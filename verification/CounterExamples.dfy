/**
 * Inputs on which the code does something other than its comments and documentation say. The
 * exact conditions are proved beside each part; here is one concrete case of each.
 */
module CounterExamples {
  import opened Common
  import opened Decimal
  import opened Metering
  import opened LeaseConfig
  import opened Sessions
  import opened OpeningLaws
  import opened AuditTopic
  import opened AuditDelivery
  import opened NodeRuns
  import opened SessionTurns
  import opened SessionTheorems
  import opened Purchases
  import opened ReceiptLog
  import opened ReceiptText
  import opened Earnings
  import Settling = SettleSections
  import Slot = LeaseSlot

  // ---- A session that has just begun ----

  /** The default block, switched on, at a tinybar a second in five-minute chunks. */
  const CONFIG := DEFAULT_LEASES.(enabled := true, pricePerSecond := "1", chunkSeconds := 300)

  const TERMS := Terms(true, 5, 120, 1440, 10, 300, 60, Some(1))

  lemma NumbersParse()
    ensures ParseUint64("200000") == Some(200000) && ParseUint64("0") == Some(0) && ParseUint64("1") == Some(1)
  {
    assert Print(200000) == "200000";
    assert Print(0) == "0";
    assert Print(1) == "1";
    ParsePrinted(200000);
    ParsePrinted(0);
    ParsePrinted(1);
  }

  lemma TermsOfAcceptedConfig()
    ensures Running(CONFIG) && TermsOf(CONFIG) == TERMS && Sound(TERMS)
  {
    NumbersParse();
    Uint64IsBigInt("1");
    RunningTermsAreSound(CONFIG);
  }

  /** A node that has just opened a ten-minute session, and so holds one chunk of it. */
  function JustOpened(): Node {
    Step(TERMS, Fresh(0), Ask(0, 7, 600))
  }

  lemma JustOpenedIsReached()
    ensures Sound(TERMS) && Reached(TERMS, JustOpened()) && Live(JustOpened(), 7) && JustOpened().clock == 0
    ensures var l := JustOpened().sessions[7].ledger;
      l.metered && l.price == 1 && l.credit == 300 && l.burned == 0 && l.sessionSeconds == 600 && l.lastTickAt == 0
  {
    SessionsAreReached(TERMS, 0, 7, 600);
    ReachedSession(TERMS, JustOpened(), 7);
  }

  // ---- The meter ----

  /** On that session two ticks a second and a half apart charge two seconds where one tick charges three. */
  lemma FractionsAreLost()
    ensures Live(JustOpened(), 7)
    ensures var l := JustOpened().sessions[7].ledger;
      l.Burn(3 * SECOND / 2).Burn(3 * SECOND).burned == 2 && l.Burn(3 * SECOND).burned == 3
  {
    JustOpenedIsReached();
    TwoTicks(JustOpened().sessions[7].ledger);
  }

  lemma TwoTicks(l: Ledger)
    requires l.metered && l.price == 1 && l.credit == 300 && l.burned == 0 && l.lastTickAt == 0
    ensures l.Burn(3 * SECOND / 2).Burn(3 * SECOND).burned == 2 && l.Burn(3 * SECOND).burned == 3
  {
    BurnMoney(l, 3 * SECOND / 2);
    BurnMoney(l.Burn(3 * SECOND / 2), 3 * SECOND);
    BurnMoney(l, 3 * SECOND);
  }

  /** A reading a second before its last tick leaves its expiry a second too late for the credit. */
  lemma EarlyReadingUnsyncs()
    ensures Live(JustOpened(), 7)
    ensures var l := JustOpened().sessions[7].ledger.Burn(0 - SECOND);
      l.expiresAt == 300 * SECOND && l.lastTickAt + l.SecondsRemaining() * SECOND == 299 * SECOND
  {
    JustOpenedIsReached();
    ExpiryFollowsCredit(TERMS, JustOpened(), 7);
  }

  // ---- The audit topic ----

  lemma FirstMessage(cfg: Terms, now: int, id: Id, seconds: int)
    requires Sound(cfg) && LengthAccepted(cfg, seconds) && cfg.price.Some?
    ensures var n := Step(cfg, Fresh(now), Ask(now, id, seconds));
      && id in n.sessions && n.sessions[id].ledger.status == Active
      && n.handed == [FundedMessage(id, n.sessions[id].ledger.credit, n.sessions[id].ledger)]
  {
    var ask := Ask(now, id, seconds);
    AcceptedLengthsOpen(cfg, seconds, now, ask.action.env);
    FailedOpeningsLeaveNothing(cfg, false, false, seconds, now, ask.action.env);
  }

  lemma NextMessage(cfg: Terms, n: Node, at: int, id: Id)
    requires Sound(cfg) && NodeInv(cfg, n) && Live(n, id) && n.sessions[id].ledger.status == Active && n.clock <= at
    ensures var l, after := n.sessions[id].ledger.Burn(at), Step(cfg, n, Event(at, Sweep(TransferPaid)));
      n.handed + [Burnt(id, l.burned, l.credit, l.price, ElapsedSeconds(l))] <= after.handed
  {
    AdvanceKeeps(cfg, n, at);
  }

  /** JustOpened, swept fifteen seconds later. */
  function Swept(): Node {
    Step(TERMS, JustOpened(), Event(15 * SECOND, Sweep(TransferPaid)))
  }

  /**
   * If the opening's message is lost, or only comes after the burn's, the topic has three hundred
   * tinybars split and none of them announced before.
   */
  lemma OpeningLostOrLate()
    ensures Sound(TERMS) && Reached(TERMS, Swept()) && |Swept().handed| >= 2
    ensures Delivery([1], Swept().handed) && Delivery([1, 0], Swept().handed)
    ensures Topic([1], Swept().handed) == [Burnt(7, 15, 285, 1, 15)] && !Balanced(Topic([1], Swept().handed))
    ensures Topic([1, 0], Swept().handed) == [Burnt(7, 15, 285, 1, 15), Opened(7, 300, 300, 1, 300)]
    ensures !Balanced(Topic([1, 0], Swept().handed))
  {
    JustOpenedIsReached();
    OneMoreStep(TERMS, JustOpened(), Event(15 * SECOND, Sweep(TransferPaid)));
    FirstTwoMessages();
    LostOrLate(Swept().handed);
  }

  lemma LostOrLate(handed: seq<Audit>)
    requires |handed| >= 2 && handed[0] == Opened(7, 300, 300, 1, 300) && handed[1] == Burnt(7, 15, 285, 1, 15)
    ensures Topic([1], handed) == [handed[1]] && !Balanced(Topic([1], handed))
    ensures Topic([1, 0], handed) == [handed[1], handed[0]] && !Balanced(Topic([1, 0], handed))
  {
    BurnComesFirst(Topic([1], handed), []);
    BurnComesFirst(Topic([1, 0], handed), [handed[0]]);
  }

  lemma FirstTwoMessages()
    ensures |Swept().handed| >= 2
    ensures Swept().handed[0] == Opened(7, 300, 300, 1, 300) && Swept().handed[1] == Burnt(7, 15, 285, 1, 15)
  {
    JustOpenedIsReached();
    ReachedKept(TERMS, JustOpened());
    FirstMessage(TERMS, 0, 7, 600);
    FifteenSeconds(JustOpened().sessions[7].ledger);
    SecondMessage(TERMS, JustOpened(), 15 * SECOND, 7, JustOpened().handed[0]);
  }

  lemma SecondMessage(cfg: Terms, n: Node, at: int, id: Id, first: Audit)
    requires Sound(cfg) && NodeInv(cfg, n) && Live(n, id) && n.sessions[id].ledger.status == Active && n.clock <= at
    requires n.handed == [first]
    ensures var l, after := n.sessions[id].ledger.Burn(at), Step(cfg, n, Event(at, Sweep(TransferPaid)));
      && |after.handed| >= 2 && after.handed[0] == first
      && after.handed[1] == Burnt(id, l.burned, l.credit, l.price, ElapsedSeconds(l))
  {
    NextMessage(cfg, n, at, id);
  }

  lemma FifteenSeconds(l: Ledger)
    requires l.metered && l.price == 1 && l.credit == 300 && l.burned == 0 && l.lastTickAt == 0
    ensures var b := l.Burn(15 * SECOND);
      b.burned == 15 && b.credit == 285 && b.price == 1 && ElapsedSeconds(b) == 15 && l.SecondsRemaining() == 300
  {
    BurnMoney(l, 15 * SECOND);
  }

  lemma {:induction false} BurnComesFirst(topic: seq<Audit>, rest: seq<Audit>)
    requires topic == [Burnt(7, 15, 285, 1, 15)] + rest
    ensures !Balanced(topic)
    decreases |rest|
  {
    if rest == [] {
      assert topic[..0] == [];
    } else {
      assert topic[..|rest|] == [Burnt(7, 15, 285, 1, 15)] + rest[..|rest| - 1];
      BurnComesFirst(topic[..|rest|], rest[..|rest| - 1]);
    }
  }

  // ---- Held money and refunds ----

  /** A top-up at once takes what the node holds to two chunks. */
  lemma EarlyTopUpHoldsTwoChunks()
    ensures 7 in Step(TERMS, JustOpened(), Event(0, Renew(7, true, PAID))).sessions
    ensures Step(TERMS, JustOpened(), Event(0, Renew(7, true, PAID))).sessions[7].ledger.credit > TERMS.chunkSeconds * 1
  {
    JustOpenedIsReached();
    OneChunkIsExceededIff(TERMS, JustOpened(), 0, 7);
  }

  /** A stop whose transfer fails, and then a sweep whose transfer would go through. */
  function StopThenSweep(at: int, id: Id, later: int): seq<Event> {
    [Event(at, Stop(id, true, TransferFailed)), Event(later, Sweep(TransferPaid))]
  }

  /** Whatever is owed at the stop is still owed, whole, after the sweep. */
  lemma SweepSendsNothing(cfg: Terms, n: Node, id: Id, later: int)
    requires Sound(cfg) && Reached(cfg, n) && Live(n, id) && n.clock <= later
    requires Owed(n.sessions[id].ledger, n.clock) > 0
    ensures id in Run(cfg, n, StopThenSweep(n.clock, id, later)).sessions
    ensures var after := Run(cfg, n, StopThenSweep(n.clock, id, later)).sessions[id];
      && after.ledger.settle == Pending && after.ledger.credit == Owed(n.sessions[id].ledger, n.clock)
      && after.book.transfers == []
  {
    var es := StopThenSweep(n.clock, id, later);
    var stopped := Step(cfg, n, es[0]);
    StopEnds(cfg, n, id);
    assert LegalRun(cfg, stopped, es[1..]) by {
      assert es[1..][1..] == [];
    }
    SettledOnceOrNever(cfg, n, es[0], id, es[1..]);
  }

  lemma StopEnds(cfg: Terms, n: Node, id: Id)
    requires Sound(cfg) && Reached(cfg, n) && Live(n, id)
    ensures var stopped := Step(cfg, n, Event(n.clock, Stop(id, true, TransferFailed)));
      !Live(stopped, id) && stopped.clock == n.clock
  {
    ReachedKept(cfg, n);
    var stop := Event(n.clock, Stop(id, true, TransferFailed));
    StepOnLiveSession(cfg, n, stop, id);
    StopSettles(cfg, id, Advance(n, n.clock).sessions[id], TransferFailed, n.clock);
  }

  /** The renter stops at once, owed five minutes; fifteen seconds later the sweep sends nothing. */
  lemma FailedRefundIsNotRetried()
    ensures var after := Run(TERMS, JustOpened(), StopThenSweep(0, 7, 15 * SECOND)).sessions;
      && 7 in after && after[7].ledger.settle == Pending && after[7].ledger.credit == 300 && after[7].book.transfers == []
  {
    JustOpenedIsReached();
    SweepSendsNothing(TERMS, JustOpened(), 7, 15 * SECOND);
  }

  const SENDING: Settling.Section := Settling.Send(300, TransferPaid)

  /** Two settlers who both check before either has marked; both then read three hundred and send it. */
  const BOTH_SEND: seq<Settling.Section> :=
    [Settling.Check] + ([Settling.Check] + ([Settling.Read] + ([Settling.Read] + ([SENDING] + [SENDING]))))

  lemma RefundedTwice()
    ensures Settling.Schedule(Settling.Ended(300), BOTH_SEND)
    ensures Settling.After(Settling.Ended(300), BOTH_SEND).transfers == [300, 300]
  {
    var d := Settling.Ended(300);
    var first := Settling.Do(d, Settling.Check);
    var checked := Settling.Do(first, Settling.Check);
    var one := Settling.Do(checked, Settling.Read);
    var both := Settling.Do(one, Settling.Read);
    var sent := Settling.Do(both, SENDING);
    var end := Settling.Do(sent, SENDING);
    Settling.ComesToOne(sent, SENDING);
    Settling.ComesToStep(both, SENDING, [SENDING], end);
    Settling.ComesToStep(one, Settling.Read, [SENDING] + [SENDING], end);
    Settling.ComesToStep(checked, Settling.Read, [Settling.Read] + ([SENDING] + [SENDING]), end);
    Settling.ComesToStep(first, Settling.Check, [Settling.Read] + ([Settling.Read] + ([SENDING] + [SENDING])), end);
    Settling.ComesToStep(d, Settling.Check,
                         [Settling.Check] + ([Settling.Read] + ([Settling.Read] + ([SENDING] + [SENDING]))), end);
  }

  /** One settler checks, another settles in full, and the first then reads an empty credit and marks that. */
  const LATE_READ: seq<Settling.Section> := [Settling.Read] + [Settling.Mark(0)]
  const ONE_LATE: seq<Settling.Section> :=
    [Settling.Check] + ([Settling.Check] + ([Settling.Read] + ([SENDING] + ([Settling.Mark(300)] + LATE_READ))))

  /** Three hundred were sent, and the session says that nothing was, in a second closing message too. */
  lemma RefundForgotten()
    ensures Settling.Schedule(Settling.Ended(300), ONE_LATE)
    ensures var d := Settling.After(Settling.Ended(300), ONE_LATE);
      && d.transfers == [300] && d.settle == Done && d.refunded == 0
      && d.closings == [Settling.Closing(300, true), Settling.Closing(0, false)]
  {
    var d := Settling.Ended(300);
    var first := Settling.Do(d, Settling.Check);
    var checked := Settling.Do(first, Settling.Check);
    var one := Settling.Do(checked, Settling.Read);
    var sent := Settling.Do(one, SENDING);
    var marked := Settling.Do(sent, Settling.Mark(300));
    var late := Settling.Do(marked, Settling.Read);
    var end := Settling.Do(late, Settling.Mark(0));
    Settling.ComesToOne(late, Settling.Mark(0));
    Settling.ComesToStep(marked, Settling.Read, [Settling.Mark(0)], end);
    Settling.ComesToStep(sent, Settling.Mark(300), LATE_READ, end);
    Settling.ComesToStep(one, SENDING, [Settling.Mark(300)] + LATE_READ, end);
    Settling.ComesToStep(checked, Settling.Read, [SENDING] + ([Settling.Mark(300)] + LATE_READ), end);
    Settling.ComesToStep(first, Settling.Check, [Settling.Read] + ([SENDING] + ([Settling.Mark(300)] + LATE_READ)), end);
    Settling.ComesToStep(d, Settling.Check,
                         [Settling.Check] + ([Settling.Read] + ([SENDING] + ([Settling.Mark(300)] + LATE_READ))), end);
  }

  /** An eviction that comes after the opening has been paid for and before it is metered. */
  const CLOSING: seq<Slot.Section> := [Slot.Release(7)] + ([Slot.Settle(7, true)] + [Slot.Meter(7)])
  const STOPPING: seq<Slot.Section> := [Slot.Check(7, Slot.Eviction)] + ([Slot.MarkOver(7, Stopped)] + CLOSING)
  const EVICTING: seq<Slot.Section> := [Slot.LookUp(7, Slot.Eviction)] + STOPPING
  const EVICTED_WHILE_OPENING: seq<Slot.Section> :=
    [Slot.Claim(7)] + ([Slot.FinishProvisioning(7)] + ([Slot.Pay(7)] + EVICTING))

  /** Where one lease stands, and what these sections make of it. */
  predicate Stands(s: Slot.Slots, slot: Option<Slot.Id>, lease: Slot.Lease, flight: Slot.Flight) {
    s.slot == slot && Slot.Known(s, 7) && s.leases[7] == lease && s.flight[7] == flight
  }

  predicate Strands(s: Slot.Slots, cs: seq<Slot.Section>) {
    Slot.Schedule(s, cs) && Slot.Stranded(Slot.After(s, cs), 7)
  }

  lemma StrandsStep(s: Slot.Slots, c: Slot.Section, cs: seq<Slot.Section>)
    requires Slot.Enabled(s, c) && Strands(Slot.Do(s, c), cs)
    ensures Strands(s, [c] + cs)
  {
    Slot.FirstThen(s, c, cs);
  }

  lemma MeterStrands(s: Slot.Slots)
    requires Stands(s, None, Slot.Lease(Stopped, NotApplicable), Slot.Alone(Slot.Paid))
    ensures Strands(s, [Slot.Meter(7)])
  {
    StrandsStep(s, Slot.Meter(7), []);
    assert [Slot.Meter(7)] + [] == [Slot.Meter(7)];
  }

  lemma SettleStrands(s: Slot.Slots)
    requires Stands(s, None, Slot.Lease(Stopped, NotApplicable), Slot.Alone(Slot.Paid).(settling := 1))
    ensures Strands(s, [Slot.Settle(7, true)] + [Slot.Meter(7)])
  {
    MeterStrands(Slot.Do(s, Slot.Settle(7, true)));
    StrandsStep(s, Slot.Settle(7, true), [Slot.Meter(7)]);
  }

  lemma ReleaseStrands(s: Slot.Slots)
    requires Stands(s, Some(7), Slot.Lease(Stopped, NotApplicable), Slot.Alone(Slot.Paid).(releases := 1, settling := 1))
    ensures Strands(s, CLOSING)
  {
    SettleStrands(Slot.Do(s, Slot.Release(7)));
    StrandsStep(s, Slot.Release(7), [Slot.Settle(7, true)] + [Slot.Meter(7)]);
  }

  lemma MarkStrands(s: Slot.Slots)
    requires Stands(s, Some(7), Slot.Lease(Active, NotApplicable), Slot.Alone(Slot.Paid).(ending := 1))
    ensures Strands(s, [Slot.MarkOver(7, Stopped)] + CLOSING)
  {
    ReleaseStrands(Slot.Do(s, Slot.MarkOver(7, Stopped)));
    StrandsStep(s, Slot.MarkOver(7, Stopped), CLOSING);
  }

  lemma CheckStrands(s: Slot.Slots)
    requires Stands(s, Some(7), Slot.Lease(Active, NotApplicable), Slot.Alone(Slot.Paid).(evictions := 1))
    ensures Strands(s, STOPPING)
  {
    MarkStrands(Slot.Do(s, Slot.Check(7, Slot.Eviction)));
    StrandsStep(s, Slot.Check(7, Slot.Eviction), [Slot.MarkOver(7, Stopped)] + CLOSING);
  }

  lemma LookUpStrands(s: Slot.Slots)
    requires Stands(s, Some(7), Slot.Lease(Active, NotApplicable), Slot.Alone(Slot.Paid))
    ensures Strands(s, EVICTING)
  {
    CheckStrands(Slot.Do(s, Slot.LookUp(7, Slot.Eviction)));
    StrandsStep(s, Slot.LookUp(7, Slot.Eviction), STOPPING);
  }

  lemma PayStrands(s: Slot.Slots)
    requires Stands(s, Some(7), Slot.Lease(Active, NotApplicable), Slot.Alone(Slot.Publishing))
    ensures Strands(s, [Slot.Pay(7)] + EVICTING)
  {
    LookUpStrands(Slot.Do(s, Slot.Pay(7)));
    StrandsStep(s, Slot.Pay(7), EVICTING);
  }

  /** The renter's settled payment becomes credit on a lease that is over, and no later section sends it back. */
  lemma PaidIntoNothing(later: seq<Slot.Section>)
    ensures Strands(Slot.EMPTY, EVICTED_WHILE_OPENING)
    ensures !Slot.Refunds(Slot.After(Slot.EMPTY, EVICTED_WHILE_OPENING), later, 7)
  {
    var claimed := Slot.Do(Slot.EMPTY, Slot.Claim(7));
    PayStrands(Slot.Do(claimed, Slot.FinishProvisioning(7)));
    StrandsStep(claimed, Slot.FinishProvisioning(7), [Slot.Pay(7)] + EVICTING);
    StrandsStep(Slot.EMPTY, Slot.Claim(7), [Slot.FinishProvisioning(7)] + ([Slot.Pay(7)] + EVICTING));
    NothingRefunds(Slot.After(Slot.EMPTY, EVICTED_WHILE_OPENING), later);
  }

  lemma NothingRefunds(s: Slot.Slots, later: seq<Slot.Section>)
    requires Slot.Stranded(s, 7)
    ensures !Slot.Refunds(s, later, 7)
  {
    if Slot.Refunds(s, later, 7) {
      Slot.RefundableIffNotStranded(s, 7);
    }
  }

  // ---- Configuration ----

  /** A block a node runs with whose longest session is a minute. */
  const ONE_MINUTE := DEFAULT_LEASES.(enabled := true, minMinutes := 1, maxMinutes := 1,
                                      chunkSeconds := 60, lowCreditSeconds := 30)

  /** Left to the defaults for its session fields, such a node does not start. */
  lemma OneMinuteNodeNeedsAThreshold()
    ensures Running(ONE_MINUTE)
    ensures Validate(WithDefaults(ONE_MINUTE.(chunkSeconds := 0, lowCreditSeconds := 0))) == Some(ThresholdNotBelowChunk)
  {
    NumbersParse();
    UnsetSessionFieldsLoadIff(ONE_MINUTE);
  }

  /** A per-second price of "0" is accepted, and sells time for nothing. */
  lemma ZeroPriceIsAccepted()
    ensures var l := ONE_MINUTE.(pricePerSecond := "0"); Running(l) && SessionPrice(l) == Success(0)
  {
    NumbersParse();
    Uint64IsBigInt("0");
  }

  // ---- The receipt log ----

  /** A receipt of that much. */
  function ReceiptFor(amount: nat): Receipt {
    Receipt(Ascii("lease"), Ascii("paid"), Ascii("0.0.7"), Ascii("0.0.8"), Ascii(Print(amount)), Ascii("0.0.0"),
            Ascii("hedera:testnet"), Ascii("2026-01-01T00:00:00Z"))
  }

  /**
   * A receipt for sixty tinybars is written but for its newline, and the node restarts. It is there
   * to read, and the earnings are sixty; then a payment of ninety settles, and they are nothing.
   */
  lemma SettlingLosesBothReceipts()
    ensures Earned(Decoded(Lines(Line(ReceiptFor(60))), AmountIn)) == 60
    ensures Earned(Decoded(Lines(Line(ReceiptFor(60)) + Line(ReceiptFor(90)) + [NEWLINE]), AmountIn)) == 0
  {
    var first, next := ReceiptFor(60), ReceiptFor(90);
    AmountsAreSafe(first, 60, next);
    AmountsAreSafe(next, 90, next);
    LastLineCounts(Line(first), 60, Line(next), 90);
  }

  lemma LastLineCounts(first: seq<Byte>, amount: nat, next: seq<Byte>, more: nat)
    requires NewlineFree(first) && NewlineFree(next) && first != [] && next != []
    requires AmountIn(first) == Some(Print(amount)) && AmountIn(next) == Some(Print(more))
    requires NoPieceDecodes(first, next, AmountIn)
    ensures Earned(Decoded(Lines(first), AmountIn)) == amount
    ensures Earned(Decoded(Lines(first + next + [NEWLINE]), AmountIn)) == 0
  {
    EarningsAcrossACrash([], [], first, amount, next, more, AmountIn, |first|);
    assert (first + [NEWLINE])[..|first|] == first;
    assert File([]) + first == first;
  }
}

/**
 * Which messages each step hands to the audit publisher, and the figures on them: the session's own
 * price, the money its ledger holds after the step, and the seconds a bystander's stopwatch shows.
 */
module AuditFigures {
  import opened Common
  import opened Metering
  import opened LeaseConfig
  import opened Sessions
  import opened OpeningLaws
  import opened SessionInvariants
  import opened AuditTopic
  import opened NodeRuns
  import opened SessionTurns
  import opened SessionTheorems

  /** Seconds as they can be told from money: none where time is free. */
  function Shown(l: Ledger, seconds: nat): nat {
    if l.price > 0 then seconds else 0
  }

  /** The checkpoint of a meter run at `now`: what is earned and owed by then, and the seconds used. */
  function Checkpoint(id: Id, s: Session, now: int): Audit {
    Burnt(id, EarnedAt(s.ledger, now), Owed(s.ledger, now), s.ledger.price, Shown(s.ledger, s.book.watch.Tick(now).used))
  }

  /** The announcement of the last payment taken. */
  function Announcement(id: Id, s: Session): Audit
    requires s.book.payments != []
  {
    var l, payments := s.ledger, s.book.payments;
    Opened(id, payments[|payments| - 1].tinybars, l.credit, l.price, Shown(l, s.book.watch.left))
  }

  /** What closes a session that ended owing this much: nothing at all if a transfer was due and failed. */
  function Farewell(id: Id, s: Session, owed: nat, refund: Refund): seq<Audit> {
    var l := s.ledger;
    if owed > 0 && refund.TransferFailed? then
      []
    else
      [Closed(id, l.burned, owed, l.price, Shown(l, s.book.watch.used), owed > 0 && refund.TransferPaid?)]
  }

  lemma SecondsShown(s: Session)
    requires MoneyAddsUp(s)
    ensures ElapsedSeconds(s.ledger) == Shown(s.ledger, s.book.watch.used)
    ensures s.ledger.SecondsRemaining() == Shown(s.ledger, s.book.watch.left)
  {
    if s.ledger.price > 0 {
      CounterReadings(s.ledger, s.book.watch);
    }
  }

  // ---- One turn ----

  lemma FinishPublishes(cfg: Terms, id: Id, s: Session, status: Status, refund: Refund, now: int)
    requires MeteredInv(cfg, s, now) && !s.ledger.status.IsTerminal() && status.IsTerminal()
    ensures var t := FinishSession(id, s, status, refund);
      && t.published == Farewell(id, t.session, s.ledger.credit, refund)
      && t.session.ledger.price == s.ledger.price && t.session.ledger.burned == s.ledger.burned
      && t.session.book.watch.used == s.book.watch.used
  {
    SecondsShown(s);
  }

  lemma StopPublishes(cfg: Terms, id: Id, s: Session, refund: Refund, now: int)
    requires Sound(cfg) && MeteredInv(cfg, s, now) && !s.ledger.status.IsTerminal()
    ensures var t := StopSession(id, s, now, refund);
      t.published == Farewell(id, t.session, Owed(s.ledger, now), refund) && t.session.ledger.price == s.ledger.price
  {
    if s.ledger.status.Active? {
      BurnKeeps(cfg, s, now);
      FinishPublishes(cfg, id, BurnSession(s, now), Stopped, refund, now);
    } else {
      FinishPublishes(cfg, id, s, Stopped, refund, now);
    }
  }

  lemma EvictPublishes(cfg: Terms, id: Id, s: Session, status: Status, refund: Refund, now: int)
    requires Sound(cfg) && MeteredInv(cfg, s, now) && !s.ledger.status.IsTerminal() && status.IsTerminal()
    ensures var t := EvictSession(id, s, status, now, refund);
      t.published == Farewell(id, t.session, Owed(s.ledger, now), refund) && t.session.ledger.price == s.ledger.price
  {
    if s.ledger.status.Active? {
      BurnKeeps(cfg, s, now);
      FinishPublishes(cfg, id, BurnSession(s, now), status, refund, now);
    } else {
      FinishPublishes(cfg, id, s, status, refund, now);
    }
  }

  /** What the decision publishes, with the meter already run. */
  lemma DecisionPublishes(cfg: Terms, id: Id, s: Session, refund: Refund, now: int)
    requires Sound(cfg) && MeteredInv(cfg, s, now) && !s.ledger.status.IsTerminal()
    ensures var t := Decide(cfg, id, s, now, refund);
      && t.published == (if t.session.ledger.status.IsTerminal() then Farewell(id, t.session, s.ledger.credit, refund) else [])
      && t.session.ledger.price == s.ledger.price && t.session.ledger.burned == s.ledger.burned
      && t.session.book.watch.used == s.book.watch.used
  {
    FinishPublishes(cfg, id, s, Expired, refund, now);
  }

  lemma SweepPublishes(cfg: Terms, id: Id, s: Session, refund: Refund, now: int)
    requires Sound(cfg) && MeteredInv(cfg, s, now) && !s.ledger.status.IsTerminal()
    ensures var t := SweepSession(cfg, id, s, now, refund);
      var closing := if t.session.ledger.status.IsTerminal() then Farewell(id, t.session, Owed(s.ledger, now), refund) else [];
      && t.published == (if s.ledger.status.Active? then [Checkpoint(id, s, now)] else []) + closing
      && t.session.ledger.price == s.ledger.price
  {
    if s.ledger.status.Active? {
      var b := BurnSession(s, now);
      BurnKeeps(cfg, s, now);
      SecondsShown(b);
      DecisionPublishes(cfg, id, b, refund, now);
      assert TickMeter(id, s, now).published == [Checkpoint(id, s, now)];
    } else {
      DecisionPublishes(cfg, id, s, refund, now);
      assert MeterTurn(id, s, now) == Turn(s, []);
    }
  }

  /**
   * Everything a turn of a live session has to say, and nothing else: a meter that ran its checkpoint
   * first; a payment taken its announcement; an end its closing message.
   */
  ghost predicate Speaks(id: Id, s: Session, t: Turn, swept: bool, refund: Refund, now: int) {
    var after := t.session;
    && (after.book.payments != s.book.payments ==> after.book.payments != [])
    && t.published ==
         (if swept && s.ledger.status.Active? then [Checkpoint(id, s, now)] else [])
         + (if after.book.payments != s.book.payments then [Announcement(id, after)] else [])
         + (if after.ledger.status.IsTerminal() then Farewell(id, after, Owed(s.ledger, now), refund) else [])
    && after.ledger.price == s.ledger.price && after.ledger.metered
  }

  lemma SweepSpeaks(cfg: Terms, id: Id, s: Session, refund: Refund, now: int)
    requires Sound(cfg) && MeteredInv(cfg, s, now) && !s.ledger.status.IsTerminal()
    ensures Speaks(id, s, SweepSession(cfg, id, s, now, refund), true, refund, now)
  {
    SweepPublishes(cfg, id, s, refund, now);
    SweepIsHonest(cfg, id, s, now, refund);
  }

  lemma StopSpeaks(cfg: Terms, id: Id, s: Session, refund: Refund, now: int)
    requires Sound(cfg) && MeteredInv(cfg, s, now) && !s.ledger.status.IsTerminal()
    ensures Speaks(id, s, StopSession(id, s, now, refund), false, refund, now)
  {
    StopPublishes(cfg, id, s, refund, now);
    StopIsHonest(cfg, id, s, now, refund);
    StopSettles(cfg, id, s, refund, now);
    assert [] + [] + StopSession(id, s, now, refund).published == StopSession(id, s, now, refund).published;
  }

  lemma EvictSpeaks(cfg: Terms, id: Id, s: Session, status: Status, refund: Refund, now: int)
    requires Sound(cfg) && MeteredInv(cfg, s, now) && !s.ledger.status.IsTerminal() && status.IsTerminal()
    ensures Speaks(id, s, EvictSession(id, s, status, now, refund), false, refund, now)
  {
    EvictPublishes(cfg, id, s, status, refund, now);
    EvictIsHonest(cfg, id, s, status, now, refund);
    EvictSettles(cfg, id, s, status, refund, now);
    var published := EvictSession(id, s, status, now, refund).published;
    assert [] + [] + published == published;
  }

  lemma RenewalSpeaks(cfg: Terms, id: Id, s: Session, pay: PayEnv, now: int)
    requires Sound(cfg) && MeteredInv(cfg, s, now) && !s.ledger.status.IsTerminal()
    ensures Speaks(id, s, TopUpTurn(cfg, id, s, now, pay), false, NoSidecar, now)
  {
    RenewalPublishes(cfg, id, s, pay, now);
    TopUpKeeps(cfg, id, s, now, pay);
    TopUpEndsNothing(cfg, id, s, now, pay);
  }

  lemma RenewalPublishes(cfg: Terms, id: Id, s: Session, pay: PayEnv, now: int)
    requires Sound(cfg) && MeteredInv(cfg, s, now) && !s.ledger.status.IsTerminal()
    ensures var t := TopUpTurn(cfg, id, s, now, pay);
      && t.session.ledger.price == s.ledger.price && t.session.book.payments != []
      && t.published == if t.session.book.payments == s.book.payments then [] else [Announcement(id, t.session)]
  {
    TopUpKeeps(cfg, id, s, now, pay);
    TopUpSucceedsIff(cfg, s.ledger, now, pay);
    TopUpBanksTheChunk(cfg, s.ledger, now, pay);
    var t := TopUpTurn(cfg, id, s, now, pay);
    if TopUpSession(cfg, s.ledger, now, pay).code == 200 {
      assert |t.session.book.payments| == |s.book.payments| + 1;
      SecondsShown(t.session);
    }
  }

  // ---- One step ----

  /** An action that is, for the live session, this turn of it. */
  ghost predicate Takes(n: Node, after: Node, id: Id, t: Turn, swept: bool, refund: Refund) {
    && id in n.sessions && after.handed == n.handed + t.published && after.sessions == n.sessions[id := t.session]
    && Speaks(id, n.sessions[id], t, swept, refund, n.clock)
  }

  lemma CommitTakes(n: Node, id: Id, t: Turn, swept: bool, refund: Refund)
    requires id in n.sessions && Speaks(id, n.sessions[id], t, swept, refund, n.clock)
    ensures Takes(n, Commit(n, id, t), id, t, swept, refund)
  {
  }

  lemma NothingTaken(n: Node, after: Node, id: Id, swept: bool, refund: Refund)
    requires Live(n, id) && n.sessions[id].ledger.metered && !swept
    requires after.handed == n.handed && after.sessions == n.sessions
    ensures Takes(n, after, id, Turn(n.sessions[id], []), swept, refund)
  {
    assert n.sessions[id := n.sessions[id]] == n.sessions && n.handed + [] == n.handed;
  }

  /** What an action does to the live session is some turn of it, which speaks for itself. */
  lemma ActIsATurn(cfg: Terms, n: Node, act: Action, id: Id) returns (t: Turn)
    requires Sound(cfg) && NodeInv(cfg, n) && Live(n, id)
    requires act.Evict? ==> act.status.IsTerminal()
    ensures Takes(n, Act(cfg, n, act), id, t, act.Sweep?, RefundOf(act))
  {
    var s := n.sessions[id];
    assert n.active == Some(id) && SessionInv(cfg, s, n.clock);
    match act {
      case Sweep(refund) =>
        t := SweepSession(cfg, id, s, n.clock, refund);
        SweepSpeaks(cfg, id, s, refund, n.clock);
        CommitTakes(n, id, t, true, refund);
      case Evict(status, refund) =>
        t := EvictSession(id, s, status, n.clock, refund);
        EvictSpeaks(cfg, id, s, status, refund, n.clock);
        CommitTakes(n, id, t, false, refund);
      case _ =>
        t := RequestIsATurn(cfg, n, act, id);
    }
  }

  lemma RequestIsATurn(cfg: Terms, n: Node, act: Action, id: Id) returns (t: Turn)
    requires Sound(cfg) && NodeInv(cfg, n) && Live(n, id) && !act.Sweep? && !act.Evict?
    ensures Takes(n, Act(cfg, n, act), id, t, false, RefundOf(act))
  {
    var s := n.sessions[id];
    assert n.active == Some(id) && SessionInv(cfg, s, n.clock);
    if act.Renew? && act.authorized && act.id == id {
      t := TopUpTurn(cfg, id, s, n.clock, act.pay);
      RenewalSpeaks(cfg, id, s, act.pay, n.clock);
      CommitTakes(n, id, t, false, NoSidecar);
    } else if act.Stop? && act.authorized && act.id == id {
      t := StopSession(id, s, n.clock, act.refund);
      StopSpeaks(cfg, id, s, act.refund, n.clock);
      CommitTakes(n, id, t, false, act.refund);
    } else {
      if act.Create? {
        ServedOrRefused(cfg, SlotTaken(n), n.paused, act.seconds, n.clock, act.env);
      }
      t := Turn(s, []);
      NothingTaken(n, Act(cfg, n, act), id, false, RefundOf(act));
    }
  }

  /**
   * What a step on a live session hands over, and nothing else: for a sweep of a running container
   * its checkpoint, of what is earned, owed and used by then; for a payment taken what it was and
   * what it leaves; for an end the closing message, unless a transfer was due and failed. Each
   * names the session's own price.
   */
  lemma StepHandsOver(cfg: Terms, n: Node, e: Event, id: Id)
    requires Sound(cfg) && NodeInv(cfg, n) && Legal(n, e) && Live(n, id)
    ensures id in Step(cfg, n, e).sessions
    ensures var s, after := n.sessions[id], Step(cfg, n, e).sessions[id];
      && after.ledger.price == s.ledger.price && after.ledger.metered
      && (after.book.payments != s.book.payments ==> after.book.payments != [])
      && Step(cfg, n, e).handed == n.handed
           + ((if e.action.Sweep? && s.ledger.status.Active? then [Checkpoint(id, s, e.at)] else [])
              + (if after.book.payments != s.book.payments then [Announcement(id, after)] else [])
              + (if after.ledger.status.IsTerminal() then Farewell(id, after, Owed(s.ledger, e.at), RefundOf(e.action)) else []))
  {
    AdvanceKeeps(cfg, n, e.at);
    var t := ActIsATurn(cfg, Advance(n, e.at), e.action, id);
    assert Advance(n, e.at).sessions[id] == Elapse(n.sessions[id], e.at - n.clock);
  }

  /** And what opening one does: the first payment, as the credit it is, and the seconds it buys. */
  lemma OpeningHandsOver(cfg: Terms, n: Node, e: Event)
    requires Sound(cfg) && NodeInv(cfg, n) && Legal(n, e) && e.action.Create?
    ensures var after, id := Step(cfg, n, e), e.action.id;
      if id in after.sessions && after.sessions[id].ledger.metered then
        && after.sessions[id].book.payments != []
        && after.handed == n.handed + [Announcement(id, after.sessions[id])]
        && after.sessions[id].ledger.credit == Announcement(id, after.sessions[id]).amount
      else
        after.handed == n.handed
  {
    var a := Advance(n, e.at);
    AdvanceKeeps(cfg, n, e.at);
    StepKeeps(cfg, n, e);
    var o := CreateSession(cfg, SlotTaken(a), a.paused, e.action.seconds, a.clock, e.action.env);
    FailedOpeningsLeaveNothing(cfg, SlotTaken(a), a.paused, e.action.seconds, a.clock, e.action.env);
    if o.lease.Some? && o.lease.value.metered {
      SecondsShown(Step(cfg, n, e).sessions[e.action.id]);
    }
  }

  // ---- Over whole runs ----

  /** A message's seconds, used or left. */
  function SecondsOf(m: Audit): nat {
    if m.Opened? then m.seconds else m.elapsed
  }

  /** A message names its session's price, and one that closes it gives its final figures. */
  ghost predicate Faithful(m: Audit, s: Session) {
    && s.ledger.metered && m.price == s.ledger.price
    && (m.price == 0 ==> SecondsOf(m) == 0)
    && (m.Closed? ==>
          s.ledger.status.IsTerminal() && m.amount == s.ledger.burned && m.elapsed == Shown(s.ledger, s.book.watch.used))
  }

  ghost predicate TrueOf(n: Node, m: Audit) {
    m.id in n.sessions && Faithful(m, n.sessions[m.id])
  }

  ghost predicate AllTrueOf(n: Node, ms: seq<Audit>) {
    forall i | 0 <= i < |ms| :: TrueOf(n, ms[i])
  }

  lemma BothTrueOf(n: Node, first: seq<Audit>, second: seq<Audit>)
    requires AllTrueOf(n, first) && AllTrueOf(n, second)
    ensures AllTrueOf(n, first + second)
  {
  }

  /** What has been handed over stays true of its session. */
  lemma FaithfulStays(cfg: Terms, n: Node, e: Event, m: Audit)
    requires Sound(cfg) && NodeInv(cfg, n) && Legal(n, e)
    requires TrueOf(n, m)
    ensures TrueOf(Step(cfg, n, e), m)
  {
    if Live(n, m.id) {
      StepHandsOver(cfg, n, e, m.id);
    } else {
      StepOnEndedSession(cfg, n, e, m.id);
    }
  }

  lemma CheckpointIsTrue(n: Node, id: Id, s: Session, now: int)
    requires id in n.sessions && n.sessions[id].ledger.price == s.ledger.price && n.sessions[id].ledger.metered
    ensures AllTrueOf(n, [Checkpoint(id, s, now)])
  {
  }

  lemma AnnouncementIsTrue(n: Node, id: Id)
    requires id in n.sessions && n.sessions[id].book.payments != [] && n.sessions[id].ledger.metered
    ensures AllTrueOf(n, [Announcement(id, n.sessions[id])])
  {
  }

  lemma FarewellIsTrue(n: Node, id: Id, owed: nat, refund: Refund)
    requires id in n.sessions && n.sessions[id].ledger.metered && n.sessions[id].ledger.status.IsTerminal()
    ensures AllTrueOf(n, Farewell(id, n.sessions[id], owed, refund))
  {
  }

  /** The messages a step adds are faithful to the session as the step leaves it. */
  lemma AddedAreFaithful(cfg: Terms, n: Node, e: Event) returns (added: seq<Audit>)
    requires Sound(cfg) && NodeInv(cfg, n) && Legal(n, e)
    ensures Step(cfg, n, e).handed == n.handed + added
    ensures AllTrueOf(Step(cfg, n, e), added)
  {
    if n.active.Some? {
      added := AddedToLive(cfg, n, e, n.active.value);
    } else if e.action.Create? {
      OpeningHandsOver(cfg, n, e);
      var after, id := Step(cfg, n, e), e.action.id;
      if id in after.sessions && after.sessions[id].ledger.metered {
        AnnouncementIsTrue(after, id);
        added := [Announcement(id, after.sessions[id])];
      } else {
        added := [];
        assert n.handed + [] == n.handed;
      }
    } else {
      added := [];
      assert n.handed + [] == n.handed;
    }
  }

  lemma AddedToLive(cfg: Terms, n: Node, e: Event, id: Id) returns (added: seq<Audit>)
    requires Sound(cfg) && NodeInv(cfg, n) && Legal(n, e) && Live(n, id)
    ensures Step(cfg, n, e).handed == n.handed + added
    ensures AllTrueOf(Step(cfg, n, e), added)
  {
    StepHandsOver(cfg, n, e, id);
    var s, after := n.sessions[id], Step(cfg, n, e).sessions[id];
    var first := if e.action.Sweep? && s.ledger.status.Active? then [Checkpoint(id, s, e.at)] else [];
    var second := if after.book.payments != s.book.payments then [Announcement(id, after)] else [];
    var third :=
      if after.ledger.status.IsTerminal() then Farewell(id, after, Owed(s.ledger, e.at), RefundOf(e.action)) else [];
    if first != [] {
      CheckpointIsTrue(Step(cfg, n, e), id, s, e.at);
    }
    if second != [] {
      AnnouncementIsTrue(Step(cfg, n, e), id);
    }
    if third != [] {
      FarewellIsTrue(Step(cfg, n, e), id, Owed(s.ledger, e.at), RefundOf(e.action));
    }
    added := first + second + third;
    PartsTrueOf(Step(cfg, n, e), first, second, third);
  }

  lemma PartsTrueOf(n: Node, first: seq<Audit>, second: seq<Audit>, third: seq<Audit>)
    requires AllTrueOf(n, first) && AllTrueOf(n, second) && AllTrueOf(n, third)
    ensures AllTrueOf(n, first + second + third)
  {
    BothTrueOf(n, first, second);
    BothTrueOf(n, first + second, third);
  }

  lemma StepKeepsFaithful(cfg: Terms, n: Node, e: Event)
    requires Sound(cfg) && NodeInv(cfg, n) && Legal(n, e) && AllTrueOf(n, n.handed)
    ensures AllTrueOf(Step(cfg, n, e), Step(cfg, n, e).handed)
  {
    var after := Step(cfg, n, e);
    var added := AddedAreFaithful(cfg, n, e);
    forall i | 0 <= i < |n.handed| ensures TrueOf(after, n.handed[i]) {
      FaithfulStays(cfg, n, e, n.handed[i]);
    }
    BothTrueOf(after, n.handed, added);
  }

  lemma {:induction false} RunKeepsFaithful(cfg: Terms, n: Node, es: seq<Event>)
    requires Sound(cfg) && NodeInv(cfg, n) && AllTrueOf(n, n.handed) && LegalRun(cfg, n, es)
    ensures AllTrueOf(Run(cfg, n, es), Run(cfg, n, es).handed)
    decreases |es|
  {
    if es != [] {
      StepKeepsFaithful(cfg, n, es[0]);
      StepKeeps(cfg, n, es[0]);
      RunKeepsFaithful(cfg, Step(cfg, n, es[0]), es[1..]);
    }
  }

  lemma ReachedFaithful(cfg: Terms, n: Node)
    requires Sound(cfg) && Reached(cfg, n)
    ensures AllTrueOf(n, n.handed)
  {
    var start: int, es: seq<Event> :| LegalRun(cfg, Fresh(start), es) && Run(cfg, Fresh(start), es) == n;
    FreshKept(cfg, start);
    RunKeepsFaithful(cfg, Fresh(start), es);
  }

  /**
   * Every message handed over in any run is about a session that was paid for and names that
   * session's own price. Each burn and closing message splits exactly the payments announced before
   * it, its seconds are its earnings at that price, and earnings on a session never go down; a
   * payment's message gives the seconds that what it leaves buys; and a closing message gives the
   * final earnings and the seconds the stopwatch has used.
   */
  lemma AuditTrailAddsUp(cfg: Terms, n: Node, i: nat, j: nat)
    requires Sound(cfg) && Reached(cfg, n) && i <= j < |n.handed|
    ensures n.handed[j].id in n.sessions
    ensures var m, s := n.handed[j], n.sessions[n.handed[j].id]; var p := s.ledger.price;
      && s.ledger.metered && m.price == p
      && (!m.Opened? ==> m.amount + m.refund == PaidOn(n.handed[..j], m.id) && m.amount == p * m.elapsed)
      && (m.Opened? ==> m.refund == p * m.seconds)
      && (p > 0 ==> SecondsOf(m) == (if m.Opened? then m.refund else m.amount) / p)
      && (p == 0 ==> SecondsOf(m) == 0)
      && (m.Closed? ==>
            s.ledger.status.IsTerminal() && m.amount == s.ledger.burned && m.elapsed == Shown(s.ledger, s.book.watch.used))
      && (n.handed[i].id == m.id && !n.handed[i].Opened? && !m.Opened? ==> n.handed[i].amount <= m.amount)
  {
    ReachedKept(cfg, n);
    ReachedFaithful(cfg, n);
    EveryReportAddsUp(n.handed, i, j);
    var m := n.handed[j];
    if m.price > 0 {
      DivOfMul(m.price, SecondsOf(m));
    }
  }
}

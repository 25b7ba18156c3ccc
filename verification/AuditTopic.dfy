/**
 * The messages a node hands to its audit publisher, in the order it does: from them alone, every
 * figure can be checked against the payments announced before it. What of them gets to the topic,
 * and what its readers can still check, is the subject of `AuditDelivery`.
 */
module AuditTopic {
  import opened Metering
  import opened LeaseConfig
  import opened Sessions
  import opened SessionInvariants

  /** What one message announces as paid for a session. */
  function Announced(m: Audit, id: Id): nat {
    if m.Opened? && m.id == id then m.amount else 0
  }

  /** The payments the messages announce for one session. */
  function PaidOn(topic: seq<Audit>, id: Id): nat {
    if topic == [] then
      0
    else
      PaidOn(topic[..|topic| - 1], id) + Announced(topic[|topic| - 1], id)
  }

  /** The refunds they say were transferred for one session. */
  function SentOn(topic: seq<Audit>, id: Id): nat {
    if topic == [] then
      0
    else
      SentOn(topic[..|topic| - 1], id) + Sent(topic[|topic| - 1], id)
  }

  function Sent(m: Audit, id: Id): nat {
    if m.Closed? && m.transferred && m.id == id then m.refund else 0
  }

  /**
   * A message that adds up. Of a burn or a closing: earned and owed make the payments so far,
   * and the seconds at the price are the earnings. Of a payment: the seconds it leaves on the
   * session, at the price, are what it leaves owed.
   */
  predicate AddsUp(m: Audit, paid: nat) {
    if m.Opened? then
      m.refund == m.price * m.seconds
    else
      m.amount + m.refund == paid && m.amount == m.price * m.elapsed
  }

  /** The latest figure they give for what one session has earned. */
  function Reported(topic: seq<Audit>, id: Id): nat {
    if topic == [] then
      0
    else
      var last := topic[|topic| - 1];
      if !last.Opened? && last.id == id then last.amount else Reported(topic[..|topic| - 1], id)
  }

  /** Every report adds up against the payments before it, and earnings never go down. */
  predicate Balanced(topic: seq<Audit>) {
    topic == [] ||
    var before, last := topic[..|topic| - 1], topic[|topic| - 1];
    && Balanced(before)
    && AddsUp(last, PaidOn(before, last.id))
    && (!last.Opened? ==> Reported(before, last.id) <= last.amount)
  }

  /**
   * The messages give `paid` for the session and `sent` as transferred back, and report no more
   * than `burned` as earned.
   */
  predicate Told(topic: seq<Audit>, id: Id, paid: nat, burned: nat, sent: nat) {
    PaidOn(topic, id) == paid && Reported(topic, id) <= burned && SentOn(topic, id) == sent
  }

  lemma AppendMessage(topic: seq<Audit>, m: Audit, paid: nat, burned: nat, sent: nat)
    requires Balanced(topic) && Told(topic, m.id, paid, burned, sent)
    requires AddsUp(m, paid) && (!m.Opened? ==> burned <= m.amount)
    ensures Balanced(topic + [m])
    ensures Told(topic + [m], m.id, if m.Opened? then paid + m.amount else paid, if m.Opened? then burned else m.amount,
                 sent + Sent(m, m.id))
  {
    assert (topic + [m])[..|topic|] == topic;
  }

  /** Another session's messages change nothing for this one. */
  lemma {:induction false} AppendOthers(topic: seq<Audit>, ms: seq<Audit>, id: Id, paid: nat, burned: nat, sent: nat)
    requires Told(topic, id, paid, burned, sent) && forall i | 0 <= i < |ms| :: ms[i].id != id
    ensures Told(topic + ms, id, paid, burned, sent)
    decreases |ms|
  {
    if ms == [] {
      assert topic + ms == topic;
    } else {
      var init, last := ms[..|ms| - 1], ms[|ms| - 1];
      AppendOthers(topic, init, id, paid, burned, sent);
      assert (topic + ms)[..|topic + ms| - 1] == topic + init;
    }
  }

  /**
   * Each report is the split of exactly the payments announced before it, and of two reports on
   * one session the later never earns less.
   */
  lemma {:induction false} EveryReportAddsUp(topic: seq<Audit>, i: nat, j: nat)
    requires Balanced(topic) && i <= j < |topic|
    ensures AddsUp(topic[j], PaidOn(topic[..j], topic[j].id))
    ensures topic[i].id == topic[j].id && !topic[i].Opened? && !topic[j].Opened? ==> topic[i].amount <= topic[j].amount
    decreases |topic|
  {
    var before := topic[..|topic| - 1];
    if j < |topic| - 1 {
      EveryReportAddsUp(before, i, j);
      assert before[..j] == topic[..j];
    } else if i < j && !topic[i].Opened? {
      ReportedCovers(before, i);
    }
  }

  lemma {:induction false} ReportedCovers(topic: seq<Audit>, i: nat)
    requires Balanced(topic) && i < |topic| && !topic[i].Opened?
    ensures topic[i].amount <= Reported(topic, topic[i].id)
    decreases |topic|
  {
    if i < |topic| - 1 {
      ReportedCovers(topic[..|topic| - 1], i);
    }
  }

  /**
   * What a turn that takes no payment may publish about a session: reports that add up against
   * `paid`, with earnings that rise from at least `low` to at most `high`, and `sent` transferred.
   */
  predicate HonestReports(id: Id, ms: seq<Audit>, paid: nat, low: nat, high: nat, sent: nat) {
    if ms == [] then
      low <= high && sent == 0
    else
      && ms[0].id == id && !ms[0].Opened? && AddsUp(ms[0], paid) && low <= ms[0].amount && Sent(ms[0], id) <= sent
      && HonestReports(id, ms[1..], paid, ms[0].amount, high, sent - Sent(ms[0], id))
  }

  lemma {:induction false} AppendReports(topic: seq<Audit>, id: Id, ms: seq<Audit>, paid: nat, low: nat, high: nat,
                                         before: nat, sent: nat)
    requires Balanced(topic) && Told(topic, id, paid, low, before) && HonestReports(id, ms, paid, low, high, sent)
    ensures Balanced(topic + ms) && Told(topic + ms, id, paid, high, before + sent)
    decreases |ms|
  {
    if ms == [] {
      assert topic + ms == topic;
    } else {
      var longer, part := topic + [ms[0]], Sent(ms[0], id);
      assert Balanced(longer) && Told(longer, id, paid, ms[0].amount, before + part) by {
        AppendMessage(topic, ms[0], paid, low, before);
      }
      assert longer + ms[1..] == topic + ms;
      AppendReports(longer, id, ms[1..], paid, ms[0].amount, high, before + part, sent - part);
    }
  }

  lemma {:induction false} ReportsNameTheirSession(id: Id, ms: seq<Audit>, paid: nat, low: nat, high: nat, sent: nat)
    requires HonestReports(id, ms, paid, low, high, sent)
    ensures forall i | 0 <= i < |ms| :: ms[i].id == id
    decreases |ms|
  {
    if ms != [] {
      ReportsNameTheirSession(id, ms[1..], paid, ms[0].amount, high, sent - Sent(ms[0], id));
      assert ms == [ms[0]] + ms[1..];
    }
  }

  // ---- What the handlers publish is honest ----

  /** The reported seconds, at the session's price, are the reported amount. */
  lemma ElapsedPricesBurned(s: Session)
    requires MoneyAddsUp(s)
    ensures s.ledger.burned == s.ledger.price * ElapsedSeconds(s.ledger)
  {
    if s.ledger.price > 0 {
      CounterReadings(s.ledger, s.book.watch);
    }
  }

  lemma TickIsHonest(cfg: Terms, id: Id, s: Session, now: int)
    requires Sound(cfg) && MeteredInv(cfg, s, now) && s.ledger.status.Active?
    ensures var t := TickMeter(id, s, now);
      && HonestReports(id, t.published, Paid(s.book.payments), s.ledger.burned, t.session.ledger.burned, 0)
      && t.session.book.payments == s.book.payments && t.session.ledger.refunded == s.ledger.refunded
      && t.session.ledger.status == s.ledger.status
  {
    BurnKeeps(cfg, s, now);
    ElapsedPricesBurned(BurnSession(s, now));
  }

  lemma OneReport(id: Id, m: Audit, paid: nat)
    requires m.id == id && !m.Opened? && AddsUp(m, paid)
    ensures HonestReports(id, [m], paid, m.amount, m.amount, Sent(m, id))
  {
    assert [m][1..] == [];
  }

  /** The outcome of a turn that takes no payment. */
  ghost predicate HonestTurn(cfg: Terms, id: Id, s: Session, t: Turn, now: int) {
    && MeteredInv(cfg, t.session, now)
    && t.session.book.payments == s.book.payments
    && t.session.ledger.refunded >= s.ledger.refunded
    && HonestReports(id, t.published, Paid(s.book.payments), s.ledger.burned, t.session.ledger.burned,
                     t.session.ledger.refunded - s.ledger.refunded)
  }

  /** Settling a session: what it publishes is the split as it stands. */
  lemma SettleReports(id: Id, s: Session, refund: Refund)
    requires MoneyAddsUp(s) && LivesOnce(s)
    ensures var t := SettleSession(id, s, refund);
      && t.session.ledger.burned == s.ledger.burned
      && t.session.book.payments == s.book.payments
      && t.session.ledger.refunded >= s.ledger.refunded
      && HonestReports(id, t.published, Paid(s.book.payments), s.ledger.burned, s.ledger.burned,
                       t.session.ledger.refunded - s.ledger.refunded)
  {
    var t := SettleSession(id, s, refund);
    ElapsedPricesBurned(s);
    if t.published != [] {
      OneReport(id, t.published[0], Paid(s.book.payments));
      assert t.published == [t.published[0]];
    }
  }

  lemma SettleIsHonest(cfg: Terms, id: Id, s: Session, refund: Refund, now: int)
    requires Sound(cfg) && MeteredInv(cfg, s, now) && s.ledger.status.IsTerminal()
    ensures HonestTurn(cfg, id, s, SettleSession(id, s, refund), now)
    ensures SettleSession(id, s, refund).session.ledger.burned == s.ledger.burned
  {
    SettleKeeps(cfg, id, s, refund, now);
    SettleReports(id, s, refund);
  }

  /** Ending a live session whose meter has just run: it is over, and the closing message is honest. */
  lemma FinishIsHonest(cfg: Terms, id: Id, s: Session, status: Status, refund: Refund, now: int)
    requires Sound(cfg) && MeteredInv(cfg, s, now) && !s.ledger.status.IsTerminal() && status.IsTerminal()
    requires s.ledger.status.Active? ==> s.book.watch.since == now
    ensures HonestTurn(cfg, id, s, FinishSession(id, s, status, refund), now)
    ensures FinishSession(id, s, status, refund).session.ledger.burned == s.ledger.burned
  {
    var ended := s.(ledger := s.ledger.SetStatus(status));
    EndKeeps(cfg, s, status, now);
    SettleIsHonest(cfg, id, ended, refund, now);
    assert FinishSession(id, s, status, refund) == SettleSession(id, ended, refund);
  }

  lemma FreezeIsHonest(cfg: Terms, id: Id, s: Session, now: int)
    requires Sound(cfg) && MeteredInv(cfg, s, now) && s.ledger.status.Active?
    requires s.book.watch.since == now && s.ledger.SecondsRemaining() == 0
    ensures HonestTurn(cfg, id, s, Turn(s.(ledger := s.ledger.Freeze(now)), []), now)
  {
    FreezeKeeps(cfg, s, now);
  }

  lemma StopIsHonest(cfg: Terms, id: Id, s: Session, now: int, refund: Refund)
    requires Sound(cfg) && MeteredInv(cfg, s, now) && !s.ledger.status.IsTerminal()
    ensures HonestTurn(cfg, id, s, StopSession(id, s, now, refund), now)
  {
    if s.ledger.status.Active? {
      BurnKeeps(cfg, s, now);
      FinishIsHonest(cfg, id, BurnSession(s, now), Stopped, refund, now);
    } else {
      FinishIsHonest(cfg, id, s, Stopped, refund, now);
    }
  }

  lemma EvictIsHonest(cfg: Terms, id: Id, s: Session, status: Status, now: int, refund: Refund)
    requires Sound(cfg) && MeteredInv(cfg, s, now) && !s.ledger.status.IsTerminal() && status.IsTerminal()
    ensures HonestTurn(cfg, id, s, EvictSession(id, s, status, now, refund), now)
  {
    if s.ledger.status.Active? {
      BurnKeeps(cfg, s, now);
      FinishIsHonest(cfg, id, BurnSession(s, now), status, refund, now);
    } else {
      FinishIsHonest(cfg, id, s, status, refund, now);
    }
  }

  lemma RunningDecisionIsHonest(cfg: Terms, id: Id, s: Session, now: int, refund: Refund)
    requires Sound(cfg) && MeteredInv(cfg, s, now) && s.ledger.status.Active? && s.book.watch.since == now
    ensures HonestTurn(cfg, id, s, DecideRunning(id, s, now, refund), now)
    ensures DecideRunning(id, s, now, refund).session.ledger.burned == s.ledger.burned
  {
    if s.ledger.FullyPaid() && s.ledger.SecondsRemaining() == 0 {
      FinishIsHonest(cfg, id, s, Expired, refund, now);
    } else if s.ledger.OverdueBy(now) >= FREEZE_GRACE {
      OverdueIsOut(s.ledger, now);
      FreezeIsHonest(cfg, id, s, now);
    }
  }

  /** Credit worth a second puts expiry in the future of the tick, so being overdue means none is left. */
  lemma OverdueIsOut(l: Ledger, now: int)
    requires Synced(l) && l.lastTickAt == now && l.OverdueBy(now) >= FREEZE_GRACE
    ensures l.SecondsRemaining() == 0
  {
  }

  lemma FrozenDecisionIsHonest(cfg: Terms, id: Id, s: Session, now: int, refund: Refund)
    requires Sound(cfg) && MeteredInv(cfg, s, now) && s.ledger.status.Paused?
    ensures HonestTurn(cfg, id, s, DecideFrozen(cfg, id, s, now, refund), now)
    ensures DecideFrozen(cfg, id, s, now, refund).session.ledger.burned == s.ledger.burned
  {
    FinishIsHonest(cfg, id, s, Expired, refund, now);
  }

  lemma DecisionIsHonest(cfg: Terms, id: Id, s: Session, now: int, refund: Refund)
    requires Sound(cfg) && MeteredInv(cfg, s, now) && !s.ledger.status.IsTerminal()
    requires s.ledger.status.Active? ==> s.book.watch.since == now
    ensures HonestTurn(cfg, id, s, Decide(cfg, id, s, now, refund), now)
    ensures Decide(cfg, id, s, now, refund).session.ledger.burned == s.ledger.burned
  {
    if s.ledger.status.Active? {
      RunningDecisionIsHonest(cfg, id, s, now, refund);
    } else {
      FrozenDecisionIsHonest(cfg, id, s, now, refund);
    }
  }

  /** A burn report, then whatever else the turn publishes. */
  lemma ReportFirst(id: Id, m: Audit, ms: seq<Audit>, paid: nat, low: nat, high: nat, sent: nat)
    requires m.id == id && m.Burnt? && AddsUp(m, paid) && low <= m.amount
    requires HonestReports(id, ms, paid, m.amount, high, sent)
    ensures HonestReports(id, [m] + ms, paid, low, high, sent)
  {
    assert ([m] + ms)[1..] == ms;
  }

  lemma RunningSweepIsHonest(cfg: Terms, id: Id, s: Session, now: int, refund: Refund)
    requires Sound(cfg) && MeteredInv(cfg, s, now) && s.ledger.status.Active?
    ensures HonestTurn(cfg, id, s, SweepSession(cfg, id, s, now, refund), now)
  {
    BurnKeeps(cfg, s, now);
    TickIsHonest(cfg, id, s, now);
    var ticked := TickMeter(id, s, now);
    var decided := Decide(cfg, id, ticked.session, now, refund);
    DecisionIsHonest(cfg, id, ticked.session, now, refund);
    ReportFirst(id, ticked.published[0], decided.published, Paid(s.book.payments), s.ledger.burned,
                decided.session.ledger.burned, decided.session.ledger.refunded - s.ledger.refunded);
    assert SweepSession(cfg, id, s, now, refund) == Turn(decided.session, ticked.published + decided.published);
  }

  lemma SweepIsHonest(cfg: Terms, id: Id, s: Session, now: int, refund: Refund)
    requires Sound(cfg) && MeteredInv(cfg, s, now) && !s.ledger.status.IsTerminal()
    ensures HonestTurn(cfg, id, s, SweepSession(cfg, id, s, now, refund), now)
  {
    if s.ledger.status.Active? {
      RunningSweepIsHonest(cfg, id, s, now, refund);
    } else {
      DecisionIsHonest(cfg, id, s, now, refund);
    }
  }
}

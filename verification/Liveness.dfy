/** With no further payment, the sweep ends every session, within a number of sweeps known beforehand. */
module Liveness {
  import opened Common
  import opened Metering
  import opened LeaseConfig
  import opened Sessions
  import opened SessionInvariants
  import opened NodeRuns
  import opened SessionTurns
  import opened SessionTheorems

  function CeilSeconds(ns: int): nat {
    if ns <= 0 then 0 else (ns + SECOND - 1) / SECOND
  }

  /** Sweeps a frozen session can outlast, a second apart. */
  function GraceSweeps(cfg: Terms): nat {
    Max(1, cfg.graceMinutes * 60)
  }

  /** How many sweeps, at least a second apart and the last one at `since`, a ledger can still outlast. */
  function SweepsLeft(cfg: Terms, l: Ledger, since: int): nat {
    if l.status.IsTerminal() then 0
    else if l.status.Paused? then Max(1, CeilSeconds(cfg.graceMinutes * MINUTE - l.PausedFor(since)))
    else if l.SecondsRemaining() > 0 then l.SecondsRemaining() + 30 + GraceSweeps(cfg)
    else Max(1, CeilSeconds(FREEZE_GRACE - l.OverdueBy(since))) + GraceSweeps(cfg)
  }

  /** The ledger has not moved since `since`. */
  predicate Calm(l: Ledger, since: int) {
    l.lastTickAt <= since && (l.status.Paused? ==> l.pausedAt.Some? && l.pausedAt.value <= since)
  }

  lemma SecondLater(span: int, spent: int, more: int)
    requires more >= spent + SECOND && span - more > 0
    ensures Max(1, CeilSeconds(span - more)) < Max(1, CeilSeconds(span - spent))
  {
  }

  /** Running out: a burn after at least a second leaves fewer seconds than before. */
  lemma BurnTakesASecond(cfg: Terms, s: Session, now: int)
    requires Sound(cfg) && MeteredInv(cfg, s, now) && s.ledger.status.Active?
    requires s.ledger.SecondsRemaining() > 0 && s.ledger.lastTickAt + SECOND <= now
    ensures s.ledger.Burn(now).SecondsRemaining() < s.ledger.SecondsRemaining()
    ensures s.ledger.Burn(now).SecondsRemaining() == 0 ==> s.ledger.Burn(now).expiresAt == now
  {
    BurnRefinesTick(s.ledger, s.book.watch, now);
    CounterReadings(s.ledger, s.book.watch);
    CounterReadings(s.ledger.Burn(now), s.book.watch.Tick(now));
    BurnPinsExpiry(s.ledger, now);
  }

  lemma PayingSweepGetsCloser(cfg: Terms, id: Id, s: Session, refund: Refund, since: int, now: int)
    requires Sound(cfg) && MeteredInv(cfg, s, now) && s.ledger.status.Active? && s.ledger.SecondsRemaining() > 0
    requires s.ledger.lastTickAt <= since && since + SECOND <= now
    ensures var after := SweepSession(cfg, id, s, now, refund).session;
      SweepsLeft(cfg, after.ledger, now) < SweepsLeft(cfg, s.ledger, since)
  {
    SweepRunning(cfg, id, s, refund, now);
    BurnTakesASecond(cfg, s, now);
  }

  lemma EmptySweepGetsCloser(cfg: Terms, id: Id, s: Session, refund: Refund, since: int, now: int)
    requires Sound(cfg) && MeteredInv(cfg, s, now) && s.ledger.status.Active? && s.ledger.SecondsRemaining() == 0
    requires s.ledger.lastTickAt <= since && since + SECOND <= now
    ensures var after := SweepSession(cfg, id, s, now, refund).session;
      SweepsLeft(cfg, after.ledger, now) < SweepsLeft(cfg, s.ledger, since)
  {
    var l := s.ledger;
    SweepRunning(cfg, id, s, refund, now);
    BurnPinsExpiry(l, now);
    if now - l.expiresAt < FREEZE_GRACE {
      SecondLater(FREEZE_GRACE, since - l.expiresAt, now - l.expiresAt);
    }
  }

  /** Each sweep at least a second after the last leaves strictly fewer to come. */
  lemma SweepGetsCloser(cfg: Terms, id: Id, s: Session, refund: Refund, since: int, now: int)
    requires Sound(cfg) && MeteredInv(cfg, s, now) && !s.ledger.status.IsTerminal()
    requires Calm(s.ledger, since) && since + SECOND <= now
    ensures var after := SweepSession(cfg, id, s, now, refund).session;
      SweepsLeft(cfg, after.ledger, now) < SweepsLeft(cfg, s.ledger, since)
  {
    var l := s.ledger;
    if l.status.Active? && l.SecondsRemaining() > 0 {
      PayingSweepGetsCloser(cfg, id, s, refund, since, now);
    } else if l.status.Active? {
      EmptySweepGetsCloser(cfg, id, s, refund, since, now);
    } else {
      SweepFrozen(cfg, id, s, refund, now);
      if now - l.pausedAt.value < cfg.graceMinutes * MINUTE {
        SecondLater(cfg.graceMinutes * MINUTE, since - l.pausedAt.value, now - l.pausedAt.value);
      }
    }
  }

  // ---- Over whole runs ----

  /** Nobody pays: top-up requests, if any, do not settle. */
  predicate Unpaid(es: seq<Event>) {
    forall i | 0 <= i < |es| :: es[i].action.Renew? ==> !es[i].action.pay.settles
  }

  /** Sweeps come at least a second after one another, and the first that long after `since`. */
  predicate Spaced(since: int, es: seq<Event>)
    decreases |es|
  {
    es == [] ||
    if es[0].action.Sweep? then since + SECOND <= es[0].at && Spaced(es[0].at, es[1..]) else Spaced(since, es[1..])
  }

  function SweepCount(es: seq<Event>): nat {
    if es == [] then 0 else (if es[0].action.Sweep? then 1 else 0) + SweepCount(es[1..])
  }

  /** Other events leave an unpaid session's ledger alone, or end it. */
  lemma UnpaidStep(cfg: Terms, n: Node, e: Event, id: Id, since: int)
    requires Sound(cfg) && NodeInv(cfg, n) && Legal(n, e) && Live(n, id) && Calm(n.sessions[id].ledger, since)
    requires e.action.Renew? ==> !e.action.pay.settles
    requires e.action.Sweep? ==> since + SECOND <= e.at
    ensures id in Step(cfg, n, e).sessions
    ensures var l := Step(cfg, n, e).sessions[id].ledger;
      if e.action.Sweep? then
        SweepsLeft(cfg, l, e.at) < SweepsLeft(cfg, n.sessions[id].ledger, since)
      else
        l.status.IsTerminal() || l == n.sessions[id].ledger
  {
    StepOnLiveSession(cfg, n, e, id);
    var s := Advance(n, e.at).sessions[id];
    match e.action
    case Sweep(refund) => SweepGetsCloser(cfg, id, s, refund, since, e.at);
    case Renew(_, _, pay) => TopUpSucceedsIff(cfg, s.ledger, e.at, pay);
    case Stop(_, _, refund) => StopSettles(cfg, id, s, refund, e.at);
    case Evict(status, refund) => EvictSettles(cfg, id, s, status, refund, e.at);
    case _ =>
  }

  lemma {:induction false} UnpaidRunEnds(cfg: Terms, n: Node, es: seq<Event>, id: Id, since: int)
    requires Sound(cfg) && NodeInv(cfg, n) && LegalRun(cfg, n, es) && id in n.sessions
    requires Unpaid(es) && Spaced(since, es) && (Live(n, id) ==> Calm(n.sessions[id].ledger, since))
    requires SweepCount(es) >= SweepsLeft(cfg, n.sessions[id].ledger, since)
    ensures id in Run(cfg, n, es).sessions && Run(cfg, n, es).sessions[id].ledger.status.IsTerminal()
    decreases |es|
  {
    if !Live(n, id) {
      EndedSessionsNeverChange(cfg, n, es, id);
    } else if es != [] {
      var e, after := es[0], Step(cfg, n, es[0]);
      StepKeeps(cfg, n, e);
      UnpaidStep(cfg, n, e, id, since);
      var next := if e.action.Sweep? then e.at else since;
      assert Live(after, id) && e.action.Sweep? ==> Calm(after.sessions[id].ledger, e.at) by {
        CalmNow(cfg, after, id);
      }
      UnpaidRunEnds(cfg, after, es[1..], id, next);
    }
  }

  /** In a reachable state nothing about a live session lies in the future. */
  lemma CalmNow(cfg: Terms, n: Node, id: Id)
    requires Sound(cfg) && NodeInv(cfg, n)
    ensures Live(n, id) ==> Calm(n.sessions[id].ledger, n.clock)
  {
    if Live(n, id) {
      var s := n.sessions[id];
      assert SessionInv(cfg, s, n.clock) && OnTime(s, n.clock);
    }
  }

  /**
   * Every session ends. From any reachable state, in any run where nobody pays and sweeps come
   * at least a second apart, the session is over after as many sweeps as it has seconds left,
   * plus thirty to be frozen, plus its grace period in seconds.
   */
  lemma EveryUnpaidSessionEnds(cfg: Terms, n: Node, es: seq<Event>, id: Id)
    requires Sound(cfg) && Reached(cfg, n) && Live(n, id) && LegalRun(cfg, n, es)
    requires Unpaid(es) && Spaced(n.clock, es)
    requires SweepCount(es) >= n.sessions[id].ledger.SecondsRemaining() + 30 + cfg.graceMinutes * 60
    ensures id in Run(cfg, n, es).sessions && Run(cfg, n, es).sessions[id].ledger.status.IsTerminal()
  {
    ReachedKept(cfg, n);
    CalmNow(cfg, n, id);
    SweepsLeftBound(cfg, n.sessions[id], n.clock);
    UnpaidRunEnds(cfg, n, es, id, n.clock);
  }

  lemma SweepsLeftBound(cfg: Terms, s: Session, clock: int)
    requires Sound(cfg) && MeteredInv(cfg, s, clock)
    ensures SweepsLeft(cfg, s.ledger, clock) <= s.ledger.SecondsRemaining() + 30 + cfg.graceMinutes * 60
  {
  }
}

/** The main results about metered sessions, for every reachable state and every run. */
module SessionTheorems {
  import opened Common
  import opened Metering
  import opened LeaseConfig
  import opened Sessions
  import opened OpeningLaws
  import opened SessionInvariants
  import opened AuditTopic
  import opened AuditDelivery
  import opened NodeRuns
  import opened SessionTurns

  /** The states a node can get into from a fresh start, whatever the outside world answers. */
  ghost predicate Reached(cfg: Terms, n: Node)
    requires Sound(cfg)
  {
    exists start: int, es: seq<Event> :: LegalRun(cfg, Fresh(start), es) && Run(cfg, Fresh(start), es) == n
  }

  lemma ReachedKept(cfg: Terms, n: Node)
    requires Sound(cfg) && Reached(cfg, n)
    ensures NodeInv(cfg, n)
  {
    var start: int, es: seq<Event> :| LegalRun(cfg, Fresh(start), es) && Run(cfg, Fresh(start), es) == n;
    FreshKept(cfg, start);
    RunKeeps(cfg, Fresh(start), es);
  }

  /** The same, about one session only. */
  lemma ReachedSession(cfg: Terms, n: Node, id: Id)
    requires Sound(cfg) && Reached(cfg, n) && id in n.sessions
    ensures SessionInv(cfg, n.sessions[id], n.clock)
    ensures Live(n, id) ==> n.sessions[id].ledger.metered
  {
    ReachedKept(cfg, n);
  }

  /** A paid request on a fresh node for any accepted length, when everything outside answers. */
  function Ask(now: int, id: Id, seconds: int): Event {
    var pay := PayEnv(Present, true, Valid, true, true);
    Event(now, Create(id, seconds, OpenEnv(true, true, true, pay, true, true, true, true, true, true)))
  }

  /** Reached states with live sessions are no empty class: every accepted length opens into one. */
  lemma SessionsAreReached(cfg: Terms, now: int, id: Id, seconds: int)
    requires Sound(cfg) && LengthAccepted(cfg, seconds) && cfg.price.Some?
    ensures var n := Step(cfg, Fresh(now), Ask(now, id, seconds));
      && Reached(cfg, n) && Live(n, id) && n.clock == now
      && n.sessions[id].ledger.price == cfg.price.value
      && n.sessions[id].ledger.credit == cfg.price.value * SessionChunk(cfg, seconds)
      && n.sessions[id].ledger.sessionSeconds == seconds
      && n.sessions[id].ledger.lastTickAt == now && |n.sessions[id].book.payments| == 1
  {
    var e := Ask(now, id, seconds);
    OneStepRun(cfg, Fresh(now), e);
    AcceptedLengthsOpen(cfg, seconds, now, e.action.env);
    FailedOpeningsLeaveNothing(cfg, false, false, seconds, now, e.action.env);
  }

  lemma OneStepRun(cfg: Terms, n: Node, e: Event)
    requires Sound(cfg) && Legal(n, e)
    ensures LegalRun(cfg, n, [e]) && Run(cfg, n, [e]) == Step(cfg, n, e)
  {
    var rest := [e][1..];
    assert rest == [] && [e][0] == e;
    assert LegalRun(cfg, Step(cfg, n, e), rest) && Run(cfg, Step(cfg, n, e), rest) == Step(cfg, n, e);
  }

  lemma {:induction false} OneMoreEvent(cfg: Terms, n: Node, es: seq<Event>, e: Event)
    requires Sound(cfg) && LegalRun(cfg, n, es) && Legal(Run(cfg, n, es), e)
    ensures LegalRun(cfg, n, es + [e]) && Run(cfg, n, es + [e]) == Step(cfg, Run(cfg, n, es), e)
    decreases |es|
  {
    if es == [] {
      OneStepRun(cfg, n, e);
      assert es + [e] == [e];
    } else {
      OneMoreEvent(cfg, Step(cfg, n, es[0]), es[1..], e);
      assert (es + [e])[1..] == es[1..] + [e];
    }
  }

  /** A legal step from a reached state reaches another. */
  lemma OneMoreStep(cfg: Terms, n: Node, e: Event)
    requires Sound(cfg) && Reached(cfg, n) && Legal(n, e)
    ensures Reached(cfg, Step(cfg, n, e))
  {
    var start: int, es: seq<Event> :| LegalRun(cfg, Fresh(start), es) && Run(cfg, Fresh(start), es) == n;
    OneMoreEvent(cfg, Fresh(start), es, e);
  }

  ghost predicate Metered(n: Node, id: Id) {
    id in n.sessions && n.sessions[id].ledger.metered
  }

  /** The tinybar meter is a whole-seconds counter, priced: credit, earnings and refund are exact multiples. */
  lemma MeterRefinesSecondsCounter(cfg: Terms, n: Node, id: Id)
    requires Sound(cfg) && Reached(cfg, n) && Metered(n, id)
    ensures var l, w := n.sessions[id].ledger, n.sessions[id].book.watch;
      && l.credit == l.price * w.left && l.burned == l.price * w.used && l.refunded == l.price * w.back
      && (l.price > 0 ==> l.SecondsRemaining() == w.left && ElapsedSeconds(l) == w.used)
      && w.left + w.used + w.back == Min(l.sessionSeconds, |n.sessions[id].book.payments| * cfg.chunkSeconds)
  {
    ReachedSession(cfg, n, id);
    if n.sessions[id].ledger.price > 0 {
      CounterReadings(n.sessions[id].ledger, n.sessions[id].book.watch);
    }
  }

  /**
   * Every tinybar paid in is earned, held or sent back, and the messages handed to the audit
   * publisher announce exactly what was paid in and what went back.
   */
  lemma MoneyIsConserved(cfg: Terms, n: Node, id: Id)
    requires Sound(cfg) && Reached(cfg, n) && id in n.sessions
    ensures var s := n.sessions[id];
      && Paid(s.book.payments) == s.ledger.burned + s.ledger.credit + s.ledger.refunded
      && Sum(s.book.transfers) == s.ledger.refunded
      && PaidOn(n.handed, id) == Paid(s.book.payments) && SentOn(n.handed, id) == s.ledger.refunded
  {
    ReachedKept(cfg, n);
    assert Told(n.handed, id, PaidBy(n, id), BurnedBy(n, id), SentBy(n, id));
  }

  /**
   * What the topic shows of those messages, any of which may be lost or late. A report that arrives splits,
   * by itself, exactly the payments announced before it was handed over. It agrees with the topic
   * as it stands exactly when what the topic lacks of those is made up by later ones; where nothing
   * is late, exactly when no payment announced before it is missing.
   */
  lemma TopicReports(cfg: Terms, n: Node, arrived: seq<nat>, k: nat)
    requires Sound(cfg) && Reached(cfg, n) && Delivery(arrived, n.handed)
    requires k < |arrived| && !n.handed[arrived[k]].Opened?
    ensures var topic, p, before := Topic(arrived, n.handed), arrived[k], arrived[..k]; var m := topic[k];
      && m.amount == m.price * m.elapsed && m.amount + m.refund == PaidOn(n.handed[..p], m.id)
      && (m.amount + m.refund == PaidOn(topic[..k], m.id) <==>
            Missing(n.handed, p, before, m.id) == Early(n.handed, p, before, m.id))
      && (InOrder(arrived) ==>
            (m.amount + m.refund == PaidOn(topic[..k], m.id) <==> NothingLost(n.handed, p, before)))
  {
    ReachedKept(cfg, n);
    ArrivedReports(n.handed, arrived, k, k);
    if InOrder(arrived) {
      InOrderReport(n.handed, arrived, k);
    }
  }

  /**
   * Charging follows running time: never more than it, and, as long as no tick was clamped by
   * an empty credit, short of the time already metered by less than one second's price a tick.
   */
  lemma ChargedForRunningTimeOnly(cfg: Terms, n: Node, id: Id)
    requires Sound(cfg) && Reached(cfg, n) && Metered(n, id)
    ensures var s := n.sessions[id]; var counted := CountedNs(s, n.clock);
      && counted <= s.book.activeNs
      && s.ledger.burned * SECOND <= s.ledger.price * counted <= s.ledger.price * s.book.activeNs
      && (!s.book.clamped ==>
            s.ledger.price * counted <= s.ledger.burned * SECOND + s.book.ticks * (s.ledger.price * (SECOND - 1)))
  {
    ReachedSession(cfg, n, id);
    var s := n.sessions[id];
    PricedRunning(s.ledger.price, s.book.watch.used, CountedNs(s, n.clock), s.book.activeNs, s.book.ticks, s.book.clamped);
  }

  lemma PricedRunning(p: nat, used: nat, counted: int, active: int, ticks: nat, clamped: bool)
    requires used * SECOND <= counted <= active
    requires !clamped ==> counted <= used * SECOND + ticks * (SECOND - 1)
    ensures (p * used) * SECOND <= p * counted <= p * active
    ensures !clamped ==> p * counted <= (p * used) * SECOND + ticks * (p * (SECOND - 1))
  {
    MulLe(p, used * SECOND, counted);
    MulLe(p, counted, active);
    assert p * (used * SECOND) == (p * used) * SECOND;
    if !clamped {
      MulLe(p, counted, used * SECOND + ticks * (SECOND - 1));
      assert p * (ticks * (SECOND - 1)) == ticks * (p * (SECOND - 1));
    }
  }

  /** Expiry is the last tick plus what the credit buys, or pinned once it buys nothing. */
  lemma ExpiryFollowsCredit(cfg: Terms, n: Node, id: Id)
    requires Sound(cfg) && Reached(cfg, n) && Live(n, id)
    ensures var l := n.sessions[id].ledger;
      && l.metered && (l.status == Active || l.status == Paused) && (l.pausedAt.Some? <==> l.status == Paused)
      && (l.SecondsRemaining() > 0 ==> l.status == Active && l.expiresAt == l.lastTickAt + l.SecondsRemaining() * SECOND)
      && (l.SecondsRemaining() == 0 ==> l.exhausted && l.expiresAt <= l.lastTickAt <= n.clock)
  {
    ReachedSession(cfg, n, id);
  }

  /** What the provider said last about taking new sessions. */
  function LastSaid(es: seq<Event>, before: bool): bool {
    if es == [] then before
    else
      var last := es[|es| - 1].action;
      if last.SetPaused? then last.on else LastSaid(es[..|es| - 1], before)
  }

  lemma {:induction false} LastSaidOnwards(es: seq<Event>, before: bool)
    requires es != []
    ensures LastSaid(es, before) == LastSaid(es[1..], if es[0].action.SetPaused? then es[0].action.on else before)
    decreases |es|
  {
    var init := es[..|es| - 1];
    if init != [] {
      LastSaidOnwards(init, before);
      assert es[1..][..|es[1..]| - 1] == init[1..];
    } else {
      assert es[1..] == [];
    }
  }

  /** A node is paused exactly when its provider paused it last; nothing else changes that. */
  lemma {:induction false} PausedIffSaidLast(cfg: Terms, n: Node, es: seq<Event>)
    requires Sound(cfg) && LegalRun(cfg, n, es)
    ensures Run(cfg, n, es).paused == LastSaid(es, n.paused)
    decreases |es|
  {
    if es != [] {
      LastSaidOnwards(es, n.paused);
      PausedIffSaidLast(cfg, Step(cfg, n, es[0]), es[1..]);
    }
  }

  /** Until it is taken back, a pause opens nothing, whoever asks, while what runs goes on as ever. */
  lemma {:induction false} PausedNodesOpenNothing(cfg: Terms, n: Node, es: seq<Event>)
    requires Sound(cfg) && LegalRun(cfg, n, es) && n.paused
    requires forall i | 0 <= i < |es| :: es[i].action.SetPaused? ==> es[i].action.on
    ensures Run(cfg, n, es).paused && Run(cfg, n, es).sessions.Keys == n.sessions.Keys
    decreases |es|
  {
    if es != [] {
      var after := Step(cfg, n, es[0]);
      PausedStep(cfg, Advance(n, es[0].at), es[0].action);
      PausedNodesOpenNothing(cfg, after, es[1..]);
    }
  }

  lemma PausedStep(cfg: Terms, n: Node, act: Action)
    requires Sound(cfg) && n.paused && (act.SetPaused? ==> act.on)
    ensures Act(cfg, n, act).paused && Act(cfg, n, act).sessions.Keys == n.sessions.Keys
  {
    if act.Create? {
      ServedOrRefused(cfg, SlotTaken(n), n.paused, act.seconds, n.clock, act.env);
    }
  }

  /** A live session's ledger after a step is one of these, and nothing else touches it. */
  lemma StepOnLiveSession(cfg: Terms, n: Node, e: Event, id: Id)
    requires Sound(cfg) && NodeInv(cfg, n) && Legal(n, e) && Live(n, id)
    ensures id in Step(cfg, n, e).sessions
    ensures var a := Advance(n, e.at); var s := a.sessions[id]; var after := Step(cfg, n, e).sessions[id];
      && s.ledger == n.sessions[id].ledger && SessionInv(cfg, s, e.at)
      && match e.action
         case Sweep(refund) => after == SweepSession(cfg, id, s, e.at, refund).session
         case Renew(i, authorized, pay) =>
           after == if authorized && i == id then TopUpTurn(cfg, id, s, e.at, pay).session else s
         case Stop(i, authorized, refund) =>
           after == if authorized && i == id then StopSession(id, s, e.at, refund).session else s
         case Evict(status, refund) => after == EvictSession(id, s, status, e.at, refund).session
         case Create(_, _, _) => after == s
         case SetPaused(_) => after == s
  {
    AdvanceKeeps(cfg, n, e.at);
    var a := Advance(n, e.at);
    assert Live(a, id) && a.active == Some(id);
    if e.action.Create? {
      ServedOrRefused(cfg, SlotTaken(a), a.paused, e.action.seconds, a.clock, e.action.env);
    }
  }

  /** No action touches a session that is not in the slot. */
  lemma ActTouchesOnlyTheSlot(cfg: Terms, n: Node, a: Action, id: Id)
    requires Sound(cfg) && id in n.sessions && n.active != Some(id)
    requires a.Create? ==> a.id != id
    ensures id in Act(cfg, n, a).sessions && Act(cfg, n, a).sessions[id] == n.sessions[id]
  {
    match a
    case Create(_, _, _) =>
    case Renew(_, _, _) =>
    case Sweep(_) =>
    case Stop(_, _, _) =>
    case Evict(_, _) =>
    case SetPaused(_) =>
  }

  /** A session that is over is left exactly as it is by every step. */
  lemma StepOnEndedSession(cfg: Terms, n: Node, e: Event, id: Id)
    requires Sound(cfg) && NodeInv(cfg, n) && Legal(n, e)
    requires id in n.sessions && n.sessions[id].ledger.status.IsTerminal()
    ensures id in Step(cfg, n, e).sessions && Step(cfg, n, e).sessions[id] == n.sessions[id]
  {
    assert Advance(n, e.at).sessions[id] == n.sessions[id];
    ActTouchesOnlyTheSlot(cfg, Advance(n, e.at), e.action, id);
  }

  /** Terminal is for good: no later run changes the ledger or makes another transfer. */
  lemma {:induction false} EndedSessionsNeverChange(cfg: Terms, n: Node, es: seq<Event>, id: Id)
    requires Sound(cfg) && NodeInv(cfg, n) && LegalRun(cfg, n, es)
    requires id in n.sessions && n.sessions[id].ledger.status.IsTerminal()
    ensures id in Run(cfg, n, es).sessions && Run(cfg, n, es).sessions[id] == n.sessions[id]
    decreases |es|
  {
    if es != [] {
      StepKeeps(cfg, n, es[0]);
      StepOnEndedSession(cfg, n, es[0], id);
      EndedSessionsNeverChange(cfg, Step(cfg, n, es[0]), es[1..], id);
    }
  }

  /** Once credit buys no second, expiry does not move until a payment does. */
  lemma PinnedExpiryStaysPinned(cfg: Terms, n: Node, e: Event, id: Id)
    requires Sound(cfg) && Reached(cfg, n) && Legal(n, e)
    requires Live(n, id) && n.sessions[id].ledger.SecondsRemaining() == 0
    ensures id in Step(cfg, n, e).sessions
    ensures var after := Step(cfg, n, e).sessions[id];
      after.book.payments == n.sessions[id].book.payments ==> after.ledger.expiresAt == n.sessions[id].ledger.expiresAt
  {
    ReachedKept(cfg, n);
    StepOnLiveSession(cfg, n, e, id);
    var s := Advance(n, e.at).sessions[id];
    match e.action
    case Sweep(refund) => SweepSettles(cfg, id, s, refund, e.at);
    case Renew(_, _, pay) => TopUpEndsNothing(cfg, id, s, e.at, pay);
    case Stop(_, _, refund) => StopSettles(cfg, id, s, refund, e.at);
    case Evict(status, refund) => EvictSettles(cfg, id, s, status, refund, e.at);
    case _ =>
  }

  /** The sweep's verdict on a running session, from its ledger after the meter has run. */
  lemma SweepVerdict(cfg: Terms, n: Node, e: Event, id: Id)
    requires Sound(cfg) && Reached(cfg, n) && Legal(n, e) && e.action.Sweep?
    requires Live(n, id) && n.sessions[id].ledger.status == Active
    ensures id in Step(cfg, n, e).sessions
    ensures var burned := n.sessions[id].ledger.Burn(e.at); var after := Step(cfg, n, e).sessions[id].ledger;
      && (after.status == Expired <==> burned.SecondsRemaining() == 0 && burned.FullyPaid())
      && (after.status == Paused <==>
            burned.SecondsRemaining() == 0 && !burned.FullyPaid() && e.at - burned.expiresAt >= 30_000_000_000)
      && (after.status == Active || after.status == Paused || after.status == Expired)
  {
    ReachedKept(cfg, n);
    StepOnLiveSession(cfg, n, e, id);
    SweepRunning(cfg, id, Advance(n, e.at).sessions[id], e.action.refund, e.at);
  }

  /** The sweep's verdict on a frozen session: reaped once the grace has passed since the freeze, else left as it is. */
  lemma FrozenVerdict(cfg: Terms, n: Node, e: Event, id: Id)
    requires Sound(cfg) && Reached(cfg, n) && Legal(n, e) && e.action.Sweep?
    requires Live(n, id) && n.sessions[id].ledger.status == Paused
    ensures id in Step(cfg, n, e).sessions && n.sessions[id].ledger.pausedAt.Some?
    ensures var l, after := n.sessions[id].ledger, Step(cfg, n, e).sessions[id];
      if e.at - l.pausedAt.value >= cfg.graceMinutes * 60_000_000_000 then
        after.ledger.status == Expired && SettledAs(after, l.credit, e.action.refund)
      else
        after.ledger == l && after.book == n.sessions[id].book
  {
    ReachedKept(cfg, n);
    StepOnLiveSession(cfg, n, e, id);
    SweepFrozen(cfg, id, Advance(n, e.at).sessions[id], e.action.refund, e.at);
  }

  /**
   * The renter's stop and the provider's eviction, two handlers with guards of their own, at one
   * instant: the same last charge, the same split of the money, the same refund and the same message.
   */
  lemma StopAndEvictionAgree(cfg: Terms, n: Node, at: int, id: Id, status: Status, refund: Refund)
    requires Sound(cfg) && Reached(cfg, n) && Live(n, id) && n.clock <= at && status.IsTerminal()
    ensures var stopped := Step(cfg, n, Event(at, Stop(id, true, refund)));
      var evicted := Step(cfg, n, Event(at, Evict(status, refund)));
      && id in stopped.sessions && id in evicted.sessions
      && stopped.sessions[id].ledger.(status := status) == evicted.sessions[id].ledger
      && stopped.sessions[id].book == evicted.sessions[id].book
      && stopped.handed == evicted.handed
      && stopped.active == evicted.active == None
      && stopped.sessions[id].ledger.burned == EarnedAt(n.sessions[id].ledger, at)
      && SettledAs(stopped.sessions[id], Owed(n.sessions[id].ledger, at), refund)
      && SettledAs(evicted.sessions[id], Owed(n.sessions[id].ledger, at), refund)
  {
    ReachedKept(cfg, n);
    AdvanceKeeps(cfg, n, at);
    var a := Advance(n, at);
    var s := a.sessions[id];
    assert Live(a, id) && a.active == Some(id) && s.ledger.metered;
    StopSplits(cfg, id, s, refund, at);
    EvictSplits(cfg, id, s, status, refund, at);
    StopAndEvictDifferInStatusOnly(cfg, id, s, status, at, refund);
    StopAndEvictCommit(cfg, n, at, id, status, refund);
  }

  lemma StopAndEvictCommit(cfg: Terms, n: Node, at: int, id: Id, status: Status, refund: Refund)
    requires Sound(cfg) && NodeInv(cfg, Advance(n, at)) && Live(Advance(n, at), id)
    ensures var a := Advance(n, at); var s := a.sessions[id];
      && a.active == Some(id)
      && Step(cfg, n, Event(at, Stop(id, true, refund))) == Commit(a, id, StopSession(id, s, at, refund))
      && Step(cfg, n, Event(at, Evict(status, refund))) == Commit(a, id, EvictSession(id, s, status, at, refund))
  {
    assert SessionInv(cfg, Advance(n, at).sessions[id], at);
  }

  /** How an event answers for the transfer of a refund. */
  function RefundOf(a: Action): Refund {
    match a
    case Sweep(refund) => refund
    case Stop(_, _, refund) => refund
    case Evict(_, refund) => refund
    case _ => NoSidecar
  }

  /**
   * The one settlement a session gets. When a step ends it, and however the node runs on, it
   * ends up settled exactly when nothing was owed or that step's own transfer went through. A
   * failed or impossible transfer is never retried: the credit stays owed, whole and pending.
   */
  lemma SettledOnceOrNever(cfg: Terms, n: Node, e: Event, id: Id, later: seq<Event>)
    requires Sound(cfg) && Reached(cfg, n) && Legal(n, e) && Live(n, id) && !Live(Step(cfg, n, e), id)
    requires LegalRun(cfg, Step(cfg, n, e), later)
    ensures id in Run(cfg, Step(cfg, n, e), later).sessions
    ensures SettledAs(Run(cfg, Step(cfg, n, e), later).sessions[id], Owed(n.sessions[id].ledger, e.at), RefundOf(e.action))
  {
    ReachedKept(cfg, n);
    StepOnLiveSession(cfg, n, e, id);
    var s := Advance(n, e.at).sessions[id];
    match e.action {
      case Sweep(refund) => SweepSettles(cfg, id, s, refund, e.at);
      case Renew(_, _, pay) => TopUpEndsNothing(cfg, id, s, e.at, pay);
      case Stop(_, _, refund) => StopSettles(cfg, id, s, refund, e.at);
      case Evict(status, refund) => EvictSettles(cfg, id, s, status, refund, e.at);
      case _ =>
    }
    StepKeeps(cfg, n, e);
    EndedSessionsNeverChange(cfg, Step(cfg, n, e), later, id);
  }
}

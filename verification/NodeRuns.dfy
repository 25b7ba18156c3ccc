/** What every reachable state of a node satisfies, over all runs of its handlers and its sweep. */
module NodeRuns {
  import opened Common
  import opened Metering
  import opened LeaseConfig
  import opened Sessions
  import opened OpeningLaws
  import opened SessionInvariants
  import opened AuditTopic

  function PaidBy(n: Node, id: Id): nat {
    if id in n.sessions then Paid(n.sessions[id].book.payments) else 0
  }

  function BurnedBy(n: Node, id: Id): nat {
    if id in n.sessions then n.sessions[id].ledger.burned else 0
  }

  function SentBy(n: Node, id: Id): nat {
    if id in n.sessions then n.sessions[id].ledger.refunded else 0
  }

  predicate Live(n: Node, id: Id) {
    id in n.sessions && !n.sessions[id].ledger.status.IsTerminal()
  }

  ghost predicate SessionsKept(cfg: Terms, n: Node) {
    forall id | id in n.sessions :: SessionInv(cfg, n.sessions[id], n.clock)
  }

  /** At most one session is live, and it is the one in the slot. */
  ghost predicate SlotKept(n: Node) {
    && (n.active.Some? ==> Live(n, n.active.value))
    && (forall id: Id | Live(n, id) :: n.active == Some(id))
  }

  ghost predicate TopicKept(n: Node) {
    Balanced(n.handed) && forall id: Id :: Told(n.handed, id, PaidBy(n, id), BurnedBy(n, id), SentBy(n, id))
  }

  ghost predicate NodeInv(cfg: Terms, n: Node) {
    SessionsKept(cfg, n) && SlotKept(n) && TopicKept(n)
  }

  lemma AdvanceKeeps(cfg: Terms, n: Node, at: int)
    requires Sound(cfg) && NodeInv(cfg, n) && n.clock <= at
    ensures NodeInv(cfg, Advance(n, at))
    ensures Advance(n, at).sessions.Keys == n.sessions.Keys
    ensures forall id | id in n.sessions :: Advance(n, at).sessions[id].ledger == n.sessions[id].ledger
  {
    var a := Advance(n, at);
    forall id | id in a.sessions ensures SessionInv(cfg, a.sessions[id], a.clock) {
      ElapseKeeps(cfg, n.sessions[id], n.clock, at);
    }
    forall id: Id ensures Told(a.handed, id, PaidBy(a, id), BurnedBy(a, id), SentBy(a, id)) {
      assert PaidBy(a, id) == PaidBy(n, id) && BurnedBy(a, id) == BurnedBy(n, id) && SentBy(a, id) == SentBy(n, id);
    }
  }

  /** Committing a turn of the session in the slot. */
  lemma CommitKeeps(cfg: Terms, n: Node, id: Id, t: Turn)
    requires Sound(cfg) && NodeInv(cfg, n) && Live(n, id)
    requires SessionInv(cfg, t.session, n.clock)
    requires Balanced(n.handed + t.published)
    requires Told(n.handed + t.published, id, Paid(t.session.book.payments), t.session.ledger.burned, t.session.ledger.refunded)
    requires forall i | 0 <= i < |t.published| :: t.published[i].id == id
    ensures NodeInv(cfg, Commit(n, id, t))
  {
    var c := Commit(n, id, t);
    forall other: Id ensures Told(c.handed, other, PaidBy(c, other), BurnedBy(c, other), SentBy(c, other)) {
      if other != id {
        assert PaidBy(c, other) == PaidBy(n, other) && BurnedBy(c, other) == BurnedBy(n, other) && SentBy(c, other) == SentBy(n, other);
        AppendOthers(n.handed, t.published, other, PaidBy(n, other), BurnedBy(n, other), SentBy(n, other));
      }
    }
    forall other: Id | Live(c, other) ensures c.active == Some(other) {
      assert other != id ==> Live(n, other);
    }
    assert n.active == Some(id);
  }

  lemma HonestCommitKeeps(cfg: Terms, n: Node, id: Id, t: Turn)
    requires Sound(cfg) && NodeInv(cfg, n) && Live(n, id)
    requires HonestTurn(cfg, id, n.sessions[id], t, n.clock)
    ensures NodeInv(cfg, Commit(n, id, t))
  {
    var s := n.sessions[id];
    assert Told(n.handed, id, PaidBy(n, id), BurnedBy(n, id), SentBy(n, id));
    var sent := t.session.ledger.refunded - s.ledger.refunded;
    AppendReports(n.handed, id, t.published, Paid(s.book.payments), s.ledger.burned, t.session.ledger.burned,
                  s.ledger.refunded, sent);
    ReportsNameTheirSession(id, t.published, Paid(s.book.payments), s.ledger.burned, t.session.ledger.burned, sent);
    CommitKeeps(cfg, n, id, t);
  }

  /** The seconds a session has left, at its price, are its credit. */
  lemma CreditSeconds(s: Session)
    requires MoneyAddsUp(s)
    ensures s.ledger.credit == s.ledger.price * s.ledger.SecondsRemaining()
  {
    if s.ledger.price > 0 {
      CounterReadings(s.ledger, s.book.watch);
    }
  }

  lemma RenewKeeps(cfg: Terms, n: Node, id: Id, pay: PayEnv)
    requires Sound(cfg) && NodeInv(cfg, n) && Live(n, id) && n.sessions[id].ledger.metered
    ensures NodeInv(cfg, Commit(n, id, TopUpTurn(cfg, id, n.sessions[id], n.clock, pay)))
  {
    var s := n.sessions[id];
    var t := TopUpTurn(cfg, id, s, n.clock, pay);
    TopUpKeeps(cfg, id, s, n.clock, pay);
    TopUpSucceedsIff(cfg, s.ledger, n.clock, pay);
    TopUpBanksTheChunk(cfg, s.ledger, n.clock, pay);
    assert Told(n.handed, id, PaidBy(n, id), BurnedBy(n, id), SentBy(n, id));
    if t.published == [] {
      assert n.handed + t.published == n.handed;
    } else {
      var bought := TopUpSession(cfg, s.ledger, n.clock, pay).bought;
      PaidAppend(s.book.payments, Payment(bought, s.ledger.price * bought));
      var after := t.session;
      assert MeteredInv(cfg, after, n.clock);
      CreditSeconds(after);
      AppendMessage(n.handed, t.published[0], Paid(s.book.payments), s.ledger.burned, s.ledger.refunded);
    }
    CommitKeeps(cfg, n, id, t);
  }

  /** What a conclusion of the opening leaves satisfies the invariant from the start. */
  ghost predicate StartsRight(cfg: Terms, seconds: int, l: Ledger, now: int)
    requires Sound(cfg) && LengthAccepted(cfg, seconds)
  {
    var s := Session(l, NewBook(cfg, seconds, now, l));
    && SessionInv(cfg, s, now) && (l.metered <==> !l.status.IsTerminal())
    && l.burned == 0 && l.refunded == 0 && Paid(s.book.payments) == l.credit
  }

  lemma BankedStartsRight(cfg: Terms, seconds: int, minutes: int, now: int)
    requires Sound(cfg) && LengthAccepted(cfg, seconds) && cfg.price.Some?
    ensures StartsRight(cfg, seconds, Concluded(cfg, seconds, NewLease(now, minutes), now, true), now)
  {
    var price: nat, chunk := cfg.price.value, SessionChunk(cfg, seconds);
    AcceptedLengthsFitTheContainer(cfg, seconds);
    MulLe(price, 0, chunk);
    assert Paid([Payment(chunk, price * chunk)]) == price * chunk by {
      PaidAppend([], Payment(chunk, price * chunk));
      assert [] + [Payment(chunk, price * chunk)] == [Payment(chunk, price * chunk)];
    }
    SyncExpirySyncs(NewLease(now, minutes).SetStatus(Active)
                    .(metered := true, price := price, credit := price * chunk, burned := 0, lastTickAt := now, settle := Pending));
  }

  /** A session opened in a create request satisfies the invariant from the start. */
  lemma OpenedSessionStartsRight(cfg: Terms, n: Node, seconds: int, env: OpenEnv)
    requires Sound(cfg)
    ensures var o := CreateSession(cfg, SlotTaken(n), n.paused, seconds, n.clock, env);
      o.lease.Some? ==> !SlotTaken(n) && LengthAccepted(cfg, seconds) && StartsRight(cfg, seconds, o.lease.value, n.clock)
  {
    ServedOrRefused(cfg, SlotTaken(n), n.paused, seconds, n.clock, env);
    var o := CreateSession(cfg, SlotTaken(n), n.paused, seconds, n.clock, env);
    if o.lease.Some? {
      var minutes := SecondsToMinutes(SessionChunk(cfg, seconds));
      ServedLease(cfg, seconds, NewLease(n.clock, minutes), n.clock, env, [Call(Verify, true)]);
      if o.code == 200 {
        BankedStartsRight(cfg, seconds, minutes, n.clock);
      }
    }
  }

  /** The messages handed over once a new lease's opening, if it was paid for, has been announced. */
  lemma AnnouncedOpening(cfg: Terms, n: Node, id: Id, seconds: int, l: Ledger)
    requires Sound(cfg) && NodeInv(cfg, n) && id !in n.sessions && LengthAccepted(cfg, seconds)
    requires StartsRight(cfg, seconds, l, n.clock)
    ensures var handed := n.handed + if l.metered then [FundedMessage(id, l.credit, l)] else [];
      && Balanced(handed)
      && Told(handed, id, l.credit, 0, 0)
      && forall other: Id | other != id :: Told(handed, other, PaidBy(n, other), BurnedBy(n, other), SentBy(n, other))
  {
    var ms := if l.metered then [FundedMessage(id, l.credit, l)] else [];
    assert Told(n.handed, id, PaidBy(n, id), BurnedBy(n, id), SentBy(n, id));
    if l.metered {
      CreditSeconds(Session(l, NewBook(cfg, seconds, n.clock, l)));
      AppendMessage(n.handed, ms[0], 0, 0, 0);
    } else {
      assert n.handed + ms == n.handed;
    }
    forall other: Id | other != id
      ensures Told(n.handed + ms, other, PaidBy(n, other), BurnedBy(n, other), SentBy(n, other))
    {
      AppendOthers(n.handed, ms, other, PaidBy(n, other), BurnedBy(n, other), SentBy(n, other));
    }
  }

  lemma CreateKeeps(cfg: Terms, n: Node, id: Id, seconds: int, env: OpenEnv)
    requires Sound(cfg) && NodeInv(cfg, n) && id !in n.sessions
    ensures NodeInv(cfg, CreateStep(cfg, n, id, seconds, env))
  {
    OpenedSessionStartsRight(cfg, n, seconds, env);
    var o := CreateSession(cfg, SlotTaken(n), n.paused, seconds, n.clock, env);
    if o.lease.Some? {
      var c := CreateStep(cfg, n, id, seconds, env);
      AnnouncedOpening(cfg, n, id, seconds, o.lease.value);
      forall other: Id ensures Told(c.handed, other, PaidBy(c, other), BurnedBy(c, other), SentBy(c, other)) {
        if other != id {
          assert PaidBy(c, other) == PaidBy(n, other) && BurnedBy(c, other) == BurnedBy(n, other);
          assert SentBy(c, other) == SentBy(n, other);
        }
      }
      forall other: Id | Live(c, other) ensures c.active == Some(other) {
        assert other != id ==> Live(n, other);
      }
    }
  }

  lemma SweepKeeps(cfg: Terms, n: Node, refund: Refund)
    requires Sound(cfg) && NodeInv(cfg, n)
    ensures NodeInv(cfg, SweepStep(cfg, n, refund))
  {
    if n.active.Some? {
      var id := n.active.value;
      SweepIsHonest(cfg, id, n.sessions[id], n.clock, refund);
      HonestCommitKeeps(cfg, n, id, SweepSession(cfg, id, n.sessions[id], n.clock, refund));
    }
  }

  lemma StopKeeps(cfg: Terms, n: Node, id: Id, authorized: bool, refund: Refund)
    requires Sound(cfg) && NodeInv(cfg, n)
    ensures NodeInv(cfg, StopStep(n, id, authorized, refund))
  {
    if Authorized(n, id, authorized) {
      StopIsHonest(cfg, id, n.sessions[id], n.clock, refund);
      HonestCommitKeeps(cfg, n, id, StopSession(id, n.sessions[id], n.clock, refund));
    }
  }

  lemma EvictKeeps(cfg: Terms, n: Node, status: Status, refund: Refund)
    requires Sound(cfg) && NodeInv(cfg, n) && status.IsTerminal()
    ensures NodeInv(cfg, EvictStep(n, status, refund))
  {
    if SlotTaken(n) {
      var id := n.active.value;
      EvictIsHonest(cfg, id, n.sessions[id], status, n.clock, refund);
      HonestCommitKeeps(cfg, n, id, EvictSession(id, n.sessions[id], status, n.clock, refund));
    }
  }

  lemma PauseKeeps(cfg: Terms, n: Node, on: bool)
    requires NodeInv(cfg, n)
    ensures NodeInv(cfg, n.(paused := on))
  {
    var p := n.(paused := on);
    assert forall id: Id :: PaidBy(p, id) == PaidBy(n, id) && BurnedBy(p, id) == BurnedBy(n, id) && SentBy(p, id) == SentBy(n, id);
    assert forall id: Id :: Live(p, id) == Live(n, id);
  }

  lemma ActKeeps(cfg: Terms, n: Node, a: Action)
    requires Sound(cfg) && NodeInv(cfg, n)
    requires a.Create? ==> a.id !in n.sessions
    requires a.Evict? ==> a.status.IsTerminal()
    ensures NodeInv(cfg, Act(cfg, n, a))
  {
    match a
    case Create(id, seconds, env) => CreateKeeps(cfg, n, id, seconds, env);
    case Renew(id, authorized, pay) =>
      if Authorized(n, id, authorized) {
        RenewKeeps(cfg, n, id, pay);
      }
    case Sweep(refund) => SweepKeeps(cfg, n, refund);
    case Stop(id, authorized, refund) => StopKeeps(cfg, n, id, authorized, refund);
    case Evict(status, refund) => EvictKeeps(cfg, n, status, refund);
    case SetPaused(on) => PauseKeeps(cfg, n, on);
  }

  lemma StepKeeps(cfg: Terms, n: Node, e: Event)
    requires Sound(cfg) && NodeInv(cfg, n) && Legal(n, e)
    ensures NodeInv(cfg, Step(cfg, n, e))
  {
    AdvanceKeeps(cfg, n, e.at);
    ActKeeps(cfg, Advance(n, e.at), e.action);
  }

  lemma {:induction false} RunKeeps(cfg: Terms, n: Node, es: seq<Event>)
    requires Sound(cfg) && NodeInv(cfg, n) && LegalRun(cfg, n, es)
    ensures NodeInv(cfg, Run(cfg, n, es))
    decreases |es|
  {
    if es != [] {
      StepKeeps(cfg, n, es[0]);
      RunKeeps(cfg, Step(cfg, n, es[0]), es[1..]);
    }
  }

  lemma FreshKept(cfg: Terms, now: int)
    ensures NodeInv(cfg, Fresh(now))
  {
  }
}

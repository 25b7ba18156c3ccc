/**
 * The server and its runner as one object: the lease table, the slot, the messages handed
 * to the audit publisher, and the handlers that change them step by step. Every handler is proved
 * to take the node exactly where its step function says, and a server that serves a run of events
 * is therefore in the state `Sessions.Run` gives, which is what the results about runs are stated
 * over.
 */
module NodeServer {
  import opened Common
  import opened Decimal
  import opened Metering
  import opened LeaseConfig
  import opened Sessions
  import opened OpeningLaws
  import opened SessionInvariants
  import opened NodeRuns
  import opened SessionTheorems
  import opened LeaseObject

  lemma UpdateTwice(m: map<Id, Session>, id: Id, first: Session, second: Session)
    ensures m[id := first][id := second] == m[id := second]
  {
  }

  lemma AppendTwice(handed: seq<Audit>, first: seq<Audit>, second: seq<Audit>)
    ensures handed + first + second == handed + (first + second)
  {
  }

  /** A node that differs from `n` as committing the turn says is the node the commit gives. */
  lemma CommitIs(n: Node, id: Id, t: Turn, after: Node)
    requires id in n.sessions && after.sessions == n.sessions[id := t.session] && after.handed == n.handed + t.published
    requires after.paused == n.paused && after.clock == n.clock
    requires var ended := !n.sessions[id].ledger.status.IsTerminal() && t.session.ledger.status.IsTerminal();
      after.active == if ended && n.active == Some(id) then None else n.active
    ensures after == Commit(n, id, t)
  {
  }

  /** A top-up never ends a lease. */
  lemma TopUpTurnStatus(cfg: Terms, id: Id, s: Session, now: int, pay: PayEnv)
    requires Sound(cfg)
    ensures !s.ledger.status.IsTerminal() ==> !TopUpTurn(cfg, id, s, now, pay).session.ledger.status.IsTerminal()
  {
    TopUpSucceedsIff(cfg, s.ledger, now, pay);
    TopUpBanksTheChunk(cfg, s.ledger, now, pay);
  }

  class Server {
    const cfg: Terms
    var leases: map<Id, Lease>
    var activeLease: Option<Id>
    var handed: seq<Audit>
    var paused: bool
    ghost var sessions: map<Id, Session>
    var clock: int

    /** The lease table holds one object per id, each in the state the node's sessions record. */
    ghost predicate Valid()
      reads this, leases.Values
    {
      && Sound(cfg)
      && sessions.Keys == leases.Keys
      && (forall i | i in leases :: leases[i].id == i && leases[i].Holds(sessions[i].ledger))
    }

    ghost function View(): Node
      reads this
    {
      Node(sessions, activeLease, handed, paused, clock)
    }

    constructor (cfg: Terms, now: int)
      requires Sound(cfg)
      ensures Valid() && View() == Fresh(now) && this.cfg == cfg
    {
      this.cfg := cfg;
      leases, activeLease, handed, paused := map[], None, [], false;
      sessions, clock := map[], now;
    }

    /** The clock reading a handler works with; every running container has run on until then. */
    method ReadClock(at: int)
      requires Valid()
      modifies `sessions, `clock
      ensures Valid() && View() == Advance(old(View()), at)
    {
      sessions := Advance(View(), at).sessions;
      clock := at;
    }

    /** tickMeter. */
    method Tick(id: Id, now: int)
      requires Valid() && id in leases
      modifies `handed, `sessions, leases[id]
      ensures Valid() && sessions == old(sessions)[id := TickMeter(id, old(sessions)[id], now).session]
      ensures handed == old(handed) + TickMeter(id, old(sessions)[id], now).published
    {
      var lease := leases[id];
      var taken, owed := lease.Burn(now);
      var elapsed := lease.Elapsed();
      sessions := sessions[id := BurnSession(sessions[id], now)];
      handed := handed + [Burnt(id, lease.burned, lease.credit, lease.price, elapsed)];
    }

    /** recordSessionSettlement. */
    method RecordSettlement(id: Id, refund: nat, transferred: bool)
      requires Valid() && id in leases
      modifies `handed
      ensures Valid() && handed == old(handed) + [ClosingMessage(id, sessions[id].ledger, refund, transferred)]
    {
      var elapsed := leases[id].Elapsed();
      handed := handed + [Closed(id, leases[id].burned, refund, leases[id].price, elapsed, transferred)];
    }

    /** settleSession: one attempt to return what is owed. */
    method Settle(id: Id, refund: Refund)
      requires Valid() && id in leases
      modifies `handed, `sessions, leases[id]
      ensures Valid() && sessions == old(sessions)[id := SettleSession(id, old(sessions)[id], refund).session]
      ensures handed == old(handed) + SettleSession(id, old(sessions)[id], refund).published
    {
      var lease := leases[id];
      ghost var settled := SettleSession(id, sessions[id], refund).session;
      sessions := sessions[id := settled];
      if !lease.metered || !lease.settle.Pending? {
        return;
      }
      var owed := lease.credit;
      if owed == 0 {
        lease.MarkSettled(owed);
        RecordSettlement(id, owed, false);
      } else if refund.NoSidecar? {
        RecordSettlement(id, owed, false);
      } else if refund.TransferPaid? {
        lease.MarkSettled(owed);
        RecordSettlement(id, owed, true);
      }
    }

    /** The slot after the lease called `id` goes from `before` to `after`. */
    ghost function SlotAfter(id: Id, before: Status, after: Status): Option<Id>
      reads `activeLease
    {
      if !before.IsTerminal() && after.IsTerminal() && activeLease == Some(id) then None else activeLease
    }

    /** StopLease: mark the lease over, then free the slot if it held it. */
    method StopLease(id: Id, status: Status)
      requires Valid() && id in leases && status.IsTerminal()
      modifies `activeLease, `sessions, leases[id]
      ensures Valid()
      ensures sessions == old(sessions)[id := old(sessions)[id].(ledger := old(sessions)[id].ledger.SetStatus(status))]
      ensures activeLease == old(SlotAfter(id, sessions[id].ledger.status, status))
    {
      sessions := sessions[id := sessions[id].(ledger := sessions[id].ledger.SetStatus(status))];
      var changed := leases[id].SetStatus(status);
      if changed && activeLease == Some(id) {
        activeLease := None;
      }
    }

    /** Stop the lease and settle it with the lease still in hand. */
    method Finish(id: Id, status: Status, refund: Refund)
      requires Valid() && id in leases && status.IsTerminal()
      modifies `handed, `sessions, `activeLease, leases[id]
      ensures Valid() && sessions == old(sessions)[id := FinishSession(id, old(sessions)[id], status, refund).session]
      ensures handed == old(handed) + FinishSession(id, old(sessions)[id], status, refund).published
      ensures activeLease == old(SlotAfter(id, sessions[id].ledger.status, status))
    {
      ghost var marked := sessions[id].(ledger := sessions[id].ledger.SetStatus(status));
      StopLease(id, status);
      Settle(id, refund);
      UpdateTwice(old(sessions), id, marked, SettleSession(id, marked, refund).session);
    }

    /** A burn, on the lease and on the session's record. */
    method Charge(id: Id, now: int)
      requires Valid() && id in leases
      modifies `sessions, leases[id]
      ensures Valid() && sessions == old(sessions)[id := BurnSession(old(sessions)[id], now)]
    {
      sessions := sessions[id := BurnSession(sessions[id], now)];
      var taken, owed := leases[id].Burn(now);
    }

    /** The stop handler's sequence: charge a running container, stop, settle. */
    method StopAndSettle(id: Id, now: int, refund: Refund)
      requires Valid() && id in leases
      modifies `handed, `sessions, `activeLease, leases[id]
      ensures Valid() && sessions == old(sessions)[id := StopSession(id, old(sessions)[id], now, refund).session]
      ensures handed == old(handed) + StopSession(id, old(sessions)[id], now, refund).published
      ensures activeLease == old(SlotAfter(id, sessions[id].ledger.status, Stopped))
    {
      if leases[id].status.Active? {
        Charge(id, now);
      }
      ghost var charged := sessions[id];
      Finish(id, Stopped, refund);
      UpdateTwice(old(sessions), id, charged, FinishSession(id, charged, Stopped, refund).session);
      assert sessions == old(sessions)[id := FinishSession(id, charged, Stopped, refund).session];
    }

    /** The eviction's sequence: charge a session whose container runs, stop, settle. */
    method EvictAndSettle(id: Id, status: Status, now: int, refund: Refund)
      requires Valid() && id in leases && status.IsTerminal()
      modifies `handed, `sessions, `activeLease, leases[id]
      ensures Valid() && sessions == old(sessions)[id := EvictSession(id, old(sessions)[id], status, now, refund).session]
      ensures handed == old(handed) + EvictSession(id, old(sessions)[id], status, now, refund).published
      ensures activeLease == old(SlotAfter(id, sessions[id].ledger.status, status))
    {
      if leases[id].metered && leases[id].status.Active? {
        Charge(id, now);
      }
      ghost var charged := sessions[id];
      Finish(id, status, refund);
      UpdateTwice(old(sessions), id, charged, FinishSession(id, charged, status, refund).session);
      assert sessions == old(sessions)[id := FinishSession(id, charged, status, refund).session];
    }

    /** The freeze decision on a running lease. */
    method FreezeOrEnd(id: Id, now: int, refund: Refund)
      requires Valid() && id in leases && leases[id].status.Active?
      modifies `handed, `sessions, `activeLease, leases[id]
      ensures Valid() && sessions == old(sessions)[id := DecideRunning(id, old(sessions)[id], now, refund).session]
      ensures handed == old(handed) + DecideRunning(id, old(sessions)[id], now, refund).published
      ensures activeLease == old(SlotAfter(id, sessions[id].ledger.status,
                                           DecideRunning(id, sessions[id], now, refund).session.ledger.status))
    {
      var remaining, fullyPaid := leases[id].TimeLeft();
      if fullyPaid && remaining == 0 {
        Finish(id, Expired, refund);
      } else if now - leases[id].expiresAt < FREEZE_GRACE {
        sessions := sessions[id := sessions[id]];
      } else {
        Pause(id, now);
      }
    }

    /** PauseLease. */
    method Pause(id: Id, now: int)
      requires Valid() && id in leases
      modifies `sessions, leases[id]
      ensures Valid() && sessions == old(sessions)[id := old(sessions)[id].(ledger := old(sessions)[id].ledger.Freeze(now))]
    {
      sessions := sessions[id := sessions[id].(ledger := sessions[id].ledger.Freeze(now))];
      leases[id].Freeze(now);
    }

    /** The reap decision on a frozen lease. */
    method ReapIfOverGrace(id: Id, now: int, refund: Refund)
      requires Valid() && id in leases
      modifies `handed, `sessions, `activeLease, leases[id]
      ensures Valid() && sessions == old(sessions)[id := DecideFrozen(cfg, id, old(sessions)[id], now, refund).session]
      ensures handed == old(handed) + DecideFrozen(cfg, id, old(sessions)[id], now, refund).published
      ensures activeLease == old(SlotAfter(id, sessions[id].ledger.status,
                                           DecideFrozen(cfg, id, sessions[id], now, refund).session.ledger.status))
    {
      if leases[id].State().PausedFor(now) < cfg.graceMinutes * MINUTE {
        sessions := sessions[id := sessions[id]];
      } else {
        Finish(id, Expired, refund);
      }
    }

    method FreezeOrReap(id: Id, now: int, refund: Refund)
      requires Valid() && id in leases
      modifies `handed, `sessions, `activeLease, leases[id]
      ensures Valid() && sessions == old(sessions)[id := Decide(cfg, id, old(sessions)[id], now, refund).session]
      ensures handed == old(handed) + Decide(cfg, id, old(sessions)[id], now, refund).published
      ensures activeLease == old(SlotAfter(id, sessions[id].ledger.status,
                                           Decide(cfg, id, sessions[id], now, refund).session.ledger.status))
    {
      match leases[id].status {
        case Active => FreezeOrEnd(id, now, refund);
        case Paused => ReapIfOverGrace(id, now, refund);
        case _ => sessions := sessions[id := sessions[id]];
      }
    }

    method MeterIfRunning(id: Id, now: int)
      requires Valid() && id in leases
      modifies `handed, `sessions, leases[id]
      ensures Valid() && sessions == old(sessions)[id := MeterTurn(id, old(sessions)[id], now).session]
      ensures handed == old(handed) + MeterTurn(id, old(sessions)[id], now).published
    {
      if leases[id].metered && leases[id].status.Active? {
        Tick(id, now);
      } else {
        sessions := sessions[id := sessions[id]];
      }
    }

    /** The meter before the freeze decision, for a lease that is not over. */
    method SweepLive(id: Id, now: int, refund: Refund)
      requires Valid() && id in leases && !leases[id].status.IsTerminal()
      modifies `handed, `sessions, `activeLease, leases[id]
      ensures Valid() && sessions == old(sessions)[id := SweepSession(cfg, id, old(sessions)[id], now, refund).session]
      ensures handed == old(handed) + SweepSession(cfg, id, old(sessions)[id], now, refund).published
      ensures activeLease == old(SlotAfter(id, sessions[id].ledger.status,
                                           SweepSession(cfg, id, sessions[id], now, refund).session.ledger.status))
    {
      ghost var metered := MeterTurn(id, sessions[id], now);
      ghost var decided := Decide(cfg, id, metered.session, now, refund);
      MeterIfRunning(id, now);
      FreezeOrReap(id, now, refund);
      UpdateTwice(old(sessions), id, metered.session, decided.session);
      AppendTwice(old(handed), metered.published, decided.published);
    }

    // ---- The handlers, at the clock's reading ----

    /** sweepLeases. */
    method SweepLeases(refund: Refund)
      requires Valid()
      modifies `handed, `sessions, `activeLease, leases.Values
      ensures Valid() && View() == SweepStep(cfg, old(View()), refund)
    {
      if activeLease.None? || activeLease.value !in leases {
        return;
      }
      var id := activeLease.value;
      if leases[id].status.IsTerminal() {
        // A lease that ended some other way may still owe its renter.
        Settle(id, refund);
      } else {
        SweepLive(id, clock, refund);
      }
      CommitIs(old(View()), id, SweepSession(cfg, id, old(sessions)[id], clock, refund), View());
    }

    /** authorizeSession. */
    method Authorize(id: Id, authorized: bool) returns (ok: bool)
      requires Valid()
      ensures ok == Authorized(View(), id, authorized)
    {
      ok := authorized && activeLease == Some(id) && id in leases && leases[id].metered;
    }

    /** handleSessionStop. */
    method HandleSessionStop(id: Id, authorized: bool, refund: Refund)
      requires Valid()
      modifies `handed, `sessions, `activeLease, leases.Values
      ensures Valid() && View() == StopStep(old(View()), id, authorized, refund)
    {
      var ok := Authorize(id, authorized);
      if ok {
        StopAndSettle(id, clock, refund);
        CommitIs(old(View()), id, StopSession(id, old(sessions)[id], clock, refund), View());
      }
    }

    /** EndLease, the provider's eviction. */
    method EndLease(status: Status, refund: Refund)
      requires Valid() && status.IsTerminal()
      modifies `handed, `sessions, `activeLease, leases.Values
      ensures Valid() && View() == EvictStep(old(View()), status, refund)
    {
      if activeLease.None? || activeLease.value !in leases || leases[activeLease.value].status.IsTerminal() {
        return;
      }
      var id := activeLease.value;
      EvictAndSettle(id, status, clock, refund);
      CommitIs(old(View()), id, EvictSession(id, old(sessions)[id], status, clock, refund), View());
    }

    /** Bank a settled top-up, thaw the container if it was frozen, and publish the payment. */
    method BankTopUp(id: Id, chunk: nat, credit: nat)
      requires Valid() && id in leases
      modifies `handed, `sessions, leases[id]
      ensures Valid()
      ensures var s := old(sessions)[id]; var l := s.ledger.AddCredit(credit).Thaw(clock);
        && sessions == old(sessions)[id := Session(l, BookPayment(s, Payment(chunk, credit), clock))]
        && handed == old(handed) + [FundedMessage(id, credit, l)]
    {
      ghost var s := sessions[id];
      sessions := sessions[id := Session(s.ledger.AddCredit(credit).Thaw(clock), BookPayment(s, Payment(chunk, credit), clock))];
      leases[id].AddCredit(credit);
      leases[id].Thaw(clock);
      Announce(id, credit);
    }

    /** The checks a top-up passes before the renter is asked to pay. */
    method ChunkToSell(id: Id) returns (chunk: Option<nat>)
      requires Valid() && id in leases
      ensures chunk == NextChunk(cfg, sessions[id].ledger)
    {
      var lease := leases[id];
      if lease.status.IsTerminal() || !lease.metered || lease.price == 0 {
        return None;
      }
      var paid := (lease.burned + lease.credit) / lease.price;
      var seconds := cfg.chunkSeconds;
      if lease.sessionSeconds > 0 {
        var unpaid := Max(lease.sessionSeconds - paid, 0);
        if unpaid <= 0 {
          return None;
        }
        seconds := Min(seconds, unpaid);
      }
      if paid + seconds > cfg.maxTotalMinutes * 60 {
        return None;
      }
      return Some(seconds);
    }

    /** Charge for a chunk and bank it: challenge, verify, settle, bank. */
    method SellChunk(id: Id, chunk: nat, pay: PayEnv) returns (code: nat, calls: seq<Call>)
      requires Valid() && id in leases && NextChunk(cfg, sessions[id].ledger) == Some(chunk)
      modifies `handed, `sessions, leases[id]
      ensures Valid()
      ensures var t := TopUpSession(cfg, old(sessions)[id].ledger, clock, pay); code == t.code && calls == t.calls
      ensures var t := TopUpTurn(cfg, id, old(sessions)[id], clock, pay);
        sessions == old(sessions)[id := t.session] && handed == old(handed) + t.published
    {
      ChunkAmountReadsBack(sessions[id].ledger, chunk);
      var amount := Print(leases[id].price * chunk);
      var paid := CollectPayment(pay);
      if paid.refusal.Some? {
        code, calls := paid.refusal.value, paid.calls;
        sessions := sessions[id := sessions[id]];
      } else if !pay.settles {
        code, calls := ChallengeCode(pay.requotes), paid.calls + [Call(Stage.Settle, false)];
        sessions := sessions[id := sessions[id]];
      } else {
        var credit := ParseBigInt(amount);
        BankTopUp(id, chunk, credit.value);
        code, calls := 200, paid.calls + [Call(Stage.Settle, true), Call(Bank, true)];
      }
    }

    /** handleTopUpSession. */
    method HandleTopUpSession(id: Id, authorized: bool, pay: PayEnv) returns (code: nat, calls: seq<Call>)
      requires Valid()
      modifies `handed, `sessions, leases.Values
      ensures Valid() && View() == RenewStep(cfg, old(View()), id, authorized, pay)
      ensures if Authorized(old(View()), id, authorized) then
                var t := TopUpSession(cfg, old(sessions)[id].ledger, clock, pay);
                code == t.code && calls == t.calls
              else
                code == 404 && calls == []
    {
      var ok := Authorize(id, authorized);
      if !ok {
        return 404, [];
      }
      var chunk := ChunkToSell(id);
      if chunk.None? {
        code, calls := 409, [];
        sessions := sessions[id := sessions[id]];
      } else {
        code, calls := SellChunk(id, chunk.value, pay);
      }
      TopUpTurnStatus(cfg, id, old(sessions)[id], clock, pay);
      CommitIs(old(View()), id, TopUpTurn(cfg, id, old(sessions)[id], clock, pay), View());
    }

    /** Put a new lease in the table and in the slot. */
    method ClaimSlot(id: Id, minutes: int)
      requires Valid() && id !in leases
      modifies `leases, `activeLease, `sessions
      ensures Valid() && leases.Keys == old(leases.Keys) + {id} && fresh(leases[id])
      ensures forall i | i in old(leases) :: i in leases && leases[i] == old(leases)[i]
      ensures sessions == old(sessions)[id := Session(NewLease(clock, minutes), UnpaidBook(clock))]
      ensures activeLease == Some(id)
    {
      var lease := new Lease(id, clock, minutes);
      leases := leases[id := lease];
      activeLease := Some(id);
      sessions := sessions[id := Session(NewLease(clock, minutes), UnpaidBook(clock))];
    }

    /** Mark a started lease metered by its settled opening chunk, and publish the payment. */
    method BankOpening(id: Id, seconds: int, price: nat, credit: nat)
      requires Valid() && id in leases && LengthAccepted(cfg, seconds)
      requires sessions[id].book == UnpaidBook(clock) && sessions[id].ledger.status.Provisioning?
      modifies `handed, `sessions, leases[id]
      ensures Valid()
      ensures var l := old(sessions)[id].ledger.SetStatus(Active).MarkMetered(clock, price, credit).(sessionSeconds := seconds);
        && sessions == old(sessions)[id := Session(l, NewBook(cfg, seconds, clock, l))]
        && handed == old(handed) + [FundedMessage(id, credit, l)]
    {
      ghost var l := sessions[id].ledger.SetStatus(Active).MarkMetered(clock, price, credit).(sessionSeconds := seconds);
      sessions := sessions[id := Session(l, NewBook(cfg, seconds, clock, l))];
      MeterLease(leases[id], seconds, price, credit);
      Announce(id, credit);
    }

    /** The steps that turn a started lease into a session. */
    method MeterLease(lease: Lease, seconds: int, price: nat, credit: nat)
      modifies lease
      ensures lease.State() ==
              old(lease.State()).SetStatus(Active).MarkMetered(clock, price, credit).(sessionSeconds := seconds)
    {
      var changed := lease.SetStatus(Active);
      lease.MarkMetered(clock, price, credit);
      lease.SetSessionLength(seconds);
    }

    /** recordSessionPayment: the payment, with the credit and the time it leaves on the lease. */
    method Announce(id: Id, amount: nat)
      requires id in leases
      modifies `handed
      ensures handed == old(handed) + [FundedMessage(id, amount, leases[id].State())]
    {
      var lease := leases[id];
      var remaining, fullyPaid := lease.TimeLeft();
      handed := handed + [Opened(id, amount, lease.credit, lease.price, remaining)];
    }

    /** The outside world's part of opening a session: provision, publish, settle. */
    method PublishAndSettle(seconds: int, ghost lease: Ledger, env: OpenEnv, verified: seq<Call>)
      returns (code: nat, calls: seq<Call>)
      requires Sound(cfg) && cfg.price.Some? && LengthAccepted(cfg, seconds)
      ensures var o := ServeLease(cfg, seconds, lease, clock, env, verified); code == o.code && calls == o.calls
    {
      AmountReadsBack(cfg, seconds);
      if !env.provisions {
        return 500, verified + [Call(Start, false)];
      }
      calls := verified + [Call(Start, true)];
      if !env.signs {
        return 502, calls + [Call(Sign, false)];
      }
      if !env.points {
        return 502, calls + [Call(Sign, true), Call(PointAt, false)];
      }
      if !env.reaches {
        return 502, calls + [Call(Sign, true), Call(PointAt, true), Call(Reach, false)];
      }
      calls := calls + [Call(Sign, true), Call(PointAt, true), Call(Reach, true)];
      if !env.pay.settles {
        return ChallengeCode(env.pay.requotes), calls + [Call(Stage.Settle, false)];
      }
      return 200, calls + [Call(Stage.Settle, true), Call(Bank, true)];
    }

    /** The settled amount, read back from the payment's requirements, becomes the credit. */
    method BankSettled(id: Id, seconds: int)
      requires Valid() && id in leases && cfg.price.Some? && LengthAccepted(cfg, seconds)
      requires sessions[id].book == UnpaidBook(clock) && sessions[id].ledger.status.Provisioning?
      modifies `handed, `sessions, leases[id]
      ensures Valid()
      ensures var l := Concluded(cfg, seconds, old(sessions)[id].ledger, clock, true);
        && sessions == old(sessions)[id := Session(l, NewBook(cfg, seconds, clock, l))]
        && handed == old(handed) + [FundedMessage(id, l.credit, l)]
    {
      AmountReadsBack(cfg, seconds);
      var credit := ParseBigInt(Print(cfg.price.value * SessionChunk(cfg, seconds)));
      BankOpening(id, seconds, cfg.price.value, credit.value);
    }

    /** Bank the opening of a claimed lease, or fail it. */
    method Conclude(id: Id, seconds: int, minutes: int, banked: bool)
      requires Valid() && id in leases && activeLease == Some(id)
      requires cfg.price.Some? && LengthAccepted(cfg, seconds)
      requires sessions[id] == Session(NewLease(clock, minutes), UnpaidBook(clock))
      modifies `handed, `sessions, `activeLease, leases[id]
      ensures Valid()
      ensures var l := Concluded(cfg, seconds, NewLease(clock, minutes), clock, banked);
        && sessions == old(sessions)[id := Session(l, NewBook(cfg, seconds, clock, l))]
        && handed == old(handed) + (if l.metered then [FundedMessage(id, l.credit, l)] else [])
        && activeLease == if l.status.IsTerminal() then None else Some(id)
    {
      if banked {
        BankSettled(id, seconds);
      } else {
        StopLease(id, Failed);
      }
    }

    /** StartLease's claim, and everything after it in a create request. */
    method ServeSession(id: Id, seconds: int, env: OpenEnv, verified: seq<Call>) returns (code: nat, calls: seq<Call>)
      requires Valid() && id !in leases && cfg.price.Some? && LengthAccepted(cfg, seconds)
      modifies this
      ensures Valid() && fresh(leases.Values - old(leases.Values)) && paused == old(paused) && clock == old(clock)
      ensures var lease := NewLease(clock, SecondsToMinutes(SessionChunk(cfg, seconds)));
        var o, l := ServeLease(cfg, seconds, lease, clock, env, verified), Concluded(cfg, seconds, lease, clock, code == 200);
        && code == o.code && calls == o.calls
        && sessions == old(sessions)[id := Session(l, NewBook(cfg, seconds, clock, l))]
        && handed == old(handed) + (if l.metered then [FundedMessage(id, l.credit, l)] else [])
        && activeLease == if l.status.IsTerminal() then None else Some(id)
    {
      var minutes := SecondsToMinutes(SessionChunk(cfg, seconds));
      ClaimSlot(id, minutes);
      code, calls := PublishAndSettle(seconds, NewLease(clock, minutes), env, verified);
      Conclude(id, seconds, minutes, code == 200);
      UpdateTwice(old(sessions), id, Session(NewLease(clock, minutes), UnpaidBook(clock)), sessions[id]);
    }

    /** handleCreateSession. */
    method HandleCreateSession(id: Id, seconds: int, env: OpenEnv) returns (code: nat, calls: seq<Call>)
      requires Valid() && id !in leases
      modifies this
      ensures Valid() && fresh(leases.Values - old(leases.Values))
      ensures View() == CreateStep(cfg, old(View()), id, seconds, env)
      ensures var o := CreateSession(cfg, SlotTaken(old(View())), old(paused), seconds, clock, env);
        code == o.code && calls == o.calls
    {
      if !env.attached {
        return 404, [];
      }
      if !env.decodes || !LengthAccepted(cfg, seconds) {
        return 400, [];
      }
      var minutes := SecondsToMinutes(SessionChunk(cfg, seconds));
      var slotTaken := activeLease.Some? && activeLease.value in leases && !leases[activeLease.value].status.IsTerminal();
      if !LeaseSpecAccepted(cfg, minutes, slotTaken, env.specAccepted) {
        return 400, [];
      }
      if paused {
        return 503, [];
      }
      if cfg.price.None? {
        return 500, [];
      }
      var paid := CollectPayment(env.pay);
      if paid.refusal.Some? {
        return paid.refusal.value, paid.calls;
      }
      if !env.mintsId {
        return 500, paid.calls;
      }
      if !LeaseSpecAccepted(cfg, minutes, slotTaken, env.startAccepted) {
        return 500, paid.calls + [Call(Start, false)];
      }
      ServedLease(cfg, seconds, NewLease(clock, minutes), clock, env, paid.calls);
      code, calls := ServeSession(id, seconds, env, paid.calls);
    }

    /** SetPaused: stop or resume selling; a running session is unaffected. */
    method SetPaused(on: bool)
      requires Valid()
      modifies `paused
      ensures Valid() && View() == old(View()).(paused := on)
    {
      paused := on;
    }

    /** The handler of any request, sweep, eviction or pause. */
    method Handle(a: Action)
      requires Valid() && (a.Create? ==> a.id !in leases) && (a.Evict? ==> a.status.IsTerminal())
      modifies this, leases.Values
      ensures Valid() && fresh(leases.Values - old(leases.Values))
      ensures View() == Act(cfg, old(View()), a)
    {
      match a {
        case Create(id, seconds, env) => var code, calls := HandleCreateSession(id, seconds, env);
        case Renew(id, authorized, pay) => var code, calls := HandleTopUpSession(id, authorized, pay);
        case Sweep(refund) => SweepLeases(refund);
        case Stop(id, authorized, refund) => HandleSessionStop(id, authorized, refund);
        case Evict(status, refund) => EndLease(status, refund);
        case SetPaused(on) => SetPaused(on);
      }
    }

    /** One event: the clock is read, then its handler runs. */
    method Serve(e: Event)
      requires Valid() && Legal(View(), e)
      modifies this, leases.Values
      ensures Valid() && fresh(leases.Values - old(leases.Values))
      ensures View() == Step(cfg, old(View()), e)
    {
      ReadClock(e.at);
      Handle(e.action);
    }

    /** A whole run of them, from wherever the node is; what every step keeps, the object keeps. */
    method ServeAll(es: seq<Event>)
      requires Valid() && LegalRun(cfg, View(), es)
      modifies this, leases.Values
      ensures Valid() && View() == Run(cfg, old(View()), es)
      ensures NodeInv(cfg, old(View())) ==> NodeInv(cfg, View())
    {
      for i := 0 to |es|
        invariant Valid() && fresh(leases.Values - old(leases.Values))
        invariant LegalRun(cfg, View(), es[i..]) && Run(cfg, View(), es[i..]) == Run(cfg, old(View()), es)
      {
        assert es[i..][0] == es[i] && es[i..][1..] == es[i + 1..];
        Serve(es[i]);
      }
      if NodeInv(cfg, old(View())) {
        RunKeeps(cfg, old(View()), es);
      }
    }
  }

  /** A node started and run: the object is in a reached state, of which every result on runs speaks. */
  method Operate(cfg: Terms, start: int, es: seq<Event>) returns (node: Server)
    requires Sound(cfg) && LegalRun(cfg, Fresh(start), es)
    ensures node.Valid() && node.cfg == cfg
    ensures node.View() == Run(cfg, Fresh(start), es) && Reached(cfg, node.View())
  {
    node := new Server(cfg, start);
    node.ServeAll(es);
  }
}

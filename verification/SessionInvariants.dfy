/** What every step keeps about one session: its money, its life, its clock, its purchases. */
module SessionInvariants {
  import opened Common
  import opened Decimal
  import opened Metering
  import opened LeaseConfig
  import opened Sessions

  function Paid(payments: seq<Payment>): nat {
    if payments == [] then 0 else Paid(payments[..|payments| - 1]) + payments[|payments| - 1].tinybars
  }

  lemma PaidAppend(payments: seq<Payment>, p: Payment)
    ensures Paid(payments + [p]) == Paid(payments) + p.tinybars
  {
    assert (payments + [p])[..|payments|] == payments;
  }

  /** Conservation: what was paid in is what was earned, what is held, and what went back. */
  ghost predicate MoneyAddsUp(s: Session) {
    && Represents(s.ledger, s.book.watch)
    && Paid(s.book.payments) == s.ledger.burned + s.ledger.credit + s.ledger.refunded
    && Sum(s.book.transfers) == s.ledger.refunded
  }

  /** A live session is pending and has sent nothing back; a settled one is over and empty. */
  ghost predicate LivesOnce(s: Session) {
    var l := s.ledger;
    && (l.status.Active? || l.status.Paused? || l.status.IsTerminal())
    && !l.settle.NotApplicable?
    && (l.settle.Pending? ==> l.refunded == 0 && s.book.watch.back == 0 && s.book.transfers == [])
    && (l.settle.Done? ==> l.status.IsTerminal() && l.credit == 0 && s.book.watch.left == 0 && |s.book.transfers| <= 1)
  }

  /** Expiry follows credit; a frozen session has no second left. */
  ghost predicate OnTime(s: Session, clock: int) {
    var l := s.ledger;
    && l.lastTickAt <= clock
    && (!l.status.IsTerminal() ==> Synced(l))
    && (l.status.Active? ==> l.pausedAt.None?)
    && (l.status.Paused? ==> l.pausedAt.Some? && l.pausedAt.value <= clock && l.SecondsRemaining() == 0)
  }

  /** The i-th payment of a session of `length` seconds bought in chunks of at most `chunk`. */
  function PaymentSeconds(length: int, chunk: int, i: int): int {
    Min(chunk, length - i * chunk)
  }

  /** The payments so far are the plan's first, and every second of them is accounted for. */
  ghost predicate FollowsPlan(cfg: Terms, s: Session) {
    var length, chunk, payments, w := s.ledger.sessionSeconds, cfg.chunkSeconds, s.book.payments, s.book.watch;
    && LengthAccepted(cfg, length)
    && payments != [] && (|payments| - 1) * chunk < length
    && (forall i | 0 <= i < |payments| ::
          && payments[i].seconds == PaymentSeconds(length, chunk, i)
          && payments[i].tinybars == s.ledger.price * payments[i].seconds)
    && w.left + w.used + w.back == Min(length, |payments| * chunk)
  }

  /** Running time the meter has already looked at. */
  function CountedNs(s: Session, clock: int): int {
    s.book.activeNs - if s.ledger.status.Active? then clock - s.book.watch.since else 0
  }

  /** Used seconds never exceed running time; unclamped, they trail it by less than a second a tick. */
  ghost predicate ChargedForRunning(s: Session, clock: int) {
    && s.book.watch.used * SECOND <= CountedNs(s, clock)
    && (!s.book.clamped ==> CountedNs(s, clock) <= s.book.watch.used * SECOND + s.book.ticks * (SECOND - 1))
  }

  ghost predicate MeteredInv(cfg: Terms, s: Session, clock: int) {
    MoneyAddsUp(s) && LivesOnce(s) && OnTime(s, clock) && FollowsPlan(cfg, s) && ChargedForRunning(s, clock)
  }

  /** A lease that never became a session: failed, and no money ever moved. */
  ghost predicate NeverPaid(s: Session) {
    && s.ledger.status == Failed && s.ledger.settle == NotApplicable
    && s.ledger.credit == 0 && s.ledger.burned == 0 && s.ledger.refunded == 0
    && s.book.payments == [] && s.book.transfers == []
  }

  ghost predicate SessionInv(cfg: Terms, s: Session, clock: int) {
    if s.ledger.metered then MeteredInv(cfg, s, clock) else NeverPaid(s)
  }

  // ---- Each step keeps it ----

  lemma ElapseKeeps(cfg: Terms, s: Session, clock: int, at: int)
    requires Sound(cfg) && SessionInv(cfg, s, clock) && clock <= at
    ensures SessionInv(cfg, Elapse(s, at - clock), at)
    ensures CountedNs(Elapse(s, at - clock), at) == CountedNs(s, clock)
  {
  }

  lemma BurnKeeps(cfg: Terms, s: Session, now: int)
    requires Sound(cfg) && MeteredInv(cfg, s, now) && s.ledger.status.Active?
    ensures MeteredInv(cfg, BurnSession(s, now), now)
    ensures BurnSession(s, now).book.watch.since == now
    ensures BurnSession(s, now).ledger.burned >= s.ledger.burned
  {
    BurnRefinesTick(s.ledger, s.book.watch, now);
    BurnPinsExpiry(s.ledger, now);
    MulLe(s.ledger.price, 0, s.book.watch.left);
  }

  lemma FreezeKeeps(cfg: Terms, s: Session, now: int)
    requires Sound(cfg) && MeteredInv(cfg, s, now) && s.ledger.status.Active?
    requires s.book.watch.since == now && s.ledger.SecondsRemaining() == 0
    ensures MeteredInv(cfg, s.(ledger := s.ledger.Freeze(now)), now)
  {
  }

  lemma EndKeeps(cfg: Terms, s: Session, status: Status, now: int)
    requires Sound(cfg) && MeteredInv(cfg, s, now) && status.IsTerminal()
    requires s.ledger.status.Active? ==> s.book.watch.since == now
    ensures MeteredInv(cfg, s.(ledger := s.ledger.SetStatus(status)), now)
  {
  }

  lemma SettleKeeps(cfg: Terms, id: Id, s: Session, refund: Refund, now: int)
    requires Sound(cfg) && MeteredInv(cfg, s, now) && s.ledger.status.IsTerminal()
    ensures MeteredInv(cfg, SettleSession(id, s, refund).session, now)
  {
    if s.ledger.settle.Pending? {
      SumAppend(s.book.transfers, s.ledger.credit);
      if s.ledger.credit == 0 {
        assert s.ledger.price * s.book.watch.left == 0;
      }
    }
  }

  // ---- Topping up ----

  /** The price of a chunk, printed and read back. */
  lemma ChunkAmountReadsBack(l: Ledger, chunk: nat)
    ensures l.price * chunk >= 0 && ParseBigInt(Print(l.price * chunk)) == Some(l.price * chunk)
  {
    MulLe(l.price, 0, chunk);
    ParsePrinted(l.price * chunk);
  }

  /**
   * What a live session with a price can still buy: the plan's next payment, never refused by
   * the node's total cap, until the length is paid for, and then nothing.
   */
  lemma NextChunkIsThePlans(cfg: Terms, s: Session, clock: int)
    requires Sound(cfg) && MeteredInv(cfg, s, clock)
    requires !s.ledger.status.IsTerminal() && s.ledger.price > 0
    ensures var length, k := s.ledger.sessionSeconds, |s.book.payments|;
      && s.ledger.PaidSeconds() == Min(length, k * cfg.chunkSeconds)
      && (s.ledger.FullyPaid() <==> k * cfg.chunkSeconds >= length)
      && NextChunk(cfg, s.ledger) ==
         if k * cfg.chunkSeconds < length then Some(PaymentSeconds(length, cfg.chunkSeconds, k)) else None
  {
    CounterReadings(s.ledger, s.book.watch);
  }

  /**
   * Whatever the ledger, what is for sale never takes a session past the length chosen or the
   * node's total, and nothing is for sale only for one of the reasons given.
   */
  lemma NextChunkFits(cfg: Terms, l: Ledger)
    requires Sound(cfg)
    ensures NextChunk(cfg, l).Some? ==>
              var c := NextChunk(cfg, l).value;
              && 0 < c <= cfg.chunkSeconds && l.PaidSeconds() + c <= cfg.maxTotalMinutes * 60
              && (l.sessionSeconds > 0 ==> l.PaidSeconds() + c <= l.sessionSeconds)
              && (c < cfg.chunkSeconds ==> l.PaidSeconds() + c == l.sessionSeconds)
    ensures NextChunk(cfg, l).None? <==>
              || l.status.IsTerminal() || !l.metered || l.price == 0 || l.FullyPaid()
              || l.PaidSeconds() + Min(cfg.chunkSeconds, if l.sessionSeconds > 0 then l.UnpaidSeconds() else cfg.chunkSeconds)
                 > cfg.maxTotalMinutes * 60
  {
  }

  /** What a top-up does when there is a chunk for sale: banked once paid, and otherwise nothing. */
  lemma ChunkBankedIffPaid(cfg: Terms, l: Ledger, chunk: nat, now: int, env: PayEnv)
    requires Sound(cfg) && NextChunk(cfg, l) == Some(chunk)
    ensures var t := TopUpSession(cfg, l, now, env);
      && (t.code == 200 <==> Pays(env))
      && t.bought == (if Pays(env) then chunk else 0)
      && t.ledger == if Pays(env) then l.AddCredit(l.price * chunk).Thaw(now) else l
  {
    ChunkAmountReadsBack(l, chunk);
  }

  /** A top-up succeeds exactly when there is a chunk for sale and the payment goes through. */
  lemma TopUpSucceedsIff(cfg: Terms, l: Ledger, now: int, env: PayEnv)
    requires Sound(cfg)
    ensures TopUpSession(cfg, l, now, env).code == 200 <==> NextChunk(cfg, l).Some? && Pays(env)
    ensures TopUpSession(cfg, l, now, env).code != 200 ==>
              TopUpSession(cfg, l, now, env).ledger == l && TopUpSession(cfg, l, now, env).bought == 0
  {
    if NextChunk(cfg, l).Some? {
      ChunkBankedIffPaid(cfg, l, NextChunk(cfg, l).value, now, env);
    }
  }

  /** A top-up that succeeds banks exactly the chunk it was priced at. */
  lemma TopUpBanksTheChunk(cfg: Terms, l: Ledger, now: int, env: PayEnv)
    requires Sound(cfg)
    ensures var t := TopUpSession(cfg, l, now, env);
      t.code == 200 ==>
        && l.price > 0 && NextChunk(cfg, l) == Some(t.bought)
        && t.ledger == l.AddCredit(l.price * t.bought).Thaw(now)
  {
    TopUpSucceedsIff(cfg, l, now, env);
    if NextChunk(cfg, l).Some? {
      ChunkBankedIffPaid(cfg, l, NextChunk(cfg, l).value, now, env);
    }
  }

  /** The session as it stands between banking a payment and thawing the container. */
  function Banked(s: Session, seconds: nat): Session {
    var amount := s.ledger.price * seconds;
    Session(s.ledger.AddCredit(amount),
            s.book.(payments := s.book.payments + [Payment(seconds, amount)], watch := s.book.watch.Buy(seconds)))
  }

  lemma BankedMoney(s: Session, seconds: nat)
    requires MoneyAddsUp(s) && s.ledger.price > 0 && seconds > 0
    requires s.ledger.exhausted ==> s.ledger.expiresAt <= s.ledger.lastTickAt
    ensures MoneyAddsUp(Banked(s, seconds))
    ensures Synced(Banked(s, seconds).ledger) && Banked(s, seconds).ledger.SecondsRemaining() > 0
  {
    AddCreditRefinesBuy(s.ledger, s.book.watch, seconds);
    PaidAppend(s.book.payments, Payment(seconds, s.ledger.price * seconds));
    SyncExpirySyncs(s.ledger.(credit := s.ledger.credit + s.ledger.price * seconds));
    CounterReadings(Banked(s, seconds).ledger, Banked(s, seconds).book.watch);
  }

  lemma BankedPlan(cfg: Terms, s: Session, seconds: nat)
    requires Sound(cfg) && FollowsPlan(cfg, s)
    requires |s.book.payments| * cfg.chunkSeconds < s.ledger.sessionSeconds
    requires seconds == PaymentSeconds(s.ledger.sessionSeconds, cfg.chunkSeconds, |s.book.payments|)
    ensures FollowsPlan(cfg, Banked(s, seconds))
  {
    var k, payments := |s.book.payments|, Banked(s, seconds).book.payments;
    assert |payments| == k + 1 && payments[k].seconds == seconds;
    assert (k + 1) * cfg.chunkSeconds == k * cfg.chunkSeconds + cfg.chunkSeconds;
  }

  lemma BankingAddsUp(cfg: Terms, s: Session, clock: int, seconds: nat)
    requires Sound(cfg) && MeteredInv(cfg, s, clock) && !s.ledger.status.IsTerminal()
    requires s.ledger.price > 0 && NextChunk(cfg, s.ledger) == Some(seconds)
    ensures seconds > 0 && MoneyAddsUp(Banked(s, seconds)) && FollowsPlan(cfg, Banked(s, seconds))
    ensures Synced(Banked(s, seconds).ledger) && Banked(s, seconds).ledger.SecondsRemaining() > 0
  {
    NextChunkIsThePlans(cfg, s, clock);
    BankedMoney(s, seconds);
    BankedPlan(cfg, s, seconds);
  }

  /** Thawing restarts the meter's clock and touches no money. */
  lemma ThawTouchesNoMoney(l: Ledger, now: int)
    requires l.metered && Synced(l) && l.status.Paused? && l.lastTickAt <= now
    ensures l.Thaw(now) == l.Thaw(now).(price := l.price, credit := l.credit, burned := l.burned, refunded := l.refunded,
                                        metered := true, sessionSeconds := l.sessionSeconds, settle := l.settle)
    ensures l.Thaw(now).status.Active? && l.Thaw(now).lastTickAt == now && Synced(l.Thaw(now))
    ensures l.Thaw(now).pausedAt.None?
  {
    SyncExpirySyncs(l.(pausedAt := None, status := Active, lastTickAt := now));
  }

  lemma TopUpKeeps(cfg: Terms, id: Id, s: Session, now: int, env: PayEnv)
    requires Sound(cfg) && MeteredInv(cfg, s, now) && !s.ledger.status.IsTerminal()
    ensures var after := TopUpTurn(cfg, id, s, now, env).session;
      MeteredInv(cfg, after, now) && after.ledger.burned == s.ledger.burned
  {
    TopUpSucceedsIff(cfg, s.ledger, now, env);
    TopUpBanksTheChunk(cfg, s.ledger, now, env);
    var t := TopUpSession(cfg, s.ledger, now, env);
    if t.code == 200 {
      BankingAddsUp(cfg, s, now, t.bought);
      if s.ledger.status.Paused? {
        ThawTouchesNoMoney(s.ledger.AddCredit(s.ledger.price * t.bought), now);
      }
    }
  }
}

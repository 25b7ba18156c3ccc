/** What one turn of the sweep, a stop, an eviction or a top-up does to one live session. */
module SessionTurns {
  import opened Common
  import opened Metering
  import opened LeaseConfig
  import opened Sessions
  import opened SessionInvariants

  /** What the node owes back if the session stops at `now`. */
  function Owed(l: Ledger, now: int): nat {
    if l.status.Active? then l.Burn(now).credit else l.credit
  }

  /** A session that ended owing `owed`, after the one attempt to send it back. */
  ghost predicate SettledAs(s: Session, owed: nat, refund: Refund) {
    && s.ledger.status.IsTerminal()
    && (s.ledger.settle == Done <==> owed == 0 || refund == TransferPaid)
    && (s.ledger.settle == Done ==>
          s.ledger.refunded == owed && s.ledger.credit == 0 && s.book.transfers == if owed == 0 then [] else [owed])
    && (s.ledger.settle != Done ==>
          s.ledger.settle == Pending && s.ledger.credit == owed && s.ledger.refunded == 0 && s.book.transfers == [])
  }

  lemma FinishSettles(cfg: Terms, id: Id, s: Session, status: Status, refund: Refund, now: int)
    requires MeteredInv(cfg, s, now) && !s.ledger.status.IsTerminal() && status.IsTerminal()
    ensures SettledAs(FinishSession(id, s, status, refund).session, s.ledger.credit, refund)
    ensures FinishSession(id, s, status, refund).session.ledger.expiresAt == s.ledger.expiresAt
  {
  }

  lemma EvictSettles(cfg: Terms, id: Id, s: Session, status: Status, refund: Refund, now: int)
    requires Sound(cfg) && MeteredInv(cfg, s, now) && !s.ledger.status.IsTerminal() && status.IsTerminal()
    ensures SettledAs(EvictSession(id, s, status, now, refund).session, Owed(s.ledger, now), refund)
    ensures s.ledger.SecondsRemaining() == 0 ==>
              EvictSession(id, s, status, now, refund).session.ledger.expiresAt == s.ledger.expiresAt
  {
    if s.ledger.status.Active? {
      BurnKeeps(cfg, s, now);
      BurnPinsExpiry(s.ledger, now);
      FinishSettles(cfg, id, BurnSession(s, now), status, refund, now);
    } else {
      FinishSettles(cfg, id, s, status, refund, now);
    }
  }

  lemma StopSettles(cfg: Terms, id: Id, s: Session, refund: Refund, now: int)
    requires Sound(cfg) && MeteredInv(cfg, s, now) && !s.ledger.status.IsTerminal()
    ensures SettledAs(StopSession(id, s, now, refund).session, Owed(s.ledger, now), refund)
    ensures s.ledger.SecondsRemaining() == 0 ==>
              StopSession(id, s, now, refund).session.ledger.expiresAt == s.ledger.expiresAt
  {
    if s.ledger.status.Active? {
      BurnKeeps(cfg, s, now);
      BurnPinsExpiry(s.ledger, now);
      FinishSettles(cfg, id, BurnSession(s, now), Stopped, refund, now);
    } else {
      FinishSettles(cfg, id, s, Stopped, refund, now);
    }
  }

  /** The split a session ends with, and the message that closes it, whichever handler ended it. */
  ghost predicate Split(s: Session, after: Turn, burned: nat, owed: nat, refund: Refund) {
    && after.session.ledger.burned == burned
    && SettledAs(after.session, owed, refund)
    && after.session.book.payments == s.book.payments
    && (owed > 0 && refund.TransferFailed? <==> after.published == [])
    && (after.published != [] ==>
          && |after.published| == 1 && after.published[0].Closed?
          && after.published[0].amount == burned && after.published[0].refund == owed)
  }

  lemma FinishSplits(cfg: Terms, id: Id, s: Session, status: Status, refund: Refund, now: int)
    requires MeteredInv(cfg, s, now) && !s.ledger.status.IsTerminal() && status.IsTerminal()
    ensures Split(s, FinishSession(id, s, status, refund), s.ledger.burned, s.ledger.credit, refund)
  {
    FinishSettles(cfg, id, s, status, refund, now);
  }

  /** What has been earned once the session is charged up to `now`. */
  function EarnedAt(l: Ledger, now: int): nat {
    if l.status.Active? then l.Burn(now).burned else l.burned
  }

  lemma StopSplits(cfg: Terms, id: Id, s: Session, refund: Refund, now: int)
    requires Sound(cfg) && MeteredInv(cfg, s, now) && !s.ledger.status.IsTerminal()
    ensures Split(s, StopSession(id, s, now, refund), EarnedAt(s.ledger, now), Owed(s.ledger, now), refund)
  {
    if s.ledger.status.Active? {
      BurnKeeps(cfg, s, now);
      FinishSplits(cfg, id, BurnSession(s, now), Stopped, refund, now);
    } else {
      FinishSplits(cfg, id, s, Stopped, refund, now);
    }
  }

  lemma EvictSplits(cfg: Terms, id: Id, s: Session, status: Status, refund: Refund, now: int)
    requires Sound(cfg) && MeteredInv(cfg, s, now) && !s.ledger.status.IsTerminal() && status.IsTerminal()
    ensures Split(s, EvictSession(id, s, status, now, refund), EarnedAt(s.ledger, now), Owed(s.ledger, now), refund)
  {
    if s.ledger.status.Active? {
      BurnKeeps(cfg, s, now);
      FinishSplits(cfg, id, BurnSession(s, now), status, refund, now);
    } else {
      FinishSplits(cfg, id, s, status, refund, now);
    }
  }

  /** Of a session with a meter, how it ends is all that tells a stop from an eviction. */
  lemma StopAndEvictDifferInStatusOnly(cfg: Terms, id: Id, s: Session, status: Status, now: int, refund: Refund)
    requires s.ledger.metered && !s.ledger.status.IsTerminal() && status.IsTerminal()
    ensures var stopped, evicted := StopSession(id, s, now, refund), EvictSession(id, s, status, now, refund);
      && stopped.session.ledger.(status := status) == evicted.session.ledger
      && stopped.session.book == evicted.session.book
      && stopped.published == evicted.published
  {
    FinishDiffersInStatusOnly(id, if s.ledger.status.Active? then BurnSession(s, now) else s, status, refund);
  }

  lemma FinishDiffersInStatusOnly(id: Id, s: Session, status: Status, refund: Refund)
    requires !s.ledger.status.IsTerminal() && status.IsTerminal()
    ensures var stopped, evicted := FinishSession(id, s, Stopped, refund), FinishSession(id, s, status, refund);
      && stopped.session.ledger.(status := status) == evicted.session.ledger
      && stopped.session.book == evicted.session.book
      && stopped.published == evicted.published
  {
  }

  /** The verdict on a running session whose meter has just run. */
  lemma Verdict(cfg: Terms, id: Id, s: Session, refund: Refund, now: int)
    requires Sound(cfg) && MeteredInv(cfg, s, now) && s.ledger.status.Active? && s.ledger.lastTickAt == now
    ensures var l, after := s.ledger, Decide(cfg, id, s, now, refund).session;
      if l.SecondsRemaining() == 0 && l.FullyPaid() then
        after.ledger.status == Expired && SettledAs(after, l.credit, refund) && after.ledger.expiresAt == l.expiresAt
      else if l.SecondsRemaining() == 0 && now - l.expiresAt >= FREEZE_GRACE then
        after == s.(ledger := l.(status := Paused, pausedAt := Some(now)))
      else
        after == s
  {
    FinishSettles(cfg, id, s, Expired, refund, now);
  }

  lemma SweepRunning(cfg: Terms, id: Id, s: Session, refund: Refund, now: int)
    requires Sound(cfg) && MeteredInv(cfg, s, now) && s.ledger.status.Active?
    ensures var b := BurnSession(s, now); var l, after := b.ledger, SweepSession(cfg, id, s, now, refund).session;
      && l == s.ledger.Burn(now) && MeteredInv(cfg, b, now)
      && if l.SecondsRemaining() == 0 && l.FullyPaid() then
           after.ledger.status == Expired && SettledAs(after, l.credit, refund) && after.ledger.expiresAt == l.expiresAt
         else if l.SecondsRemaining() == 0 && now - l.expiresAt >= FREEZE_GRACE then
           after == b.(ledger := l.(status := Paused, pausedAt := Some(now)))
         else
           after == b
  {
    BurnKeeps(cfg, s, now);
    Verdict(cfg, id, BurnSession(s, now), refund, now);
  }

  lemma SweepFrozen(cfg: Terms, id: Id, s: Session, refund: Refund, now: int)
    requires Sound(cfg) && MeteredInv(cfg, s, now) && s.ledger.status.Paused?
    ensures var l, after := s.ledger, SweepSession(cfg, id, s, now, refund).session;
      if now - l.pausedAt.value >= cfg.graceMinutes * MINUTE then
        after.ledger.status == Expired && SettledAs(after, l.credit, refund) && after.ledger.expiresAt == l.expiresAt
      else
        after == s
  {
    FinishSettles(cfg, id, s, Expired, refund, now);
  }

  /** A sweep that comes upon a session already over settles what it still owes, in one attempt. */
  lemma SweepOfAnEndedSession(cfg: Terms, id: Id, s: Session, refund: Refund, now: int)
    requires MeteredInv(cfg, s, now) && s.ledger.status.IsTerminal()
    ensures var after := SweepSession(cfg, id, s, now, refund).session;
      if s.ledger.settle.Pending? then SettledAs(after, s.ledger.credit, refund) else after == s
  {
  }

  /** A sweep that ends a session settles it, and no sweep moves a pinned expiry. */
  lemma SweepSettles(cfg: Terms, id: Id, s: Session, refund: Refund, now: int)
    requires Sound(cfg) && MeteredInv(cfg, s, now) && !s.ledger.status.IsTerminal()
    ensures var after := SweepSession(cfg, id, s, now, refund).session;
      && (after.ledger.status.IsTerminal() ==> SettledAs(after, Owed(s.ledger, now), refund))
      && (s.ledger.SecondsRemaining() == 0 ==> after.ledger.expiresAt == s.ledger.expiresAt)
  {
    if s.ledger.status.Active? {
      SweepRunning(cfg, id, s, refund, now);
      BurnPinsExpiry(s.ledger, now);
    } else {
      SweepFrozen(cfg, id, s, refund, now);
    }
  }

  /** A top-up request ends nothing; paid or not, it leaves a live session live. */
  lemma TopUpEndsNothing(cfg: Terms, id: Id, s: Session, now: int, env: PayEnv)
    requires Sound(cfg) && MeteredInv(cfg, s, now) && !s.ledger.status.IsTerminal()
    ensures var after := TopUpTurn(cfg, id, s, now, env).session;
      && !after.ledger.status.IsTerminal()
      && (after.book.payments == s.book.payments ==> after == s)
      && (after.book.payments != s.book.payments ==> after.ledger.status == Active && after.ledger.SecondsRemaining() > 0)
  {
    TopUpSucceedsIff(cfg, s.ledger, now, env);
    TopUpBanksTheChunk(cfg, s.ledger, now, env);
    var t := TopUpSession(cfg, s.ledger, now, env);
    if t.code == 200 {
      BankingAddsUp(cfg, s, now, t.bought);
      var banked := Banked(s, t.bought).ledger;
      if s.ledger.status.Paused? {
        ThawTouchesNoMoney(banked, now);
      }
      assert |TopUpTurn(cfg, id, s, now, env).session.book.payments| == |s.book.payments| + 1;
    }
  }
}

/**
 * The ledger of one metered session (agent/internal/runner/lease.go).
 *
 * A `Ledger` is the part of a lease that money and time live in, as a value; the
 * functions below say what one critical section of the code does to it. Times are
 * nanoseconds, amounts are tinybars.
 */
module Metering {
  import opened Common

  const SECOND: int := 1_000_000_000
  const MINUTE: int := 60 * SECOND

  datatype Status = Provisioning | Active | Paused | Stopped | Expired | Failed {
    predicate IsTerminal() {
      Stopped? || Expired? || Failed?
    }
  }

  datatype SettleState = NotApplicable | Pending | Done

  /** `metered` stands for the money fields being non-nil, which MarkMetered makes them together. */
  datatype Ledger = Ledger(
    status: Status,
    metered: bool,
    sessionSeconds: int,
    price: nat,
    credit: nat,
    burned: nat,
    refunded: nat,
    lastTickAt: int,
    expiresAt: int,
    exhausted: bool,
    pausedAt: Option<int>,
    paidMinutes: int,
    settle: SettleState)
  {
    function SecondsRemaining(): nat {
      if metered && price > 0 then credit / price else 0
    }

    function PaidSeconds(): nat {
      if metered && price > 0 then (burned + credit) / price else 0
    }

    function UnpaidSeconds(): nat {
      if sessionSeconds <= 0 then 0 else Max(sessionSeconds - PaidSeconds(), 0)
    }

    predicate FullyPaid() {
      sessionSeconds > 0 && PaidSeconds() >= sessionSeconds
    }

    /** How long the ledger has been frozen at `now`. */
    function PausedFor(now: int): int {
      if pausedAt.None? then 0 else now - pausedAt.value
    }

    function OverdueBy(now: int): int {
      now - expiresAt
    }

    function SyncExpiry(): Ledger {
      if !metered then
        this
      else
        var seconds := SecondsRemaining();
        var synced :=
          if seconds > 0 then this.(exhausted := false, expiresAt := lastTickAt + seconds * SECOND)
          else if !exhausted then this.(exhausted := true, expiresAt := lastTickAt)
          else this;
        if price > 0 then synced.(paidMinutes := (PaidSeconds() + 59) / 60) else synced
    }

    function MarkMetered(now: int, pricePerSecond: nat, amount: nat): Ledger {
      this.(metered := true, price := pricePerSecond, credit := amount, burned := 0,
            lastTickAt := now, settle := Pending).SyncExpiry()
    }

    function AddCredit(amount: nat): Ledger {
      if !metered then this else this.(credit := credit + amount).SyncExpiry()
    }

    /** What a burn at `now` takes from the credit. */
    function Charge(now: int): nat {
      if !metered || now <= lastTickAt then 0 else Min(price * ((now - lastTickAt) / SECOND), credit)
    }

    function Burn(now: int): Ledger {
      if !metered then
        this
      else if now - lastTickAt <= 0 then
        this.(lastTickAt := now)
      else
        this.(lastTickAt := now, credit := credit - Charge(now), burned := burned + Charge(now)).SyncExpiry()
    }

    function MarkSettled(amount: nat): Ledger {
      if settle.NotApplicable? then this else this.(settle := Done, refunded := amount, credit := 0)
    }

    /** Every status change in the code is guarded against leaving a terminal status. */
    function SetStatus(next: Status): Ledger {
      if status.IsTerminal() then this else this.(status := next)
    }

    function Freeze(now: int): Ledger {
      if status.Active? then this.(pausedAt := Some(now), status := Paused) else this
    }

    function Thaw(now: int): Ledger {
      if status.Paused? then this.(pausedAt := None, status := Active, lastTickAt := now).SyncExpiry() else this
    }
  }

  /** A lease as StartLease creates it: no money yet, expiry at the end of the provisioned minutes. */
  function NewLease(now: int, minutes: int): Ledger {
    Ledger(Provisioning, false, 0, 0, 0, 0, 0, 0, now + minutes * MINUTE, false, None, minutes, NotApplicable)
  }

  /** A ledger whose session is over never lives again, whatever late call reaches it. */
  lemma OverIsFinal(l: Ledger, now: int, amount: nat, next: Status)
    requires l.status.IsTerminal()
    ensures l.SetStatus(next) == l.Freeze(now) == l.Thaw(now) == l
    ensures l.Burn(now).status == l.AddCredit(amount).status == l.MarkSettled(amount).status == l.status
    ensures l.MarkMetered(now, amount, amount).status == l.status
  {
  }

  /** Freezing is for what runs and thawing for what is frozen, and neither touches the money. */
  lemma FreezeAndThawTakeTurns(l: Ledger, now: int)
    ensures l.Freeze(now).status == (if l.status == Active then Paused else l.status)
    ensures l.Thaw(now).status == (if l.status == Paused then Active else l.status)
    ensures l.status != Active ==> l.Freeze(now) == l
    ensures l.status != Paused ==> l.Thaw(now) == l
    ensures l.status == Active ==> l.Freeze(now).pausedAt == Some(now) && l.Freeze(now).expiresAt == l.expiresAt
    ensures var f, t := l.Freeze(now), l.Thaw(now);
      && f.credit == t.credit == l.credit && f.burned == t.burned == l.burned && f.refunded == t.refunded == l.refunded
      && f.price == t.price == l.price && f.settle == t.settle == l.settle
  {
  }

  // ---- The plain whole-seconds counter the tinybar meter refines ----

  /** Seconds left, seconds used, seconds given back; `since` is when it last looked at the clock. */
  datatype Stopwatch = Stopwatch(left: nat, used: nat, back: nat, since: int) {
    function Tick(now: int): Stopwatch {
      if now <= since then
        this.(since := now)
      else
        var run := Min((now - since) / SECOND, left);
        Stopwatch(left - run, used + run, back, now)
    }

    function Buy(seconds: nat): Stopwatch {
      this.(left := left + seconds)
    }

    function Restart(now: int): Stopwatch {
      this.(since := now)
    }

    function GiveBack(): Stopwatch {
      Stopwatch(0, used, back + left, since)
    }
  }

  ghost predicate Represents(l: Ledger, w: Stopwatch) {
    && l.metered
    && l.credit == l.price * w.left
    && l.burned == l.price * w.used
    && l.refunded == l.price * w.back
    && l.lastTickAt == w.since
  }

  /** Under a positive price the code's divisions read the counter exactly. */
  lemma CounterReadings(l: Ledger, w: Stopwatch)
    requires Represents(l, w) && l.price > 0
    ensures l.SecondsRemaining() == w.left
    ensures l.PaidSeconds() == w.used + w.left
    ensures l.burned / l.price == w.used
  {
    DivOfMul(l.price, w.left);
    DivOfMul(l.price, w.used);
    DivOfMul(l.price, w.used + w.left);
    assert l.burned + l.credit == l.price * (w.used + w.left);
  }

  /** A burn is "subtract min(elapsed whole seconds, seconds left)", priced. */
  lemma BurnRefinesTick(l: Ledger, w: Stopwatch, now: int)
    requires Represents(l, w)
    ensures Represents(l.Burn(now), w.Tick(now))
    ensures l.Burn(now).burned == l.burned + l.Charge(now)
    ensures l.Burn(now).credit == l.credit - l.Charge(now)
  {
    if now > w.since {
      BurnMoney(l, now);
      PricedMin(l.price, (now - w.since) / SECOND, w.left, w.used);
    }
  }

  lemma PricedMin(p: nat, elapsed: nat, left: nat, used: nat)
    ensures var run := Min(elapsed, left);
      && Min(p * elapsed, p * left) == p * run
      && p * left - p * run == p * (left - run)
      && p * used + p * run == p * (used + run)
  {
    MulMin(p, elapsed, left);
  }

  lemma AddCreditMoney(l: Ledger, amount: nat)
    requires l.metered
    ensures var a := l.AddCredit(amount);
      && a.credit == l.credit + amount && a.metered && a.price == l.price && a.burned == l.burned
      && a.refunded == l.refunded && a.lastTickAt == l.lastTickAt
  {
  }

  lemma PricedSum(p: nat, a: nat, b: nat)
    ensures p * (a + b) == p * a + p * b
  {
  }

  lemma AddCreditRefinesBuy(l: Ledger, w: Stopwatch, seconds: nat)
    requires Represents(l, w)
    ensures Represents(l.AddCredit(l.price * seconds), w.Buy(seconds))
  {
    AddCreditMoney(l, l.price * seconds);
    PricedSum(l.price, w.left, seconds);
  }

  /** Paying back the whole credit is giving back every second left, and not a tinybar else. */
  lemma SettleRefinesGiveBack(l: Ledger, w: Stopwatch)
    requires Represents(l, w) && l.settle.Pending? && l.refunded == 0
    ensures Represents(l.MarkSettled(l.credit), w.(back := 0).GiveBack())
  {
  }

  // ---- Expiry ----

  /**
   * Expiry against credit: credit worth a second puts expiry exactly that far past the last
   * tick, otherwise expiry is pinned at some instant no later than the last tick.
   */
  predicate Synced(l: Ledger) {
    && (if l.SecondsRemaining() > 0 then
          !l.exhausted && l.expiresAt == l.lastTickAt + l.SecondsRemaining() * SECOND
        else
          l.exhausted && l.expiresAt <= l.lastTickAt)
    && (l.price > 0 ==> 60 * (l.paidMinutes - 1) < l.PaidSeconds() <= 60 * l.paidMinutes)
  }

  /** SyncExpiry restores the relation from any state, unless an already pinned expiry lies ahead. */
  lemma SyncExpirySyncs(l: Ledger)
    requires l.metered && (l.exhausted ==> l.expiresAt <= l.lastTickAt)
    ensures Synced(l.SyncExpiry())
  {
  }

  /**
   * The clock. A burn keeps expiry and credit in step exactly when the reading does not go back
   * behind the last tick, since an earlier one moves lastTickAt without re-syncing; once no second
   * is left, it may go back as far as the pinned expiry.
   */
  lemma BurnKeepsSyncIffClockMovesOn(l: Ledger, now: int)
    requires l.metered && Synced(l)
    ensures Synced(l.Burn(now)) <==> now >= l.lastTickAt || (l.SecondsRemaining() == 0 && now >= l.expiresAt)
  {
    if now > l.lastTickAt {
      BurnPinsExpiry(l, now);
    }
  }

  /** Once pinned, expiry stays where it is for as long as no second is bought. */
  lemma BurnPinsExpiry(l: Ledger, now: int)
    requires l.metered && Synced(l) && l.lastTickAt <= now
    ensures Synced(l.Burn(now))
    ensures l.SecondsRemaining() == 0 ==> l.Burn(now).expiresAt == l.expiresAt
    ensures l.SecondsRemaining() > 0 && l.Burn(now).SecondsRemaining() == 0 ==> l.Burn(now).expiresAt == now
  {
    var b := l.Burn(now);
    if now > l.lastTickAt && l.SecondsRemaining() == 0 && l.price > 0 {
      DivMonotone(l.price, b.credit, l.credit);
    }
  }

  // ---- Splitting a stretch of time into ticks ----

  /**
   * Ticking at `mid` on the way to `end` never charges more, and charges the same exactly when
   * no whole second is lost to the two fractions, or the credit runs out by `mid` and `end`
   * anyway, or a second costs nothing.
   */
  lemma TickSplit(l: Ledger, mid: int, end: int)
    requires l.metered && l.lastTickAt <= mid <= end
    ensures var a := (mid - l.lastTickAt) / SECOND; var b := (end - mid) / SECOND;
      && l.Burn(mid).Burn(end).burned <= l.Burn(end).burned
      && (l.Burn(mid).Burn(end).burned == l.Burn(end).burned <==>
            || (mid - l.lastTickAt) % SECOND + (end - mid) % SECOND < SECOND
            || l.price * (a + b) >= l.credit
            || l.price == 0)
  {
    var a, b, w := (mid - l.lastTickAt) / SECOND, (end - mid) / SECOND, (end - l.lastTickAt) / SECOND;
    var carry := if (mid - l.lastTickAt) % SECOND + (end - mid) % SECOND < SECOND then 0 else 1;
    assert w == a + b + carry;
    SplitCharges(l.price, l.credit, a, b, carry);
    BurnMoney(l, end);
    BurnMoney(l, mid);
    BurnMoney(l.Burn(mid), end);
  }

  lemma BurnMoney(l: Ledger, now: int)
    requires l.metered && l.lastTickAt <= now
    ensures var taken := Min(l.price * ((now - l.lastTickAt) / SECOND), l.credit);
      && taken == l.Charge(now)
      && l.Burn(now).burned == l.burned + taken
      && l.Burn(now).credit == l.credit - taken
    ensures l.Burn(now).metered && l.Burn(now).lastTickAt == now && l.Burn(now).price == l.price
  {
    MulLe(l.price, 0, (now - l.lastTickAt) / SECOND);
  }

  /** Two clamped charges in a row against one charge for the sum of the seconds and a carry. */
  lemma SplitCharges(p: nat, c: nat, a: nat, b: nat, carry: nat)
    ensures var first := Min(p * a, c); var split := first + Min(p * b, c - first); var whole := Min(p * (a + b + carry), c);
      && 0 <= first
      && split <= whole
      && (split == whole <==> carry == 0 || p * (a + b) >= c || p == 0)
  {
    assert p * (a + b) == p * a + p * b;
    assert p * (a + b + carry) == p * (a + b) + p * carry;
    MulLe(p, 0, a);
    MulLe(p, 0, b);
    if carry > 0 {
      MulLe(p, 1, carry);
    }
  }

  /** At a whole-second point the split changes nothing about the money. */
  lemma WholeSecondSplit(l: Ledger, k: nat, end: int)
    requires l.metered && l.lastTickAt + k * SECOND <= end
    ensures l.Burn(l.lastTickAt + k * SECOND).Burn(end).burned == l.Burn(end).burned
    ensures l.Burn(l.lastTickAt + k * SECOND).Burn(end).credit == l.Burn(end).credit
  {
    var mid := l.lastTickAt + k * SECOND;
    WholeSeconds(k, mid - l.lastTickAt);
    TickSplit(l, mid, end);
    BurnMovesMoney(l, mid);
    BurnMovesMoney(l.Burn(mid), end);
    BurnMovesMoney(l, end);
  }

  lemma WholeSeconds(k: nat, ns: int)
    requires ns == k * SECOND
    ensures ns >= 0 && ns % SECOND == 0
  {
  }

  /** What a burn takes from the credit it adds to the earnings. */
  lemma BurnMovesMoney(l: Ledger, now: int)
    requires l.metered
    ensures l.Burn(now).metered && l.Burn(now).burned + l.Burn(now).credit == l.burned + l.credit
  {
  }
}

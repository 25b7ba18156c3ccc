/**
 * The lease as the runner holds it: one object whose methods are the code's critical sections,
 * each proved to do to its fields what the corresponding ledger function says.
 */
module LeaseObject {
  import opened Common
  import opened Metering
  import opened Sessions

  /** An amount holds so many seconds exactly when it covers their price. */
  lemma WorthAtLeast(amount: nat, price: nat, seconds: int)
    requires price > 0
    ensures amount / price >= seconds <==> price * seconds <= amount
  {
    DivBounds(amount, price);
    if amount / price >= seconds {
      MulLe(price, seconds, amount / price);
    } else {
      MulLe(price, amount / price + 1, seconds);
    }
  }

  class Lease {
    const id: Id
    var status: Status
    var metered: bool
    var sessionSeconds: int
    var price: nat
    var credit: nat
    var burned: nat
    var refunded: nat
    var lastTickAt: int
    var expiresAt: int
    var exhausted: bool
    var pausedAt: Option<int>
    var paidMinutes: int
    var settle: SettleState

    function State(): Ledger
      reads this
    {
      Ledger(status, metered, sessionSeconds, price, credit, burned, refunded, lastTickAt, expiresAt, exhausted,
             pausedAt, paidMinutes, settle)
    }

    /** SecondsRemaining and FullyPaid. */
    method TimeLeft() returns (remaining: nat, fullyPaid: bool)
      ensures remaining == State().SecondsRemaining() && fullyPaid == State().FullyPaid()
      ensures metered && price > 0 ==>
                && price * remaining <= credit < price * (remaining + 1)
                && (fullyPaid <==> sessionSeconds > 0 && price * sessionSeconds <= burned + credit)
      ensures !metered || price == 0 ==> remaining == 0 && !fullyPaid
    {
      var paid := 0;
      remaining := 0;
      if metered && price > 0 {
        remaining := credit / price;
        paid := (burned + credit) / price;
      }
      fullyPaid := sessionSeconds > 0 && paid >= sessionSeconds;
      if metered && price > 0 {
        DivBounds(credit, price);
        WorthAtLeast(burned + credit, price, sessionSeconds);
      }
    }

    /** What the lease's earnings are worth in seconds: the stopwatch's count, where it represents one. */
    method Elapsed() returns (seconds: nat)
      ensures seconds == ElapsedSeconds(State())
      ensures forall w: Stopwatch | Represents(State(), w) && price > 0 :: seconds == w.used && burned == price * seconds
      ensures price > 0 ==> price * seconds <= burned < price * (seconds + 1)
      ensures price == 0 ==> seconds == 0
    {
      seconds := 0;
      if price > 0 {
        seconds := burned / price;
        DivBounds(burned, price);
      }
      forall w: Stopwatch | Represents(State(), w) && price > 0
        ensures seconds == w.used && burned == price * seconds
      {
        CounterReadings(State(), w);
      }
    }

    ghost predicate Holds(l: Ledger)
      reads this
    {
      State() == l
    }

    constructor (id: Id, now: int, minutes: int)
      ensures this.id == id && State() == NewLease(now, minutes)
    {
      this.id := id;
      status, metered, sessionSeconds := Provisioning, false, 0;
      price, credit, burned, refunded := 0, 0, 0, 0;
      lastTickAt, expiresAt, exhausted, pausedAt := 0, now + minutes * MINUTE, false, None;
      paidMinutes, settle := minutes, NotApplicable;
    }

    method SyncExpiry()
      modifies `exhausted, `expiresAt, `paidMinutes
      ensures State() == old(State()).SyncExpiry()
    {
      if !metered {
        return;
      }
      var seconds := State().SecondsRemaining();
      if seconds > 0 {
        exhausted := false;
        expiresAt := lastTickAt + seconds * SECOND;
      } else if !exhausted {
        exhausted := true;
        expiresAt := lastTickAt;
      }
      if price > 0 {
        paidMinutes := ((burned + credit) / price + 59) / 60;
      }
    }

    method MarkMetered(now: int, pricePerSecond: nat, amount: nat)
      modifies this
      ensures State() == old(State()).MarkMetered(now, pricePerSecond, amount)
    {
      metered := true;
      price := pricePerSecond;
      credit := amount;
      burned := 0;
      lastTickAt := now;
      settle := Pending;
      SyncExpiry();
    }

    method AddCredit(amount: nat)
      modifies this
      ensures State() == old(State()).AddCredit(amount)
    {
      if !metered {
        return;
      }
      credit := credit + amount;
      SyncExpiry();
    }

    /** Charges for the time since the last tick; returns what it took and what is left. */
    method Burn(now: int) returns (taken: nat, remaining: nat)
      modifies this
      ensures State() == old(State()).Burn(now)
      ensures taken == old(State()).Charge(now)
      ensures remaining == if metered then credit else 0
    {
      if !metered {
        return 0, 0;
      }
      var elapsed := now - lastTickAt;
      lastTickAt := now;
      if elapsed <= 0 {
        return 0, credit;
      }
      MulLe(price, 0, elapsed / SECOND);
      taken := price * (elapsed / SECOND);
      if taken > credit {
        taken := credit;
      }
      credit := credit - taken;
      burned := burned + taken;
      SyncExpiry();
      remaining := credit;
    }

    method MarkSettled(amount: nat)
      modifies this
      ensures State() == old(State()).MarkSettled(amount)
    {
      if settle.NotApplicable? {
        return;
      }
      settle := Done;
      refunded := amount;
      credit := 0;
    }

    /** Also how a lease fails, and how a stop marks it: nothing leaves a terminal status. */
    method SetStatus(next: Status) returns (changed: bool)
      modifies `status
      ensures State() == old(State()).SetStatus(next)
      ensures changed == !old(status).IsTerminal()
    {
      if status.IsTerminal() {
        return false;
      }
      status := next;
      changed := true;
    }

    method SetSessionLength(seconds: int)
      modifies `sessionSeconds
      ensures State() == old(State()).(sessionSeconds := seconds)
    {
      sessionSeconds := seconds;
    }

    /** PauseLease, up to the container call. */
    method Freeze(now: int)
      modifies this
      ensures State() == old(State()).Freeze(now)
    {
      if !status.Active? {
        return;
      }
      pausedAt := Some(now);
      status := Paused;
    }

    /** ResumeLease, up to the container call. */
    method Thaw(now: int)
      modifies this
      ensures State() == old(State()).Thaw(now)
    {
      if !status.Paused? {
        return;
      }
      pausedAt := None;
      status := Active;
      lastTickAt := now;
      SyncExpiry();
    }
  }
}

/**
 * What a whole session costs and how it is paid: the renter's forecast
 * (web/components/rent/session-flow.tsx, client/src/payment.ts) against what the node charges.
 */
module Purchases {
  import opened Common
  import opened Decimal
  import opened Metering
  import opened LeaseConfig
  import opened Sessions
  import opened OpeningLaws
  import opened SessionInvariants
  import opened NodeRuns
  import opened SessionTurns
  import opened SessionTheorems

  // ---- The renter's side ----

  datatype Forecast = Forecast(payments: nat, totalCost: nat, firstPaymentCost: nat, cap: nat)

  function Forecasted(pricePerSecond: nat, sessionSeconds: nat, chunkSeconds: nat): Forecast
    requires chunkSeconds > 0
  {
    var first := pricePerSecond * Min(sessionSeconds, chunkSeconds);
    Forecast(CeilDiv(sessionSeconds, chunkSeconds), pricePerSecond * sessionSeconds, first, first * 2)
  }

  const HBAR_ASSET_ID := "0.0.0"

  datatype PaymentOption = PaymentOption(network: string, asset: string, amount: string)

  /** The renter's own policy on a single payment. */
  predicate Acceptable(option: PaymentOption, network: string, maxTinybars: nat) {
    && option.network == network
    && option.asset == HBAR_ASSET_ID
    && ParseBigInt(option.amount).Some? && ParseBigInt(option.amount).value <= maxTinybars
  }

  // ---- Counting chunks ----

  /** `k` chunks cover a length exactly from the forecast count on. */
  lemma ChunksCover(length: nat, chunk: nat, k: nat)
    requires chunk > 0
    ensures k * chunk >= length <==> k >= CeilDiv(length, chunk)
  {
    CeilDivBounds(length, chunk);
    var c := CeilDiv(length, chunk);
    if k >= c {
      MulLe(chunk, c, k);
    } else {
      MulLe(chunk, k + 1, c);
    }
  }

  /**
   * In every reachable state the payments taken are the forecast's first: no more of them than
   * forecast, none larger than the first, each within the renter's cap, and the session counts
   * as paid in full exactly when the forecast number has been taken, for the forecast total.
   */
  lemma PaymentsFollowTheForecast(cfg: Terms, n: Node, id: Id, i: nat)
    requires Sound(cfg) && Reached(cfg, n) && Metered(n, id) && i < |n.sessions[id].book.payments|
    ensures n.sessions[id].ledger.sessionSeconds > 0
    ensures var l, payments := n.sessions[id].ledger, n.sessions[id].book.payments;
      var f := Forecasted(l.price, l.sessionSeconds, cfg.chunkSeconds);
      && |payments| <= f.payments
      && payments[0].tinybars == f.firstPaymentCost
      && payments[i].tinybars <= payments[0].tinybars
      && Acceptable(PaymentOption("hedera:testnet", HBAR_ASSET_ID, Print(payments[i].tinybars)), "hedera:testnet", f.cap)
      && Paid(payments) <= f.totalCost
      && (|payments| == f.payments ==> Paid(payments) == f.totalCost)
      && (l.price > 0 && !l.status.IsTerminal() ==> (l.FullyPaid() <==> |payments| == f.payments))
  {
    ReachedSession(cfg, n, id);
    var s := n.sessions[id];
    assert MeteredInv(cfg, s, n.clock);
    PlanTotals(cfg, s);
    PlannedPayment(cfg, s, i);
    WithinTheCap(s.book.payments[i].tinybars, s.book.payments[0].tinybars);
    if s.ledger.price > 0 && !s.ledger.status.IsTerminal() {
      NextChunkIsThePlans(cfg, s, n.clock);
    }
  }

  lemma PlannedPayment(cfg: Terms, s: Session, i: nat)
    requires Sound(cfg) && MoneyAddsUp(s) && FollowsPlan(cfg, s) && i < |s.book.payments|
    ensures s.book.payments[0].tinybars == s.ledger.price * Min(s.ledger.sessionSeconds, cfg.chunkSeconds)
    ensures s.book.payments[i].tinybars <= s.book.payments[0].tinybars
  {
    PlanTotals(cfg, s);
    MulLe(s.ledger.price, s.book.payments[i].seconds, s.book.payments[0].seconds);
  }

  /** A printed amount up to the first payment passes the policy with twice that as its cap. */
  lemma WithinTheCap(amount: nat, first: nat)
    requires amount <= first
    ensures Acceptable(PaymentOption("hedera:testnet", HBAR_ASSET_ID, Print(amount)), "hedera:testnet", first * 2)
  {
    ParsePrinted(amount);
  }

  /**
   * The renter's policy with the forecast's cap: a challenge for this amount passes if and only if
   * it is for the renter's own network, in HBAR, and asks at most twice the price of the first chunk.
   */
  lemma PolicyPassesIff(price: nat, length: nat, chunk: nat, amount: nat, network: string, asset: string, own: string)
    requires chunk > 0
    ensures Acceptable(PaymentOption(network, asset, Print(amount)), own, Forecasted(price, length, chunk).cap) <==>
            network == own && asset == "0.0.0" && amount <= 2 * (price * Min(length, chunk))
  {
    ParsePrinted(amount);
  }

  /** An amount that is no integer never passes, whatever the cap. */
  lemma OnlyIntegersPass(option: PaymentOption, own: string, cap: nat)
    requires Acceptable(option, own, cap)
    ensures option.amount != "" && (IsDigit(option.amount[0]) || (option.amount[0] in "+-" && |option.amount| > 1))
    ensures forall i | 0 < i < |option.amount| :: IsDigit(option.amount[i])
  {
  }

  lemma PlanTotals(cfg: Terms, s: Session)
    requires Sound(cfg) && MoneyAddsUp(s) && FollowsPlan(cfg, s)
    ensures s.ledger.sessionSeconds > 0 && |s.book.payments| <= CeilDiv(s.ledger.sessionSeconds, cfg.chunkSeconds)
    ensures |s.book.payments| * cfg.chunkSeconds >= s.ledger.sessionSeconds
       <==> |s.book.payments| == CeilDiv(s.ledger.sessionSeconds, cfg.chunkSeconds)
    ensures Paid(s.book.payments) == s.ledger.price * Min(s.ledger.sessionSeconds, |s.book.payments| * cfg.chunkSeconds)
    ensures Paid(s.book.payments) <= s.ledger.price * s.ledger.sessionSeconds
    ensures forall i | 0 <= i < |s.book.payments| :: s.book.payments[i].seconds <= s.book.payments[0].seconds
  {
    var length: nat, chunk: nat, k := s.ledger.sessionSeconds, cfg.chunkSeconds, |s.book.payments|;
    ChunksCover(length, chunk, k);
    ChunksCover(length, chunk, k - 1);
    PricedParts(s.ledger.price, s.book.watch.left, s.book.watch.used, s.book.watch.back);
    MulLe(s.ledger.price, Min(length, k * chunk), length);
    forall i | 0 <= i < k ensures s.book.payments[i].seconds <= s.book.payments[0].seconds {
      MulLe(chunk, 0, i);
    }
  }

  lemma PricedParts(p: nat, a: nat, b: nat, c: nat)
    ensures p * a + p * b + p * c == p * (a + b + c)
  {
  }

  /** Prices compare as the seconds they are for. */
  lemma PricedCompare(p: nat, a: int, b: int)
    requires p > 0
    ensures p * a > p * b <==> a > b
  {
    if a > b {
      MulLe(p, b + 1, a);
    } else {
      MulLe(p, a, b);
    }
  }

  const PAID := PayEnv(Present, true, Valid, true, true)

  /**
   * A top-up the renter pays for is taken, banked and served for as long as the forecast has
   * payments left, whatever the session has used in between; after that it is refused unpaid.
   * The node's total cap never gets in the way.
   */
  lemma TopUpsAreTakenUntilPaidInFull(cfg: Terms, n: Node, at: int, id: Id)
    requires Sound(cfg) && Reached(cfg, n) && Live(n, id) && n.sessions[id].ledger.price > 0 && n.clock <= at
    ensures id in Step(cfg, n, Event(at, Renew(id, true, PAID))).sessions && n.sessions[id].ledger.sessionSeconds > 0
    ensures var l, payments := n.sessions[id].ledger, n.sessions[id].book.payments;
      var after := Step(cfg, n, Event(at, Renew(id, true, PAID))).sessions[id];
      if |payments| < Forecasted(l.price, l.sessionSeconds, cfg.chunkSeconds).payments then
        && |after.book.payments| == |payments| + 1
        && after.book.payments[..|payments|] == payments
        && after.ledger.status == Active
        && after.ledger.credit == l.credit + after.book.payments[|payments|].tinybars
      else
        after.ledger == l && after.book.payments == payments
  {
    ReachedKept(cfg, n);
    StepOnLiveSession(cfg, n, Event(at, Renew(id, true, PAID)), id);
    var s := Advance(n, at).sessions[id];
    TopUpTaken(cfg, id, s, at, PAID);
  }

  lemma TopUpTaken(cfg: Terms, id: Id, s: Session, now: int, pay: PayEnv)
    requires Sound(cfg) && MeteredInv(cfg, s, now) && !s.ledger.status.IsTerminal() && s.ledger.price > 0
    requires Pays(pay)
    ensures s.ledger.sessionSeconds > 0
    ensures var after := TopUpTurn(cfg, id, s, now, pay).session;
      var k := |s.book.payments|;
      if k < CeilDiv(s.ledger.sessionSeconds, cfg.chunkSeconds) then
        && NextChunk(cfg, s.ledger) == Some(PaymentSeconds(s.ledger.sessionSeconds, cfg.chunkSeconds, k))
        && after.book.payments == s.book.payments +
             [Payment(NextChunk(cfg, s.ledger).value, s.ledger.price * NextChunk(cfg, s.ledger).value)]
        && after.ledger.status == Active
        && after.ledger.credit == s.ledger.credit + s.ledger.price * NextChunk(cfg, s.ledger).value
        && after.ledger.SecondsRemaining() == s.ledger.SecondsRemaining() + NextChunk(cfg, s.ledger).value
      else
        after == s
  {
    NextChunkIsThePlans(cfg, s, now);
    PlanTotals(cfg, s);
    TopUpSucceedsIff(cfg, s.ledger, now, pay);
    TopUpBanksTheChunk(cfg, s.ledger, now, pay);
    if NextChunk(cfg, s.ledger).Some? {
      var bought := NextChunk(cfg, s.ledger).value;
      BankingAddsUp(cfg, s, now, bought);
      var b := Banked(s, bought);
      CounterReadings(s.ledger, s.book.watch);
      CounterReadings(b.ledger, b.book.watch);
      if s.ledger.status.Paused? {
        ThawTouchesNoMoney(b.ledger, now);
      }
    }
  }

  // ---- A purchase over a whole run ----

  /** A top-up of the session that goes through if there is anything to sell. */
  predicate PaidRenewal(e: Event, id: Id) {
    e.action.Renew? && e.action.id == id && e.action.authorized && Pays(e.action.pay)
  }

  function Renewals(es: seq<Event>, id: Id): nat {
    if es == [] then 0 else (if PaidRenewal(es[0], id) then 1 else 0) + Renewals(es[1..], id)
  }

  /** The steps that end a live session, from its ledger before them. */
  predicate Ends(cfg: Terms, l: Ledger, e: Event, id: Id) {
    match e.action
    case Sweep(_) =>
      if l.status.Active? then
        l.Burn(e.at).SecondsRemaining() == 0 && l.Burn(e.at).FullyPaid()
      else
        l.PausedFor(e.at) >= cfg.graceMinutes * MINUTE
    case Stop(i, authorized, _) => authorized && i == id
    case Evict(_, _) => true
    case _ => false
  }

  lemma LiveUnlessEnded(cfg: Terms, n: Node, e: Event, id: Id)
    requires Sound(cfg) && NodeInv(cfg, n) && Legal(n, e) && Live(n, id)
    ensures Live(Step(cfg, n, e), id) <==> !Ends(cfg, n.sessions[id].ledger, e, id)
  {
    StepOnLiveSession(cfg, n, e, id);
    var s := Advance(n, e.at).sessions[id];
    match e.action
    case Sweep(refund) =>
      if s.ledger.status.Active? {
        SweepRunning(cfg, id, s, refund, e.at);
      } else {
        SweepFrozen(cfg, id, s, refund, e.at);
      }
    case Renew(_, _, pay) => TopUpEndsNothing(cfg, id, s, e.at, pay);
    case Stop(_, _, refund) => StopSettles(cfg, id, s, refund, e.at);
    case Evict(status, refund) => EvictSettles(cfg, id, s, status, refund, e.at);
    case _ =>
  }

  /** No step of the run ends the session. */
  predicate Lasts(cfg: Terms, n: Node, es: seq<Event>, id: Id)
    requires Sound(cfg)
    decreases |es|
  {
    es == [] ||
    (id in n.sessions && !Ends(cfg, n.sessions[id].ledger, es[0], id) && Lasts(cfg, Step(cfg, n, es[0]), es[1..], id))
  }

  lemma {:induction false} LiveIffItLasts(cfg: Terms, n: Node, es: seq<Event>, id: Id)
    requires Sound(cfg) && NodeInv(cfg, n) && LegalRun(cfg, n, es) && Live(n, id)
    ensures Live(Run(cfg, n, es), id) <==> Lasts(cfg, n, es, id)
    decreases |es|
  {
    if es != [] {
      var after := Step(cfg, n, es[0]);
      LiveUnlessEnded(cfg, n, es[0], id);
      StepKeeps(cfg, n, es[0]);
      if Live(after, id) {
        LiveIffItLasts(cfg, after, es[1..], id);
      } else {
        StepOnLiveSession(cfg, n, es[0], id);
        EndedSessionsNeverChange(cfg, after, es[1..], id);
      }
    }
  }

  /** How far a purchase has come. */
  ghost predicate Bought(cfg: Terms, before: Session, after: Session, renewals: nat)
    requires Sound(cfg) && before.ledger.sessionSeconds >= 0
  {
    && after.ledger.price == before.ledger.price && after.ledger.sessionSeconds == before.ledger.sessionSeconds
    && |after.book.payments| ==
       Min(CeilDiv(before.ledger.sessionSeconds, cfg.chunkSeconds), |before.book.payments| + renewals)
  }

  lemma SweepBuysNothing(cfg: Terms, id: Id, s: Session, now: int, refund: Refund)
    requires Sound(cfg) && MeteredInv(cfg, s, now) && !s.ledger.status.IsTerminal()
    ensures var after := SweepSession(cfg, id, s, now, refund).session;
      !after.ledger.status.IsTerminal() ==>
        && after.book.payments == s.book.payments
        && after.ledger.price == s.ledger.price && after.ledger.sessionSeconds == s.ledger.sessionSeconds
  {
    if s.ledger.status.Active? {
      SweepRunning(cfg, id, s, refund, now);
    } else {
      SweepFrozen(cfg, id, s, refund, now);
    }
  }

  lemma RenewalBuys(cfg: Terms, id: Id, s: Session, now: int, pay: PayEnv)
    requires Sound(cfg) && MeteredInv(cfg, s, now) && !s.ledger.status.IsTerminal() && s.ledger.price > 0
    ensures s.ledger.sessionSeconds > 0
    ensures Bought(cfg, s, TopUpTurn(cfg, id, s, now, pay).session, if Pays(pay) then 1 else 0)
  {
    PlanTotals(cfg, s);
    TopUpSucceedsIff(cfg, s.ledger, now, pay);
    TopUpBanksTheChunk(cfg, s.ledger, now, pay);
    if Pays(pay) {
      TopUpTaken(cfg, id, s, now, pay);
    }
  }

  lemma StepBuys(cfg: Terms, n: Node, e: Event, id: Id)
    requires Sound(cfg) && NodeInv(cfg, n) && Legal(n, e) && Live(n, id) && Live(Step(cfg, n, e), id)
    requires n.sessions[id].ledger.price > 0
    ensures n.sessions[id].ledger.sessionSeconds > 0
    ensures Bought(cfg, n.sessions[id], Step(cfg, n, e).sessions[id], if PaidRenewal(e, id) then 1 else 0)
  {
    StepOnLiveSession(cfg, n, e, id);
    LiveUnlessEnded(cfg, n, e, id);
    var s := Advance(n, e.at).sessions[id];
    assert s.book.payments == n.sessions[id].book.payments;
    PlanTotals(cfg, s);
    match e.action
    case Sweep(refund) => SweepBuysNothing(cfg, id, s, e.at, refund);
    case Renew(_, _, pay) => RenewalBuys(cfg, id, s, e.at, pay);
    case _ =>
  }

  /**
   * Over any run a session lives through, sweeps, freezes and other requests included, the
   * payments taken are those it had and one for every paid top-up, up to the forecast number.
   */
  lemma {:induction false} RunBuys(cfg: Terms, n: Node, es: seq<Event>, id: Id)
    requires Sound(cfg) && NodeInv(cfg, n) && LegalRun(cfg, n, es) && Live(n, id) && Live(Run(cfg, n, es), id)
    requires n.sessions[id].ledger.price > 0
    ensures n.sessions[id].ledger.sessionSeconds > 0
    ensures Bought(cfg, n.sessions[id], Run(cfg, n, es).sessions[id], Renewals(es, id))
    decreases |es|
  {
    var s := n.sessions[id];
    assert MeteredInv(cfg, s, n.clock);
    PlanTotals(cfg, s);
    if es != [] {
      var after := Step(cfg, n, es[0]);
      LiveIffItLasts(cfg, n, es, id);
      LiveUnlessEnded(cfg, n, es[0], id);
      StepBuys(cfg, n, es[0], id);
      StepKeeps(cfg, n, es[0]);
      RunBuys(cfg, after, es[1..], id);
    }
  }

  /**
   * From any live state, a run the session lives through leaves it paid in full, for the forecast
   * total, exactly when it has as many paid top-ups as the forecast had payments left.
   */
  lemma TopUpsCompleteThePurchase(cfg: Terms, n: Node, es: seq<Event>, id: Id)
    requires Sound(cfg) && NodeInv(cfg, n) && LegalRun(cfg, n, es) && Live(n, id) && Lasts(cfg, n, es, id)
    requires n.sessions[id].ledger.price > 0
    ensures Live(Run(cfg, n, es), id) && n.sessions[id].ledger.sessionSeconds > 0
    ensures var before, after := n.sessions[id], Run(cfg, n, es).sessions[id];
      var f := Forecasted(before.ledger.price, before.ledger.sessionSeconds, cfg.chunkSeconds);
      && (after.ledger.FullyPaid() <==> |before.book.payments| + Renewals(es, id) >= f.payments)
      && (after.ledger.FullyPaid() <==> |after.book.payments| == f.payments)
      && (after.ledger.FullyPaid() ==> Paid(after.book.payments) == f.totalCost)
  {
    LiveIffItLasts(cfg, n, es, id);
    RunBuys(cfg, n, es, id);
    RunKeeps(cfg, n, es);
    PaidInFullIff(cfg, Run(cfg, n, es).sessions[id], Run(cfg, n, es).clock);
  }

  lemma PaidInFullIff(cfg: Terms, s: Session, clock: int)
    requires Sound(cfg) && SessionInv(cfg, s, clock) && !s.ledger.status.IsTerminal() && s.ledger.price > 0
    ensures s.ledger.sessionSeconds > 0
    ensures s.ledger.FullyPaid() <==> |s.book.payments| == CeilDiv(s.ledger.sessionSeconds, cfg.chunkSeconds)
    ensures s.ledger.FullyPaid() ==> Paid(s.book.payments) == s.ledger.price * s.ledger.sessionSeconds
  {
    PlanTotals(cfg, s);
    NextChunkIsThePlans(cfg, s, clock);
  }

  /** A paid request for `seconds` on a fresh node, and then anything. */
  function Purchase(start: int, id: Id, seconds: int, es: seq<Event>): seq<Event> {
    [Ask(start, id, seconds)] + es
  }

  /**
   * A purchase from beginning to end. Open a session of any accepted length; whatever happens
   * after that short of ending it, once it has been renewed as often as the forecast says it is
   * running or frozen, paid in full with the forecast number of payments for the forecast total;
   * whoever asks to top it up after that is refused before paying.
   */
  lemma WholePurchase(cfg: Terms, start: int, id: Id, seconds: nat, es: seq<Event>, later: int, pay: PayEnv)
    requires Sound(cfg) && LengthAccepted(cfg, seconds) && cfg.price.Some? && cfg.price.value > 0
    requires LegalRun(cfg, Fresh(start), Purchase(start, id, seconds, es))
    requires Lasts(cfg, Step(cfg, Fresh(start), Ask(start, id, seconds)), es, id)
    requires 1 + Renewals(es, id) >= Forecasted(cfg.price.value, seconds, cfg.chunkSeconds).payments
    ensures var n := Run(cfg, Fresh(start), Purchase(start, id, seconds, es));
      var f := Forecasted(cfg.price.value, seconds, cfg.chunkSeconds);
      && Reached(cfg, n) && Live(n, id)
      && |n.sessions[id].book.payments| == f.payments
      && Paid(n.sessions[id].book.payments) == f.totalCost
      && n.sessions[id].ledger.FullyPaid()
      && TopUpSession(cfg, n.sessions[id].ledger, later, pay) == TopUp(409, [], 0, n.sessions[id].ledger)
  {
    var ask := Ask(start, id, seconds);
    var first := Step(cfg, Fresh(start), ask);
    var all := Purchase(start, id, seconds, es);
    assert all[0] == ask && all[1..] == es;
    SessionsAreReached(cfg, start, id, seconds);
    ReachedKept(cfg, first);
    TopUpsCompleteThePurchase(cfg, first, es, id);
    assert Reached(cfg, Run(cfg, Fresh(start), all));
    NothingLeftToSell(cfg, Run(cfg, Fresh(start), all), id);
  }

  lemma NothingLeftToSell(cfg: Terms, n: Node, id: Id)
    requires Sound(cfg) && Reached(cfg, n) && Live(n, id) && n.sessions[id].ledger.FullyPaid()
    ensures NextChunk(cfg, n.sessions[id].ledger).None?
  {
    if n.sessions[id].ledger.price > 0 {
      LowCreditMeansAChunkIsForSale(cfg, n, id);
    }
  }

  /**
   * The same from the provider's config. A per-second price is what each second costs; a per-minute
   * price is exceeded, over the whole session, by less than a tinybar a second.
   */
  lemma ConfiguredPurchase(l: Leases, start: int, id: Id, seconds: nat, es: seq<Event>, pay: PayEnv)
    requires Running(l) && Sound(TermsOf(l))
    requires var cfg := TermsOf(l);
      && LengthAccepted(cfg, seconds) && cfg.price.Some? && cfg.price.value > 0
      && LegalRun(cfg, Fresh(start), Purchase(start, id, seconds, es))
      && Lasts(cfg, Step(cfg, Fresh(start), Ask(start, id, seconds)), es, id)
      && 1 + Renewals(es, id) >= Forecasted(cfg.price.value, seconds, cfg.chunkSeconds).payments
    ensures var n := Run(TermsOf(l), Fresh(start), Purchase(start, id, seconds, es));
      && Live(n, id)
      && var paid := Paid(n.sessions[id].book.payments);
         if l.pricePerSecond != "" then
           ParseUint64(l.pricePerSecond).Some? && paid == ParseUint64(l.pricePerSecond).value * seconds
         else
           && ParseUint64(l.pricePerMinute).Some?
           && var m := ParseUint64(l.pricePerMinute).value; m * seconds <= 60 * paid <= m * seconds + 59 * seconds
  {
    var cfg := TermsOf(l);
    WholePurchase(cfg, start, id, seconds, es, start, pay);
    PriceCharged(l);
    if l.pricePerSecond == "" {
      OverSeconds(ParseUint64(l.pricePerMinute).value, cfg.price.value, seconds);
    }
  }

  // ---- How much of the renter's money the node holds ----

  /** At any time, and with top-ups at any time, what is held is at most the price of the whole length. */
  lemma HeldCreditIsBounded(cfg: Terms, n: Node, id: Id)
    requires Sound(cfg) && Reached(cfg, n) && Metered(n, id)
    ensures n.sessions[id].ledger.credit <= n.sessions[id].ledger.price * n.sessions[id].ledger.sessionSeconds
  {
    ReachedSession(cfg, n, id);
    PlanTotals(cfg, n.sessions[id]);
  }

  /**
   * Held credit is not bounded by one chunk: after a paid top-up it exceeds a chunk's price
   * exactly when the seconds still left and the seconds bought together do.
   */
  lemma OneChunkIsExceededIff(cfg: Terms, n: Node, at: int, id: Id)
    requires Sound(cfg) && Reached(cfg, n) && Live(n, id) && n.sessions[id].ledger.price > 0 && n.clock <= at
    requires NextChunk(cfg, n.sessions[id].ledger).Some?
    ensures id in Step(cfg, n, Event(at, Renew(id, true, PAID))).sessions
    ensures var l := n.sessions[id].ledger;
      Step(cfg, n, Event(at, Renew(id, true, PAID))).sessions[id].ledger.credit > l.price * cfg.chunkSeconds
      <==> l.SecondsRemaining() + NextChunk(cfg, l).value > cfg.chunkSeconds
  {
    ReachedKept(cfg, n);
    StepOnLiveSession(cfg, n, Event(at, Renew(id, true, PAID)), id);
    HeldAfterTopUp(cfg, id, Advance(n, at).sessions[id], at);
  }

  lemma HeldAfterTopUp(cfg: Terms, id: Id, s: Session, now: int)
    requires Sound(cfg) && MeteredInv(cfg, s, now) && !s.ledger.status.IsTerminal() && s.ledger.price > 0
    requires NextChunk(cfg, s.ledger).Some?
    ensures TopUpTurn(cfg, id, s, now, PAID).session.ledger.credit > s.ledger.price * cfg.chunkSeconds
       <==> s.ledger.SecondsRemaining() + NextChunk(cfg, s.ledger).value > cfg.chunkSeconds
  {
    NextChunkIsThePlans(cfg, s, now);
    PlanTotals(cfg, s);
    TopUpTaken(cfg, id, s, now, PAID);
    CounterReadings(s.ledger, s.book.watch);
    var held := s.book.watch.left + NextChunk(cfg, s.ledger).value;
    PricedParts(s.ledger.price, s.book.watch.left, NextChunk(cfg, s.ledger).value, 0);
    PricedCompare(s.ledger.price, held, cfg.chunkSeconds);
  }

  /**
   * Low credit is a call to action: it is reported exactly while there is a next chunk to buy, which
   * there is until the length is paid in full, and fewer seconds are left than the threshold; so
   * always once a session that is not paid in full runs out.
   */
  lemma LowCreditMeansAChunkIsForSale(cfg: Terms, n: Node, id: Id)
    requires Sound(cfg) && Reached(cfg, n) && Live(n, id) && n.sessions[id].ledger.price > 0
    ensures var l := n.sessions[id].ledger;
      && (NextChunk(cfg, l).Some? <==> !l.FullyPaid())
      && (LowCredits(cfg, l) <==> NextChunk(cfg, l).Some? && n.sessions[id].book.watch.left < cfg.lowCreditSeconds)
      && (l.SecondsRemaining() == 0 && !l.FullyPaid() ==> LowCredits(cfg, l))
  {
    ReachedSession(cfg, n, id);
    NextChunkIsThePlans(cfg, n.sessions[id], n.clock);
    CounterReadings(n.sessions[id].ledger, n.sessions[id].book.watch);
  }

  /**
   * No session is low on credit the moment it opens, which is what validation refuses large
   * thresholds for. The one exception is free time, whose credit never reads as any seconds.
   */
  lemma OpensLowIffFree(cfg: Terms, slotTaken: bool, paused: bool, seconds: int, now: int, env: OpenEnv)
    requires Sound(cfg) && CreateSession(cfg, slotTaken, paused, seconds, now, env).code == 200
    ensures CreateSession(cfg, slotTaken, paused, seconds, now, env).lease.Some?
    ensures var l := CreateSession(cfg, slotTaken, paused, seconds, now, env).lease.value;
      LowCredits(cfg, l) <==> l.price == 0
  {
    ServedOrRefused(cfg, slotTaken, paused, seconds, now, env);
    FailedOpeningsLeaveNothing(cfg, slotTaken, paused, seconds, now, env);
    AcceptedLengthsFitTheContainer(cfg, seconds);
    if cfg.price.value > 0 {
      DivOfMul(cfg.price.value, SessionChunk(cfg, seconds));
    }
  }

  /** Top-ups are asked for only when the node says credit is low, as the rent page does. */
  predicate Disciplined(cfg: Terms, n: Node, es: seq<Event>)
    requires Sound(cfg)
    decreases |es|
  {
    es == [] ||
    (&& (es[0].action.Renew? && Live(n, es[0].action.id) ==> LowCredits(cfg, n.sessions[es[0].action.id].ledger))
     && Disciplined(cfg, Step(cfg, n, es[0]), es[1..]))
  }

  ghost predicate Modest(cfg: Terms, n: Node) {
    forall id | Live(n, id) :: n.sessions[id].ledger.SecondsRemaining() < cfg.chunkSeconds + cfg.lowCreditSeconds
  }

  lemma ModestTurn(cfg: Terms, id: Id, s: Session, e: Event)
    requires Sound(cfg) && MeteredInv(cfg, s, e.at) && !s.ledger.status.IsTerminal()
    requires s.ledger.SecondsRemaining() < cfg.chunkSeconds + cfg.lowCreditSeconds
    ensures e.action.Sweep? ==>
              var after := SweepSession(cfg, id, s, e.at, e.action.refund).session.ledger;
              !after.status.IsTerminal() ==> after.SecondsRemaining() < cfg.chunkSeconds + cfg.lowCreditSeconds
    ensures e.action.Renew? && LowCredits(cfg, s.ledger) ==>
              TopUpTurn(cfg, id, s, e.at, e.action.pay).session.ledger.SecondsRemaining()
              < cfg.chunkSeconds + cfg.lowCreditSeconds
  {
    if e.action.Sweep? {
      if s.ledger.status.Active? {
        SweepRunning(cfg, id, s, e.action.refund, e.at);
        if s.ledger.price > 0 {
          BurnMoney(s.ledger, e.at);
          DivMonotone(s.ledger.price, s.ledger.Burn(e.at).credit, s.ledger.credit);
        }
      } else {
        SweepFrozen(cfg, id, s, e.action.refund, e.at);
      }
    } else if e.action.Renew? && LowCredits(cfg, s.ledger) {
      TopUpSucceedsIff(cfg, s.ledger, e.at, e.action.pay);
      if TopUpSession(cfg, s.ledger, e.at, e.action.pay).code == 200 {
        NextChunkIsThePlans(cfg, s, e.at);
        PlanTotals(cfg, s);
        TopUpTaken(cfg, id, s, e.at, e.action.pay);
      }
    }
  }

  lemma ModestStep(cfg: Terms, n: Node, e: Event)
    requires Sound(cfg) && NodeInv(cfg, n) && Legal(n, e) && Modest(cfg, n)
    requires e.action.Renew? && Live(n, e.action.id) ==> LowCredits(cfg, n.sessions[e.action.id].ledger)
    ensures Modest(cfg, Step(cfg, n, e))
  {
    var after := Step(cfg, n, e);
    forall id | Live(after, id)
      ensures after.sessions[id].ledger.SecondsRemaining() < cfg.chunkSeconds + cfg.lowCreditSeconds
    {
      if Live(n, id) {
        StepOnLiveSession(cfg, n, e, id);
        ModestTurn(cfg, id, Advance(n, e.at).sessions[id], e);
        ClosingEnds(cfg, id, Advance(n, e.at).sessions[id], e);
      } else if id in n.sessions {
        StepOnEndedSession(cfg, n, e, id);
      } else {
        NewSessionIsModest(cfg, n, e, id);
      }
    }
  }

  lemma ClosingEnds(cfg: Terms, id: Id, s: Session, e: Event)
    requires Sound(cfg) && MeteredInv(cfg, s, e.at) && !s.ledger.status.IsTerminal()
    ensures e.action.Stop? ==> StopSession(id, s, e.at, e.action.refund).session.ledger.status.IsTerminal()
    ensures e.action.Evict? && e.action.status.IsTerminal() ==>
              EvictSession(id, s, e.action.status, e.at, e.action.refund).session.ledger.status.IsTerminal()
  {
    match e.action
    case Stop(_, _, refund) => StopSettles(cfg, id, s, refund, e.at);
    case Evict(status, refund) =>
      if status.IsTerminal() {
        EvictSettles(cfg, id, s, status, refund, e.at);
      }
    case _ =>
  }

  lemma NewSessionIsModest(cfg: Terms, n: Node, e: Event, id: Id)
    requires Sound(cfg) && NodeInv(cfg, n) && Legal(n, e) && id !in n.sessions && Live(Step(cfg, n, e), id)
    ensures Step(cfg, n, e).sessions[id].ledger.SecondsRemaining() < cfg.chunkSeconds + cfg.lowCreditSeconds
  {
    var a := Advance(n, e.at);
    assert e.action.Create? && e.action.id == id;
    FailedOpeningsLeaveNothing(cfg, SlotTaken(a), a.paused, e.action.seconds, a.clock, e.action.env);
    var l := Step(cfg, n, e).sessions[id].ledger;
    if l.price > 0 {
      DivOfMul(l.price, SessionChunk(cfg, e.action.seconds));
    }
  }

  lemma {:induction false} ModestRun(cfg: Terms, n: Node, es: seq<Event>)
    requires Sound(cfg) && NodeInv(cfg, n) && Modest(cfg, n) && LegalRun(cfg, n, es) && Disciplined(cfg, n, es)
    ensures NodeInv(cfg, Run(cfg, n, es)) && Modest(cfg, Run(cfg, n, es))
    decreases |es|
  {
    if es != [] {
      StepKeeps(cfg, n, es[0]);
      ModestStep(cfg, n, es[0]);
      ModestRun(cfg, Step(cfg, n, es[0]), es[1..]);
    }
  }

  /** A renter who tops up only on low credit never has two chunks' worth held at once. */
  lemma LowCreditTopUpsHoldUnderTwoChunks(cfg: Terms, start: int, es: seq<Event>, id: Id)
    requires Sound(cfg) && LegalRun(cfg, Fresh(start), es) && Disciplined(cfg, Fresh(start), es)
    requires Live(Run(cfg, Fresh(start), es), id)
    ensures var l := Run(cfg, Fresh(start), es).sessions[id].ledger;
      l.price > 0 ==> l.credit < 2 * (l.price * cfg.chunkSeconds)
  {
    FreshKept(cfg, start);
    ModestRun(cfg, Fresh(start), es);
    var s := Run(cfg, Fresh(start), es).sessions[id];
    assert MeteredInv(cfg, s, Run(cfg, Fresh(start), es).clock);
    if s.ledger.price > 0 {
      UnderTwoChunks(cfg, s);
    }
  }

  lemma UnderTwoChunks(cfg: Terms, s: Session)
    requires Sound(cfg) && MoneyAddsUp(s) && s.ledger.price > 0
    requires s.ledger.SecondsRemaining() < cfg.chunkSeconds + cfg.lowCreditSeconds
    ensures s.ledger.credit < 2 * (s.ledger.price * cfg.chunkSeconds)
  {
    CounterReadings(s.ledger, s.book.watch);
    PricedCompare(s.ledger.price, 2 * cfg.chunkSeconds, s.book.watch.left);
    PricedParts(s.ledger.price, cfg.chunkSeconds, cfg.chunkSeconds, 0);
  }
}

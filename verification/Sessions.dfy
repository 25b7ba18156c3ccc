/**
 * What the node's handlers and its sweep do to the sessions it knows (agent/internal/httpapi:
 * sessions.go, leases.go, payment.go, server.go), as functions on values.
 *
 * A handler or a sweep is one step, with one clock reading. What the outside world answers
 * (facilitator, containers, tunnel, refund transfer) is an input of the step.
 */
module Sessions {
  import opened Common
  import opened Decimal
  import opened Metering
  import opened LeaseConfig

  /** Stands for the random hex a lease and its session are named by. */
  type Id = nat

  const FREEZE_GRACE: int := 30 * SECOND

  // ---- Paying ----

  datatype Header = Malformed | Absent | Present
  datatype Verdict = Errored | Invalid | Valid

  /**
   * What a paid request meets. A challenge is built anew each time one is needed, so the one for
   * an unpaid request or before verification (`quotes`) and the one that answers a failed payment
   * (`requotes`) can go differently.
   */
  datatype PayEnv = PayEnv(header: Header, quotes: bool, verdict: Verdict, settles: bool, requotes: bool)

  /** A payment that goes through. */
  predicate Pays(env: PayEnv) {
    env.header.Present? && env.quotes && env.verdict.Valid? && env.settles
  }

  /** respondWithChallengeFor: a challenge, or the admission that none can be built. */
  function ChallengeCode(built: bool): nat {
    if built then 402 else 503
  }

  /** The outside calls of a paid request, in the order the protocol makes them. */
  datatype Stage = Verify | Start | Sign | PointAt | Reach | Settle | Bank
  datatype Call = Call(stage: Stage, ok: bool)

  const PIPELINE: seq<Stage> := [Verify, Start, Sign, PointAt, Reach, Settle, Bank]

  datatype Collected = Collected(refusal: Option<nat>, calls: seq<Call>)

  /** collectPayment: challenge if unpaid, otherwise verify. `refusal` is the answer already written. */
  function CollectPayment(env: PayEnv): Collected {
    if !env.header.Present? then
      Collected(Some(ChallengeCode(env.quotes)), [])
    else if !env.quotes then
      Collected(Some(503), [])
    else if !env.verdict.Valid? then
      Collected(Some(ChallengeCode(env.requotes)), [Call(Verify, false)])
    else
      Collected(None, [Call(Verify, true)])
  }

  // ---- Opening ----

  datatype OpenEnv = OpenEnv(
    attached: bool,      // sessions, certificate authority and tunnel are all there
    decodes: bool,       // the request body is a session spec
    specAccepted: bool,  // key, GPU and images pass, when first asked
    pay: PayEnv,
    mintsId: bool,
    startAccepted: bool, // the same checks when asked again by StartLease, and its token
    provisions: bool,
    signs: bool,
    points: bool,
    reaches: bool)

  /** The answer to a create request: status code, outside calls made, and the lease it left behind. */
  datatype Opening = Opening(code: nat, calls: seq<Call>, lease: Option<Ledger>)

  predicate LeaseSpecAccepted(cfg: Terms, minutes: int, slotTaken: bool, accepted: bool) {
    cfg.enabled && cfg.minMinutes <= minutes <= cfg.maxMinutes && accepted && !slotTaken
  }

  function CreateSession(cfg: Terms, slotTaken: bool, paused: bool, seconds: int, now: int, env: OpenEnv): Opening
    requires Sound(cfg)
  {
    if !env.attached then
      Opening(404, [], None)
    else if !env.decodes || !LengthAccepted(cfg, seconds) then
      Opening(400, [], None)
    else
      var chunk := SessionChunk(cfg, seconds);
      var minutes := SecondsToMinutes(chunk);
      if !LeaseSpecAccepted(cfg, minutes, slotTaken, env.specAccepted) then
        Opening(400, [], None)
      else if paused then
        Opening(503, [], None)
      else if cfg.price.None? then
        Opening(500, [], None)
      else
        var paid := CollectPayment(env.pay);
        if paid.refusal.Some? then
          Opening(paid.refusal.value, paid.calls, None)
        else if !env.mintsId then
          Opening(500, paid.calls, None)
        else if !LeaseSpecAccepted(cfg, minutes, slotTaken, env.startAccepted) then
          Opening(500, paid.calls + [Call(Start, false)], None)
        else
          ServeLease(cfg, seconds, NewLease(now, minutes), now, env, paid.calls)
  }

  /** From the claimed slot on: provision, publish, settle, bank; any failure fails the lease. */
  function ServeLease(cfg: Terms, seconds: int, lease: Ledger, now: int, env: OpenEnv, calls: seq<Call>): Opening
    requires Sound(cfg) && cfg.price.Some? && LengthAccepted(cfg, seconds)
  {
    var failed := Some(lease.SetStatus(Failed));
    if !env.provisions then
      Opening(500, calls + [Call(Start, false)], failed)
    else
      var started := calls + [Call(Start, true)];
      if !env.signs then
        Opening(502, started + [Call(Sign, false)], failed)
      else if !env.points then
        Opening(502, started + [Call(Sign, true), Call(PointAt, false)], failed)
      else if !env.reaches then
        Opening(502, started + [Call(Sign, true), Call(PointAt, true), Call(Reach, false)], failed)
      else
        var reached := started + [Call(Sign, true), Call(PointAt, true), Call(Reach, true)];
        var price := cfg.price.value;
        var amount := Print(price * SessionChunk(cfg, seconds));
        if !env.pay.settles then
          Opening(ChallengeCode(env.pay.requotes), reached + [Call(Settle, false)], failed)
        else if ParseBigInt(amount).None? || ParseBigInt(amount).value < 0 then
          Opening(500, reached + [Call(Settle, true)], failed)
        else
          Opening(200, reached + [Call(Settle, true), Call(Bank, true)],
                  Some(lease.SetStatus(Active).MarkMetered(now, price, ParseBigInt(amount).value)
                       .(sessionSeconds := seconds)))
  }

  // ---- Topping up ----

  /** The answer to a top-up: status code, outside calls made, seconds bought, and the ledger after. */
  datatype TopUp = TopUp(code: nat, calls: seq<Call>, bought: nat, ledger: Ledger)

  /** What a top-up would buy now, or the refusal that costs nothing. */
  function NextChunk(cfg: Terms, l: Ledger): Option<nat>
    requires Sound(cfg)
  {
    if l.status.IsTerminal() || !l.metered || l.price == 0 then None
    else if l.sessionSeconds > 0 && l.UnpaidSeconds() == 0 then None
    else
      var chunk := if l.sessionSeconds > 0 then Min(cfg.chunkSeconds, l.UnpaidSeconds()) else cfg.chunkSeconds;
      if l.PaidSeconds() + chunk > cfg.maxTotalMinutes * 60 then None else Some(chunk)
  }

  function TopUpSession(cfg: Terms, l: Ledger, now: int, env: PayEnv): TopUp
    requires Sound(cfg)
  {
    if NextChunk(cfg, l).None? then
      TopUp(409, [], 0, l)
    else
      var chunk := NextChunk(cfg, l).value;
      var amount := Print(l.price * chunk);
      var paid := CollectPayment(env);
      if paid.refusal.Some? then
        TopUp(paid.refusal.value, paid.calls, 0, l)
      else if !env.settles then
        TopUp(ChallengeCode(env.requotes), paid.calls + [Call(Settle, false)], 0, l)
      else if ParseBigInt(amount).None? || ParseBigInt(amount).value < 0 then
        TopUp(500, paid.calls + [Call(Settle, true)], 0, l)
      else
        TopUp(200, paid.calls + [Call(Settle, true), Call(Bank, true)], chunk,
              l.AddCredit(ParseBigInt(amount).value).Thaw(now))
  }

  predicate LowCredits(cfg: Terms, l: Ledger) {
    !l.FullyPaid() && l.SecondsRemaining() < cfg.lowCreditSeconds
  }

  // ---- Sessions with their record ----

  datatype Payment = Payment(seconds: nat, tinybars: nat)

  /**
   * What a bystander keeps: the payments the facilitator settled, the refunds transferred, a
   * whole-seconds stopwatch, and how long the container has been running since it was metered.
   */
  datatype Book = Book(
    payments: seq<Payment>,
    transfers: seq<nat>,
    watch: Stopwatch,
    activeNs: int,
    ticks: nat,
    clamped: bool)

  datatype Session = Session(ledger: Ledger, book: Book)

  /** One message for the provider's audit topic. */
  datatype Audit =
    | Opened(id: Id, amount: nat, refund: nat, price: nat, seconds: nat)
    | Burnt(id: Id, amount: nat, refund: nat, price: nat, elapsed: nat)
    | Closed(id: Id, amount: nat, refund: nat, price: nat, elapsed: nat, transferred: bool)

  /** How a refund transfer goes, when one is due. */
  datatype Refund = NoSidecar | TransferFailed | TransferPaid

  /** A session after a step, and what the step published. */
  datatype Turn = Turn(session: Session, published: seq<Audit>)

  function ElapsedSeconds(l: Ledger): nat {
    if l.price > 0 then l.burned / l.price else 0
  }

  function BurnSession(s: Session, now: int): (after: Session)
    ensures after.ledger.status == s.ledger.status
  {
    if !s.ledger.metered then
      s
    else
      var w := s.book.watch;
      Session(
        s.ledger.Burn(now),
        s.book.(watch := w.Tick(now), ticks := s.book.ticks + 1,
                clamped := s.book.clamped || (now - w.since) / SECOND > w.left))
  }

  /** tickMeter. */
  function TickMeter(id: Id, s: Session, now: int): (t: Turn)
    ensures t.session.ledger.status == s.ledger.status
  {
    var b := BurnSession(s, now);
    Turn(b, [Burnt(id, b.ledger.burned, b.ledger.credit, b.ledger.price, ElapsedSeconds(b.ledger))])
  }

  /** recordSessionSettlement: what was earned, what is returned or owed, and whether it was sent. */
  function ClosingMessage(id: Id, l: Ledger, refund: nat, transferred: bool): Audit {
    Closed(id, l.burned, refund, l.price, ElapsedSeconds(l), transferred)
  }

  /** settleSession. */
  function SettleSession(id: Id, s: Session, refund: Refund): (t: Turn)
    ensures t.session.ledger.status == s.ledger.status
  {
    var l, owed := s.ledger, s.ledger.credit;
    if !l.metered || !l.settle.Pending? then
      Turn(s, [])
    else if owed == 0 then
      Turn(Session(l.MarkSettled(0), s.book.(watch := s.book.watch.GiveBack())),
           [ClosingMessage(id, l, 0, false)])
    else
      match refund
      case NoSidecar => Turn(s, [ClosingMessage(id, l, owed, false)])
      case TransferFailed => Turn(s, [])
      case TransferPaid =>
        Turn(Session(l.MarkSettled(owed),
                     s.book.(transfers := s.book.transfers + [owed], watch := s.book.watch.GiveBack())),
             [ClosingMessage(id, l, owed, true)])
  }

  /** StopLease, then settleSession with the lease still in hand. */
  function FinishSession(id: Id, s: Session, status: Status, refund: Refund): (t: Turn)
    ensures t.session.ledger.status == if s.ledger.status.IsTerminal() then s.ledger.status else status
  {
    SettleSession(id, s.(ledger := s.ledger.SetStatus(status)), refund)
  }

  /** handleSessionStop, once authorized: a last burn of a running container, then the end. */
  function StopSession(id: Id, s: Session, now: int, refund: Refund): (t: Turn)
    ensures t.session.ledger.status == if s.ledger.status.IsTerminal() then s.ledger.status else Stopped
  {
    var charged := if s.ledger.status.Active? then BurnSession(s, now) else s;
    FinishSession(id, charged, Stopped, refund)
  }

  /** EndLease: a last burn only of a lease that has become a session, then the end it names. */
  function EvictSession(id: Id, s: Session, status: Status, now: int, refund: Refund): (t: Turn)
    ensures t.session.ledger.status == if s.ledger.status.IsTerminal() then s.ledger.status else status
  {
    var charged := if s.ledger.metered && s.ledger.status.Active? then BurnSession(s, now) else s;
    FinishSession(id, charged, status, refund)
  }

  /** The sweep's meter step: it runs for a metered session whose container is running. */
  function MeterTurn(id: Id, s: Session, now: int): (t: Turn)
    ensures t.session.ledger.status == s.ledger.status
  {
    if s.ledger.metered && s.ledger.status.Active? then TickMeter(id, s, now) else Turn(s, [])
  }

  /** One pass of the sweep over the lease in the slot. */
  function SweepSession(cfg: Terms, id: Id, s: Session, now: int, refund: Refund): Turn {
    if s.ledger.status.IsTerminal() then
      SettleSession(id, s, refund)
    else
      var metered := MeterTurn(id, s, now);
      var decided := Decide(cfg, id, metered.session, now, refund);
      Turn(decided.session, metered.published + decided.published)
  }

  /** The freeze and reap decision, after the meter has run. */
  function Decide(cfg: Terms, id: Id, s: Session, now: int, refund: Refund): Turn {
    match s.ledger.status
    case Active => DecideRunning(id, s, now, refund)
    case Paused => DecideFrozen(cfg, id, s, now, refund)
    case _ => Turn(s, [])
  }

  function DecideRunning(id: Id, s: Session, now: int, refund: Refund): Turn {
    var l := s.ledger;
    if l.FullyPaid() && l.SecondsRemaining() == 0 then FinishSession(id, s, Expired, refund)
    else if l.OverdueBy(now) < FREEZE_GRACE then Turn(s, [])
    else Turn(s.(ledger := l.Freeze(now)), [])
  }

  function DecideFrozen(cfg: Terms, id: Id, s: Session, now: int, refund: Refund): Turn {
    if s.ledger.PausedFor(now) < cfg.graceMinutes * MINUTE then Turn(s, []) else FinishSession(id, s, Expired, refund)
  }

  function FundedMessage(id: Id, amount: nat, l: Ledger): Audit {
    Opened(id, amount, l.credit, l.price, l.SecondsRemaining())
  }

  function Cost(price: nat, seconds: nat): nat {
    price * seconds
  }

  /** A top-up with its payment recorded; the settled amount is the printed price of the chunk. */
  function TopUpTurn(cfg: Terms, id: Id, s: Session, now: int, env: PayEnv): Turn
    requires Sound(cfg)
  {
    var t := TopUpSession(cfg, s.ledger, now, env);
    if t.code != 200 then
      Turn(s, [])
    else
      var amount := Cost(s.ledger.price, t.bought);
      Turn(Session(t.ledger, BookPayment(s, Payment(t.bought, amount), now)), [FundedMessage(id, amount, t.ledger)])
  }

  /** The record of a payment on a session; paying for a frozen one starts its clock again. */
  function BookPayment(s: Session, p: Payment, now: int): Book {
    var bought := s.book.watch.Buy(p.seconds);
    s.book.(payments := s.book.payments + [p],
            watch := if s.ledger.status.Paused? then bought.Restart(now) else bought)
  }

  // ---- The node ----

  datatype Node = Node(
    sessions: map<Id, Session>,
    active: Option<Id>,
    handed: seq<Audit>,
    paused: bool,
    clock: int)

  datatype Action =
    | Create(id: Id, seconds: int, env: OpenEnv)
    | Renew(id: Id, authorized: bool, pay: PayEnv)
    | Sweep(refund: Refund)
    | Stop(id: Id, authorized: bool, refund: Refund)
    | Evict(status: Status, refund: Refund)
    | SetPaused(on: bool)

  datatype Event = Event(at: int, action: Action)

  function Elapse(s: Session, ns: int): Session {
    if s.ledger.status.Active? && s.ledger.metered then s.(book := s.book.(activeNs := s.book.activeNs + ns)) else s
  }

  /** Time passes: every running container runs on. */
  function Advance(n: Node, at: int): Node {
    n.(sessions := map id | id in n.sessions :: Elapse(n.sessions[id], at - n.clock), clock := at)
  }

  function Put(n: Node, id: Id, t: Turn): Node {
    n.(sessions := n.sessions[id := t.session], handed := n.handed + t.published)
  }

  /** Ending a lease frees the slot it held. */
  function Commit(n: Node, id: Id, t: Turn): Node
    requires id in n.sessions
  {
    var ended := !n.sessions[id].ledger.status.IsTerminal() && t.session.ledger.status.IsTerminal();
    Put(n, id, t).(active := if ended && n.active == Some(id) then None else n.active)
  }

  predicate HoldsSlot(n: Node, id: Id) {
    n.active == Some(id) && id in n.sessions
  }

  predicate SlotTaken(n: Node) {
    n.active.Some? && n.active.value in n.sessions && !n.sessions[n.active.value].ledger.status.IsTerminal()
  }

  /** authorizeSession: the named session is the one in the slot, and the token is its own. */
  predicate Authorized(n: Node, id: Id, authorized: bool) {
    authorized && HoldsSlot(n, id) && n.sessions[id].ledger.metered
  }

  function UnpaidBook(now: int): Book {
    Book([], [], Stopwatch(0, 0, 0, now), 0, 0, false)
  }

  function NewBook(cfg: Terms, seconds: int, now: int, l: Ledger): Book
    requires Sound(cfg) && LengthAccepted(cfg, seconds)
  {
    if !l.metered then
      UnpaidBook(now)
    else
      var chunk := SessionChunk(cfg, seconds);
      Book([Payment(chunk, l.price * chunk)], [], Stopwatch(chunk, 0, 0, now), 0, 0, false)
  }

  function CreateStep(cfg: Terms, n: Node, id: Id, seconds: int, env: OpenEnv): Node
    requires Sound(cfg)
  {
    var o := CreateSession(cfg, SlotTaken(n), n.paused, seconds, n.clock, env);
    if o.lease.None? then
      n
    else
      var l := o.lease.value;
      var s := Session(l, NewBook(cfg, seconds, n.clock, l));
      n.(sessions := n.sessions[id := s],
         active := if l.status.IsTerminal() then None else Some(id),
         handed := n.handed + if l.metered then [FundedMessage(id, l.credit, l)] else [])
  }

  /** handleTopUpSession. */
  function RenewStep(cfg: Terms, n: Node, id: Id, authorized: bool, pay: PayEnv): Node
    requires Sound(cfg)
  {
    if Authorized(n, id, authorized) then Commit(n, id, TopUpTurn(cfg, id, n.sessions[id], n.clock, pay)) else n
  }

  /** sweepLeases. */
  function SweepStep(cfg: Terms, n: Node, refund: Refund): Node {
    if n.active.Some? && n.active.value in n.sessions then
      var id := n.active.value;
      Commit(n, id, SweepSession(cfg, id, n.sessions[id], n.clock, refund))
    else
      n
  }

  /** handleSessionStop. */
  function StopStep(n: Node, id: Id, authorized: bool, refund: Refund): Node {
    if Authorized(n, id, authorized) then Commit(n, id, StopSession(id, n.sessions[id], n.clock, refund)) else n
  }

  /** EndLease. */
  function EvictStep(n: Node, status: Status, refund: Refund): Node {
    if SlotTaken(n) then
      var id := n.active.value;
      Commit(n, id, EvictSession(id, n.sessions[id], status, n.clock, refund))
    else
      n
  }

  function Act(cfg: Terms, n: Node, a: Action): Node
    requires Sound(cfg)
  {
    match a
    case Create(id, seconds, env) => CreateStep(cfg, n, id, seconds, env)
    case Renew(id, authorized, pay) => RenewStep(cfg, n, id, authorized, pay)
    case Sweep(refund) => SweepStep(cfg, n, refund)
    case Stop(id, authorized, refund) => StopStep(n, id, authorized, refund)
    case Evict(status, refund) => EvictStep(n, status, refund)
    case SetPaused(on) => n.(paused := on)
  }

  function Step(cfg: Terms, n: Node, e: Event): Node
    requires Sound(cfg)
  {
    Act(cfg, Advance(n, e.at), e.action)
  }

  /** A node that has just started, at some clock reading. */
  function Fresh(now: int): Node {
    Node(map[], None, [], false, now)
  }

  /** Clock readings do not go back, ids are fresh, and an eviction names a way of ending. */
  predicate Legal(n: Node, e: Event) {
    && n.clock <= e.at
    && (e.action.Create? ==> e.action.id !in n.sessions)
    && (e.action.Evict? ==> e.action.status.IsTerminal())
  }

  predicate LegalRun(cfg: Terms, n: Node, es: seq<Event>)
    requires Sound(cfg)
    decreases |es|
  {
    es == [] || (Legal(n, es[0]) && LegalRun(cfg, Step(cfg, n, es[0]), es[1..]))
  }

  function Run(cfg: Terms, n: Node, es: seq<Event>): Node
    requires Sound(cfg)
    decreases |es|
  {
    if es == [] then n else Run(cfg, Step(cfg, n, es[0]), es[1..])
  }
}

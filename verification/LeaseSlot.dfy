/**
 * The runner's single lease slot at the grain of its locks (agent/internal/runner/lease.go), and
 * the settled money of an opening beside it (agent/internal/httpapi/sessions.go, leases.go,
 * server.go): requests, provisioning, payments, stops, evictions, sweeps and late releases
 * interleave freely, section by section. Only settling a lease is one section here and more than
 * one in the code; `SettleSections` takes it apart.
 */
module LeaseSlot {
  import opened Common
  import opened Metering

  type Id = nat

  /** How far a create request has come: provisioning, publishing, or paid for and not yet metered. */
  datatype Phase = Starting | Publishing | Paid

  /** A lease as the runner holds it, as far as the slot and the money are concerned. */
  datatype Lease = Lease(status: Status, settle: SettleState)

  /** Who looks a lease up in the slot to end it, or to see whether it should end. */
  datatype Visitor = Eviction | Stop | Sweep

  /**
   * The goroutines in flight for one lease: its create request, releases still to come (one if it
   * failed in provisioning or was marked over), the evictions, stops and sweeps that have looked
   * it up and not yet checked it, the sweeps that found it live and have not judged it, those of
   * them all that are about to end it, and those still to settle it.
   */
  datatype Flight = Flight(
    opening: Option<Phase>,
    releases: nat,
    evictions: nat,
    stops: nat,
    sweeps: nat,
    passed: nat,
    ending: nat,
    settling: nat)

  /** A request on its way through the opening, with nobody else about. */
  function Alone(phase: Phase): Flight {
    Flight(Some(phase), 0, 0, 0, 0, 0, 0, 0)
  }

  datatype Slots = Slots(leases: map<Id, Lease>, flight: map<Id, Flight>, slot: Option<Id>)

  datatype Section =
    | Claim(id: Id)
    | FailProvisioning(id: Id)
    | FinishProvisioning(id: Id)
    | Abandon(id: Id)                   // publishing failed, or the payment did not settle: StopLease
    | Pay(id: Id)                       // the facilitator settled the opening chunk
    | Meter(id: Id)                     // MarkMetered
    | LookUp(id: Id, who: Visitor)       // ActiveLease
    | Check(id: Id, who: Visitor)        // whether it is over, or for a stop whether it is a session
    | Judge(id: Id)                     // a sweep finds it frozen, or running with its time used up,
    | LetGo(id: Id)                     // or neither, and leaves it,
    | Spare(id: Id)                     // or frozen and within its grace
    | MarkOver(id: Id, status: Status)  // StopLease's first section
    | Settle(id: Id, ok: bool)
    | Freeze(id: Id)
    | Thaw(id: Id)
    | Release(id: Id)

  predicate Known(s: Slots, id: Id) {
    id in s.leases && id in s.flight
  }

  predicate Live(s: Slots, id: Id) {
    id in s.leases && !s.leases[id].status.IsTerminal()
  }

  /** The check under the runner's lock: no lease in the slot, or one that is over. */
  predicate SlotFree(s: Slots) {
    s.slot.None? || !Live(s, s.slot.value)
  }

  /** setStatus and fail: nothing leaves a terminal status. */
  function Become(l: Lease, status: Status): Lease {
    if l.status.IsTerminal() then l else l.(status := status)
  }

  /** StopLease's first section: a release follows only if it was the one to end the lease. */
  function Stopping(l: Lease, f: Flight): Flight {
    if l.status.IsTerminal() then f else f.(releases := f.releases + 1)
  }

  function Visiting(f: Flight, who: Visitor): nat {
    match who
    case Eviction => f.evictions
    case Stop => f.stops
    case Sweep => f.sweeps
  }

  function Arrive(f: Flight, who: Visitor): Flight {
    match who
    case Eviction => f.(evictions := f.evictions + 1)
    case Stop => f.(stops := f.stops + 1)
    case Sweep => f.(sweeps := f.sweeps + 1)
  }

  /**
   * What a visitor does about the lease it finds. An eviction leaves one that is over alone and
   * goes on to end any other; a stop ends what has become a session; a sweep settles one that is
   * over, and has others still to judge.
   */
  function Checked(l: Lease, f: Flight, who: Visitor): Flight
    requires Visiting(f, who) > 0
  {
    match who
    case Eviction =>
      var left := f.(evictions := f.evictions - 1);
      if l.status.IsTerminal() then left else left.(ending := left.ending + 1)
    case Stop =>
      var left := f.(stops := f.stops - 1);
      if l.settle.NotApplicable? then left else left.(ending := left.ending + 1)
    case Sweep =>
      var left := f.(sweeps := f.sweeps - 1);
      if l.status.IsTerminal() then left.(settling := left.settling + 1) else left.(passed := left.passed + 1)
  }

  /** Who can be at which section: each goroutine keeps its own order. */
  predicate Ready(f: Flight, c: Section) {
    match c
    case Claim(_) => false
    case FailProvisioning(_) => f.opening == Some(Starting)
    case FinishProvisioning(_) => f.opening == Some(Starting)
    case Abandon(_) => f.opening == Some(Publishing)
    case Pay(_) => f.opening == Some(Publishing)
    case Meter(_) => f.opening == Some(Paid)
    case LookUp(_, _) => true
    case Check(_, who) => Visiting(f, who) > 0
    case Judge(_) => f.passed > 0
    case LetGo(_) => f.passed > 0
    case Spare(_) => f.ending > 0
    case MarkOver(_, status) => f.ending > 0 && status.IsTerminal()
    case Settle(_, _) => f.settling > 0
    case Freeze(_) => true
    case Thaw(_) => true
    case Release(_) => f.releases > 0
  }

  /** What a sweep ends: a frozen lease, or a running one that is a session. */
  predicate Endable(l: Lease) {
    l.status == Paused || (l.status == Active && !l.settle.NotApplicable?)
  }

  /**
   * A claim is for a fresh id, and only the lease in the slot can be looked up. A sweep that took
   * it for live judges it by its status then, and has no case for one that is over; having read
   * it as running just before it ended makes no difference, since a lease that owes anything has
   * seconds left.
   */
  predicate Enabled(s: Slots, c: Section) {
    if c.Claim? then
      c.id !in s.leases && c.id !in s.flight
    else
      && Known(s, c.id) && Ready(s.flight[c.id], c)
      && (c.LookUp? ==> s.slot == Some(c.id))
      && (c.Judge? ==> Endable(s.leases[c.id]))
  }

  /** What a section does to its lease. */
  function LeaseAfter(l: Lease, c: Section): Lease {
    match c
    case FailProvisioning(_) => Become(l, Failed)
    case FinishProvisioning(_) => Become(l, Active)
    case Abandon(_) => Become(l, Failed)
    case Meter(_) => l.(settle := Pending)
    case MarkOver(_, status) => Become(l, status)
    case Settle(_, ok) => if ok && l.settle.Pending? then l.(settle := Done) else l
    case Freeze(_) => if l.status == Active then l.(status := Paused) else l
    case Thaw(_) => if l.status == Paused then l.(status := Active) else l
    case _ => l
  }

  function FlightAfter(l: Lease, f: Flight, c: Section): Flight
    requires Ready(f, c)
  {
    match c
    case FailProvisioning(_) => f.(opening := None, releases := f.releases + 1)
    case FinishProvisioning(_) => f.(opening := Some(Publishing))
    case Abandon(_) => Stopping(l, f).(opening := None)
    case Pay(_) => f.(opening := Some(Paid))
    case Meter(_) => f.(opening := None)
    case LookUp(_, who) => Arrive(f, who)
    case Check(_, who) => Checked(l, f, who)
    case Judge(_) => f.(passed := f.passed - 1, ending := f.ending + 1)
    case LetGo(_) => f.(passed := f.passed - 1)
    case Spare(_) => f.(ending := f.ending - 1)
    case MarkOver(_, _) => Stopping(l, f).(ending := f.ending - 1, settling := f.settling + 1)
    case Settle(_, _) => f.(settling := f.settling - 1)
    case Release(_) => f.(releases := f.releases - 1)
    case _ => f
  }

  function Do(s: Slots, c: Section): Slots
    requires Enabled(s, c)
  {
    if c.Claim? then
      if SlotFree(s) then
        Slots(s.leases[c.id := Lease(Provisioning, NotApplicable)], s.flight[c.id := Alone(Starting)], Some(c.id))
      else
        s
    else
      var l, f := s.leases[c.id], s.flight[c.id];
      Slots(s.leases[c.id := LeaseAfter(l, c)], s.flight[c.id := FlightAfter(l, f, c)],
            if c.Release? && s.slot == Some(c.id) then None else s.slot)
  }

  const EMPTY := Slots(map[], map[], None)

  predicate Schedule(s: Slots, cs: seq<Section>)
    decreases |cs|
  {
    cs == [] || (Enabled(s, cs[0]) && Schedule(Do(s, cs[0]), cs[1..]))
  }

  function After(s: Slots, cs: seq<Section>): Slots
    requires Schedule(s, cs)
    decreases |cs|
  {
    if cs == [] then s else After(Do(s, cs[0]), cs[1..])
  }

  /**
   * Only leases that are over await release, once by whoever ended them and once more only by failed
   * provisioning; a request that is still opening has no meter yet; and a live lease is provisioning
   * exactly while its request is.
   */
  predicate LeaseInv(l: Lease, f: Flight) {
    && (f.releases > 0 ==> l.status.IsTerminal())
    && f.releases <= (if f.opening == Some(Starting) then 1 else 2)
    && (f.opening.Some? ==> l.settle.NotApplicable?)
    && (!l.status.IsTerminal() ==> (l.status == Provisioning <==> f.opening == Some(Starting)))
  }

  /** The slot holds a lease that is live, or that somebody is still to release. */
  predicate Holder(s: Slots) {
    s.slot.Some? ==> Known(s, s.slot.value) && (Live(s, s.slot.value) || s.flight[s.slot.value].releases > 0)
  }

  /** And a live lease is the one in the slot. */
  ghost predicate SlotInv(s: Slots) {
    && s.leases.Keys == s.flight.Keys
    && Holder(s)
    && (forall id: Id | Live(s, id) :: s.slot == Some(id))
    && (forall id | id in s.leases :: LeaseInv(s.leases[id], s.flight[id]))
  }

  lemma SectionKeeps(l: Lease, f: Flight, c: Section)
    requires LeaseInv(l, f) && Ready(f, c)
    ensures LeaseInv(LeaseAfter(l, c), FlightAfter(l, f, c))
    ensures l.status.IsTerminal() ==> LeaseAfter(l, c).status == l.status
  {
  }

  lemma DoKeeps(s: Slots, c: Section)
    requires SlotInv(s) && Enabled(s, c)
    ensures SlotInv(Do(s, c))
  {
    if !c.Claim? {
      SectionKeeps(s.leases[c.id], s.flight[c.id], c);
    }
    var t := Do(s, c);
    forall id: Id | Live(t, id) ensures t.slot == Some(id) {
      assert Live(s, id) || c == Claim(id);
    }
  }

  lemma {:induction false} ScheduleKeeps(s: Slots, cs: seq<Section>)
    requires SlotInv(s) && Schedule(s, cs)
    ensures SlotInv(After(s, cs))
    decreases |cs|
  {
    if cs != [] {
      DoKeeps(s, cs[0]);
      ScheduleKeeps(Do(s, cs[0]), cs[1..]);
    }
  }

  // ---- The slot ----

  /** However the sections interleave, at most one lease is live, and it holds the slot. */
  lemma AtMostOneLiveLease(cs: seq<Section>, a: Id, b: Id)
    requires Schedule(EMPTY, cs) && Live(After(EMPTY, cs), a) && Live(After(EMPTY, cs), b)
    ensures a == b && After(EMPTY, cs).slot == Some(a)
  {
    ScheduleKeeps(EMPTY, cs);
  }

  /** A claim gets the slot exactly when no lease anywhere is live. */
  lemma ClaimSucceedsIffNoneLive(cs: seq<Section>, id: Id)
    requires Schedule(EMPTY, cs) && id !in After(EMPTY, cs).leases
    ensures var s := After(EMPTY, cs);
      Enabled(s, Claim(id)) && (Live(Do(s, Claim(id)), id) <==> !exists other: Id :: Live(s, other))
  {
    ScheduleKeeps(EMPTY, cs);
  }

  /** An old lease's release, however late, never takes the slot from the lease that is live. */
  lemma LateReleaseKeepsTheHolder(cs: seq<Section>, late: Id, holder: Id)
    requires Schedule(EMPTY, cs) && Enabled(After(EMPTY, cs), Release(late)) && Live(After(EMPTY, cs), holder)
    ensures var s := After(EMPTY, cs);
      late != holder && Do(s, Release(late)).slot == Some(holder) && Do(s, Release(late)).leases == s.leases
  {
    ScheduleKeeps(EMPTY, cs);
  }

  /** The slot is never lost: whatever holds it is live, or has a release to come, which frees it. */
  lemma HeldSlotsAreFreed(cs: seq<Section>, id: Id)
    requires Schedule(EMPTY, cs) && After(EMPTY, cs).slot == Some(id)
    ensures var s := After(EMPTY, cs);
      id in s.leases && (Live(s, id) || (Enabled(s, Release(id)) && Do(s, Release(id)).slot == None))
  {
    ScheduleKeeps(EMPTY, cs);
  }

  /** A lease is released once, or twice if it was stopped while provisioning that then failed. */
  lemma AtMostTwoReleasesToCome(cs: seq<Section>, id: Id)
    requires Schedule(EMPTY, cs) && id in After(EMPTY, cs).leases
    ensures var s := After(EMPTY, cs);
      && id in s.flight && s.flight[id].releases <= 2
      && (Live(s, id) ==> s.flight[id].releases == 0)
      && (s.flight[id].opening == Some(Starting) ==> s.flight[id].releases <= 1)
  {
    ScheduleKeeps(EMPTY, cs);
  }

  /** The ending a section gives a lease, if the lease is not over yet. */
  function EndingOf(c: Section): Option<Status> {
    match c
    case FailProvisioning(_) => Some(Failed)
    case Abandon(_) => Some(Failed)
    case MarkOver(_, status) => Some(status)
    case _ => None
  }

  function FirstEnding(cs: seq<Section>, id: Id): Option<Status> {
    if cs == [] then None
    else if cs[0].id == id && EndingOf(cs[0]).Some? then EndingOf(cs[0])
    else FirstEnding(cs[1..], id)
  }

  /** Whoever ends a lease first names its ending: failed if its opening did, otherwise as the stop, eviction or sweep says. */
  lemma {:induction false} FirstEnderNamesTheEnding(s: Slots, cs: seq<Section>, id: Id)
    requires SlotInv(s) && Schedule(s, cs) && (id in s.leases ==> Live(s, id))
    ensures id in After(s, cs).leases ==>
              var status := After(s, cs).leases[id].status;
              && (status.IsTerminal() <==> FirstEnding(cs, id).Some?)
              && (status.IsTerminal() ==> status == FirstEnding(cs, id).value)
    decreases |cs|
  {
    if cs != [] {
      var after := Do(s, cs[0]);
      DoKeeps(s, cs[0]);
      if id in after.leases && !Live(after, id) {
        OverForGood(after, cs[1..], id);
      } else {
        FirstEnderNamesTheEnding(after, cs[1..], id);
      }
    }
  }

  /** A lease that is over stays over, with the same ending, whatever still runs for it. */
  lemma {:induction false} OverForGood(s: Slots, cs: seq<Section>, id: Id)
    requires SlotInv(s) && Schedule(s, cs) && id in s.leases && s.leases[id].status.IsTerminal()
    ensures id in After(s, cs).leases && After(s, cs).leases[id].status == s.leases[id].status
    decreases |cs|
  {
    if cs != [] {
      DoKeeps(s, cs[0]);
      if cs[0].id == id && !cs[0].Claim? {
        SectionKeeps(s.leases[id], s.flight[id], cs[0]);
      }
      OverForGood(Do(s, cs[0]), cs[1..], id);
    }
  }

  /** A lease is running or frozen from the moment it is provisioned until it is over. */
  lemma ProvisionedMeansActiveOrPaused(cs: seq<Section>, id: Id)
    requires Schedule(EMPTY, cs) && Live(After(EMPTY, cs), id)
    ensures var s := After(EMPTY, cs);
      && id in s.flight
      && (s.leases[id].status == Active || s.leases[id].status == Paused <==> s.flight[id].opening != Some(Starting))
  {
    ScheduleKeeps(EMPTY, cs);
  }

  /** Freezing a running lease and thawing it again is as if nothing had happened; in between it is live and frozen. */
  lemma ThawUndoesFreeze(s: Slots, id: Id)
    requires Known(s, id) && s.leases[id].status == Active
    ensures var frozen := Do(s, Freeze(id));
      Live(frozen, id) && frozen.leases[id].status == Paused && frozen.slot == s.slot && Do(frozen, Thaw(id)) == s
  {
    var frozen := Do(s, Freeze(id));
    assert Do(frozen, Thaw(id)).leases == s.leases && Do(frozen, Thaw(id)).flight == s.flight;
  }

  // ---- Settled money ----

  /** Somebody stopped the lease. */
  predicate Stopped(cs: seq<Section>, id: Id) {
    exists k | 0 <= k < |cs| :: cs[k].MarkOver? && cs[k].id == id
  }

  lemma StoppedSplits(cs: seq<Section>, id: Id)
    requires cs != []
    ensures Stopped(cs, id) <==> (cs[0].MarkOver? && cs[0].id == id) || Stopped(cs[1..], id)
  {
    if Stopped(cs[1..], id) {
      var k :| 0 <= k < |cs[1..]| && cs[1..][k].MarkOver? && cs[1..][k].id == id;
      assert cs[k + 1].MarkOver?;
    }
    if Stopped(cs, id) && !(cs[0].MarkOver? && cs[0].id == id) {
      var k :| 0 <= k < |cs| && cs[k].MarkOver? && cs[k].id == id;
      assert cs[1..][k - 1] == cs[k];
    }
  }

  predicate Opening(s: Slots, id: Id) {
    Known(s, id) && s.flight[id].opening.Some?
  }

  /** A request that is no longer opening never is again. */
  lemma {:induction false} OpenedOnce(s: Slots, cs: seq<Section>, id: Id)
    requires Schedule(s, cs) && Known(s, id) && s.flight[id].opening.None?
    ensures !Opening(After(s, cs), id)
    decreases |cs|
  {
    if cs != [] {
      OpenedOnce(Do(s, cs[0]), cs[1..], id);
    }
  }

  /** While a request is opening, its lease is live exactly as long as nobody has stopped it. */
  lemma {:induction false} LiveUnlessStopped(s: Slots, cs: seq<Section>, id: Id)
    requires SlotInv(s) && Schedule(s, cs) && Opening(After(s, cs), id)
    ensures Live(After(s, cs), id) <==> (id in s.leases ==> Live(s, id)) && !Stopped(cs, id)
    decreases |cs|
  {
    if cs != [] {
      var t := Do(s, cs[0]);
      DoKeeps(s, cs[0]);
      StoppedSplits(cs, id);
      if Known(t, id) && t.flight[id].opening.None? {
        OpenedOnce(t, cs[1..], id);
      }
      LiveUnlessStopped(t, cs[1..], id);
      OpeningStep(s, cs[0], id);
    }
  }

  /** A section that leaves a request opening ends its lease if and only if it stops it. */
  lemma OpeningStep(s: Slots, c: Section, id: Id)
    requires SlotInv(s) && Enabled(s, c)
    requires id in Do(s, c).leases ==> Opening(Do(s, c), id)
    ensures (id in Do(s, c).leases ==> Live(Do(s, c), id)) <==> (id in s.leases ==> Live(s, id)) && !(c.MarkOver? && c.id == id)
  {
  }

  /** A lease that is over and still owes its renter the credit. */
  predicate Owing(s: Slots, id: Id) {
    Known(s, id) && s.leases[id].status.IsTerminal() && s.leases[id].settle.Pending?
  }

  /** No stop or sweep that has looked the lease up is still to check it, and nobody to end or settle it. */
  predicate Deserted(f: Flight) {
    f.stops == 0 && f.sweeps == 0 && f.ending == 0 && f.settling == 0
  }

  /**
   * One that nobody will come upon any more: out of the slot, and in the hands of no one but
   * evictions that will find it over and sweeps past that check.
   */
  predicate Stranded(s: Slots, id: Id) {
    Owing(s, id) && s.slot != Some(id) && Deserted(s.flight[id])
  }

  /**
   * Settled money lands on a live lease exactly when nobody stopped the lease before it was metered.
   * If somebody did, it is stranded at once exactly when the slot has been released as well and
   * nobody who looked the lease up before is still to settle it.
   */
  lemma MoneyLandsLiveIff(cs: seq<Section>, id: Id)
    requires Schedule(EMPTY, cs) && Enabled(After(EMPTY, cs), Meter(id))
    ensures var s := After(EMPTY, cs); var metered := Do(s, Meter(id));
      && (Live(metered, id) <==> !Stopped(cs, id))
      && (Stranded(metered, id) <==> Stopped(cs, id) && s.slot != Some(id) && Deserted(s.flight[id]))
  {
    ScheduleKeeps(EMPTY, cs);
    LiveUnlessStopped(EMPTY, cs, id);
  }

  /** Nobody but stops has looked the lease up, and none of those has come to end it before it was metered. */
  predicate OnlyStops(s: Slots, id: Id) {
    Known(s, id) ==>
      var l, f := s.leases[id], s.flight[id];
      && f.evictions == 0 && f.sweeps == 0 && f.passed == 0
      && (l.settle.NotApplicable? ==> f.ending == 0)
      && (f.opening.Some? ==> l.settle.NotApplicable? && !l.status.IsTerminal())
  }

  predicate LooksUp(c: Section, id: Id) {
    c.LookUp? && c.id == id && c.who != Stop
  }

  lemma {:induction false} OnlyStopsStays(s: Slots, cs: seq<Section>, id: Id)
    requires SlotInv(s) && Schedule(s, cs) && OnlyStops(s, id)
    requires forall k | 0 <= k < |cs| :: !LooksUp(cs[k], id)
    ensures OnlyStops(After(s, cs), id)
    decreases |cs|
  {
    if cs != [] {
      DoKeeps(s, cs[0]);
      OnlyStopsStep(s, cs[0], id);
      OnlyStopsStays(Do(s, cs[0]), cs[1..], id);
    }
  }

  lemma OnlyStopsStep(s: Slots, c: Section, id: Id)
    requires SlotInv(s) && Enabled(s, c) && OnlyStops(s, id) && !LooksUp(c, id)
    ensures OnlyStops(Do(s, c), id)
  {
  }

  /**
   * It takes the provider or the sweep to strand an opening: a renter's stops find no session before
   * it is metered, so if nobody else looks the lease up the money always lands on a live lease.
   */
  lemma StopsNeverStrandAnOpening(cs: seq<Section>, id: Id)
    requires Schedule(EMPTY, cs) && Enabled(After(EMPTY, cs), Meter(id))
    requires forall k | 0 <= k < |cs| :: !LooksUp(cs[k], id)
    ensures Live(Do(After(EMPTY, cs), Meter(id)), id)
  {
    OnlyStopsStays(EMPTY, cs, id);
  }

  lemma {:induction false} StrandedForGood(s: Slots, cs: seq<Section>, id: Id)
    requires Schedule(s, cs) && Stranded(s, id)
    ensures Stranded(After(s, cs), id)
    decreases |cs|
  {
    if cs != [] {
      StrandedStays(s, cs[0], id);
      StrandedForGood(Do(s, cs[0]), cs[1..], id);
    }
  }

  lemma StrandedStays(s: Slots, c: Section, id: Id)
    requires Enabled(s, c) && Stranded(s, id)
    ensures Stranded(Do(s, c), id)
  {
  }

  /** The sections by which whoever can still reach the lease sends what it owes. */
  function WayOut(s: Slots, id: Id): seq<Section>
    requires Known(s, id)
  {
    var f := s.flight[id];
    if f.settling > 0 then Closing(id)
    else if f.ending > 0 then EndingIt(id)
    else if f.stops > 0 then [Check(id, Stop)] + EndingIt(id)
    else if f.sweeps > 0 then [Check(id, Sweep)] + Closing(id)
    else [LookUp(id, Sweep)] + ([Check(id, Sweep)] + Closing(id))
  }

  function Closing(id: Id): seq<Section> {
    [Settle(id, true)]
  }

  function EndingIt(id: Id): seq<Section> {
    [MarkOver(id, Status.Stopped)] + Closing(id)
  }

  predicate Refunds(s: Slots, cs: seq<Section>, id: Id) {
    Schedule(s, cs) && id in After(s, cs).leases && After(s, cs).leases[id].settle == Done
  }

  lemma FirstThen(s: Slots, c: Section, cs: seq<Section>)
    requires Enabled(s, c) && Schedule(Do(s, c), cs)
    ensures Schedule(s, [c] + cs) && After(s, [c] + cs) == After(Do(s, c), cs)
  {
    assert ([c] + cs)[1..] == cs;
  }

  lemma RefundsStep(s: Slots, c: Section, cs: seq<Section>, id: Id)
    requires Enabled(s, c) && Refunds(Do(s, c), cs, id)
    ensures Refunds(s, [c] + cs, id)
  {
    FirstThen(s, c, cs);
  }

  lemma ClosingRefunds(s: Slots, id: Id)
    requires Known(s, id) && s.leases[id].settle.Pending? && s.flight[id].settling > 0
    ensures Refunds(s, Closing(id), id)
  {
    RefundsStep(s, Settle(id, true), [], id);
    assert [Settle(id, true)] + [] == Closing(id);
  }

  lemma EndingRefunds(s: Slots, id: Id)
    requires Known(s, id) && s.leases[id].settle.Pending? && s.flight[id].ending > 0
    ensures Refunds(s, EndingIt(id), id)
  {
    ClosingRefunds(Do(s, MarkOver(id, Status.Stopped)), id);
    RefundsStep(s, MarkOver(id, Status.Stopped), Closing(id), id);
  }

  lemma SweepRefunds(s: Slots, id: Id)
    requires Owing(s, id) && s.flight[id].sweeps > 0
    ensures Refunds(s, [Check(id, Sweep)] + Closing(id), id)
  {
    ClosingRefunds(Do(s, Check(id, Sweep)), id);
    RefundsStep(s, Check(id, Sweep), Closing(id), id);
  }

  lemma WayOutRefunds(s: Slots, id: Id)
    requires Owing(s, id) && !Stranded(s, id)
    ensures Refunds(s, WayOut(s, id), id)
  {
    var f := s.flight[id];
    if f.settling > 0 {
      ClosingRefunds(s, id);
    } else if f.ending > 0 {
      EndingRefunds(s, id);
    } else if f.stops > 0 {
      EndingRefunds(Do(s, Check(id, Stop)), id);
      RefundsStep(s, Check(id, Stop), EndingIt(id), id);
    } else if f.sweeps > 0 {
      SweepRefunds(s, id);
    } else {
      SweepRefunds(Do(s, LookUp(id, Sweep)), id);
      RefundsStep(s, LookUp(id, Sweep), [Check(id, Sweep)] + Closing(id), id);
    }
  }

  /** A sweep that finds a session running or frozen can end it, and send what it owes. */
  lemma SweepsEndSessions(s: Slots, id: Id)
    requires Live(s, id) && Known(s, id) && s.slot == Some(id)
    requires s.leases[id].settle.Pending? && s.leases[id].status != Provisioning
    ensures Refunds(s, [LookUp(id, Sweep)] + ([Check(id, Sweep)] + ([Judge(id)] + EndingIt(id))), id)
  {
    var found := Do(s, LookUp(id, Sweep));
    var passed := Do(found, Check(id, Sweep));
    EndingRefunds(Do(passed, Judge(id)), id);
    RefundsStep(passed, Judge(id), EndingIt(id), id);
    RefundsStep(found, Check(id, Sweep), [Judge(id)] + EndingIt(id), id);
    RefundsStep(s, LookUp(id, Sweep), [Check(id, Sweep)] + ([Judge(id)] + EndingIt(id)), id);
  }

  /** Somebody settled the lease, and the transfer went through. */
  predicate TransferPaid(cs: seq<Section>, id: Id) {
    cs != [] && (cs[0] == Settle(id, true) || TransferPaid(cs[1..], id))
  }

  /** A lease is settled only by a transfer that went through, and stays so. */
  lemma {:induction false} DoneOnlyByPaying(s: Slots, cs: seq<Section>, id: Id)
    requires SlotInv(s) && Schedule(s, cs) && (id in s.leases ==> !s.leases[id].settle.Done?)
    ensures id in After(s, cs).leases && After(s, cs).leases[id].settle.Done? ==> TransferPaid(cs, id)
    decreases |cs|
  {
    if cs != [] && cs[0] != Settle(id, true) {
      DoKeeps(s, cs[0]);
      DoneOnlyByPaying(Do(s, cs[0]), cs[1..], id);
    }
  }

  lemma {:induction false} DoneStays(s: Slots, cs: seq<Section>, id: Id)
    requires SlotInv(s) && Schedule(s, cs) && id in s.leases && s.leases[id].settle.Done?
    ensures id in After(s, cs).leases && After(s, cs).leases[id].settle.Done?
    decreases |cs|
  {
    if cs != [] {
      DoKeeps(s, cs[0]);
      DoneStays(Do(s, cs[0]), cs[1..], id);
    }
  }

  /** What a lease that is over still owes can be sent, by some further schedule, exactly when it is not stranded. */
  lemma RefundableIffNotStranded(s: Slots, id: Id)
    requires Owing(s, id)
    ensures !Stranded(s, id) <==> exists cs: seq<Section> :: Refunds(s, cs, id)
  {
    if Stranded(s, id) {
      forall cs: seq<Section> | Schedule(s, cs)
        ensures !Refunds(s, cs, id)
      {
        StrandedForGood(s, cs, id);
      }
    } else {
      WayOutRefunds(s, id);
    }
  }

  // ---- Settlers at once ----

  ghost predicate Settlers(s: Slots, cs: seq<Section>, id: Id, n: nat) {
    Schedule(s, cs) && Known(After(s, cs), id) && After(s, cs).flight[id].settling == n
  }

  lemma SettlersStep(s: Slots, c: Section, cs: seq<Section>, id: Id, n: nat)
    requires Enabled(s, c) && Settlers(Do(s, c), cs, id, n)
    ensures Settlers(s, [c] + cs, id, n)
  {
    FirstThen(s, c, cs);
  }

  /** A stop, from looking the lease up to having it to settle. */
  function StopIt(id: Id): seq<Section> {
    [LookUp(id, Stop)] + ([Check(id, Stop)] + [MarkOver(id, Status.Stopped)])
  }

  lemma StopsToSettle(s: Slots, id: Id, rest: seq<Section>, n: nat)
    requires Known(s, id) && s.slot == Some(id) && !s.leases[id].settle.NotApplicable?
    requires Settlers(Do(Do(Do(s, LookUp(id, Stop)), Check(id, Stop)), MarkOver(id, Status.Stopped)), rest, id, n)
    ensures Settlers(s, StopIt(id) + rest, id, n)
  {
    var found := Do(s, LookUp(id, Stop));
    var checked := Do(found, Check(id, Stop));
    SettlersStep(checked, MarkOver(id, Status.Stopped), rest, id, n);
    SettlersStep(found, Check(id, Stop), [MarkOver(id, Status.Stopped)] + rest, id, n);
    SettlersStep(s, LookUp(id, Stop), [Check(id, Stop)] + ([MarkOver(id, Status.Stopped)] + rest), id, n);
    Regroup([LookUp(id, Stop)], [Check(id, Stop)] + [MarkOver(id, Status.Stopped)], rest);
    Regroup([Check(id, Stop)], [MarkOver(id, Status.Stopped)], rest);
  }

  /**
   * Settlers can come together: a second stop sent before the first has released the slot finds
   * the same session, over or not, and goes on to settle it too. What that can do to the money is
   * the subject of `SettleSections`.
   */
  lemma TwoStopsSettleAtOnce(s: Slots, id: Id)
    requires Live(s, id) && Known(s, id) && s.slot == Some(id) && s.leases[id].settle.Pending?
    ensures Settlers(s, StopIt(id) + (StopIt(id) + []), id, s.flight[id].settling + 2)
  {
    var once := Do(Do(Do(s, LookUp(id, Stop)), Check(id, Stop)), MarkOver(id, Status.Stopped));
    StopsToSettle(once, id, [], s.flight[id].settling + 2);
    StopsToSettle(s, id, StopIt(id) + [], s.flight[id].settling + 2);
  }

  // ---- Why money is stranded ----

  /** The opening's money was metered when the lease was already over. */
  predicate MeteredLate(s: Slots, cs: seq<Section>, id: Id)
    requires Schedule(s, cs)
    decreases |cs|
  {
    cs != [] && ((cs[0] == Meter(id) && !Live(s, id)) || MeteredLate(Do(s, cs[0]), cs[1..], id))
  }

  /** Somebody got as far as settling the lease, and the transfer failed. */
  predicate TransferFailed(cs: seq<Section>, id: Id) {
    cs != [] && (cs[0] == Settle(id, false) || TransferFailed(cs[1..], id))
  }

  /** Somebody is about to settle what the lease owes. */
  predicate InHand(s: Slots, id: Id) {
    Owing(s, id) ==> s.flight[id].settling > 0
  }

  lemma {:induction false} OwingIsExplained(s: Slots, cs: seq<Section>, id: Id)
    requires SlotInv(s) && Schedule(s, cs) && InHand(s, id)
    ensures InHand(After(s, cs), id) || MeteredLate(s, cs, id) || TransferFailed(cs, id)
    decreases |cs|
  {
    if cs != [] && !(cs[0] == Meter(id) && !Live(s, id)) && cs[0] != Settle(id, false) {
      DoKeeps(s, cs[0]);
      InHandStep(s, cs[0], id);
      OwingIsExplained(Do(s, cs[0]), cs[1..], id);
    }
  }

  lemma InHandStep(s: Slots, c: Section, id: Id)
    requires SlotInv(s) && Enabled(s, c) && InHand(s, id)
    requires !(c == Meter(id) && !Live(s, id)) && c != Settle(id, false)
    ensures InHand(Do(s, c), id)
  {
  }

  /**
   * There are just two ways for a renter's money to be stranded: it was metered onto a lease that
   * somebody had already stopped, or the lease was settled and the transfer failed.
   */
  lemma StrandedOnlyLateOrFailed(cs: seq<Section>, id: Id)
    requires Schedule(EMPTY, cs) && Stranded(After(EMPTY, cs), id)
    ensures MeteredLate(EMPTY, cs, id) || TransferFailed(cs, id)
  {
    OwingIsExplained(EMPTY, cs, id);
  }

  // ---- The runner ----

  /** The runner's own fields, with the sections as its methods. */
  class Runner {
    var leases: map<Id, Lease>
    var activeLease: Option<Id>
    ghost var flight: map<Id, Flight>

    ghost function View(): Slots
      reads this
    {
      Slots(leases, flight, activeLease)
    }

    constructor ()
      ensures View() == EMPTY
    {
      leases, activeLease, flight := map[], None, map[];
    }

    /** The goroutine at this section goes on. */
    ghost method Proceed(c: Section)
      requires Enabled(View(), c) && !c.Claim?
      modifies `flight
      ensures flight == old(flight)[c.id := FlightAfter(leases[c.id], old(flight)[c.id], c)]
    {
      flight := flight[c.id := FlightAfter(leases[c.id], flight[c.id], c)];
    }

    /** StartLease's claim, under the runner's lock. */
    method ClaimSlot(id: Id) returns (claimed: bool)
      requires Enabled(View(), Claim(id))
      modifies this
      ensures View() == Do(old(View()), Claim(id)) && claimed == Live(View(), id)
    {
      if activeLease.Some? && activeLease.value in leases && !leases[activeLease.value].status.IsTerminal() {
        return false;
      }
      leases := leases[id := Lease(Provisioning, NotApplicable)];
      activeLease := Some(id);
      flight := flight[id := Alone(Starting)];
      return true;
    }

    /** fail, when provisioning did not work out; its release comes later. */
    method FailLease(id: Id)
      requires Enabled(View(), FailProvisioning(id))
      modifies this
      ensures View() == Do(old(View()), FailProvisioning(id))
    {
      Proceed(FailProvisioning(id));
      var lease := leases[id];
      leases := leases[id := if lease.status.IsTerminal() then lease else lease.(status := Failed)];
    }

    /** setStatus(active), when provisioning did; a lease stopped meanwhile stays stopped. */
    method Activate(id: Id)
      requires Enabled(View(), FinishProvisioning(id))
      modifies this
      ensures View() == Do(old(View()), FinishProvisioning(id))
    {
      Proceed(FinishProvisioning(id));
      var lease := leases[id];
      leases := leases[id := if lease.status.IsTerminal() then lease else lease.(status := Active)];
    }

    /** The create handler giving up before any money moved: StopLease's first section. */
    method AbandonOpening(id: Id)
      requires Enabled(View(), Abandon(id))
      modifies this
      ensures View() == Do(old(View()), Abandon(id))
    {
      Proceed(Abandon(id));
      var lease := leases[id];
      leases := leases[id := if lease.status.IsTerminal() then lease else lease.(status := Failed)];
    }

    /** ActiveLease: the lease in the slot, live or not. */
    method ActiveLease(ghost who: Visitor) returns (found: Option<Id>)
      requires SlotInv(View())
      modifies `flight
      ensures found.Some? <==> activeLease.Some? && activeLease.value in leases
      ensures found.Some? ==>
                Enabled(old(View()), LookUp(found.value, who)) && View() == Do(old(View()), LookUp(found.value, who))
      ensures found.None? ==> View() == old(View())
    {
      if activeLease.None? || activeLease.value !in leases {
        return None;
      }
      Proceed(LookUp(activeLease.value, who));
      assert leases[activeLease.value := leases[activeLease.value]] == leases;
      return activeLease;
    }

    /** The check an eviction or a sweep makes of the lease it found: is it over? */
    method IsOver(id: Id, ghost who: Visitor) returns (over: bool)
      requires Enabled(View(), Check(id, who)) && who != Stop
      modifies `flight
      ensures View() == Do(old(View()), Check(id, who)) && over == !Live(View(), id)
    {
      Proceed(Check(id, who));
      over := leases[id].status.IsTerminal();
      assert leases[id := leases[id]] == leases;
    }

    /** MarkMetered, which does not look at the status. */
    method MarkMetered(id: Id)
      requires Enabled(View(), Meter(id))
      modifies this
      ensures View() == Do(old(View()), Meter(id))
    {
      Proceed(Meter(id));
      leases := leases[id := leases[id].(settle := Pending)];
    }

    /** StopLease's first section; it goes on to release only if it was the one to end the lease. */
    method MarkLease(id: Id, status: Status) returns (ended: bool)
      requires Enabled(View(), MarkOver(id, status))
      modifies this
      ensures View() == Do(old(View()), MarkOver(id, status)) && ended == Live(old(View()), id)
    {
      Proceed(MarkOver(id, status));
      var lease := leases[id];
      ended := !lease.status.IsTerminal();
      leases := leases[id := if ended then lease.(status := status) else lease];
    }

    /** settleSession taken as one section: nothing without a meter, nothing once done; `ok` is how the transfer goes. */
    method SettleLease(id: Id, ok: bool)
      requires Enabled(View(), Settle(id, ok))
      modifies this
      ensures View() == Do(old(View()), Settle(id, ok))
    {
      Proceed(Settle(id, ok));
      var lease := leases[id];
      leases := leases[id := if lease.settle.Pending? && ok then lease.(settle := Done) else lease];
    }

    method PauseLease(id: Id)
      requires Enabled(View(), Freeze(id))
      modifies this
      ensures View() == Do(old(View()), Freeze(id))
    {
      Proceed(Freeze(id));
      var lease := leases[id];
      leases := leases[id := if lease.status == Active then lease.(status := Paused) else lease];
    }

    method ResumeLease(id: Id)
      requires Enabled(View(), Thaw(id))
      modifies this
      ensures View() == Do(old(View()), Thaw(id))
    {
      Proceed(Thaw(id));
      var lease := leases[id];
      leases := leases[id := if lease.status == Paused then lease.(status := Active) else lease];
    }

    /** releaseLeaseSlot. */
    method ReleaseLeaseSlot(id: Id)
      requires Enabled(View(), Release(id))
      modifies this
      ensures View() == Do(old(View()), Release(id))
    {
      Proceed(Release(id));
      if activeLease == Some(id) {
        activeLease := None;
      }
      assert leases[id := leases[id]] == leases;
    }
  }
}

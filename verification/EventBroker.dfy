/**
 * The dashboard's event broker (agent/internal/runner/events.go): a bounded replay buffer and
 * bounded per-subscriber queues that a publisher never waits for.
 */
module EventBroker {
  import opened Common

  const RECENT_EVENTS: nat := 200
  const QUEUE_SLOTS: nat := 256

  function LastOf<E>(events: seq<E>, n: nat): seq<E> {
    if |events| <= n then events else events[|events| - n..]
  }

  /** A send that never blocks: a full queue drops the event. */
  function Offer<E>(queue: seq<E>, event: E): seq<E> {
    if |queue| < QUEUE_SLOTS then queue + [event] else queue
  }

  // ---- Runs ----

  type Id = nat

  /**
   * A subscription: what it was handed, what it has read, what waits in its queue. Places are
   * positions in the history of all events: it was offered the places from `start` to `till`, got
   * the ones in `picks` and missed the ones in `missed`.
   */
  datatype Subscription<E> = Subscription(
    backlog: seq<E>, received: seq<E>, queue: seq<E>, open: bool, start: nat, till: nat, picks: seq<nat>, missed: set<nat>)
  {
    function Seen(): seq<E> {
      backlog + received + queue
    }
  }

  datatype State<E> = State(history: seq<E>, recent: seq<E>, subs: map<Id, Subscription<E>>)

  datatype Step<E> = Publish(event: E) | Subscribe(id: Id) | Receive(id: Id) | Unsubscribe(id: Id)

  predicate Enabled<E>(s: State<E>, t: Step<E>) {
    match t
    case Publish(_) => true
    case Subscribe(id) => id !in s.subs
    case Receive(id) => id in s.subs && s.subs[id].queue != []
    case Unsubscribe(id) => id in s.subs
  }

  function Offered<E>(sub: Subscription<E>, event: E, at: nat): Subscription<E> {
    if !sub.open then sub
    else if |sub.queue| < QUEUE_SLOTS then
      sub.(queue := Offer(sub.queue, event), till := at + 1, picks := sub.picks + [at])
    else
      sub.(queue := Offer(sub.queue, event), till := at + 1, missed := sub.missed + {at})
  }

  function OfferedAll<E>(subs: map<Id, Subscription<E>>, event: E, at: nat): (after: map<Id, Subscription<E>>)
    ensures after.Keys == subs.Keys
  {
    map id | id in subs :: Offered(subs[id], event, at)
  }

  /** A subscription to a broker that has seen `length` events and still holds `recent`. */
  function Joined<E>(recent: seq<E>, length: nat): Subscription<E> {
    var start := length - Min(length, |recent|);
    Subscription(recent, [], [], true, start, length, seq(|recent|, i => start + i), {})
  }

  function Do<E>(s: State<E>, t: Step<E>): State<E>
    requires Enabled(s, t)
  {
    match t
    case Publish(event) =>
      State(s.history + [event], LastOf(s.recent + [event], RECENT_EVENTS),
            OfferedAll(s.subs, event, |s.history|))
    case Subscribe(id) => s.(subs := s.subs[id := Joined(s.recent, |s.history|)])
    case Receive(id) =>
      var sub := s.subs[id];
      s.(subs := s.subs[id := sub.(received := sub.received + [sub.queue[0]], queue := sub.queue[1..])])
    case Unsubscribe(id) => s.(subs := s.subs[id := s.subs[id].(open := false)])
  }

  predicate Schedule<E>(s: State<E>, ts: seq<Step<E>>)
    decreases |ts|
  {
    ts == [] || (Enabled(s, ts[0]) && Schedule(Do(s, ts[0]), ts[1..]))
  }

  function After<E>(s: State<E>, ts: seq<Step<E>>): State<E>
    requires Schedule(s, ts)
    decreases |ts|
  {
    if ts == [] then s else After(Do(s, ts[0]), ts[1..])
  }

  function Start<E>(): State<E> {
    State([], [], map[])
  }

  /** Everything a subscription got, in the order of the history, each place at most once. */
  ghost predicate InOrder<E>(history: seq<E>, sub: Subscription<E>) {
    && |sub.picks| == |sub.Seen()|
    && sub.start <= sub.till <= |history|
    && (forall i | 0 <= i < |sub.picks| :: sub.start <= sub.picks[i] < sub.till && sub.Seen()[i] == history[sub.picks[i]])
    && (forall i, j | 0 <= i < j < |sub.picks| :: sub.picks[i] < sub.picks[j])
  }

  /** Every place it was offered it either got or missed, and not both. */
  ghost predicate Accounted<E>(sub: Subscription<E>) {
    && (forall p: nat | sub.start <= p < sub.till :: p in sub.picks || p in sub.missed)
    && (forall p | p in sub.missed :: sub.start <= p < sub.till && p !in sub.picks)
    && |sub.picks| + |sub.missed| == sub.till - sub.start
  }

  ghost predicate SubInv<E>(history: seq<E>, sub: Subscription<E>) {
    && InOrder(history, sub)
    && Accounted(sub)
    && |sub.queue| <= QUEUE_SLOTS
    && (sub.open ==> sub.till == |history|)
  }

  ghost predicate Inv<E>(s: State<E>) {
    && s.recent == LastOf(s.history, RECENT_EVENTS)
    && forall id | id in s.subs :: SubInv(s.history, s.subs[id])
  }

  lemma OfferedKeeps<E>(history: seq<E>, sub: Subscription<E>, event: E)
    requires SubInv(history, sub)
    ensures SubInv(history + [event], Offered(sub, event, |history|))
  {
    var after := Offered(sub, event, |history|);
    if sub.open && |sub.queue| < QUEUE_SLOTS {
      assert after.Seen() == sub.Seen() + [event];
    }
  }

  lemma JoinedStartsRight<E>(history: seq<E>)
    ensures SubInv(history, Joined(LastOf(history, RECENT_EVENTS), |history|))
  {
    var recent := LastOf(history, RECENT_EVENTS);
    var sub := Joined(recent, |history|);
    assert sub.Seen() == recent;
    forall p: nat | sub.start <= p < sub.till ensures p in sub.picks {
      assert sub.picks[p - sub.start] == p;
    }
  }

  lemma ReceivedKeeps<E>(history: seq<E>, sub: Subscription<E>)
    requires SubInv(history, sub) && sub.queue != []
    ensures SubInv(history, sub.(received := sub.received + [sub.queue[0]], queue := sub.queue[1..]))
  {
    var after := sub.(received := sub.received + [sub.queue[0]], queue := sub.queue[1..]);
    assert after.Seen() == sub.Seen();
  }

  lemma ClosedKeeps<E>(history: seq<E>, sub: Subscription<E>)
    requires SubInv(history, sub)
    ensures SubInv(history, sub.(open := false))
  {
    assert sub.(open := false).Seen() == sub.Seen();
  }

  lemma DoKeeps<E>(s: State<E>, t: Step<E>)
    requires Inv(s) && Enabled(s, t)
    ensures Inv(Do(s, t))
  {
    match t
    case Publish(event) =>
      forall id | id in s.subs ensures SubInv(s.history + [event], Offered(s.subs[id], event, |s.history|)) {
        OfferedKeeps(s.history, s.subs[id], event);
      }
    case Subscribe(_) => JoinedStartsRight(s.history);
    case Receive(id) => ReceivedKeeps(s.history, s.subs[id]);
    case Unsubscribe(id) => ClosedKeeps(s.history, s.subs[id]);
  }

  lemma {:induction false} ScheduleKeeps<E>(s: State<E>, ts: seq<Step<E>>)
    requires Inv(s) && Schedule(s, ts)
    ensures Inv(After(s, ts))
    decreases |ts|
  {
    if ts != [] {
      DoKeeps(s, ts[0]);
      ScheduleKeeps(Do(s, ts[0]), ts[1..]);
    }
  }

  /** Whatever interleaves, a late subscriber is handed exactly the last two hundred events. */
  lemma ReplayIsTheRecentPast<E>(ts: seq<Step<E>>)
    requires Schedule(Start<E>(), ts)
    ensures var s := After(Start<E>(), ts);
      s.recent == s.history[|s.history| - Min(200, |s.history|)..]
  {
    ScheduleKeeps(Start<E>(), ts);
  }

  /**
   * Backlog, then what was read, then what is queued, is an ordered, duplicate-free selection
   * of the history: of the places from where the backlog begins to where the subscription ended,
   * or to the present, each is either there or among the missed, and never both. A subscription
   * that missed nothing has all of them.
   */
  lemma SubscribersSeeHistoryInOrder<E>(ts: seq<Step<E>>, id: Id)
    requires Schedule(Start<E>(), ts) && id in After(Start<E>(), ts).subs
    ensures var s := After(Start<E>(), ts); var sub := s.subs[id];
      && InOrder(s.history, sub) && Accounted(sub)
      && (sub.open ==> sub.till == |s.history|)
      && (sub.missed == {} ==> sub.Seen() == s.history[sub.start..sub.till])
  {
    ScheduleKeeps(Start<E>(), ts);
    var s := After(Start<E>(), ts);
    var sub := s.subs[id];
    if sub.missed == {} {
      forall i | 0 <= i < |sub.picks| ensures sub.picks[i] == sub.start + i {
        PicksSpread(sub.picks, sub.start, sub.till, i);
      }
    }
  }

  /** As many increasing places as there is room for leave no gap. */
  lemma PicksSpread(picks: seq<nat>, start: nat, end: nat, i: nat)
    requires i < |picks| == end - start
    requires forall k | 0 <= k < |picks| :: start <= picks[k] < end
    requires forall j, k | 0 <= j < k < |picks| :: picks[j] < picks[k]
    ensures picks[i] == start + i
  {
    AtLeast(picks, start, i);
    AtMost(picks, end, i);
  }

  lemma {:induction false} AtLeast(picks: seq<nat>, start: nat, i: nat)
    requires i < |picks| && start <= picks[0]
    requires forall j, k | 0 <= j < k < |picks| :: picks[j] < picks[k]
    ensures picks[i] >= start + i
  {
    if i > 0 {
      AtLeast(picks, start, i - 1);
    }
  }

  lemma {:induction false} AtMost(picks: seq<nat>, end: nat, i: nat)
    requires i < |picks| && picks[|picks| - 1] < end
    requires forall j, k | 0 <= j < k < |picks| :: picks[j] < picks[k]
    ensures picks[i] <= end - (|picks| - i)
    decreases |picks| - i
  {
    if i < |picks| - 1 {
      AtMost(picks, end, i + 1);
    }
  }

  // ---- Which events are missed ----

  lemma {:induction false} AfterInTwo<E>(s: State<E>, ts: seq<Step<E>>, i: nat)
    requires Schedule(s, ts) && i <= |ts|
    ensures Schedule(s, ts[..i]) && Schedule(After(s, ts[..i]), ts[i..])
    ensures After(s, ts) == After(After(s, ts[..i]), ts[i..])
    decreases i
  {
    if i == 0 {
      assert ts[0..] == ts;
    } else {
      AfterInTwo(Do(s, ts[0]), ts[1..], i - 1);
      assert ts[..i][1..] == ts[1..][..i - 1] && ts[1..][i - 1..] == ts[i..];
    }
  }

  /** A subscription that has ended is offered nothing more; what is queued can still be read, and only that. */
  lemma {:induction false} NothingAfterUnsubscribing<E>(s: State<E>, ts: seq<Step<E>>, id: Id)
    requires id in s.subs && Schedule(Do(s, Step.Unsubscribe(id)), ts)
    ensures var before, after := s.subs[id], After(Do(s, Step.Unsubscribe(id)), ts);
      && id in after.subs && !after.subs[id].open
      && after.subs[id].till == before.till && after.subs[id].picks == before.picks
      && after.subs[id].missed == before.missed && after.subs[id].Seen() == before.Seen()
  {
    var ended := Do(s, Step.Unsubscribe(id));
    assert ended.subs[id].Seen() == s.subs[id].Seen();
    ClosedStays(ended, ts, id);
  }

  lemma {:induction false} ClosedStays<E>(s: State<E>, ts: seq<Step<E>>, id: Id)
    requires id in s.subs && !s.subs[id].open && Schedule(s, ts)
    ensures var before, after := s.subs[id], After(s, ts);
      && id in after.subs && !after.subs[id].open
      && after.subs[id].till == before.till && after.subs[id].picks == before.picks
      && after.subs[id].missed == before.missed && after.subs[id].Seen() == before.Seen()
    decreases |ts|
  {
    if ts != [] {
      ClosedStep(s, ts[0], id);
      ClosedStays(Do(s, ts[0]), ts[1..], id);
    }
  }

  lemma ClosedStep<E>(s: State<E>, t: Step<E>, id: Id)
    requires id in s.subs && !s.subs[id].open && Enabled(s, t)
    ensures var before, after := s.subs[id], Do(s, t);
      && id in after.subs && !after.subs[id].open
      && after.subs[id].till == before.till && after.subs[id].picks == before.picks
      && after.subs[id].missed == before.missed && after.subs[id].Seen() == before.Seen()
  {
    if t == Receive(id) {
      var sub := s.subs[id];
      Regroup(sub.backlog + sub.received, [sub.queue[0]], sub.queue[1..]);
      Regroup(sub.backlog, sub.received, [sub.queue[0]]);
      assert [sub.queue[0]] + sub.queue[1..] == sub.queue;
    }
  }

  /** What became of a place is settled when it is offered. */
  lemma {:induction false} PlacesStay<E>(s: State<E>, ts: seq<Step<E>>, id: Id, p: nat)
    requires Inv(s) && Schedule(s, ts) && id in s.subs && p < s.subs[id].till
    ensures var after := After(s, ts);
      && id in after.subs
      && (p in after.subs[id].missed <==> p in s.subs[id].missed)
      && (p in after.subs[id].picks <==> p in s.subs[id].picks)
    decreases |ts|
  {
    if ts != [] {
      DoKeeps(s, ts[0]);
      PlaceStays(s, ts[0], id, p);
      PlacesStay(Do(s, ts[0]), ts[1..], id, p);
    }
  }

  lemma PlaceStays<E>(s: State<E>, t: Step<E>, id: Id, p: nat)
    requires Inv(s) && Enabled(s, t) && id in s.subs && p < s.subs[id].till
    ensures var after := Do(s, t);
      && id in after.subs && p < after.subs[id].till
      && (p in after.subs[id].missed <==> p in s.subs[id].missed)
      && (p in after.subs[id].picks <==> p in s.subs[id].picks)
  {
    assert SubInv(s.history, s.subs[id]);
  }

  /**
   * In any run, of any event published while a subscriber was there: the subscriber misses it for
   * good exactly when it met a queue with every slot taken, and has it, or will read it, otherwise.
   */
  lemma MissedIffQueueWasFull<E>(ts: seq<Step<E>>, i: nat, id: Id)
    requires Schedule(Start<E>(), ts) && i < |ts| && ts[i].Publish?
    requires Schedule(Start<E>(), ts[..i])
    requires var met := After(Start<E>(), ts[..i]); id in met.subs && met.subs[id].open
    ensures var met, now := After(Start<E>(), ts[..i]), After(Start<E>(), ts); var p := |met.history|;
      && id in now.subs
      && (p in now.subs[id].missed <==> |met.subs[id].queue| == 256)
      && (p in now.subs[id].picks <==> |met.subs[id].queue| < 256)
  {
    var met := After(Start<E>(), ts[..i]);
    AfterInTwo(Start<E>(), ts, i);
    ScheduleKeeps(Start<E>(), ts[..i]);
    DoKeeps(met, ts[i]);
    assert ts[i..][0] == ts[i] && ts[i..][1..] == ts[i + 1..];
    PlacesStay(Do(met, ts[i]), ts[i + 1..], id, |met.history|);
    assert SubInv(met.history, met.subs[id]);
  }

  // ---- The objects ----

  class Channel<E> {
    var queue: seq<E>
    var closed: bool

    constructor ()
      ensures queue == [] && !closed
    {
      queue, closed := [], false;
    }

    /** The channel is in the state its subscription's record says. */
    ghost predicate Carries(sub: Subscription<E>)
      reads this
    {
      queue == sub.queue && closed == !sub.open
    }
  }

  /** `channels` and `subs` remember every channel ever handed out, by the id of its subscription. */
  class Broker<E> {
    var recent: seq<E>
    var subscribers: set<Channel<E>>
    ghost var history: seq<E>
    ghost var channels: map<Id, Channel<E>>
    ghost var subs: map<Id, Subscription<E>>

    ghost predicate Valid()
      reads this, channels.Values
    {
      && subs.Keys == channels.Keys
      && subscribers <= channels.Values
      && (forall i, j | i in channels && j in channels && channels[i] == channels[j] :: i == j)
      && (forall i | i in channels ::
            && channels[i].Carries(subs[i])
            && (channels[i] in subscribers <==> subs[i].open))
    }

    ghost function View(): State<E>
      reads this
    {
      State(history, recent, subs)
    }

    constructor ()
      ensures Valid() && View() == Start()
    {
      recent, subscribers := [], {};
      history, channels, subs := [], map[], map[];
    }

    /** The non-blocking send to every subscriber, in whatever order the map yields them. */
    method OfferToAll(event: E)
      modifies subscribers
      ensures forall ch | ch in subscribers :: ch.queue == Offer(old(ch.queue), event) && ch.closed == old(ch.closed)
    {
      var left := subscribers;
      while left != {}
        invariant left <= subscribers
        invariant forall ch | ch in subscribers ::
            ch.queue == (if ch in left then old(ch.queue) else Offer(old(ch.queue), event)) && ch.closed == old(ch.closed)
        decreases left
      {
        var ch :| ch in left;
        if |ch.queue| < QUEUE_SLOTS {
          ch.queue := ch.queue + [event];
        }
        left := left - {ch};
      }
    }

    /** Every channel as its subscription's record will say. */
    method OfferToSubscriptions(event: E)
      requires Valid()
      modifies subscribers
      ensures forall i | i in channels :: channels[i].Carries(Offered(subs[i], event, |history|))
    {
      OfferToAll(event);
      forall i | i in channels
        ensures channels[i].Carries(Offered(subs[i], event, |history|))
      {
        assert old(channels[i].Carries(subs[i]));
      }
    }

    method Remember(event: E)
      modifies `recent
      ensures recent == LastOf(old(recent) + [event], RECENT_EVENTS)
    {
      recent := recent + [event];
      if |recent| > RECENT_EVENTS {
        recent := recent[|recent| - RECENT_EVENTS..];
      }
    }

    method Publish(event: E)
      requires Valid()
      modifies this, subscribers
      ensures Valid() && channels == old(channels)
      ensures View() == Do(old(View()), Step.Publish(event))
    {
      OfferToSubscriptions(event);
      Remember(event);
      Record(event);
    }

    /** The history and the subscriptions, brought up to date with what the channels already hold. */
    ghost method Record(event: E)
      requires subs.Keys == channels.Keys && subscribers <= channels.Values
      requires forall i, j | i in channels && j in channels && channels[i] == channels[j] :: i == j
      requires forall i | i in channels ::
          channels[i].Carries(Offered(subs[i], event, |history|)) && (channels[i] in subscribers <==> subs[i].open)
      modifies `history, `subs
      ensures Valid() && history == old(history) + [event] && subs == OfferedAll(old(subs), event, |old(history)|)
    {
      subs := OfferedAll(subs, event, |history|);
      history := history + [event];
    }

    method Subscribe(ghost id: Id) returns (backlog: seq<E>, ch: Channel<E>)
      requires Valid() && id !in channels
      modifies this
      ensures Valid() && fresh(ch) && channels == old(channels)[id := ch]
      ensures backlog == old(recent)
      ensures View() == Do(old(View()), Step.Subscribe(id))
    {
      backlog := recent;
      ch := new Channel();
      forall other | other in subscribers
        ensures other in channels[id := ch].Values
      {
        StillThere(channels, id, ch, other);
      }
      subscribers := subscribers + {ch};
      channels := channels[id := ch];
      assert channels[id] == ch;
      subs := subs[id := Joined(recent, |history|)];
    }

    /** What a subscriber's read takes off its channel. */
    method Receive(ch: Channel<E>, ghost id: Id) returns (event: E)
      requires Valid() && id in channels && channels[id] == ch && ch.queue != []
      modifies `subs, ch
      ensures Valid()
      ensures event == old(ch.queue)[0]
      ensures View() == Do(old(View()), Step.Receive(id))
    {
      event := ch.queue[0];
      ch.queue := ch.queue[1..];
      subs := subs[id := subs[id].(received := subs[id].received + [event], queue := subs[id].queue[1..])];
    }

    /** Removing a channel that is not registered, or no longer is, does nothing. */
    method Unsubscribe(ch: Channel<E>, ghost id: Id)
      requires Valid() && ((id in channels && channels[id] == ch) || ch !in channels.Values)
      modifies `subscribers, `subs, ch
      ensures Valid()
      ensures View() == if ch in old(channels.Values) then Do(old(View()), Step.Unsubscribe(id)) else old(View())
    {
      if ch in subscribers {
        subscribers := subscribers - {ch};
        ch.closed := true;
      }
      if ch in channels.Values {
        subs := subs[id := subs[id].(open := false)];
      }
    }
  }

  lemma StillThere<E>(channels: map<Id, Channel<E>>, id: Id, ch: Channel<E>, other: Channel<E>)
    requires id !in channels && other in channels.Values
    ensures other in channels[id := ch].Values
  {
    var i :| i in channels && channels[i] == other;
    assert channels[id := ch][i] == other;
  }
}

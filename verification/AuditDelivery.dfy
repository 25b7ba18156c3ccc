/**
 * The provider's audit topic as a third party reads it (agent/internal/hcs/hcs.go). Every message
 * is published on its own, in the background and once, and a failure is only logged: what is on
 * the topic is some of the messages handed over, in any order.
 */
module AuditDelivery {
  import opened Sessions
  import opened AuditTopic

  /** A delivery names the messages that arrived by their places among those handed over. */
  predicate Delivery(arrived: seq<nat>, handed: seq<Audit>) {
    && (forall k | 0 <= k < |arrived| :: arrived[k] < |handed|)
    && (forall i, j | 0 <= i < j < |arrived| :: arrived[i] != arrived[j])
  }

  function Topic(arrived: seq<nat>, handed: seq<Audit>): seq<Audit>
    requires forall k | 0 <= k < |arrived| :: arrived[k] < |handed|
  {
    seq(|arrived|, k requires 0 <= k < |arrived| => handed[arrived[k]])
  }

  /** Announced before place `p` and not among those that arrived. */
  function Missing(handed: seq<Audit>, p: nat, arrived: seq<nat>, id: Id): nat
    requires p <= |handed|
  {
    if p == 0 then 0
    else Missing(handed, p - 1, arrived, id) + if p - 1 in arrived then 0 else Announced(handed[p - 1], id)
  }

  /** Announced at place `p` or later and arrived all the same. */
  function Early(handed: seq<Audit>, p: nat, arrived: seq<nat>, id: Id): nat
    requires forall k | 0 <= k < |arrived| :: arrived[k] < |handed|
  {
    if arrived == [] then
      0
    else
      var last := arrived[|arrived| - 1];
      Early(handed, p, arrived[..|arrived| - 1], id) + if last < p then 0 else Announced(handed[last], id)
  }

  // ---- What is announced on the topic ----

  lemma {:induction false} NothingArrived(handed: seq<Audit>, p: nat, id: Id)
    requires p <= |handed|
    ensures Missing(handed, p, [], id) == PaidOn(handed[..p], id)
    decreases p
  {
    if p > 0 {
      NothingArrived(handed, p - 1, id);
      assert handed[..p][..p - 1] == handed[..p - 1];
    }
  }

  lemma {:induction false} OneMoreArrives(handed: seq<Audit>, p: nat, arrived: seq<nat>, i: nat, id: Id)
    requires p <= |handed| && i < |handed| && i !in arrived
    ensures Missing(handed, p, arrived, id) ==
            Missing(handed, p, arrived + [i], id) + if i < p then Announced(handed[i], id) else 0
    decreases p
  {
    if p > 0 {
      OneMoreArrives(handed, p - 1, arrived, i, id);
      assert p - 1 in arrived + [i] <==> p - 1 in arrived || p - 1 == i;
    }
  }

  /** What the topic announces, and what it lacks of the first `p` messages, against those messages. */
  lemma {:induction false} ArrivedAndMissing(handed: seq<Audit>, p: nat, arrived: seq<nat>, id: Id)
    requires p <= |handed| && Delivery(arrived, handed)
    ensures PaidOn(Topic(arrived, handed), id) + Missing(handed, p, arrived, id) ==
            PaidOn(handed[..p], id) + Early(handed, p, arrived, id)
    decreases |arrived|
  {
    if arrived == [] {
      NothingArrived(handed, p, id);
    } else {
      var init, last := arrived[..|arrived| - 1], arrived[|arrived| - 1];
      ArrivedAndMissing(handed, p, init, id);
      OneMoreArrives(handed, p, init, last, id);
      assert init + [last] == arrived;
      assert Topic(arrived, handed)[..|arrived| - 1] == Topic(init, handed);
    }
  }

  lemma {:induction false} MissingIsNothingIff(handed: seq<Audit>, p: nat, arrived: seq<nat>, id: Id)
    requires p <= |handed|
    ensures Missing(handed, p, arrived, id) == 0 <==>
            forall i | 0 <= i < p && i !in arrived :: Announced(handed[i], id) == 0
    decreases p
  {
    if p > 0 {
      MissingIsNothingIff(handed, p - 1, arrived, id);
    }
  }

  lemma {:induction false} NothingIsEarly(handed: seq<Audit>, p: nat, arrived: seq<nat>, id: Id)
    requires forall k | 0 <= k < |arrived| :: arrived[k] < |handed| && arrived[k] < p
    ensures Early(handed, p, arrived, id) == 0
    decreases |arrived|
  {
    if arrived != [] {
      NothingIsEarly(handed, p, arrived[..|arrived| - 1], id);
    }
  }

  // ---- One message on the topic ----

  /**
   * Whatever else is lost or late, a report that arrives splits exactly the payments announced
   * before it was handed over, its seconds at its price are its earnings, and a report handed over
   * before it never earns more. Against the topic it is on, it is out by just what the topic
   * lacks of those announcements, less what the topic has of later ones.
   */
  lemma ArrivedReports(handed: seq<Audit>, arrived: seq<nat>, i: nat, k: nat)
    requires Balanced(handed) && Delivery(arrived, handed)
    requires i < |arrived| && k < |arrived| && arrived[i] <= arrived[k] && !Topic(arrived, handed)[k].Opened?
    ensures var topic := Topic(arrived, handed); var m, before, p := topic[k], arrived[..k], arrived[k];
      && AddsUp(m, PaidOn(handed[..p], m.id))
      && m.amount + m.refund + Early(handed, p, before, m.id) == PaidOn(topic[..k], m.id) + Missing(handed, p, before, m.id)
      && (AddsUp(m, PaidOn(topic[..k], m.id)) <==> Missing(handed, p, before, m.id) == Early(handed, p, before, m.id))
      && (!topic[i].Opened? && topic[i].id == m.id ==> topic[i].amount <= m.amount)
  {
    var m, before, p := handed[arrived[k]], arrived[..k], arrived[k];
    EveryReportAddsUp(handed, arrived[i], p);
    ArrivedAndMissing(handed, p, before, m.id);
    assert Topic(arrived, handed)[..k] == Topic(before, handed);
  }

  // ---- A topic in order ----

  predicate InOrder(arrived: seq<nat>) {
    forall i, j | 0 <= i < j < |arrived| :: arrived[i] < arrived[j]
  }

  /** No payment of its session announced before the report at place `p` has failed to arrive before it. */
  predicate NothingLost(handed: seq<Audit>, p: nat, before: seq<nat>)
    requires p < |handed|
  {
    forall i | 0 <= i < p && i !in before :: Announced(handed[i], handed[p].id) == 0
  }

  lemma InOrderReport(handed: seq<Audit>, arrived: seq<nat>, k: nat)
    requires Balanced(handed) && Delivery(arrived, handed) && InOrder(arrived)
    requires k < |arrived| && !handed[arrived[k]].Opened?
    ensures var topic := Topic(arrived, handed);
      AddsUp(topic[k], PaidOn(topic[..k], topic[k].id)) <==> NothingLost(handed, arrived[k], arrived[..k])
  {
    ArrivedReports(handed, arrived, k, k);
    MissingIsNothingIff(handed, arrived[k], arrived[..k], handed[arrived[k]].id);
    NothingIsEarly(handed, arrived[k], arrived[..k], handed[arrived[k]].id);
  }

  /** A payment, or a report that nothing it splits is missing before. */
  predicate Complete(handed: seq<Audit>, arrived: seq<nat>, k: nat)
    requires k < |arrived| && arrived[k] < |handed|
  {
    handed[arrived[k]].Opened? || NothingLost(handed, arrived[k], arrived[..k])
  }

  /**
   * A topic whose messages arrived in order passes the check a reader can make of it exactly when
   * every report on it was preceded by all the payments of its session announced before it.
   */
  lemma {:induction false} InOrderTopicBalancedIff(handed: seq<Audit>, arrived: seq<nat>)
    requires Balanced(handed) && Delivery(arrived, handed) && InOrder(arrived)
    ensures Balanced(Topic(arrived, handed)) <==> forall k | 0 <= k < |arrived| :: Complete(handed, arrived, k)
    decreases |arrived|
  {
    if arrived != [] {
      var last := |arrived| - 1;
      var init := arrived[..last];
      InOrderTopicBalancedIff(handed, init);
      LastMessageBalances(handed, arrived);
      CompleteSplits(handed, arrived);
    }
  }

  lemma CompleteSplits(handed: seq<Audit>, arrived: seq<nat>)
    requires arrived != [] && forall k | 0 <= k < |arrived| :: arrived[k] < |handed|
    ensures var last := |arrived| - 1;
      (forall k | 0 <= k < |arrived| :: Complete(handed, arrived, k)) <==>
      (forall k | 0 <= k < last :: Complete(handed, arrived[..last], k)) && Complete(handed, arrived, last)
  {
    var last := |arrived| - 1;
    forall k | 0 <= k < last ensures Complete(handed, arrived[..last], k) <==> Complete(handed, arrived, k) {
      assert arrived[..last][..k] == arrived[..k];
    }
  }

  lemma LastMessageBalances(handed: seq<Audit>, arrived: seq<nat>)
    requires Balanced(handed) && Delivery(arrived, handed) && InOrder(arrived) && arrived != []
    ensures var last := |arrived| - 1;
      Balanced(Topic(arrived, handed)) <==> Balanced(Topic(arrived[..last], handed)) && Complete(handed, arrived, last)
  {
    var last := |arrived| - 1;
    var p := arrived[last];
    assert Topic(arrived, handed)[..last] == Topic(arrived[..last], handed);
    if handed[p].Opened? {
      EveryReportAddsUp(handed, p, p);
    } else {
      InOrderReport(handed, arrived, last);
      LatestReportIsLess(handed, arrived[..last], p);
    }
  }

  /** The figure a topic in order gives for a session is no more than the next report's. */
  lemma {:induction false} LatestReportIsLess(handed: seq<Audit>, arrived: seq<nat>, p: nat)
    requires Balanced(handed) && Delivery(arrived, handed)
    requires p < |handed| && !handed[p].Opened? && forall k | 0 <= k < |arrived| :: arrived[k] < p
    ensures Reported(Topic(arrived, handed), handed[p].id) <= handed[p].amount
    decreases |arrived|
  {
    if arrived != [] {
      var init, last := arrived[..|arrived| - 1], arrived[|arrived| - 1];
      EveryReportAddsUp(handed, last, p);
      LatestReportIsLess(handed, init, p);
      assert Topic(arrived, handed)[..|arrived| - 1] == Topic(init, handed);
    }
  }
}

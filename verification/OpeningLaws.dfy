/** What a create request can and cannot have done, whichever outside call fails. */
module OpeningLaws {
  import opened Common
  import opened Decimal
  import opened Metering
  import opened LeaseConfig
  import opened Sessions

  /**
   * The outside calls are the pipeline's first few, in its order, each made only after every
   * earlier one succeeded; and settled money is banked, in an answer of 200 and no other.
   */
  ghost predicate FollowsPipeline(o: Opening) {
    && |o.calls| <= |PIPELINE|
    && (forall i | 0 <= i < |o.calls| :: o.calls[i].stage == PIPELINE[i])
    && (forall i | 0 <= i < |o.calls| - 1 :: o.calls[i].ok)
    && (|o.calls| >= 6 && o.calls[5].ok <==> o.code == 200)  // settled
    && (|o.calls| == 7 && o.calls[6].ok <==> o.code == 200)  // banked
  }

  /**
   * For every choice of failures: settlement is asked for at most once, only after verify,
   * start, sign, point and reach all succeeded, and is never left unbanked.
   */
  lemma CallsFollowThePipeline(cfg: Terms, slotTaken: bool, paused: bool, seconds: int, now: int, env: OpenEnv)
    requires Sound(cfg)
    ensures FollowsPipeline(CreateSession(cfg, slotTaken, paused, seconds, now, env))
  {
    ServedOrRefused(cfg, slotTaken, paused, seconds, now, env);
    var o := CreateSession(cfg, slotTaken, paused, seconds, now, env);
    if o.lease.Some? {
      ServingFollowsPipeline(cfg, seconds, NewLease(now, SecondsToMinutes(SessionChunk(cfg, seconds))), now, env);
    }
  }

  lemma ServingFollowsPipeline(cfg: Terms, seconds: int, lease: Ledger, now: int, env: OpenEnv)
    requires Sound(cfg) && cfg.price.Some? && LengthAccepted(cfg, seconds)
    ensures FollowsPipeline(ServeLease(cfg, seconds, lease, now, env, [Call(Verify, true)]))
  {
    AmountReadsBack(cfg, seconds);
  }

  /** A request leaves a lease in the table exactly when it got as far as claiming the slot. */
  lemma ServedOrRefused(cfg: Terms, slotTaken: bool, paused: bool, seconds: int, now: int, env: OpenEnv)
    requires Sound(cfg)
    ensures var o := CreateSession(cfg, slotTaken, paused, seconds, now, env);
      && (o.lease.Some? ==>
            && !slotTaken && !paused && LengthAccepted(cfg, seconds) && cfg.price.Some?
            && o == ServeLease(cfg, seconds, NewLease(now, SecondsToMinutes(SessionChunk(cfg, seconds))), now, env,
                               [Call(Verify, true)]))
      && (o.lease.None? ==>
            && o.code != 200 && |o.calls| <= 2
            && (|o.calls| >= 1 ==> o.calls[0].stage == Verify)
            && (|o.calls| == 2 ==> o.calls[0].ok && o.calls[1] == Call(Start, false)))
  {
  }

  /** The settled amount is a printed integer, so reading it back cannot fail. */
  lemma AmountReadsBack(cfg: Terms, seconds: int)
    requires Sound(cfg) && cfg.price.Some? && LengthAccepted(cfg, seconds)
    ensures var amount := cfg.price.value * SessionChunk(cfg, seconds);
      amount >= 0 && ParseBigInt(Print(amount)) == Some(amount)
  {
    var p := cfg.price.value;
    MulLe(p, 0, SessionChunk(cfg, seconds));
    ParsePrinted(p * SessionChunk(cfg, seconds));
  }

  /** A claimed lease once its opening is banked, or once it has failed. */
  function Concluded(cfg: Terms, seconds: int, lease: Ledger, now: int, banked: bool): Ledger
    requires Sound(cfg) && cfg.price.Some? && LengthAccepted(cfg, seconds)
  {
    if banked then
      lease.SetStatus(Active).MarkMetered(now, cfg.price.value, cfg.price.value * SessionChunk(cfg, seconds))
        .(sessionSeconds := seconds)
    else
      lease.SetStatus(Failed)
  }

  /** The lease a served request leaves: metered for the settled amount, or failed. */
  lemma ServedLease(cfg: Terms, seconds: int, lease: Ledger, now: int, env: OpenEnv, calls: seq<Call>)
    requires Sound(cfg) && cfg.price.Some? && LengthAccepted(cfg, seconds)
    ensures var o := ServeLease(cfg, seconds, lease, now, env, calls);
      var amount := cfg.price.value * SessionChunk(cfg, seconds);
      && amount >= 0 && ParseBigInt(Print(amount)) == Some(amount)
      && o.lease == Some(Concluded(cfg, seconds, lease, now, o.code == 200))
  {
    AmountReadsBack(cfg, seconds);
  }

  /** The lease a certificate is signed for outlasts the chunk that pays for it, by less than a minute. */
  lemma LeaseOutlastsItsChunk(cfg: Terms, seconds: int, now: int)
    requires Sound(cfg) && LengthAccepted(cfg, seconds)
    ensures var chunk := SessionChunk(cfg, seconds); var l := NewLease(now, SecondsToMinutes(chunk));
      && now + chunk * 1_000_000_000 <= l.expiresAt < now + (chunk + 60) * 1_000_000_000
      && chunk <= 60 * l.paidMinutes < chunk + 60
      && l.status == Provisioning && !l.metered && l.settle == NotApplicable
  {
    AcceptedLengthsFitTheContainer(cfg, seconds);
  }

  /**
   * Success is a live metered lease holding exactly the settled chunk as credit; every other
   * outcome leaves no lease, or a failed one with no credit and nothing to settle.
   */
  lemma FailedOpeningsLeaveNothing(cfg: Terms, slotTaken: bool, paused: bool, seconds: int, now: int, env: OpenEnv)
    requires Sound(cfg)
    ensures var o := CreateSession(cfg, slotTaken, paused, seconds, now, env);
      && (o.code == 200 ==>
            && o.lease.Some? && o.lease.value.status == Active && o.lease.value.metered
            && o.lease.value.settle == Pending
            && cfg.price.Some? && o.lease.value.price == cfg.price.value
            && o.lease.value.credit == cfg.price.value * SessionChunk(cfg, seconds)
            && o.lease.value.burned == 0 && o.lease.value.refunded == 0
            && o.lease.value.sessionSeconds == seconds)
      && (o.code != 200 ==>
            o.lease.None?
            || (o.lease.value.status == Failed && !o.lease.value.metered && o.lease.value.credit == 0
                && o.lease.value.settle == NotApplicable))
  {
    ServedOrRefused(cfg, slotTaken, paused, seconds, now, env);
    if CreateSession(cfg, slotTaken, paused, seconds, now, env).lease.Some? {
      AmountReadsBack(cfg, seconds);
    }
  }

  /** When everything answers, nothing the node itself checks stands in the way of an accepted length. */
  lemma AcceptedLengthsOpen(cfg: Terms, seconds: int, now: int, env: OpenEnv)
    requires Sound(cfg) && LengthAccepted(cfg, seconds) && cfg.price.Some?
    requires env.attached && env.decodes && env.specAccepted && env.mintsId && env.startAccepted
    requires env.provisions && env.signs && env.points && env.reaches
    requires Pays(env.pay)
    ensures CreateSession(cfg, false, false, seconds, now, env).code == 200
  {
    AcceptedLengthsFitTheContainer(cfg, seconds);
    AmountReadsBack(cfg, seconds);
  }

  // ---- What an answer tells the renter ----

  /** The outside call that failed, if any did. */
  function FailedCall(calls: seq<Call>): Option<Stage> {
    if calls != [] && !calls[|calls| - 1].ok then Some(calls[|calls| - 1].stage) else None
  }

  /**
   * A code that speaks for the calls made. 200 is a finished sale, and nothing else leaves a settled
   * payment behind. A payment that failed to verify or to settle is answered with a new challenge
   * if one can still be built, and otherwise, as when none could be built in the first place, with
   * 503. A bad gateway means the container came up and could not be published.
   */
  predicate AnswerFits(code: nat, calls: seq<Call>, pay: PayEnv) {
    var failed := FailedCall(calls);
    var paymentFailed := failed in {Some(Verify), Some(Settle)};
    && (code == 200 <==> failed.None? && calls != [])
    && (paymentFailed ==> code == if pay.requotes then 402 else 503)
    && (code == 402 ==> paymentFailed || (calls == [] && !pay.header.Present? && pay.quotes))
    && (code == 503 ==> calls == [] || (paymentFailed && !pay.requotes))
    && (code == 502 <==> failed in {Some(Sign), Some(PointAt), Some(Reach)})
    && (code in {400, 404, 409} ==> calls == [])
  }

  /**
   * Every answer to a create request fits, but for the one that names no call: a request that was
   * verified and for which no id could be made is answered 500. What is free to refuse is refused
   * before any call or challenge.
   */
  lemma CreateAnswersFit(cfg: Terms, slotTaken: bool, paused: bool, seconds: int, now: int, env: OpenEnv)
    requires Sound(cfg)
    ensures var o := CreateSession(cfg, slotTaken, paused, seconds, now, env);
      && (AnswerFits(o.code, o.calls, env.pay) <==> o.calls != [Call(Verify, true)])
      && (o.calls == [Call(Verify, true)] ==> o.code == 500 && !env.mintsId)
      && (!env.mintsId ==> o.calls == [] || o.calls == [Call(Verify, env.pay.verdict.Valid?)])
      && (slotTaken || paused || !LengthAccepted(cfg, seconds) || cfg.price.None? ==> o.calls == [] && o.code != 402)
      && (o.code == 402 || o.calls != [] ==>
            env.attached && env.decodes && LengthAccepted(cfg, seconds) && !slotTaken && !paused && cfg.price.Some?)
      && (o.code == 503 && !paused ==> !env.pay.quotes || !env.pay.requotes)
  {
    if LengthAccepted(cfg, seconds) && cfg.price.Some? {
      AmountReadsBack(cfg, seconds);
    }
  }

  /** A create request for something this node could run now. */
  predicate Admitted(cfg: Terms, slotTaken: bool, seconds: int, env: OpenEnv) {
    && env.attached && env.decodes && env.specAccepted && !slotTaken
    && 60 * cfg.minMinutes <= seconds <= 60 * cfg.maxMinutes
  }

  /** One that passes every check the node makes for free. */
  predicate Offered(cfg: Terms, slotTaken: bool, paused: bool, seconds: int, env: OpenEnv) {
    Admitted(cfg, slotTaken, seconds, env) && !paused && cfg.price.Some?
  }

  /** Everything outside that the opening needs, short of its payment. */
  predicate Publishes(env: OpenEnv) {
    env.mintsId && env.startAccepted && env.provisions && env.signs && env.points && env.reaches
  }

  /** A request that is answered with a challenge, or would be if one could be built. */
  predicate NoPayment(pay: PayEnv) {
    !pay.header.Present?
  }

  /** A payment that is tried and fails, at verification or, once the request comes that far, at settlement. */
  predicate Declined(pay: PayEnv, arrives: bool) {
    !NoPayment(pay) && pay.quotes && (!pay.verdict.Valid? || (arrives && !pay.settles))
  }

  /**
   * Every answer to a create request, from what it meets outside. Sold: 200. Nothing but a request
   * that was offered the session is asked to pay: with 402 if it brought no payment, or one that
   * failed, and the challenge can be built, and with 503 if it cannot.
   */
  lemma CreateAnswerIs(cfg: Terms, slotTaken: bool, paused: bool, seconds: int, now: int, env: OpenEnv)
    requires Sound(cfg)
    ensures var o := CreateSession(cfg, slotTaken, paused, seconds, now, env);
      var offered := Offered(cfg, slotTaken, paused, seconds, env);
      && (o.code == 200 <==> offered && Pays(env.pay) && Publishes(env))
      && (o.code == 402 <==>
            offered && ((NoPayment(env.pay) && env.pay.quotes) || (Declined(env.pay, Publishes(env)) && env.pay.requotes)))
      && (o.code == 503 <==>
            (paused && Admitted(cfg, slotTaken, seconds, env))
            || (offered && (!env.pay.quotes || (Declined(env.pay, Publishes(env)) && !env.pay.requotes))))
      && (o.code == 404 <==> !env.attached)
      && (o.code == 400 <==>
            env.attached && !Admitted(cfg, slotTaken, seconds, env))
      && (o.code == 500 <==>
            (Admitted(cfg, slotTaken, seconds, env) && !paused && cfg.price.None?)
            || (offered && !NoPayment(env.pay) && env.pay.quotes && env.pay.verdict.Valid?
                && !(env.mintsId && env.startAccepted && env.provisions)))
      && (o.code == 502 <==>
            offered && !NoPayment(env.pay) && env.pay.quotes && env.pay.verdict.Valid?
            && env.mintsId && env.startAccepted && env.provisions && !(env.signs && env.points && env.reaches))
      && (o.calls == [] <==> !offered || NoPayment(env.pay) || !env.pay.quotes)
  {
    if LengthAccepted(cfg, seconds) {
      AcceptedLengthsFitTheContainer(cfg, seconds);
      if cfg.price.Some? {
        AmountReadsBack(cfg, seconds);
      }
    }
  }

  /** The same of a top-up, which is offered whenever there is a chunk for sale. */
  lemma TopUpAnswerIs(cfg: Terms, l: Ledger, now: int, pay: PayEnv)
    requires Sound(cfg)
    ensures var t := TopUpSession(cfg, l, now, pay); var offered := NextChunk(cfg, l).Some?;
      && (t.code == 409 <==> !offered)
      && (t.code == 200 <==> offered && Pays(pay))
      && (t.code == 402 <==> offered && ((NoPayment(pay) && pay.quotes) || (Declined(pay, true) && pay.requotes)))
      && (t.code == 503 <==> offered && (!pay.quotes || (Declined(pay, true) && !pay.requotes)))
      && (t.calls == [] <==> !offered || NoPayment(pay) || !pay.quotes)
      && t.code in {200, 402, 409, 503}
  {
    if NextChunk(cfg, l).Some? {
      var chunk := NextChunk(cfg, l).value;
      MulLe(l.price, 0, chunk);
      ParsePrinted(l.price * chunk);
    }
  }

  lemma TopUpAnswersFit(cfg: Terms, l: Ledger, now: int, pay: PayEnv)
    requires Sound(cfg)
    ensures var t := TopUpSession(cfg, l, now, pay);
      && AnswerFits(t.code, t.calls, pay)
      && (t.code == 409 <==> NextChunk(cfg, l).None?)
      && (t.code != 200 ==> t.ledger == l && t.bought == 0)
  {
    if NextChunk(cfg, l).Some? {
      var chunk := NextChunk(cfg, l).value;
      MulLe(l.price, 0, chunk);
      ParsePrinted(l.price * chunk);
    }
  }
}

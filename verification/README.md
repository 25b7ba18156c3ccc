# A metered session on a provider node, verified

This project models how a MACH402 provider node sells metered time, and proves what its code
keeps, in Dafny 4.11. `dafny verify dfyconfig.toml` checks all of it.

A renter pays a node in chunks. Each settled payment becomes a tinybar credit on the lease. While
the container runs, a meter charges the credit by the whole second; when nothing is left the lease
is frozen, a grace period later it is reaped, and every way of ending it sends the unburned rest
back. Every payment, burn and closing is handed to a publisher for the provider's audit topic.

How the files fit together:

- `Metering` is the ledger of one session as a value, and the plain whole-seconds counter
  (`Stopwatch`) the ledger refines. `LeaseObject` is the lease as the code holds it, an object whose
  methods are the code's critical sections, each proved to do what the ledger function says.
- `Sessions` says what one request or one sweep does to the node, as functions on values.
  `NodeServer` is the server itself, with its lease table, slot, audit messages and clock, changed step by step;
  each handler is proved to take it exactly where `Sessions` says, and a server that is started and
  serves a run of events to be in the state the run gives.
- `SessionInvariants`, `AuditTopic`, `NodeRuns` and `SessionTurns` prove what every step keeps.
  `SessionTheorems`, `AuditFigures`, `Liveness`, `Purchases` and `OpeningLaws` state the results, over every reachable
  state and every run from a fresh node (`Reached`, `Run`).
- `AuditTopic` and `AuditFigures` are about the messages as they are handed over; `AuditDelivery` about
  the topic, which any of them may fail to reach, in any order.
- `CounterExamples` holds one concrete input for each promise below that the code does not keep.
- `LeaseConfig` is the configuration the arithmetic depends on. `LeaseSlot` is the single slot, and
  the money of an opening, at the grain of the locks, and `SettleSections` the settling of a session.
- `EventBroker`, `Amounts` (with `Decimal`), `Base64`, `OpenSshKey`, `Egress`, `ReceiptLog` (with
  `ReceiptText`) and `Earnings` are the smaller parts, each with its own round trip or refinement.

Times are integer nanoseconds, amounts are tinybars. A price is a natural number; zero is allowed
where validation allows it, and the results that need a positive price say so.

## Where the code and its comments differ

The model follows the code.

- The comment in `Burn` (agent/internal/runner/lease.go:275-277) says the fraction of a second a tick
  drops is not lost. It is: `lastTickAt` moves by the whole elapsed time. `Metering.TickSplit` says
  exactly when two ticks charge less than one.
- Comments in `settleSession` and `sweepLeases` (agent/internal/httpapi/sessions.go:493-495,
  agent/internal/httpapi/leases.go:89-93) say a failed refund is retried by the next sweep. Ending a
  lease has freed the slot through which the sweep would find it, so it is never retried:
  `SessionTheorems.SettledOnceOrNever`.
- sessions.go:92-96 and 578-581 and session-flow.tsx:60-62 say a node holds at most one chunk of a
  renter's money. An early top-up can take it above that: `Purchases.OneChunkIsExceededIff` says
  exactly when, and `HeldCreditIsBounded` and `LowCreditTopUpsHoldUnderTwoChunks` give the bounds
  that do hold.
- The rounding in agent/internal/escrow/pricing.go:37-41 guards against a result of zero that the
  rounding up above it already excludes.
- A truncated last line of the receipt log is skipped when read (agent/internal/receipts/receipts.go:76-77),
  but the next append continues that line. The new receipt is lost with it, and so is an old one that
  lacked only its newline and was still read back until then: `ReceiptLog.ReadAfterNextAppend` says
  exactly what is left, and `Earnings.EarningsAcrossACrash` what the total shows.
- server.go:156-158 says an evicted session is refunded exactly as if its renter had stopped it. An
  eviction that comes between the settlement of an opening and `MarkMetered` finds no session to
  refund, and the payment then becomes credit nobody returns: `LeaseSlot.MoneyLandsLiveIff` and
  `LeaseSlot.RefundableIffNotStranded` say exactly when.
- MarkSettled and settleSession are called idempotent (lease.go:461-467, sessions.go:452-458), the one
  so that nothing can be refunded twice and so that the real figure is reported rather than the last
  caller's. The state is read well before it is changed, with the transfer between, so settlers that
  overlap can refund twice, and the last figure is the one that stays:
  `SettleSections.SettledOnceIffOneAtATime` says exactly when neither can happen.
- sessions.go:398-406 and agent/internal/hcs/hcs.go:10-13 and 31-41 describe a complete public trail. Each message
  is published once, in the background, and a failure is only logged (hcs.go:110-149), so the topic can
  lose a payment's message, or have it after a report that splits it. `SessionTheorems.TopicReports`
  says what every report that arrives shows all the same, and exactly when it agrees with the topic.
- agent/internal/config/config.go:403-416 presents the unset session fields as always usable; a node
  whose longest session is one minute is refused with them: `LeaseConfig.UnsetSessionFieldsLoadIff`.
- Validation accepts a per-second price of "0" (config.go:740-745): `LeaseConfig.RunningPrice`.

## Model

| member | source | states |
|---|---|---|
| Metering.BurnRefinesTick | agent/internal/runner/lease.go:261-287 | a burn is "subtract min(whole seconds elapsed, seconds left)" on a plain seconds counter, times the price; the charge is what leaves the credit and joins the earnings |
| Metering.AddCreditRefinesBuy | agent/internal/runner/lease.go:242-250 | banking the price of some seconds is adding those seconds to the counter |
| Metering.SettleRefinesGiveBack | agent/internal/runner/lease.go:468-479 | refunding the whole credit gives back every second left, and not a tinybar more |
| Metering.CounterReadings | agent/internal/runner/lease.go:324-370 | the code's divisions of credit, earnings and their sum by the price read the seconds counter exactly |
| Metering.SyncExpirySyncs | agent/internal/runner/lease.go:298-322 | expiry is the last tick plus what the credit buys, or pinned at or before the last tick once it buys nothing; minutes paid round up |
| Metering.BurnKeepsSyncIffClockMovesOn | agent/internal/runner/lease.go:269-273 | a burn keeps expiry in step with the credit if and only if its clock reading is not earlier than the last tick or, once no second is left, not earlier than the pinned expiry |
| Metering.BurnPinsExpiry | agent/internal/runner/lease.go:303-313 | the burn that takes the last second pins expiry at its own instant, and no later burn moves it |
| Metering.TickSplit | agent/internal/runner/lease.go:269-284 | ticking on the way never charges more than one tick at the end, and charges the same if and only if the two fractions make no whole second, the credit is used up anyway, or time is free |
| Metering.WholeSecondSplit | agent/internal/runner/lease.go:275-284 | a tick at a whole-second point changes nothing about the money charged or left |
| Metering.OverIsFinal | agent/internal/runner/lease.go:534-553 | no call, however late, makes a ledger live whose session is over |
| Metering.FreezeAndThawTakeTurns | agent/internal/runner/lease.go:999-1032 | freezing is for a running lease and thawing for a frozen one, any other is left as it is, and neither touches the money |
| LeaseObject.Lease.SyncExpiry | agent/internal/runner/lease.go:298-322 | the in-place expiry update takes every field of the lease where the ledger function says |
| LeaseObject.Lease.MarkMetered | agent/internal/runner/lease.go:224-235 | the lease becomes metered with the settled amount as credit, nothing burned, its clock started and settlement pending |
| LeaseObject.Lease.AddCredit | agent/internal/runner/lease.go:242-250 | credit grows by the amount and expiry follows; a lease with no meter is left alone |
| LeaseObject.Lease.Burn | agent/internal/runner/lease.go:261-287 | the charge, the clamp at zero, the early exits and the returned figures, against the ledger function |
| LeaseObject.Lease.MarkSettled | agent/internal/runner/lease.go:468-479 | records the refund and empties the credit, except on a lease that was never metered |
| LeaseObject.Lease.SetStatus | agent/internal/runner/lease.go:534-553 | no status change leaves a terminal status |
| LeaseObject.Lease.Freeze | agent/internal/runner/lease.go:1022-1032 | only a running lease freezes, at the given instant |
| LeaseObject.Lease.Thaw | agent/internal/runner/lease.go:999-1010 | only a frozen lease thaws, with its meter's clock restarted and its expiry moved to match |
| LeaseObject.Lease.SetSessionLength | agent/internal/runner/lease.go:343-347 | records the chosen length and touches nothing else |
| LeaseObject.Lease.Elapsed | agent/internal/httpapi/sessions.go:414-418 | the reported seconds are those of the counter the ledger represents, so that at the price they are exactly the earnings; with no price there are none |
| LeaseObject.Lease.TimeLeft | agent/internal/runner/lease.go:324-390 | the remaining seconds are the most whole ones the credit pays for, and the session is paid in full if and only if everything paid covers the price of the chosen length; a lease with no meter or no price has neither |
| LeaseConfig.LeasesBlock.ApplyDefaults | agent/internal/config/config.go:476-549 | overwriting the unset fields in place gives the defaulted block, the chunk from the defaulted longest session |
| LeaseConfig.DefaultsIdempotent | agent/internal/config/config.go:476-549 | defaulting twice is defaulting once, and a defaulted, enabled, accepted block is one a node can run with |
| LeaseConfig.DefaultsFillOnlyWhatIsUnset | agent/internal/config/config.go:476-549 | every field that is set is kept as it is, whatever the others, and none is left unset |
| LeaseConfig.RunningBlocksAreKept | agent/internal/config/config.go:473-549 | defaulting leaves a block a node can run with exactly as it is, and of one field left out restores or defaults that field alone; "escrow" is the old name of the one payment mode |
| LeaseConfig.AcceptedIff | agent/internal/config/config.go:678-747 | a block that is switched on is accepted if and only if its names, bounds, chunk, threshold and prices are all as listed |
| LeaseConfig.RefusalsNameAFault | agent/internal/config/config.go:678-747 | only a block that is switched on is refused, and always for a fault it has |
| LeaseConfig.UnsetSessionFieldsLoadIff | agent/internal/config/config.go:538-543 | of the blocks a node runs with, those that still load with both session fields unset are exactly those whose longest session exceeds a minute |
| LeaseConfig.RunningTermsAreSound | agent/internal/config/config.go:678-747 | every accepted block satisfies the bounds the session arithmetic depends on; a block that satisfies them is refused only for reasons that have nothing to do with them |
| LeaseConfig.PricePerSecond | agent/internal/escrow/pricing.go:24-43 | the step-by-step rounding computes the derived price, and both refusals |
| LeaseConfig.DerivedPriceRoundsUp | agent/internal/escrow/pricing.go:15-43 | the derived price is the least that is worth the per-minute price over a minute; over S seconds sixty times the total is between perMinute*S and perMinute*S + 59*S |
| LeaseConfig.RunningPrice | agent/internal/httpapi/sessions.go:604-617 | under an accepted config the price is never negative, it is positive if and only if the field it comes from is not zero, and there is none if and only if a per-minute price of zero is all there is |
| LeaseConfig.PriceCharged | agent/internal/httpapi/sessions.go:598-617 | the price a node sells at: an explicit per-second price as it stands; otherwise the one whole number p with 60*(p - 1) < perMinute <= 60*p, and none only for a per-minute price of zero |
| LeaseConfig.AcceptedLengthsFitTheContainer | agent/internal/httpapi/sessions.go:582-628 | every accepted length gives container minutes within the lease spec's bounds, outlasting the paid chunk by less than a minute |
| OpeningLaws.CallsFollowThePipeline | agent/internal/httpapi/sessions.go:144-214 | for every choice of failures the outside calls are a prefix of verify, start, sign, point, reach, settle, bank, each only after the ones before succeeded; settled, banked and answered 200 all coincide |
| OpeningLaws.ServedOrRefused | agent/internal/httpapi/sessions.go:97-166 | a lease is left in the table only by requests that claimed a free slot on an unpaused node after verification; all others made no call past a refused start |
| OpeningLaws.FailedOpeningsLeaveNothing | agent/internal/httpapi/sessions.go:160-214 | 200 leaves a live lease whose credit is exactly the price of the chunk; every other answer leaves no lease, or a failed one with no credit and nothing to settle |
| OpeningLaws.LeaseOutlastsItsChunk | agent/internal/runner/lease.go:724-726 | the lease a certificate is signed for expires no earlier than the paid chunk, and less than a minute after it |
| OpeningLaws.AmountReadsBack | agent/internal/httpapi/sessions.go:200-210 | the settled amount always reads back as the integer it was printed from, so the "not an integer" branch is never taken |
| OpeningLaws.AcceptedLengthsOpen | agent/internal/httpapi/sessions.go:97-244 | when everything outside answers and the slot is free, no check of the node's own refuses an accepted length |
| OpeningLaws.CreateAnswersFit | agent/internal/httpapi/sessions.go:97-215 | for every choice of failures, two separate challenge builds included, the code speaks for the calls made: 200 a finished sale; after a payment that did not verify or settle 402, or 503 if no new challenge can be built; 502 a container that could not be published; the one answer that names no call is 500 to a verified request for which no id could be made; a taken slot, a paused node or a refused length costs no call and no challenge |
| OpeningLaws.TopUpAnswersFit | agent/internal/httpapi/sessions.go:252-345 | the same of a top-up, with 409 if and only if nothing is for sale, and every answer but 200 leaving the ledger as it was |
| OpeningLaws.CreateAnswerIs | agent/internal/httpapi/payment.go:27-77 | every code a create request can get, each if and only if: 402 exactly to a request that passed every free check and brought no payment, or one that failed, when the challenge can be built, 503 when it cannot or the node is paused, 200 exactly when everything outside goes through, and no call at all before a readable payment and a challenge are there |
| OpeningLaws.TopUpAnswerIs | agent/internal/httpapi/sessions.go:252-345 | the same for a top-up: 409 if and only if nothing is for sale, 402, 503 and 200 if and only if as above, and no other code |
| Decimal.ParsePrinted | agent/internal/httpapi/sessions.go:142-210 | a printed amount reads back as itself with either of the readers the code uses, up to 18,446,744,073,709,551,615 where the reader has 64 bits |
| Decimal.ParseSigned | agent/internal/escrow/pricing.go:24-28 | a signed figure reads as such, except with the reader for unsigned ones, which refuses it |
| SessionInvariants.BurnKeeps | agent/internal/runner/lease.go:261-287 | a burn of a running session keeps conservation, expiry, the payment plan and charging for running time |
| SessionInvariants.TopUpKeeps | agent/internal/httpapi/sessions.go:252-345 | a top-up, however its payment goes, keeps the session's invariant and its earnings |
| SessionInvariants.TopUpSucceedsIff | agent/internal/httpapi/sessions.go:252-345 | a top-up succeeds if and only if there is a chunk for sale and its payment goes through, and otherwise leaves the ledger alone |
| SessionInvariants.TopUpBanksTheChunk | agent/internal/httpapi/sessions.go:298-339 | a top-up that succeeds banks the price of exactly the chunk that was for sale, and thaws |
| SessionInvariants.SettleKeeps | agent/internal/httpapi/sessions.go:464-505 | settling, however the transfer goes, keeps the invariant |
| SessionInvariants.NextChunkIsThePlans | agent/internal/httpapi/sessions.go:275-296 | what a live session can buy next is the plan's next chunk until its length is paid for, then nothing; the node's total cap never refuses it |
| SessionInvariants.NextChunkFits | agent/internal/httpapi/sessions.go:261-296 | of any ledger: what is for sale never takes it past the chosen length or the node's total, is a whole chunk or the last of the length, and is nothing only for one of the reasons the code gives |
| NodeRuns.ActKeeps | agent/internal/httpapi/sessions.go:97-393 | every request, sweep, eviction and pause keeps the node's invariant: every session's, the slot's, and that of the audit messages handed over |
| NodeRuns.RunKeeps | agent/internal/httpapi/leases.go:83-142 | so does every run of them, with clock readings that do not go back |
| AuditTopic.EveryReportAddsUp | agent/internal/httpapi/sessions.go:411-432 | of balanced messages in the order they are handed over: each report splits exactly the payments announced before it, and later reports on a session never earn less |
| AuditDelivery.ArrivedAndMissing | agent/internal/hcs/hcs.go:137-149 | for any messages that arrive, in any order: what the topic announces and what it lacks of the first p messages balance what those announce and what has come of later ones |
| AuditDelivery.ArrivedReports | agent/internal/hcs/hcs.go:110-149 | whatever is lost or late, a report that arrives splits exactly the payments announced before it was handed over, and never earns less than one handed over before it; it is out against the topic by just what is missing less what is early |
| AuditDelivery.InOrderReport | agent/internal/hcs/hcs.go:137-149 | on a topic in order a report agrees with the payments announced before it there if and only if none of its session that was announced before it was lost |
| AuditDelivery.InOrderTopicBalancedIff | agent/internal/hcs/hcs.go:137-149 | a topic in order passes the whole check a reader can make if and only if no report on it lacks a payment announced before it |
| SessionTheorems.MeterRefinesSecondsCounter | agent/internal/runner/lease.go:224-329 | in every reachable state credit, earnings and refund are exact multiples of the price by whole-second counters that add up to the seconds bought |
| SessionTheorems.MoneyIsConserved | agent/internal/httpapi/sessions.go:464-505 | in every reachable state payments settled are earned plus held plus sent back, and the messages handed to the audit publisher announce exactly the payments and transfers made |
| SessionTheorems.TopicReports | agent/internal/httpapi/server.go:109-119 | for every reachable node and every delivery, lossy and out of order: each report on the topic by itself gives price times seconds and the payments announced before it was handed over; it agrees with the topic before it if and only if what is missing there equals what is early, and where nothing is late if and only if no payment announced before it is missing |
| AuditFigures.StepHandsOver | agent/internal/httpapi/sessions.go:411-572 | exactly which messages a step on a live session hands over, and every figure on them: a running sweep's checkpoint of what is earned, owed and used by then, a payment with what it leaves, a closing message with the final split, or none if a due transfer failed, each at the session's own price |
| AuditFigures.OpeningHandsOver | agent/internal/httpapi/sessions.go:512-533 | an opening hands over its first payment, which is the credit it leaves, with the seconds bought, and a failed one nothing |
| AuditFigures.AuditTrailAddsUp | agent/internal/httpapi/sessions.go:411-572 | every message handed over in any run names its session's own price; a burn or closing message has amount plus refund equal to the payments announced before it and its seconds are its amount divided by that price, a payment's seconds what it leaves divided by it; a closing message gives the final earnings and the stopwatch's seconds; amounts never go down |
| SessionTheorems.ChargedForRunningTimeOnly | agent/internal/runner/lease.go:261-287 | earnings never exceed the price of the time spent running, frozen time never counts, and unless a tick was clamped they fall short of metered time by less than a second's price a tick |
| SessionTheorems.ExpiryFollowsCredit | agent/internal/runner/lease.go:298-313 | every reachable live session with a second left is running and expires that far past its last tick; otherwise expiry is pinned in the past |
| SessionTheorems.PinnedExpiryStaysPinned | agent/internal/runner/lease.go:306-313 | once the credit buys no second, no step moves expiry unless it is a payment |
| SessionTheorems.SweepVerdict | agent/internal/httpapi/leases.go:98-123 | a sweep ends a running session if and only if it is out of seconds and paid in full, freezes it if and only if it is out, not paid in full and thirty seconds (in nanoseconds) past its expiry, and otherwise leaves it running |
| SessionTheorems.FrozenVerdict | agent/internal/httpapi/leases.go:125-140 | a sweep ends and settles a frozen session if its grace has passed since the freeze, and leaves it untouched if not |
| SessionTheorems.StepOnLiveSession | agent/internal/httpapi/sessions.go:252-393 | what each request, sweep or eviction does to a live session, and that nothing else touches it |
| SessionTheorems.EndedSessionsNeverChange | agent/internal/runner/lease.go:534-553 | a session that is over is left exactly as it is by every later run: status, money and transfers |
| SessionTheorems.PausedIffSaidLast | agent/internal/httpapi/server.go:194-195 | over any run a node is paused if and only if its provider paused it last |
| SessionTheorems.PausedNodesOpenNothing | agent/internal/httpapi/sessions.go:130-135 | from a pause on, until it is taken back, no run opens a session |
| SessionTheorems.StopAndEvictionAgree | agent/internal/httpapi/server.go:159-177 | on every reachable live session the stop handler and the eviction, each with its own sequence and guard, charge the same, end with the same ledger but for the status, the same record, messages and slot, and both settle what is owed after that charge |
| SessionTheorems.SettledOnceOrNever | agent/internal/httpapi/sessions.go:464-505 | whichever step ends a session, after any later run it is settled if and only if nothing was owed or that step's transfer went through; then the one refund is the credit after the last burn, otherwise the credit stays whole and pending for good |
| SessionTheorems.SessionsAreReached | agent/internal/httpapi/sessions.go:97-244 | the reachable states are not an empty class: every accepted length opens, on a fresh node where everything outside answers, into a live session holding the price of its first chunk |
| SessionTurns.StopSettles | agent/internal/httpapi/sessions.go:380-391 | a stop settles what is owed after a last burn, in one attempt |
| SessionTurns.EvictSettles | agent/internal/httpapi/server.go:165-175 | so does an eviction, whatever ending it names |
| SessionTurns.StopSplits | agent/internal/httpapi/sessions.go:380-391 | a stop ends with the earnings after that burn and at most one closing message, which gives them and what is owed; none if and only if a due transfer failed |
| SessionTurns.EvictSplits | agent/internal/httpapi/server.go:165-175 | and so does an eviction |
| SessionTurns.StopAndEvictDifferInStatusOnly | agent/internal/httpapi/server.go:165-175 | of a session with a meter, the two guards let the same burn through |
| SessionTurns.SweepRunning | agent/internal/httpapi/leases.go:98-123 | the whole state a sweep leaves of a running session, by case |
| SessionTurns.SweepOfAnEndedSession | agent/internal/httpapi/leases.go:88-96 | a sweep that comes upon a session already over settles what it still owes in one attempt, and leaves a settled one alone |
| SessionTurns.TopUpEndsNothing | agent/internal/httpapi/sessions.go:305-339 | an unpaid top-up changes nothing; a paid one leaves the session running with time on it |
| Liveness.SweepGetsCloser | agent/internal/httpapi/leases.go:83-142 | each sweep at least a second after the last strictly lowers the number a session can still outlast |
| Liveness.EveryUnpaidSessionEnds | agent/internal/httpapi/leases.go:83-148 | from any reachable state, if nobody pays, a live session is over after as many spaced sweeps as it has seconds left, plus thirty, plus its grace in seconds |
| Purchases.PaymentsFollowTheForecast | web/components/rent/session-flow.tsx:70-74 | in every reachable state the payments taken are the client's forecast: never more of them, none above the first, all within its cap, and paid in full exactly at the forecast number, for the forecast total |
| Purchases.WithinTheCap | client/src/payment.ts:77-90 | an amount up to the first payment, as printed in a challenge, passes the renter's policy with its cap of twice that |
| Purchases.PolicyPassesIff | client/src/payment.ts:77-90 | with the forecast's cap the renter's policy passes a printed amount if and only if it is for its own network, in HBAR, and at most twice the price of the first chunk |
| Purchases.OnlyIntegersPass | client/src/payment.ts:84-89 | an amount that is not digits after at most a sign never passes, whatever the cap |
| Purchases.TopUpsAreTakenUntilPaidInFull | agent/internal/httpapi/sessions.go:275-339 | at any time a paid top-up of a live session is banked as long as the forecast has payments left, whatever was used meanwhile, and refused unpaid once it has none |
| Purchases.LiveUnlessEnded | agent/internal/httpapi/leases.go:98-141 | a live session survives a step if and only if it is no eviction, no authorized stop, and no sweep that finds it used up and paid in full or frozen past its grace |
| Purchases.LiveIffItLasts | agent/internal/httpapi/leases.go:83-142 | it is live after a run if and only if no step of the run is one of those |
| Purchases.RunBuys | agent/internal/httpapi/sessions.go:252-345 | over any run a session lives through, the payments taken are those it had and one for every paid top-up, up to the forecast number, at an unchanged price and length |
| Purchases.TopUpsCompleteThePurchase | agent/internal/httpapi/sessions.go:252-345 | from any live state, over any run the session lives through, sweeps, freezes and unpaid requests included, it ends paid in full, with the forecast number of payments for the forecast total, if and only if the run has as many paid top-ups as the forecast had payments left |
| Purchases.WholePurchase | web/components/rent/session-flow.tsx:70-74 | from a fresh node, opening any accepted length and renewing it the forecast number of times, whatever else happens short of ending it, reaches a live session paid in full with the forecast number of payments and the forecast total, and every further top-up is refused before paying |
| Purchases.ConfiguredPurchase | agent/internal/escrow/pricing.go:15-43 | what the whole purchase costs from the provider's config: the per-second price times the length, or, from a per-minute price m, sixty times the total is between m*S and m*S + 59*S |
| Purchases.HeldCreditIsBounded | agent/internal/httpapi/sessions.go:273-285 | with top-ups at any time, held credit never exceeds the price of the chosen length |
| Purchases.OneChunkIsExceededIff | agent/internal/httpapi/sessions.go:578-588 | a paid top-up takes the held credit above one chunk's price if and only if the seconds left and the seconds bought exceed a chunk |
| Purchases.LowCreditMeansAChunkIsForSale | agent/internal/httpapi/sessions.go:630-642 | on every reachable live session a chunk is for sale if and only if it is not paid in full; low credit is reported if and only if one is for sale and the seconds left are below the threshold, so always once such a session runs out |
| Purchases.OpensLowIffFree | agent/internal/config/config.go:732-736 | a session is low on credit the moment it opens if and only if its price is zero, whatever its length and the threshold |
| Purchases.LowCreditTopUpsHoldUnderTwoChunks | web/components/rent/session-flow.tsx:284-286 | over any run whose top-ups come only on low credit, held credit stays below two chunks' price |
| NodeServer.Server.Tick | agent/internal/httpapi/sessions.go:411-451 | charges the lease in place and publishes the burn checkpoint of the ledger after it |
| NodeServer.Server.Settle | agent/internal/httpapi/sessions.go:464-505 | its five ways out: nothing to settle, nothing owed, no sidecar, transfer failed, transfer paid, each with its message or none |
| NodeServer.Server.RecordSettlement | agent/internal/httpapi/sessions.go:549-572 | publishes what was earned, what is returned or owed, and whether it was sent |
| NodeServer.Server.StopLease | agent/internal/runner/lease.go:1053-1067 | marks a live lease over and frees the slot if it held it; a lease already over keeps its ending and the slot |
| NodeServer.Server.Charge | agent/internal/runner/lease.go:261-287 | a burn on the lease and on the record kept of it |
| NodeServer.Server.StopAndSettle | agent/internal/httpapi/sessions.go:380-391 | the stop handler's own sequence: charge a running container, stop, settle the lease in hand |
| NodeServer.Server.EvictAndSettle | agent/internal/httpapi/server.go:165-175 | the eviction's own sequence, which charges only a session whose container runs |
| NodeServer.Server.Finish | agent/internal/httpapi/leases.go:130-140 | stop, then settle with the lease in hand, the slot already free |
| NodeServer.Server.MeterIfRunning | agent/internal/httpapi/leases.go:101-103 | the sweep's tick, only for a metered session whose container runs |
| NodeServer.Server.FreezeOrEnd | agent/internal/httpapi/leases.go:107-123 | end when used up and paid in full, otherwise freeze when thirty seconds overdue, otherwise nothing |
| NodeServer.Server.ReapIfOverGrace | agent/internal/httpapi/leases.go:125-140 | a frozen lease is finished once its grace has passed |
| NodeServer.Server.FreezeOrReap | agent/internal/httpapi/leases.go:106-141 | the decision by status, read after the meter has run |
| NodeServer.Server.Pause | agent/internal/runner/lease.go:1022-1032 | freezes a running lease at the sweep's instant |
| NodeServer.Server.SweepLive | agent/internal/httpapi/leases.go:98-141 | the meter before the freeze decision, then freeze, end, reap or leave |
| NodeServer.Server.SweepLeases | agent/internal/httpapi/leases.go:83-142 | the sweep takes the whole node where the step function says: lease, slot, topic |
| NodeServer.Server.HandleSessionStop | agent/internal/httpapi/sessions.go:368-393 | the stop handler does the same, and nothing without authorization |
| NodeServer.Server.EndLease | agent/internal/httpapi/server.go:159-177 | so does the eviction, and nothing when no lease is live |
| NodeServer.Server.Authorize | agent/internal/httpapi/sessions.go:689-698 | a caller is authorized for exactly the metered session in the slot, with its own token |
| NodeServer.Server.ChunkToSell | agent/internal/httpapi/sessions.go:261-296 | the four refusals before payment, and the chunk otherwise |
| NodeServer.Server.SellChunk | agent/internal/httpapi/sessions.go:298-344 | challenge, verify, settle, bank, thaw, publish, with the answer and the calls of every early exit |
| NodeServer.Server.BankTopUp | agent/internal/httpapi/sessions.go:327-339 | the credit is banked first, then a frozen lease thawed, then the payment published with what it leaves |
| NodeServer.Server.HandleTopUpSession | agent/internal/httpapi/sessions.go:252-345 | the top-up handler takes the node where the step function says |
| NodeServer.Server.ClaimSlot | agent/internal/runner/lease.go:714-740 | a new lease object in the table and in the slot, every other object untouched |
| NodeServer.Server.BankOpening | agent/internal/httpapi/sessions.go:211-216 | the started lease is metered by the settled amount, given its length and published |
| NodeServer.Server.MeterLease | agent/internal/httpapi/sessions.go:211-214 | the started lease is metered by the settled amount and given its length |
| NodeServer.Server.Announce | agent/internal/httpapi/sessions.go:512-533 | publishes a payment with the credit and the time it leaves |
| NodeServer.Server.BankSettled | agent/internal/httpapi/sessions.go:200-216 | the credit is the amount in the payment's requirements, read back |
| NodeServer.Server.ServeSession | agent/internal/httpapi/sessions.go:160-216 | everything after verification: claim, publish, settle, then bank or fail |
| NodeServer.Server.Conclude | agent/internal/httpapi/sessions.go:168-216 | a claimed lease is banked and left active in the slot, or failed with the slot freed |
| NodeServer.Server.PublishAndSettle | agent/internal/httpapi/leases.go:36-55 | the order of provisioning, signing, pointing, reaching and settling, with the answer for each failure |
| NodeServer.Server.HandleCreateSession | agent/internal/httpapi/sessions.go:97-244 | the create handler takes the node where the step function says, with the same answer and the same calls |
| NodeServer.Server.SetPaused | agent/internal/httpapi/server.go:194-195 | pausing changes nothing else, so running sessions are unaffected |
| NodeServer.Server.Handle | agent/internal/httpapi/sessions.go:97-393 | every request, sweep, eviction and pause takes the node where its step function says |
| NodeServer.Server.Serve | agent/internal/httpapi/leases.go:83-142 | reading the clock and handling one event is one step of the runs the results speak of |
| NodeServer.Server.ServeAll | agent/internal/httpapi/sessions.go:97-393 | a server that serves a legal run ends in the state the run gives, and keeps the node's invariant |
| NodeServer.Operate | agent/internal/httpapi/sessions.go:97-393 | a server started and run is in a reached state, so every result about reached states holds of the object |
| LeaseSlot.AtMostOneLiveLease | agent/internal/runner/lease.go:729-748 | however the critical sections interleave, at most one lease is live and it is the one in the slot |
| LeaseSlot.ClaimSucceedsIffNoneLive | agent/internal/runner/lease.go:731-740 | a claim gets the slot if and only if no lease anywhere is live |
| LeaseSlot.LateReleaseKeepsTheHolder | agent/internal/runner/lease.go:1125-1131 | an old lease's release, however late, never takes the slot from the live lease |
| LeaseSlot.OverForGood | agent/internal/runner/lease.go:1053-1060 | a lease that is over keeps its ending under every later section, even late provisioning |
| LeaseSlot.FirstEnderNamesTheEnding | agent/internal/runner/lease.go:1053-1060 | in every schedule a lease is over if and only if something ended it, and its ending is the first such section's: failed for its opening, otherwise as the stop, eviction or sweep says |
| LeaseSlot.HeldSlotsAreFreed | agent/internal/runner/lease.go:1062-1063 | the slot is never lost: in every schedule what holds it is live, or has a release to come that frees it |
| LeaseSlot.AtMostTwoReleasesToCome | agent/internal/runner/lease.go:742-748 | in every schedule a live lease awaits no release, and one that is over at most one, or two once its provisioning has failed as well |
| LeaseSlot.ProvisionedMeansActiveOrPaused | agent/internal/runner/lease.go:742-750 | in every schedule a live lease is running or frozen if and only if its request is past provisioning |
| LeaseSlot.ThawUndoesFreeze | agent/internal/runner/lease.go:999-1032 | freezing a running lease leaves it live in its slot, and thawing it gives back the state before |
| LeaseSlot.MoneyLandsLiveIff | agent/internal/httpapi/sessions.go:181-214 | with payment, metering, evictions, stops, sweeps, their checks and settling as sections of their own: a settled opening lands on a live lease if and only if nobody stopped the lease before it was metered; if somebody did, it is stranded at once if and only if the slot is released and nobody who looked the lease up is still to settle it |
| LeaseSlot.StopsNeverStrandAnOpening | agent/internal/httpapi/sessions.go:689-698 | in every schedule in which only stops look a lease up, its opening's money lands on it live |
| LeaseSlot.StrandedForGood | agent/internal/httpapi/server.go:159-177 | credit on a lease that is over, out of the slot and in nobody's hands but those of evictions and sweeps that will leave it, stays so under every later schedule |
| LeaseSlot.RefundableIffNotStranded | agent/internal/httpapi/sessions.go:464-505 | some further schedule sends what an ended lease owes if and only if it is not stranded; a sweep past its own check, which has no case for a lease that is over, does not count as a way |
| LeaseSlot.SweepsEndSessions | agent/internal/httpapi/leases.go:98-141 | a sweep that finds a session running or frozen in the slot can end it and send what it owes |
| LeaseSlot.DoneOnlyByPaying | agent/internal/httpapi/sessions.go:491-501 | in every schedule a lease is settled only by a transfer that went through |
| LeaseSlot.StrandedOnlyLateOrFailed | agent/internal/httpapi/sessions.go:464-505 | in every schedule money is stranded only if it was metered onto a lease already over, or a settling transfer failed |
| LeaseSlot.TwoStopsSettleAtOnce | agent/internal/httpapi/sessions.go:380-391 | two stops sent before the slot is released are both left to settle the same session |
| LeaseSlot.Runner.ClaimSlot | agent/internal/runner/lease.go:731-740 | the claim under the runner's lock, on the table and slot in place |
| LeaseSlot.Runner.AbandonOpening | agent/internal/httpapi/sessions.go:168-194 | an opening given up before payment marks a live lease failed and leaves its release to come |
| LeaseSlot.Runner.ActiveLease | agent/internal/httpapi/server.go:160-163 | looking up gives the lease in the slot, live or not, and changes nothing else |
| LeaseSlot.Runner.IsOver | agent/internal/httpapi/server.go:160-163 | the check of an eviction or a sweep tells whether the lease is over, and changes nothing else |
| LeaseSlot.Runner.MarkMetered | agent/internal/runner/lease.go:224-235 | metering makes settlement pending whatever the status |
| LeaseSlot.Runner.SettleLease | agent/internal/httpapi/sessions.go:464-505 | settling taken as one section: a pending lease is done if its transfer goes through; one with no meter or already settled is left alone |
| LeaseSlot.Runner.MarkLease | agent/internal/runner/lease.go:1053-1060 | the first section of a stop, which goes on to release only if it ended the lease |
| LeaseSlot.Runner.FailLease | agent/internal/runner/lease.go:742-746 | failed provisioning marks a live lease failed and leaves its release to come |
| LeaseSlot.Runner.Activate | agent/internal/runner/lease.go:750 | finished provisioning activates a lease unless it was stopped meanwhile |
| LeaseSlot.Runner.PauseLease | agent/internal/runner/lease.go:1022-1032 | only an active lease freezes, and it keeps the slot |
| LeaseSlot.Runner.ResumeLease | agent/internal/runner/lease.go:999-1010 | only a frozen lease thaws, and it keeps the slot |
| LeaseSlot.Runner.ReleaseLeaseSlot | agent/internal/runner/lease.go:1125-1131 | frees the slot only for the lease that holds it |
| SettleSections.SettledOnceIffOneAtATime | agent/internal/httpapi/sessions.go:464-505 | for any number of settlers, section by section, and any transfers: the session is sure to be refunded at most once, and what it says it refunded is sure to be what was sent, if and only if no second settler checks its state between another's check and its mark |
| SettleSections.RefundedOnceIff | agent/internal/httpapi/sessions.go:466-491 | from any point those under way can make at most one transfer if and only if the transfers made, the amounts read and not yet sent, and, while the state is pending, the checks passed are at most one in all |
| SettleSections.RefundedIsSentIff | agent/internal/runner/lease.go:468-479 | from any point the record is sure to end up right if and only if the session is pending with at most one settler under way, or settled for what was sent with none |
| SettleSections.NothingOwedNothingSent | agent/internal/httpapi/sessions.go:475-481 | a session that owes nothing is never refunded anything, however the settlers interleave |
| SettleSections.ClosingsSayWhatWasSent | agent/internal/httpapi/sessions.go:501-505 | in every schedule, once nobody is under way, the transfers the closing messages announce are exactly those made |
| SettleSections.SoloIsOneStep | agent/internal/httpapi/sessions.go:464-505 | one settler undisturbed does to a finished session, its transfers and its closing message what the one step of a run does |
| EventBroker.Broker.Publish | agent/internal/runner/events.go:65-84 | publishing on the broker's own buffer, set and channels is the publish step of the run model |
| EventBroker.Broker.Subscribe | agent/internal/runner/events.go:86-96 | hands out the replay buffer and a fresh empty channel, and is the subscribe step |
| EventBroker.Broker.OfferToAll | agent/internal/runner/events.go:78-83 | the loop offers the event once to every channel, in any order, and drops it only where 256 wait |
| EventBroker.Broker.Receive | agent/internal/runner/events.go:93-95 | a read takes the oldest queued event, and is the receive step |
| EventBroker.Broker.Unsubscribe | agent/internal/runner/events.go:98-105 | closes a registered channel once and leaves what is queued, and does nothing for any other; it is the unsubscribe step |
| EventBroker.ReplayIsTheRecentPast | agent/internal/runner/events.go:73-76 | after any interleaving the replay buffer is exactly the last min(200, n) events |
| EventBroker.SubscribersSeeHistoryInOrder | agent/internal/runner/events.go:65-105 | in every run backlog, then read, then queued events are an ordered, duplicate-free selection of the history, and of the places a subscription was offered each is there or among the missed, never both; one that missed nothing has all of them |
| EventBroker.MissedIffQueueWasFull | agent/internal/runner/events.go:78-83 | in every run, an event published while a subscriber was there is missed by it for good if and only if its queue held 256 at that moment, and is read or still to be read if and only if it did not |
| EventBroker.NothingAfterUnsubscribing | agent/internal/runner/events.go:98-105 | in every run after an unsubscribe nothing more is offered to it, and what it has got, read or queued, stays what it was |
| Amounts.HbarIsPointed | web/lib/registry.ts:32-37 | slicing the digit string yields the quotient by 100,000,000 and the eight digits of the remainder |
| Amounts.PrintersAgree | packages/types/src/x402.ts:51-56 | for every amount the slicing printer plus " HBAR" equals both quotient-and-remainder printers |
| Amounts.FormattedIsPointed | agent/cmd/cleargate-node/earnings.go:61-69 | deciding on a zero remainder and deciding on a trimmed fraction print the same |
| Amounts.HbarRoundTrip | web/lib/registry.ts:32-37 | a printed amount parses back to the same tinybars |
| Amounts.ShortIsTruncated | web/lib/registry.ts:53-62 | the short printer prints what the full one prints for the amount cut to the shown places, or the full print of one unit as a bound |
| Amounts.StrippedValue | web/lib/registry.ts:53-62 | stripping leading zeros leaves the same number, with none in front unless it is the only digit |
| Amounts.ShortNeverOverstates | web/lib/registry.ts:53-62 | for 1 to 8 places: "0" if and only if the amount is zero, the bound if and only if it is below one unit, otherwise a figure that parses to v with v <= t < v + one unit |
| Base64.Base64 | client/src/browser/wallet-signer.ts:156-169 | the index loop computes the encoding group by group |
| Base64.RoundTrip | client/src/browser/ssh-key.ts:103-116 | decoding by section 4 of RFC 4648 gives back every byte sequence |
| Base64.DecodesExactlyEncodings | client/src/browser/wallet-signer.ts:156-169 | a string decodes to some bytes if and only if it is what the encoder writes for them |
| Base64.EncodedLength | client/src/browser/wallet-signer.ts:158-167 | four characters for every three bytes begun |
| Base64.PaddingCount | client/src/browser/wallet-signer.ts:165-166 | one "=" for each byte the last group is short of three, and none anywhere else |
| OpenSshKey.EncodeOpenSSHPublicKey | client/src/browser/ssh-key.ts:78-94 | writing at a moving offset fills the buffer with the two length-prefixed strings, which are then encoded |
| OpenSshKey.SetUint32 | client/src/browser/ssh-key.ts:84-90 | four big-endian bytes at the offset, modulo 2^32, nothing before it changed |
| OpenSshKey.NameIs | client/src/browser/ssh-key.ts:78-94 | the eleven bytes of the algorithm are those of "ssh-ed25519" |
| OpenSshKey.ReadsExactlyBlobs | client/src/browser/ssh-key.ts:78-94 | a blob reads, by section 4 of RFC 8709 and section 5 of RFC 4251, as a key if and only if it is the one written for it and the length fits its prefix |
| OpenSshKey.PrintedKeyReadsBack | client/src/browser/ssh-key.ts:78-94 | what is printed decodes to the blob, and the blob reads back as the key if and only if its length is below 2^32 |
| Egress.Allows | agent/lease-image/egress/main.go:191-202 | a host passes if and only if it is not empty and the labels of some entry end its labels, one final dot dropped and lower-cased by any table |
| Egress.AllowedIffListed | agent/lease-image/egress/main.go:191-202 | a host with or without one final dot passes if and only if some entry covers its lower-cased name, nothing else of it dropped |
| Egress.SuffixIsLabels | agent/lease-image/egress/main.go:197-198 | for all strings, equality or the dot-anchored suffix test is the same as being a suffix label by label |
| Egress.ParseAllowlist | agent/lease-image/egress/main.go:204-213 | the loop yields every comma-separated entry trimmed of Unicode white space and lower-cased, in order, without the empty ones |
| Egress.TrimSpaceTakesTheEnds | agent/lease-image/egress/main.go:207 | trimming takes white space only, all of it at both ends, and nothing from between |
| Egress.WhiteSpaceIs | agent/lease-image/egress/main.go:207 | white space is the twenty-five characters of the Unicode property |
| Egress.ReadsBackIffPlain | agent/internal/runner/lease.go:820 | the list written by the node is the list the proxy reads if and only if every entry is trimmed, its own lower case, comma-free and not empty, for every lower-casing table that is idempotent and keeps spaces and commas |
| Egress.LatinIsLowerCasing | agent/lease-image/egress/main.go:207 | the lower-casing of the Latin letters is such a table, so what is asked of one can be met |
| Egress.EnforcedPolicy | agent/lease-image/egress/main.go:191-213 | for comma-free entries, a host, with or without one final dot, gets through the joined and parsed list if and only if some configured entry, normalized, covers it |
| ReceiptLog.SplitLines | agent/internal/receipts/receipts.go:104-117 | the loop with a moving start yields the newline-ended lines and the unfinished last one, if any |
| ReceiptLog.Log.Append | agent/internal/receipts/receipts.go:47-74 | the file stays whole lines and at most one piece: a completed append adds one line, which begins with whatever piece a crash had left, and one that dies leaves a longer piece |
| ReceiptLog.Log.ReadAll | agent/internal/receipts/receipts.go:78-102 | what is read back is what decodes of those lines and that piece |
| ReceiptLog.All | agent/internal/receipts/receipts.go:78-102 | reads back the lines that decode, in order, skipping empty and undecodable ones |
| ReceiptLog.CutFileReadsBack | agent/internal/receipts/receipts.go:104-117 | for a file of whole records cut at any byte: exactly the records completed before the cut, then at most one piece, a beginning of the next |
| ReceiptLog.CutLogKeepsItsReceipts | agent/internal/receipts/receipts.go:76-102 | if no proper beginning of a record decodes, a cut log reads back as the receipts completed before the cut, plus the next only if just its newline is missing |
| ReceiptLog.AppendAfterCrash | agent/internal/receipts/receipts.go:47-74 | the receipt appended after a crash is a line of its own if and only if the crash had written none or all of its line; otherwise it is glued to the piece |
| ReceiptLog.ReadAfterCrash | agent/internal/receipts/receipts.go:76-102 | a log that died inside a line reads back that receipt if and only if its text, newline or not, was whole |
| ReceiptLog.ReadAfterNextAppend | agent/internal/receipts/receipts.go:47-102 | once the next receipt is appended to it, both read back if the dead append had written its whole line, the new one alone if nothing, and neither otherwise, even where the old one still did before |
| ReceiptText.TextsAreSafe | agent/internal/receipts/receipts.go:50-54 | of receipts as eight quoted and escaped texts in a JSON object a line, each reads back as itself, is free of control characters and markup, no proper beginning of a line decodes, and no beginning with another receipt after it |
| ReceiptText.AmountsAreSafe | agent/internal/receipts/receipts.go:18-29 | the same of the one field that is summed, which reads back as the printed amount |
| ReceiptText.GluedLinesDoNotRead | agent/internal/receipts/receipts.go:50-54 | nothing at all written before a receipt on its line makes an object of the two |
| Earnings.ShowEarnings | agent/cmd/cleargate-node/earnings.go:31-58 | the total is the sum of the amounts that read as integers |
| Earnings.OneMoreReceipt | agent/cmd/cleargate-node/earnings.go:41-57 | one more receipt adds its amount, takes it off if negative, and changes nothing if it is no integer |
| Earnings.EarningsAfterCrash | agent/cmd/cleargate-node/earnings.go:41-57 | after a crash at any byte the total shown is the sum of the amounts settled before it, and of the last one only if all its bytes were written |
| Earnings.EarningsAcrossACrash | agent/cmd/cleargate-node/earnings.go:41-57 | the total before and after the next settlement, for every byte a crash can stop at; where only the newline was missing, settling takes the total down by the last receipt |
| CounterExamples.FractionsAreLost | agent/internal/runner/lease.go:275-278 | on a session an accepted config has just opened, two ticks a second and a half apart charge two seconds where one tick charges three |
| CounterExamples.TermsOfAcceptedConfig | agent/internal/config/config.go:360-418 | the terms of these cases are those of the default block, enabled, at one tinybar a second in five-minute chunks, which is accepted |
| CounterExamples.EarlyReadingUnsyncs | agent/internal/runner/lease.go:269-273 | on the same session a reading a second before the last tick leaves expiry a second later than the credit buys |
| CounterExamples.EarlyTopUpHoldsTwoChunks | agent/internal/httpapi/sessions.go:578-581 | a top-up right after opening a two-chunk session takes the held credit above one chunk's price |
| CounterExamples.OpeningLostOrLate | agent/internal/hcs/hcs.go:137-149 | with the opening's message lost, or after the first burn's, the topic splits 300 tinybars of which none was announced before |
| CounterExamples.FailedRefundIsNotRetried | agent/internal/httpapi/sessions.go:491-499 | a stop whose transfer fails leaves 300 tinybars owed, and a later sweep whose transfer would succeed sends nothing |
| CounterExamples.RefundedTwice | agent/internal/httpapi/sessions.go:468-491 | two settlers who both check and read before either marks send 300 tinybars each |
| CounterExamples.RefundForgotten | agent/internal/runner/lease.go:466-475 | a settler who reads the credit after another has marked it leaves a session that sent 300 tinybars saying it refunded nothing, and closes it a second time |
| CounterExamples.OneMinuteNodeNeedsAThreshold | agent/internal/config/config.go:538-543 | a block that runs with a one-minute longest session is refused once its session fields are left to their defaults |
| CounterExamples.ZeroPriceIsAccepted | agent/internal/config/config.go:740-745 | an explicit per-second price of "0" is accepted and is the price charged |
| CounterExamples.SettlingLosesBothReceipts | agent/internal/receipts/receipts.go:76-77 | a receipt for 60 tinybars is whole but for its newline and counts; a payment of 90 then settles, and the earnings shown are 0 |
| CounterExamples.PaidIntoNothing | agent/internal/httpapi/server.go:153-158 | an eviction after an opening was paid for and before it was metered leaves the payment as credit on a lease that is over, which no later section sends back |

## Left out

- For the ledger, requests and sweeps are single steps with one clock reading each. At the grain of
  the locks `LeaseSlot` models the slot and what becomes of an opening's money, but not amounts, and
  `SettleSections` the settling of a session, but no charge or top-up that comes between its sections.
- LeaseSlot.Runner.SettleLease: takes settling as one section, which in the code is several; what
  overlapping settlers do to the money is `SettleSections`.
- Containers, the tunnel, the certificate authority, the facilitator and the refund transfer are
  outcomes given to a step. A freeze or thaw whose container call fails after the status changed is
  therefore the same as one that succeeds.
- On the audit topic a message is there once or not at all; when it arrives is not modelled.
- Session ids and tokens: ids are fresh values and a token either is the session's or is not.
- The float conversion in `elapsed.Seconds()` is the integer floor of nanoseconds, and 64-bit
  overflow of times and of seconds read from big integers is not modelled.
- The first payment's recipient, the receipts written beside it, and the dashboard events of each
  handler; the audit messages keep the fields the claims are about.
- LeaseConfig.LeasesBlock.ApplyDefaults: does not model the resource limits, the tunnel binary, the
  default allowlist or the resolution of the key path, because nothing in a session's arithmetic reads them.
- Purchases.WithinTheCap: the policy is modelled for amounts as signed decimal integers; the
  hexadecimal, blank and padded forms a JavaScript BigInt also reads are not.
- Amounts.PrintersAgree: is about amounts of zero and more; negative amounts, which no caller prints, are not modelled.
- Egress.Allows: starts from the bare host; splitting the port off is library code. Hosts and entries
  are Unicode text, so bytes that are not UTF-8 are not modelled.
- Base64.RoundTrip: the two copies of the encoder in the client are the same text and are modelled once.
- ReceiptLog.All: the decoder is a parameter. The results that need it suppose that no piece of a line
  and no two objects on one line decode, which `ReceiptText` shows of objects whose values are all texts.
- ReceiptText.TextsAreSafe: the reader takes members that are texts, with no white space between them,
  and codes below 128; texts are valid UTF-8, and the escapes of two line separators are not modelled.
- The PEM wrapping of the private key, and the comment after the public key.
- The parked escrow path, the registry service, the MCP tools, the log-frame reader, the terminal and
  web rendering, CORS and the agent card.
- The browser's decision to poll, its wallet prompts and its stored session.

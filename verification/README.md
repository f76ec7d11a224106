# TollGate verification

A Dafny model of the money logic of TollGate, a payment gate that sells network access and metered
delivery for prepaid ecash, with machine-checked proofs of what that logic guarantees. Every component
of the original is a synchronous state machine that turns events into actions. The model keeps that shape: a
class per stateful component, its methods proved equal to a transition function, and laws proved about all
runs of those functions.

Check everything with `dafny verify dfyconfig.toml` (Dafny 4.11).

## Components

| files | component |
|---|---|
| `Machine.dfy`, `Wrappers.dfy`, `Sequences.dfy` | fixed-width arithmetic with explicit saturation, wrap-around and truncation; option and result types; concatenation |
| `Pricing.dfy`, `Protocol.dfy`, `Session.dfy`, `StepLaws.dfy` | the prepaid metering session, one record per peer, and what each event does to it |
| `SessionLaws.dfy`, `MeteringLaws.dfy`, `GateLaws.dfy` | non-interference, conservation, telescoping billing, drift, access |
| `Host.dfy` | the host that enforces access, queues messages and reaps idle peers |
| `Consume.dfy`, `ConsumeLaws.dfy`, `LedgerAgreement.dfy` | the buyer, its account, and buyer and seller in a closed loop |
| `Delivery.dfy`, `DeliveryLaws.dfy` | grants, budget guard and settlement engine; crash recovery and single settlement |
| `ChargerDriver.dfy`, `ChargerLaws.dfy`, `CrashLaws.dfy`, `RestartLaws.dfy`, `RestartBounds.dfy`, `ClosedLoop.dfy` | the charger driver, its settlement, its restarts, the bill after them and how far it can move, and the driver wired to a device |
| `ExternalDriver.dfy`, `ExternalLaws.dfy` | delivery metered by a third party, and when a restart of it can be noticed |
| `Codec.dfy`, `Product.dfy`, `ProductLaws.dfy`, `ProductReader.dfy` | framing and the canonical bytes behind product and option identifiers, with a reader of them |
| `Quotes.dfy`, `QuoteLaws.dfy`, `MonitorLaws.dfy` | Lightning quotes under concurrent monitors and janitor, and a monitor's rounds |
| `Calendar.dfy` | Unix time to calendar components |

## Modelling decisions

- Integers have the original widths. Saturating operations saturate. The 128-bit sum in the interval cost, the
  millisecond products of the charger and device, and the external lease deadline wrap as in a release build.
- A history of a session contains every event with its timestamp, in any order, and every change of price or
  policy. A law about a metering session says where it needs the price constant or the clock monotone; those
  conditions are recorded as the run proceeds (`steady`, `samePolicy`, `exact`) and not assumed of the run.
- Messages are modelled after decoding; bytes that do not decode are the message `Unrecognised`.
- A token verification is an event the host delivers later. The host model may only deliver answers to
  verifications it is running, which is what the access laws assume of a history.
- Monitors and janitor interleave at every await: each step is one store access or one external call with any outcome.
- One session event together with its actions is carried out as a single step by the host.
- The sort of prices by URL is unstable in the original, so the product laws quantify over every order such a
  sort may produce.
- The published charger window and the external quote are the host's inputs; provider answers, mint answers and
  meter readings are parameters with arbitrary values.

## Where code and documentation differ

- A cost is brought to 64 bits by saturation, but for counts of more than half the range its 128-bit sum can wrap before
  that, and then saturates at the wrong end (`Pricing.CostOfAnyReading`, `Pricing.LargestReadingIsFree`).
- A negative rate is documented to credit the peer. The session charges nothing for it and credits nothing
  (`StepLaws.ChargeIsTheCost`).
- The delivery phase after settlement is documented as terminal, but the engine accepts a sample there and
  reopens. `DeliveryLaws.DoneReopensIff` says exactly when, and `DeliveryLaws.LateSampleSettlesAgain` that a
  second settlement then follows. Both drivers refuse to feed a settled engine, so their runs settle once.
- Product identifiers are documented as independent of declaration order. They are exactly when no URL is
  declared with two different prices (`ProductLaws.CanonicalIff`).
- Settlement is described as unaffected by a crash. A restarted charger driver differs from an uninterrupted one
  in four ways, each with its exact condition:
  - it counts from a whole second, so a reading changes unless the journal was read a whole number of seconds after
    the ack (`CrashLaws.ResumeCountsAlikeIff`, `CrashLaws.RestartLosesASecond`); however many crashes there are, at
    most 999 milliseconds each are lost (`CrashLaws.CrashesLoseAtMostASecondEach`);
  - with a journal from before the ack, or without an ack, it counts ahead (`CrashLaws.ResumeNeverCountsAheadIff`);
  - it is always open, so restarting a settled driver settles the deposit again
    (`CrashLaws.RestartSettlesOnceIff`, `CrashLaws.SettlesOnceAcrossRestartsIff`); a host can read the phase first;
  - it has forgotten any stop that was waiting to be settled, and bills on (`CrashLaws.RestartKeepsTheTickIff`,
    `CrashLaws.ForgottenStopBillsOn`); a host has seen the stop command.

  Away from the last three the bill moves by at most 999 milliseconds per crash downward, and upward by at most the
  whole seconds short of the longest silence between two readings, which is nothing for a host that ticks at least once a
  second (`RestartLaws.RestartsBarelyMoveTheBill`). The upward part is there because a driver that lags reaches its
  seconds cap at a later tick. Both bounds are reached (`RestartBounds.LossIsAttained`, `RestartBounds.OvershootIsAttained`).
  A host that restarts from a journal behind the latest reading adds that much to both.
- The external driver journals every answer of its provider, and its engine only those that are not behind the last
  one accepted. A restart from the journal changes no money move exactly when the driver had not settled and the journal
  is as good as the accepted totals, `ExternalLaws.AsGood` (`ExternalLaws.UnnoticedIff`): it goes unnoticed with equal
  totals, on a free window, or where both have used up the deposit, and is noticed after a backward answer that would
  settle differently. A settled driver that is restarted settles again (`ExternalLaws.RestartSettlesOnceIff`).

## Model

| member | source | states |
|---|---|---|
| `Pricing.CostExactIff` | crates/tollgate-core/src/pricing.rs:26-33 | The computed cost equals time cost plus unit cost exactly when that sum is a 64-bit signed number |
| `Pricing.CostSaturates` | crates/tollgate-core/src/pricing.rs:26-33 | For unit counts below 2^63 the 128-bit sum never wraps: an out-of-range cost saturates at the end its sign points to |
| `Pricing.CostOfAnyReading` | crates/tollgate-core/src/pricing.rs:26-33 | Every cost: kept when a 64-bit number, stopped at the end its sign points to when beyond that, and at the other end when beyond 128 bits |
| `Pricing.CostParts` | crates/tollgate-core/src/pricing.rs:27-29 | The two parts of a cost are units times their rate, and a thousandth of the milliseconds times theirs rounded toward zero |
| `Pricing.LargestReadingIsFree` | crates/tollgate-core/src/pricing.rs:26-33 | At the highest rates the largest counts wrap the 128-bit sum and cost nothing |
| `Session.Session.Handle` | crates/tollgate-core/src/session.rs:180-460 | One event moves the whole node, and asks its host for actions, exactly as the per-peer transition says, and the recorded history stays consistent with the state |
| `Session.Session.HandleConnected` | crates/tollgate-core/src/session.rs:183-196 | A new peer starts blocked with a fresh session; a re-announce changes nothing and asks for nothing |
| `Session.Session.HandleMessage` | crates/tollgate-core/src/session.rs:198-286 | Each decoded message changes only its own fields of the sender: token pending, rejection, teardown, stored sheet, accepted product, stored usage report |
| `Session.Session.HandleVerified` | crates/tollgate-core/src/session.rs:288-324 | An accepted token adds to the balance and activates, dropping the stale baseline unless already active; a refused one sends the peer back to new and blocks it |
| `Session.Session.HandleSample` | crates/tollgate-core/src/session.rs:326-440 | First sample sets the baseline; a later one bills the higher tally, charges, judges drift, reports usage and cuts an exhausted or drifting peer |
| `Session.Session.JudgeDrift` | crates/tollgate-core/src/session.rs:368-392 | The streak grows, saturating, exactly on an over-tolerance reading, with one transit-loss warning; a tolerated reading resets it and a missing report leaves it |
| `Session.Session.HandleDisconnected` | crates/tollgate-core/src/session.rs:442-453 | The peer is blocked, unmetered and forgotten, tracked or not |
| `StepLaws.BilledIsTheHigherTally` | crates/tollgate-core/src/session.rs:343-358 | A charged sample bills the higher of what our counter delivered since the baseline and what the peer last reported received, and exactly one of the two |
| `StepLaws.ChargeIsTheCost` | crates/tollgate-core/src/session.rs:346-366 | The balance falls by the cost of the time and units since the last sample, never below zero and not at all for a negative cost; the peer is suspended exactly when a charge empties the balance or the streak has reached the limit |
| `StepLaws.StreakFollowsTheTallies` | crates/tollgate-core/src/session.rs:368-392 | The streak grows, up to 255, exactly when the two tallies differ by more than the tolerated ten-thousandths of ours; a closer report resets it and no report leaves it |
| `StepLaws.SampleIsReported` | crates/tollgate-core/src/session.rs:383-435 | The host is asked, in this order, to warn of drift, to report time and both counts since the baseline, to say that the balance is gone, and to block and stop metering |
| `StepLaws.FirstSampleIsTheBaseline` | crates/tollgate-core/src/session.rs:337-342 | The first sample of an active peer starts a metering session with nothing billed; a sample of any other peer does nothing |
| `StepLaws.TokenIsCredited` | crates/tollgate-core/src/session.rs:288-324 | An accepted token is credited up to the largest balance and the peer admitted, metered and told; a refused one credits nothing, blocks and tells |
| `StepLaws.MessageIsHeard` | crates/tollgate-core/src/session.rs:198-286 | What each message of a known peer stores and asks for, field by field |
| `StepLaws.StrangersAreBlocked` | crates/tollgate-core/src/session.rs:183-240 | An unknown peer's messages change nothing, and its announce makes it known, blocked and unpaid |
| `StepLaws.GoodbyeForgets` | crates/tollgate-core/src/session.rs:442-453 | A disconnect blocks, stops metering and forgets; re-announces and clock ticks do nothing |
| `SessionLaws.StepIsLocal` | crates/tollgate-core/src/session.rs:180-460 | An event changes, and asks anything about, no peer but its own |
| `SessionLaws.NonInterference` | crates/tollgate-core/src/session.rs:180-460 | Over any history a peer's session, and the actions about it, are those of the history restricted to its own events and to price and policy changes |
| `SessionLaws.ReannouncesStutter` | crates/tollgate-core/src/session.rs:183-196 | Deleting every re-announce of a tracked peer from a history leaves node and actions unchanged |
| `SessionLaws.LedgerBalances` | crates/tollgate-core/src/session.rs:288-302 | In every run, for every tracked peer, credits equal balance plus collections plus credit refused by a full balance; charges equal collections plus forgiveness; shortfalls never outnumber accepted tokens |
| `SessionLaws.ConservationWithBoundedLoss` | crates/tollgate-core/src/session.rs:356-366 | With credits below 2^64 nothing is lost, and the seller's total loss is at most one interval's charge per accepted token |
| `MeteringLaws.MeteringInvariant` | crates/tollgate-core/src/session.rs:338-415 | In every run the books of a metering session telescope: units against the reconciled reading, time against elapsed time, money against both, and the streak against the drift record |
| `MeteringLaws.GapsAreNeverBilled` | crates/tollgate-core/src/session.rs:291-302 | Whenever a sample would be charged the peer has been active without a break since the previous sample |
| `MeteringLaws.UnitsChargedAreTheReading` | crates/tollgate-core/src/session.rs:343-358 | Units charged are at least every billable reading so far, and equal the last one exactly when the reconciled reading never fell |
| `MeteringLaws.EveryTallyIsCharged` | crates/tollgate-core/src/session.rs:343-358 | In every run the units charged in a metering session are at least every count sampled less the baseline and at least every peer report in force at a charged sample |
| `MeteringLaws.RisingTalliesNeverRegress` | crates/tollgate-core/src/session.rs:343-358 | When neither the sampled counters nor the peer's reports have fallen since the baseline, the reconciled reading never fell, so no unit was charged twice |
| `MeteringLaws.SamplingScheduleIndependence` | crates/tollgate-core/src/session.rs:338-366 | Two metering sessions of equal price, duration and final reading, with counters and reports that never fell, charge the same units however they were sampled; their time and money differ by less than the number of samples |
| `MeteringLaws.SchedulesWithoutRegress` | crates/tollgate-core/src/session.rs:338-366 | The same whenever the reconciled readings never fell, whatever counters and reports did |
| `MeteringLaws.TrailingIsLongestSuffix` | crates/tollgate-core/src/session.rs:368-392 | The streak counter used in the drift laws is the length of the longest all-over-tolerance suffix |
| `MeteringLaws.DriftMeaning` | crates/tollgate-core/src/session.rs:368-435 | At every charged sample the peer is warned exactly when over tolerance and cut for drift exactly when the run of over-tolerance samples has reached the limit; with an unchanged policy and a positive limit the run never exceeds the limit; the exhaustion notice is sent exactly on exhaustion |
| `MeteringLaws.HonestPeerSparedIff` | crates/tollgate-core/src/session.rs:413-417 | A sample within tolerance that the balance covers leaves the peer active if and only if the streak limit is positive |
| `GateLaws.GateInvariant` | crates/tollgate-core/src/session.rs:180-460 | In every run an active peer is admitted and metered, a suspended one blocked and unmetered, an unknown one neither; admission differs from being active only while a verification is outstanding |
| `GateLaws.DeliveryIffActive` | crates/tollgate-core/src/session.rs:198-324 | With no verification outstanding, delivery is allowed if and only if the peer is active |
| `Host.Driver.Execute` | crates/tollgate-net/src/driver.rs:483-532 | An action is carried out so that access, metered set and outstanding verifications keep matching the log of actions; a send reaches the queue of its peer and no other |
| `Host.Driver.Dispatch` | crates/tollgate-net/src/driver.rs:456-480 | An event is run through the session and every resulting action carried out, keeping host and session in agreement; every peer's queue is the old one with the messages sent to it posted in turn |
| `Host.Driver.OnPeerConnected` | crates/tollgate-net/src/driver.rs:310-331 | The idle timer restarts, the session sees the announce, our announcement and price sheet are queued for that peer alone, and the result tells whether the peer was unknown |
| `Host.Driver.OnMessageReceived` | crates/tollgate-net/src/driver.rs:348-353 | The idle timer restarts, the session sees the message, and what it answers is queued |
| `Host.Driver.Meter` | crates/tollgate-net/src/driver.rs:299-303 | The session sees the sample, its warning, usage report and cut-off notice are queued, and the idle timer does not move |
| `Host.Driver.OnVerified` | crates/tollgate-net/src/driver.rs:467-477 | The mint's answer to one running verification is fed back into the session and the acknowledgement queued |
| `Host.Driver.OnPeerDisconnected` | crates/tollgate-net/src/driver.rs:333-345 | Session, idle timer and queue of exactly that peer are forgotten |
| `Host.Driver.ReapIdle` | crates/tollgate-net/src/driver.rs:268-287 | A sweep forgets and blocks exactly the peers not active that were last heard of idle_ms or more milliseconds ago |
| `Host.Driver.EnforcedAccess` | crates/tollgate-net/src/driver.rs:483-532 | What the host enforces agrees with the session phase: allowed if and only if active when no verification is running, active peers metered, suspended and unknown ones blocked and unmetered |
| `Host.Driver.Greeted` | crates/tollgate-net/src/driver.rs:321-330 | A poll from a peer is answered with our announcement and then, if anything is sold, our prices |
| `Host.Driver.Enqueue` | crates/tollgate-net/src/driver.rs:564-575 | A fresh report replaces the waiting one, anything else queues behind; no other queue changes |
| `Host.Driver.DrainOutbox` | crates/tollgate-net/src/driver.rs:356-363 | The whole queue is handed over and left empty; no other queue changes |
| `Host.OutboxRefines` | crates/tollgate-net/src/driver.rs:356-363 | Over any puts and drains every non-report comes out once in order, at most one report waits, and the client finds the newest report put since the last drain |
| `Consume.Poll` | crates/tollgate-net/src/client.rs:313-390 | One poll turns the three accounting variables and the reply into the next ones and the event shown to the caller |
| `Consume.RunConsume` | crates/tollgate-net/src/client.rs:251-394 | After an accepted payment the events are those of polling every reply in turn; a refused payment ends it |
| `ConsumeLaws.EveryTopUpCounts` | crates/tollgate-net/src/client.rs:251-394 | After any replies the account holds the first payment plus every top-up bought, saturating; a top-up bought after a cut-off starts it anew with that one alone |
| `ConsumeLaws.PollShowsEachTurn` | crates/tollgate-net/src/client.rs:313-394 | The callback sees exactly one event per poll, that of its own turn |
| `ConsumeLaws.PollHears` | crates/tollgate-net/src/client.rs:106-122 | The report shown is the first received, and the buyer is cut off exactly when told that its balance is gone |
| `ConsumeLaws.PollBuysIff` | crates/tollgate-net/src/client.rs:346-394 | A top-up is bought exactly when it would be accepted and the buyer was cut off or its credit, payments less advertised price times the higher count, was below the watermark; what is paid and shown follows |
| `ConsumeLaws.PollAcknowledges` | crates/tollgate-net/src/client.rs:325-349 | The next acknowledgement is the kept percentage of the own measurement, or else of the reported count; a cut-off restarts the measurement |
| `ConsumeLaws.FirstOptionIsThePrice` | crates/tollgate-net/src/client.rs:124-134 | The price is that of the first option of the first product, and free without one |
| `ConsumeLaws.ScaledIsMilli` | crates/tollgate-net/src/client.rs:268-269 | Whole units count as a thousand milli-units each, up to the largest word |
| `LedgerAgreement.SamplePosts` | crates/tollgate-core/src/session.rs:397-405 | After a charged sample the one report in the buyer's queue is that sample's elapsed time and usage |
| `LedgerAgreement.MarketHolds` | crates/tollgate-net/src/client.rs:267-390 | Over every interleaving of samples and polls the seller's books, the queued report and the buyer's acknowledgement describe one session |
| `LedgerAgreement.LedgersAgree` | crates/tollgate-net/src/client.rs:335-385 | Until the first top-up or cut-off the buyer's estimate at each report never exceeds the seller's balance, and is below it by at most 0.999 milli-units per charged sample, less than one each, while nothing has been forgiven |
| `LedgerAgreement.RoundingGapIsAttained` | crates/tollgate-net/src/client.rs:335-385 | That bound is exact: for every number of charged samples that fits the clock some run attains it with nothing forgiven |
| `LedgerAgreement.SellerMeters` | crates/tollgate-net/src/driver.rs:299-303 | One sampling by the live host is one step of the closed loop, in history and in queue |
| `LedgerAgreement.SellerServes` | crates/tollgate-net/src/server.rs:160-225 | One exchange of announce and optional report with the live host is one poll of the closed loop, and the reply shows the buyer the report, the cut-off and the remaining credit that the loop says it sees |
| `LedgerAgreement.SellerHearsTheAck` | crates/tollgate-net/src/client.rs:313-325 | A poll leaves the seller with exactly the count the buyer acknowledges, as received |
| `Delivery.Payout` | crates/tollgate-core/src/delivery.rs:341-343 | A settlement is at most the cost, the deposit and the money cap, and equals one of them |
| `Delivery.BudgetGuard.Apply` | crates/tollgate-core/src/delivery.rs:195-204 | A sample behind the journal in any total is refused and the journal stands; any other becomes the journal and names the cap it exhausts |
| `Delivery.BudgetGuard.FirstExhausted` | crates/tollgate-core/src/delivery.rs:207-224 | A cap is named exactly when a total has reached it, units before seconds before cost |
| `Delivery.DeliveryEngine.Resume` | crates/tollgate-core/src/delivery.rs:245-257 | The rebuilt engine holds the grant with the journalled reading and is open |
| `Delivery.DeliveryEngine.Handle` | crates/tollgate-core/src/delivery.rs:264-327 | One event moves phase, guard and actions exactly as the engine's transition says |
| `Delivery.DeliveryEngine.Settle` | crates/tollgate-core/src/delivery.rs:332-356 | The clamped cost is burnt, the rest of the deposit refunded, and the engine closed |
| `DeliveryLaws.SampleIsKeptUnlessBehind` | crates/tollgate-core/src/delivery.rs:275-293 | A sample with any total behind the last accepted one is an alarm under the grant's nonce and changes nothing; any other is kept and asks for a stop exactly when a total has come up to its limit |
| `DeliveryLaws.FirstCapIsNamed` | crates/tollgate-core/src/delivery.rs:207-224 | The cap named is the first of units, seconds and cost to have been reached |
| `DeliveryLaws.TerminalIsSettled` | crates/tollgate-core/src/delivery.rs:294-303 | An open delivery is settled and refunded under the grant's nonce, sharing out the deposit; before a grant it is an alarm with the position of its kind, after settlement nothing |
| `DeliveryLaws.GrantRevokeTick` | crates/tollgate-core/src/delivery.rs:264-327 | A grant is taken once, a revoke asks an open delivery to stop, a tick settles the accepted totals as soon as the lease has expired and not before |
| `DeliveryLaws.RebuiltIsOpen` | crates/tollgate-core/src/delivery.rs:245-257 | A rebuilt engine holds the journal, as delivering unless a limit was reached |
| `DeliveryLaws.RecoveryIsInvisible` | crates/tollgate-core/src/delivery.rs:245-327 | An open engine rebuilt from its live journal answers every future event sequence with the same action lists |
| `DeliveryLaws.SameFutureIffSameTotals` | crates/tollgate-core/src/delivery.rs:195-204 | Two open engines of one grant agree on every future if and only if their journalled totals agree |
| `DeliveryLaws.StaleJournalHeals` | crates/tollgate-core/src/delivery.rs:245-293 | Rebuilt from an older journal, the engine agrees from the next sample on, for ever, if and only if that sample reaches the live totals or none were lost |
| `DeliveryLaws.StaleJournalBurnsNoMore` | crates/tollgate-core/src/delivery.rs:312-325 | If the lease lapses first the rebuilt engine settles the whole deposit too and burns no more than the live one |
| `DeliveryLaws.DoneReopensIff` | crates/tollgate-core/src/delivery.rs:275-293 | A settled engine reopens on exactly the samples its guard still accepts |
| `DeliveryLaws.SettlementsCount` | crates/tollgate-core/src/delivery.rs:264-356 | Over any events, settlements plus the delivery finally open equal the openings, by grant or by accepted late sample, plus the delivery open at first |
| `DeliveryLaws.SettlesOnceIff` | crates/tollgate-core/src/delivery.rs:264-356 | An open engine settles at most once if and only if it never reopened, or reopened once and stands open |
| `DeliveryLaws.SettlesOnce` | crates/tollgate-core/src/delivery.rs:264-356 | Over any events without such a late sample an engine settles at most once |
| `DeliveryLaws.LateSampleSettlesAgain` | crates/tollgate-core/src/delivery.rs:275-303 | For every open engine, a terminal, one late sample and another terminal settle twice |
| `ChargerDriver.Driver.Open` | crates/tollgate-charger-host/src/driver.rs:72-102 | The driver starts granted and unacknowledged, and publishes the window end of the lease |
| `ChargerDriver.Driver.Resume` | crates/tollgate-charger-host/src/driver.rs:105-115 | The driver is rebuilt from the journal with a baseline that many whole seconds before the reading |
| `ChargerDriver.Driver.HandleMessage` | crates/tollgate-charger-host/src/driver.rs:151-172 | An ack sets the baseline; a device terminal reads the clock unless a stop froze the journal, and is dispatched |
| `ChargerDriver.Driver.OnTick` | crates/tollgate-charger-host/src/driver.rs:177-197 | Nothing when done; a pending stop is settled at the frozen journal; otherwise progress then the timer are dispatched |
| `ChargerDriver.Driver.OnRevoke` | crates/tollgate-charger-host/src/driver.rs:200-203 | The stop is noted as a revoke and the engine told |
| `ChargerDriver.Driver.Dispatch` | crates/tollgate-charger-host/src/driver.rs:216-256 | Each engine action becomes its wire command, and the first stop freezes the journal with its reason |
| `ChargerLaws.StepPays` | crates/tollgate-charger-host/src/driver.rs:151-203 | A settled driver stays settled and moves no money; an open one pays exactly when it settles: one settle and then one refund under the grant's nonce, sharing out its deposit; device terminals, ticks after a stop and ticks at the deadline settle |
| `ChargerLaws.SettlesExactlyOnce` | crates/tollgate-charger-host/src/driver.rs:151-256 | In every run no money moves before the driver is done, and once it is the money commands are exactly one settle and one refund under the grant's nonce, in that order, adding up to the deposit and within the money cap |
| `ChargerLaws.TickExplainsTheStop` | crates/tollgate-charger-host/src/driver.rs:222-238 | The stop noted on a tick names the money cap when the cost read has come up to it and the time cap otherwise |
| `ChargerLaws.SettledByTheDeadline` | crates/tollgate-charger-host/src/driver.rs:177-197 | A tick at or after the lease deadline, or after a stop, leaves the driver done for the rest of the run |
| `ChargerLaws.SettlementAmount` | crates/tollgate-charger-host/src/driver.rs:132-256 | The settlement is the least of deposit, money cap and whole seconds from ack to the meter's final reading times the price, where that reading is at the terminal, deadline or cap stop, or the last one before a revoke |
| `ChargerLaws.OvershootIsOneGap` | crates/tollgate-charger-host/src/driver.rs:141-148 | A tick reading a running meter exceeds any seconds cap, zero included, by at most the gap since the previous reading in whole seconds |
| `CrashLaws.ResumeSlips` | crates/tollgate-charger-host/src/driver.rs:105-115 | A restart from a reading taken at or after its baseline keeps the reading and moves the baseline forward by exactly the milliseconds that the reading is past a whole second |
| `CrashLaws.ResumeCountsAlikeIff` | crates/tollgate-charger-host/src/driver.rs:105-148 | A restart changes no later reading if and only if the journal was read a whole number of seconds after the ack, or the clock ends before the next whole second |
| `CrashLaws.RestartLosesASecond` | crates/tollgate-charger-host/src/driver.rs:105-165 | Otherwise a device that ends on the next whole second is billed for that second by the driver that carried on, and not by the restarted one |
| `CrashLaws.CrashesLoseAtMostASecondEach` | crates/tollgate-charger-host/src/driver.rs:105-148 | From any opened run whose journal has reached the ack, through any operations and k restarts, each from any journal since the ack, before or after settlement, the seconds at every later time never exceed those counted from the ack, fall short by at most the seconds that 999 k milliseconds can make, and never drop below the journal |
| `CrashLaws.SettlementsAcrossRestarts` | crates/tollgate-charger-host/src/driver.rs:105-115 | Over any life, settlements plus the delivery still open equal restarts of a settled driver plus the delivery open at first, and every settlement comes with one refund |
| `CrashLaws.SettlesOnceAcrossRestartsIff` | crates/tollgate-charger-host/src/driver.rs:105-203 | Nothing that follows makes a life settle twice if and only if no crash so far hit a settled driver |
| `CrashLaws.RestartSettlesOnceIff` | crates/tollgate-charger-host/src/driver.rs:105-115 | Whatever journal it is rebuilt from, the crashed and the restarted driver together settle at most once, whatever follows, if and only if the crashed one had not settled |
| `CrashLaws.RestartKeepsTheTickIff` | crates/tollgate-charger-host/src/driver.rs:113-195 | Before the lease deadline the restarted driver settles on the same tick as the crashed one would have, if and only if no stop was waiting |
| `CrashLaws.ForgottenStopBillsOn` | crates/tollgate-charger-host/src/driver.rs:113-195 | A restart forgets a waiting stop: instead of the reading frozen by the stop, a tick past the deadline bills the time since the ack, less at most one second |
| `RestartLaws.RestartsBarelyMoveTheBill` | crates/tollgate-charger-host/src/driver.rs:105-203 | Against the run of the same operations without crashes, a settled life whose k crashes hit neither a settled driver nor a waiting stop, with readings no older than gap and journals at most lag behind, is billed at most the seconds in 999 k + lag milliseconds less, rounded up, and at most the whole seconds short of gap + lag more |
| `RestartBounds.LossIsAttained` | crates/tollgate-charger-host/src/driver.rs:105-203 | For every number of crashes that fits the clock some life with up-to-date journals is billed less by exactly that bound |
| `RestartBounds.OvershootIsAttained` | crates/tollgate-charger-host/src/driver.rs:105-203 | For every silence of a second or more some life with one crash and an up-to-date journal is billed more by exactly that bound |
| `CrashLaws.ResumeNeverCountsAheadIff` | crates/tollgate-charger-host/src/driver.rs:105-115 | A rebuilt driver never counts ahead of the crashed one if and only if that one was acked no later than its journalled reading, or the clock ends within a second of it |
| `ClosedLoop.WindowFitsLease` | crates/tollgate-charger-host/src/driver.rs:80-99 | With the lease not past, the published window ends no later than the deadline and less than two seconds before it |
| `ClosedLoop.LateWindowIsEmpty` | crates/tollgate-charger-host/src/driver.rs:259-261 | With the lease past, the published window is already over |
| `ClosedLoop.AtRestByTheDeadline` | crates/tollgate-charger-host/src/sim.rs:23-48 | In every run of driver and device, with acks at any time, a cycle at or after the window end leaves the device idle and the driver settled for good |
| `ClosedLoop.RunCycle` | crates/tollgate-charger-host/src/sim.rs:40-48 | One host cycle on the live objects, pump, report, tick and stop, is one round of the closed loop |
| `ChargerDriver.MockCharger.Start` | crates/tollgate-charger-host/src/sim.rs:23-30 | A running device refuses a second start; an idle one acknowledges and runs to the given end |
| `ChargerDriver.MockCharger.Stop` | crates/tollgate-charger-host/src/sim.rs:34-36 | The window is dropped without reply |
| `ChargerDriver.MockCharger.Pump` | crates/tollgate-charger-host/src/sim.rs:40-48 | The window is reported and cleared exactly when its end has been reached |
| `ExternalDriver.Driver.Open` | crates/tollgate-charger-host/src/external.rs:71-108 | A refused start opens nothing; otherwise the quote is the deposit of a grant capped in seconds alone, whose lease ends lease_ms after now |
| `ExternalDriver.Driver.Resume` | crates/tollgate-charger-host/src/external.rs:116-123 | The driver is rebuilt from the journal and the noted provider session |
| `ExternalDriver.Driver.OnTick` | crates/tollgate-charger-host/src/external.rs:130-149 | Nothing when done; otherwise the poll becomes progress and then the timer is dispatched |
| `ExternalDriver.Driver.Stop` | crates/tollgate-charger-host/src/external.rs:152-177 | Nothing when done; otherwise the receipt, or the journal when there is no session, is dispatched as the terminal |
| `ExternalDriver.Translate` | crates/tollgate-charger-host/src/external.rs:179-200 | Only money actions reach the host, in order |
| `ExternalDriver.SettlesExactlyOnce` | crates/tollgate-charger-host/src/external.rs:130-177 | In every run the driver is done exactly when stopped or polled at the lease deadline, having then issued one settlement of the whole deposit and otherwise none |
| `ExternalDriver.ReceiptIsTheTruth` | crates/tollgate-charger-host/src/external.rs:152-177 | A stop with a live session burns what the receipt says up to the deposit and refunds the rest |
| `ExternalLaws.RestartSettlesOnceIff` | crates/tollgate-charger-host/src/external.rs:116-177 | Whatever journal it is rebuilt from, the first and the restarted driver together settle at most once, whatever follows, if and only if the first had not settled |
| `ExternalLaws.UnnoticedIff` | crates/tollgate-charger-host/src/external.rs:116-177 | The driver rebuilt from any journal orders the same money moves as the one that carried on, for every sequence of calls and answers, if and only if that one was open and the journal is as good as the totals its engine holds |
| `ExternalLaws.EnginesAgreeIff` | crates/tollgate-charger-host/src/external.rs:116-123 | The engines alone, stops and alarms included, answer every future event alike if and only if they hold the same totals |
| `ExternalLaws.UnnoticedAfterPollIff` | crates/tollgate-charger-host/src/external.rs:130-149 | After a poll before the deadline a restart goes unnoticed if and only if the engine accepted the answer or it settles like what the engine holds |
| `ExternalLaws.UnnoticedOverRunsIff` | crates/tollgate-charger-host/src/external.rs:71-177 | After any calls to an opened driver a restart from its journal goes unnoticed if and only if it was neither stopped nor polled at the deadline and the last answer is as good as the totals accepted |
| `Product.SortByUrl` | crates/tollgate-protocol/src/product.rs:56-57 | The result is a permutation of the prices in URL byte order |
| `Product.ProductIdPreimage` | crates/tollgate-protocol/src/product.rs:55-75 | The bytes fed to the hasher are the documented layout of some URL ordering of the prices |
| `Product.OptionIdPreimage` | crates/tollgate-protocol/src/product.rs:96-103 | The bytes fed to the hasher are tag, prefixed URL and prefixed unit |
| `ProductReader.ProductReads` | crates/tollgate-protocol/src/product.rs:40-75 | A reader of the documented layout, most significant byte first and two's complement, recovers scale, ordered prices and extensions from the bytes hashed |
| `ProductReader.OptionReads` | crates/tollgate-protocol/src/product.rs:86-103 | A reader of the documented layout recovers URL and unit from the bytes hashed |
| `ProductReader.BigEndianDigit` | crates/tollgate-protocol/src/product.rs:61-73 | Each byte of an integer is its positional digit to base 256, the first the most significant |
| `ProductReader.OrderedByFirstDifference` | crates/tollgate-protocol/src/product.rs:57-57 | One URL sorts before another exactly when it is a beginning of it or smaller in the first byte in which they differ |
| `ProductLaws.OrderIndependent` | crates/tollgate-protocol/src/product.rs:36-57 | When no URL carries two different prices, any two declarations of the same prices feed the hasher the same bytes |
| `ProductLaws.CanonicalIff` | crates/tollgate-protocol/src/product.rs:36-57 | With lengths below 2^32 the bytes are determined by the declared prices if and only if no URL carries two different prices |
| `ProductLaws.Injective` | crates/tollgate-protocol/src/product.rs:60-74 | With lengths below 2^32, equal bytes mean equal scale, equal ordered prices and equal extensions |
| `ProductLaws.OptionInjective` | crates/tollgate-protocol/src/product.rs:96-103 | With lengths below 2^32, option bytes are equal if and only if URL and unit are |
| `ProductLaws.DomainsDisjoint` | crates/tollgate-protocol/src/product.rs:60-103 | No product preimage equals an option preimage |
| `Codec.Buffer.EncodeFrame` | crates/tollgate-protocol/src/codec.rs:40-47 | A body of at most 65535 bytes is appended as one frame; a longer one is refused and nothing is written |
| `Codec.Frame` | crates/tollgate-protocol/src/codec.rs:50-54 | A fresh buffer holds exactly the one frame, or the body is refused as too long |
| `Codec.FrameLayout` | crates/tollgate-protocol/src/codec.rs:40-47 | A frame is the low byte of the body's length, its high byte, and the body |
| `Codec.DecodeFrames` | crates/tollgate-protocol/src/codec.rs:58-74 | The loop returns the frames of the buffer, or the truncation error of its first incomplete frame |
| `Codec.DecodeEncode` | crates/tollgate-protocol/src/codec.rs:40-74 | Decoding the encoding of any list of encodable bodies returns that list |
| `Codec.EncodeDecode` | crates/tollgate-protocol/src/codec.rs:40-74 | Re-encoding what any buffer decodes to returns that buffer |
| `Codec.TruncationIsLongestRun` | crates/tollgate-protocol/src/codec.rs:61-69 | A truncation error names the end of the longest prefix that decodes, inside the buffer |
| `Quotes.QuoteStore.Insert` | crates/tollgate-net/src/v1_compat/ln_quotes.rs:158-164 | The record is stored under its own id |
| `Quotes.QuoteStore.Get` | crates/tollgate-net/src/v1_compat/ln_quotes.rs:166-175 | The record stored under the id, or none |
| `Quotes.QuoteStore.GetForMac` | crates/tollgate-net/src/v1_compat/ln_quotes.rs:177-191 | The record only if the address matches |
| `Quotes.QuoteStore.Update` | crates/tollgate-net/src/v1_compat/ln_quotes.rs:193-204 | The record is replaced or put back |
| `Quotes.QuoteStore.Remove` | crates/tollgate-net/src/v1_compat/ln_quotes.rs:206-213 | Exactly that record is gone |
| `Quotes.QuoteStore.ListStale` | crates/tollgate-net/src/v1_compat/ln_quotes.rs:215-251 | Exactly the stale records are listed |
| `Quotes.QuoteStore.ListPaidUnprocessed` | crates/tollgate-net/src/v1_compat/ln_quotes.rs:253-270 | Exactly the paid or issued records that are neither claimed nor granted are listed |
| `Quotes.WakeMonitor` | crates/tollgate-net/src/v1_compat/ln_quotes.rs:321-350 | Looking a quote up in the live store leads a waking monitor where the interleaving model says |
| `Quotes.StoreCopy` | crates/tollgate-net/src/v1_compat/ln_quotes.rs:364-398 | Writing a monitor's copy to the live store is the model's store step |
| `Quotes.SweepStale` | crates/tollgate-net/src/v1_compat/ln_quotes.rs:424-436 | The janitor's list from the live store is one the model allows: exactly the stale quotes, in some order |
| `Quotes.RemoveDoomed` | crates/tollgate-net/src/v1_compat/ln_quotes.rs:438-440 | Removing the next listed quote from the live store is the model's removal step |
| `MonitorLaws.StaleTimes` | crates/tollgate-net/src/v1_compat/ln_quotes.rs:224-246 | A quote is stale 1800 seconds after it was made unless claimed or granted, 600 after it was completed, 300 after it expired |
| `MonitorLaws.AwaitsProcessing` | crates/tollgate-net/src/v1_compat/ln_quotes.rs:253-270 | A quote awaits processing when last seen paid or issued and neither claimed nor granted |
| `MonitorLaws.WakingUp` | crates/tollgate-net/src/v1_compat/ln_quotes.rs:322-350 | A monitor exits when its time is up or the quote is gone or granted, leaves a claimed quote alone, and otherwise polls |
| `MonitorLaws.UnpaidRound` | crates/tollgate-net/src/v1_compat/ln_quotes.rs:352-370 | An undisturbed round finding the quote unpaid notes that; one that cannot ask notes nothing |
| `MonitorLaws.ClaimRound` | crates/tollgate-net/src/v1_compat/ln_quotes.rs:360-376 | A settled quote is claimed on record before anything else; only a paid one is then minted |
| `MonitorLaws.PaidRound` | crates/tollgate-net/src/v1_compat/ln_quotes.rs:352-401 | An undisturbed round of a paid quote ends with the record granted, issued, completed at the poll's time with the allotment, one grant made and the monitor gone |
| `MonitorLaws.IssuedRound` | crates/tollgate-net/src/v1_compat/ln_quotes.rs:352-401 | So does that of a quote already issued, without minting |
| `MonitorLaws.MintFailedRound` | crates/tollgate-net/src/v1_compat/ln_quotes.rs:375-382 | When minting fails the claim is taken back and the mint's word stays noted |
| `MonitorLaws.GrantFailedRound` | crates/tollgate-net/src/v1_compat/ln_quotes.rs:384-392 | When granting fails the claim is taken back and the mint's word stays noted |
| `QuoteLaws.InvariantHolds` | crates/tollgate-net/src/v1_compat/ln_quotes.rs:309-457 | Every interleaving of openings, monitor steps and janitor steps keeps store, private copies and grants consistent |
| `QuoteLaws.NoOrphanedClaim` | crates/tollgate-net/src/v1_compat/ln_quotes.rs:372-398 | A claimed, ungranted record exists only while its own monitor is between claim and release |
| `QuoteLaws.GrantedOnceAndPaid` | crates/tollgate-net/src/v1_compat/ln_quotes.rs:375-401 | Access is granted at most once per quote and only after the mint settled it; a granted record carries Issued, a completion time and that allotment |
| `QuoteLaws.EventuallyStaleIff` | crates/tollgate-net/src/v1_compat/ln_quotes.rs:224-246 | A record is listed as stale from some time on unless it has no expiry and is claimed but ungranted, or granted without a completion time |
| `QuoteLaws.NothingIsStuck` | crates/tollgate-net/src/v1_compat/ln_quotes.rs:215-251 | Whenever its monitor holds no claim, a stored record is one the janitor will eventually list |
| `QuoteLaws.ClaimRunsOut` | crates/tollgate-net/src/v1_compat/ln_quotes.rs:372-401 | A claim ends after at most three of its monitor's own steps, whatever their outcomes, and no other task touches it |
| `Calendar.DaysToYearAndDay` | crates/tollgate-net/src/v1_compat/recovery.rs:128-138 | The loop ends with the one year and day of year that the day count falls in |
| `Calendar.DayOfYearToMonthDay` | crates/tollgate-net/src/v1_compat/recovery.rs:145-160 | The month and day that the day of year falls in, within the length of that month; the fallback after the loop is unreachable |
| `Calendar.UnixToCalendar` | crates/tollgate-net/src/v1_compat/recovery.rs:114-125 | Every timestamp becomes a valid calendar time, with no day beyond its month, that maps back to it |
| `Calendar.MonthsInClosedForm` | crates/tollgate-net/src/v1_compat/recovery.rs:145-150 | The days before each month are those of a closed form that needs no table |
| `Calendar.ToUnixInClosedForm` | crates/tollgate-net/src/v1_compat/recovery.rs:114-160 | The components amount to the timestamp by a closed form with neither table nor loop, and are within the bounds of the calendar |
| `Calendar.YearLength` | crates/tollgate-net/src/v1_compat/recovery.rs:140-142 | The leap rule gives each year the length by which closed-form day counts of consecutive years differ |
| `Calendar.OrderAgrees` | crates/tollgate-net/src/v1_compat/recovery.rs:114-125 | Later timestamps are exactly those with lexicographically later components, and components determine the timestamp |

## Left out

- HTTP server, control socket, web pages, configuration, TLS wrapper and scripts: input, output and presentation.
- Firewall, routing, WiFi and shell calls: the model stops at the last access decision per peer and does not
  follow the mapping from peers to IP addresses.
- CBOR encoding, SHA-256, secp256k1, Nostr and the Cashu libraries: messages are datatypes and digests are not modelled.
- Mint calls: a verification is an event with an amount and an outcome.
- Floating point: dynamic price multipliers, displayed drift fractions and renewal ratios; billing uses the integer comparison.
- Price bounds clamping, access-level tables, interval ranges, mint health and trust policy: finite or one-branch facts.
- Status snapshots of sessions and upstreams: read-only views.
- LedgerAgreement.LedgersAgree: speaks of a buyer without its own uplink meter and of one peer at the seller; other peers
  cannot matter by SessionLaws.NonInterference.
- MeteringLaws.SamplingScheduleIndependence: a top-up by message ends the metering session it arrives in, so the law is per session.
- Quotes.QuoteStore.ListStale: timestamps are unbounded integers, so the overflow of extreme 64-bit times is not modelled.
- ExternalDriver.Driver.Open: the order of the provider's quote and start calls is not modelled, only their answers.
- Product.SortByUrl: sorts by insertion where the original calls its library's unstable sort; the laws hold for every such order.
- Panics and cancellation inside monitor tasks, and scheduling finer than the interleavings named above.

# Verified model of the charging core

This project models, in Dafny, the parts of the charge-point server where a value or a guarantee has to
survive a whole run: charging sessions and their bills under OCPP 1.6 and 2.0.1, the event bus, the rate
limiter, the queue of remote starts, certificates and their OCSP status, tokens and their audit log, and the
settings cache. `dafny verify dfyconfig.toml` checks everything.

## How it is organised

Each stateful component has two sides.

* A **state machine**. Its state holds the rows of the tables involved and what is in flight; a step is one
  SQL statement, one database transaction or one Redis command, and steps of different requests interleave
  freely. A step its guard forbids leaves the state alone. `Exec` is the state after a list of steps, and the
  main results are lemmas about `Exec` for every list of steps.
* A **class** with the fields the program updates and methods that follow the program's branches and loops.
  Every method is proved to leave the state its steps lead to, so that the run lemmas speak about that code; what
  that state is, column by column, is said in literals, in the methods' own contracts or in `MessageEffects`.

| file | component |
|---|---|
| `ChargingState`, `ChargingInvariants`, `ChargingSteps`, `ReceivedReadings`, `BillingTheorems`, `RunningReceipts`, `CacheInvisible`, `ChargingHandlers`, `MessageEffects` | sessions, public sessions, CDRs, both protocols, stale-session closer |
| `Meter16`, `Meter201`, `SampledValues`, `CdrCost`, `Pricing`, `Rounding` | arithmetic and parsers |
| `EventBus`, `EventBusTheorems`, `EventBusClient` | Redis stream, consumer groups, `consume` |
| `RateLimit` | rate limiter |
| `PendingStarts`, `PublicSessions` | payment webhook, queued remote starts, creation and cancelling of public sessions |
| `Certificates`, `CertificateTheorems` | issuing, revoking, OCSP |
| `Tokens`, `TokenAudit` | token lifecycle and audit log |
| `Settings`, `SettingsCache` | merge, masking, cache |

Money is in whole cents, published rates in ten-thousandths of a euro, energies are exact reals. `Hundredths`
is the rounding of a `NUMERIC(10,2)` column. Rows are identified by their position in the table.

Some fields are **history** and exist in no table: `Session.wins` (how many guarded closes returned the row) and
`Session.samples` (the readings it was sent while it was charging), `State.lost` (CDRs of handlers that raised),
`Group.start`, `Group.acked` and `Group.owner`, `Consumer.yielded` and `Consumer.failures`,
`PendingStarts.State.log`, `Row.neverLeft`, `Certificates.State.issued`, `SettingsCache` entries' `readAt`, its
`history` and `answers`.

## Assumptions

* Messages of one charger do not overlap and it has one live connection. Rows are not deleted.
* Clocks do not go back. Reads see the latest committed write (no replica lag).
* A statement or a `db.transaction()` block is one step, except where a module says that a read and the write
  that relies on it are two (webhook, certificate requests, session creation, settings loads, token requests).
* Serial numbers of new certificates are unused. Redis trims a stream with approximate MAXLEN never below it.

## Where code and documentation disagree

The model follows the code.

* `docs/events.md` promises that an unacknowledged event is redelivered on restart, and a comment in `bus.py`
  that it is retried through XPENDING. The loop only ever reads `>`: such an event stays pending and is never
  yielded again (`PendingIsNeverYieldedAgain`, `CrashedEventIsNotRedelivered`).
* `lago_billing.py` says a failed event is not acknowledged. Its handler returns normally, so the loop
  acknowledges the event when it asks for the next one, whatever the handler did (`ComingBackAcknowledgesIff`).
* `docs/ocpp16.md` gives a session's energy as `(meterStop - meterStart) / 1000`; the code never goes below 0 and
  bills 0 when meterStart is not positive (`DocumentedDeltaIff`).
* A cancelled public session can still be linked by a later Start; its receipt is then not settled at the stop
  (`StopSettlesIff`, `CancelledSessionsDisagree`).
* The schema speaks of a CDR per completed session. A session the stale-session closer takes while it is active
  gets none, then or later (`ClosedUnwonStaysUnbilled`, `SilentSessionIsNeverBilled`); one it takes over after a
  stop keeps its CDR (`CloserLeavesUnbilledIff`). In the tables of 1.6 the two differ by their meterStop
  (`ClosedSessionIsBilledIff`). Nothing in the repository starts `run_stale_session_checker`.
* `get_tax_rate` describes `btw_rate` as the fallback; its ORDER BY makes a `btw_rate` row win
  (`TaxRateIsDocumentedIff`, `OldTaxRowWins`).
* `_process_pending_starts` says the payment is cancelled when retries run out; giving up writes nothing but the
  row, and that only for a session that has not started (`GivingUpMarksUnstarted`).
* `put_setting` is described as taking effect immediately; a load that read the row before the put can bring the
  old value back for up to 60 seconds (`LateLoadHidesPutIff`, `OvertakenLoadBringsOldValueBack`).
* The rate limiter's limits are described per path prefix; all paths below one first segment share one list
  (`SameKeyIff`, `SameSegmentSharesKey`), so that traffic to one prefix has requests to another rejected
  (`OtherPathsTrafficRejectsIff`, `ManagementTrafficRejectsPublicRequest`).
* Token endpoints run on an autocommit connection, so the audit log can contradict the stored status: when two
  requests on one token overlap (`AuditTellsStatusIff`, `OverlapTellsStatusIff`), and when one request dies
  between its UPDATE and its log entry (`DeadRequestTellsIff`, `DeadBlockContradictsTheLog`); a creation or
  replacement that dies leaves a token the log does not know (`DeadCreationIsUntold`, `DeadReplacementTellsIff`).
* `cancel_session` replies that the session was cancelled even when it started between the SELECT and the guarded
  UPDATE (`CancelledReplyIsTrueIff`).
* `verify_client_cert` and OCSP can disagree in two ways (`VerifiersAgreeIff`): it does not see the CA's own
  revocation (`CaRevocationIsNotSeen`), and a revoke request overtaken by a request to issue marks the user revoked
  but not the new certificate (`RevokeKeepsMarksIff`, `OvertakenRevokeMarksWrong`), which the next issue then leaves
  good until its end (`OvertakenRevokeLeavesGood`).
* Two tables show one quantity: while a session charges, its receipt has the last sample and the session the largest,
  and a session the closer takes keeps the difference (`RunningReceiptAgreesIff`, `FallingRegisterDisagrees`, `CloserFreezesReceipt`).

## Model

| member | source | states |
|---|---|---|
| BillingTheorems.AgreementFrozenAtStop | ocpp16/session.py:127-177 | when a stop settles a linked, not yet stopped public session, sessions, CDR, receipt and events state one energy, and no continuation of the run changes it |
| BillingTheorems.StopSettlesIff | ocpp16/session.py:151-157 | a StopTransaction leaves the receipt with the billed energy for every meterStop exactly when it was not stopped before, or nothing was and can be metered |
| BillingTheorems.CancelledSessionsDisagree | api/public_sessions.py:191-197 | the excluded case is reachable: two kWh billed, none on the receipt |
| BillingTheorems.OneBillPerSession | ocpp16/session.py:137-163 | under every interleaving of both protocols' stops and the closer, CDRs inserted, in flight or lost equal the won closes of the session, at most one; a session handlers completed has its bill, and a 1.6 session has it exactly when it has a meterStop |
| BillingTheorems.ClosedUnwonStaysUnbilled | tasks/stale_sessions.py:57-63 | a session that left active without a stop handler stays inactive and has no CDR in any continuation |
| BillingTheorems.CloserLeavesUnbilledIff | tasks/stale_sessions.py:57-63 | the closer's update leaves its session without a bill for good exactly when it found it active, rather than completed; a 1.6 session of any status, exactly when it has no meterStop |
| BillingTheorems.ClosedSessionIsBilledIff | db/schema.sql:112-112 | in the tables of a run without raising handlers, a 1.6 session with no CDR on its way has one CDR if it has a meterStop and none otherwise |
| BillingTheorems.SilentSessionIsNeverBilled | tasks/stale_sessions.py:57-63 | a charger that goes silent: its session is closed and has no CDR, whatever follows |
| BillingTheorems.CdrsMatchTheirSessions | ocpp16/session.py:342-360 | in every run a CDR states its closed session's stored energy, and its stop time unless the closer took the session since, 1.6 with its price and 2.0.1 without, and no session has two |
| BillingTheorems.CloserMovesStopTimeIff | tasks/stale_sessions.py:57-63 | the closer's update of a session with a CDR keeps their stop times equal exactly when it writes the same one |
| BillingTheorems.NothingLost | ocpp16/session.py:148-163 | without a raising handler no CDR is lost |
| BillingTheorems.SessionsOverRun | ocpp201/transaction.py:158-170 | rows stay, ids stay, a session that left active never returns, a won session's energy and peak are final, and so is its stop time until the closer takes it |
| BillingTheorems.PublicsOverRun | ocpp16/session.py:82-99 | links are never rewritten, and a stopped linked public session keeps its stop time, late cancels included |
| BillingTheorems.IdsAndLinks | ocpp16/session.py:36-48 | over every run ids are at least 1 and strictly increase, linked iff started, and the link is injective both ways |
| BillingTheorems.TagNamesItsSession | ocpp16/session.py:82-83 | the tag of a remote start names the public session it was sent for |
| BillingTheorems.AppPrefixIff | ocpp16/session.py:82-83 | a tag names a public session iff it starts with APP_, by the rest in lower case |
| BillingTheorems.CaseLaws | ocpp16/session.py:82-83 | lower case forgets upper case and the other way round, and only letters change |
| ReceivedReadings.EnergyIsTheMaximum | ocpp16/meter.py:187-197 | in every run an unwon session's energy is the largest of the samples its charger sent while it was active, as energy since meterStart, and its peak the largest power; 0 if there is none |
| ReceivedReadings.EnergyIsTheMaximum201 | ocpp201/meter.py:47-55 | in every run a 2.0.1 session's energy is the largest its charger reported for it, and its peak the largest power reported with an energy; 0 if there is none |
| ReceivedReadings.OneReadingRaises | ocpp201/meter.py:47-55 | one meter value raises energy and peak to what it says if that is more; without an energy, or with 0, the row stays |
| BillingTheorems.OrderAndRepetitionDoNotMatter | ocpp16/meter.py:187-197 | reordering or repeating MeterValues changes neither |
| BillingTheorems.FinalNotBelowRunningIff | ocpp16/session.py:136-144 | the final energy is not below the running one exactly when meterStart is not positive or every sample's register is at most that of meterStop or of meterStart |
| BillingTheorems.StopDoesNotLowerEnergyIff | ocpp16/session.py:136-150 | in every run a StopTransaction does not lower its session's stored energy exactly under that condition |
| BillingTheorems.ReceiptOverRun | ocpp16/meter.py:199-205 | a settled receipt keeps its energy in every continuation, late MeterValues included |
| RunningReceipts.RunningReceiptAgreesIff | ocpp16/meter.py:187-205 | in every run whose MeterValues entries complete, the receipt of a charging session shows the last positive sample, the session the largest; they are equal in hundredths of a kWh exactly when no sample was above the last |
| RunningReceipts.FallingRegisterDisagrees | ocpp16/meter.py:187-205 | registers of 5 and then 2 kWh: 1 kWh on the receipt, 4 on the session |
| RunningReceipts.StrandedReceiptIsFrozen | tasks/stale_sessions.py:57-63 | once a session left active without a stop handler, and no MeterValues entry of it is under way, session and receipt keep their energies in every continuation |
| RunningReceipts.CloserFreezesReceipt | tasks/stale_sessions.py:57-63 | so receipt and session that the closer finds unequal stay unequal, exactly when a sample was above the last |
| BillingTheorems.LateMeterValuesAreHarmless | ocpp16/meter.py:141-205 | MeterValues of an inactive transaction change nothing but the event stream |
| BillingTheorems.StopMessageEffect | ocpp16/session.py:127-177 | the whole state a StopTransaction leaves when nothing interleaves |
| MessageEffects.StartMeans | ocpp16/session.py:35-105 | a Start inserts an active row with the next id and its meterStart, publishes, and links the newest free public session of its tag |
| MessageEffects.MeteredRowMeans | ocpp16/meter.py:138-222 | a MeterValues entry raises its row to the energy since meterStart and the power, writes a positive energy to the public sessions of the transaction in hundredths, and publishes it |
| MessageEffects.UnknownMeterMeans | ocpp16/meter.py:138-222 | without an active row it only publishes |
| MessageEffects.StopMeans | ocpp16/session.py:127-177 | a Stop closes its row at the energy since meterStart, stops the unstopped public sessions of the transaction now, bills and announces that energy, and leaves every other row alone |
| MessageEffects.UnknownStopMeans | ocpp16/session.py:127-135 | without an active row it changes nothing |
| MessageEffects.Started201Means | ocpp201/transaction.py:67-110 | a 2.0.1 start inserts an active row and remembers it |
| MessageEffects.ResolveMeans | ocpp201/transaction.py:117-152 | a report finds the remembered row, else an active one of charger and transaction; an Updated remembers it, an Ended forgets the transaction |
| MessageEffects.ReportMeans | ocpp201/transaction.py:112-185 | its row takes the maxima of all its readings, no other row changes, and each reading is published |
| MessageEffects.FinishedMeans | ocpp201/handler.py:295-326 | then an Ended closes an active row at that energy with an unpriced CDR and two events, and nothing else does |
| MessageEffects.SampleIsSaid | ocpp16/meter.py:121-124 | register and power of an entry are what the parser read, 0 where it read none |
| MessageEffects.ReadingIsSaid | ocpp201/meter.py:33-48 | energy and power of a 2.0.1 value are its last energy and its last power sample |
| MessageEffects.ClosedRowMeans | tasks/stale_sessions.py:57-63 | the closer marks exactly an active stale row, with its reason and the time |
| MessageEffects.FetchMeans | tasks/stale_sessions.py:31-42 | a query of the closer takes active rows only |
| MessageEffects.CloserMeans | tasks/stale_sessions.py:57-63 | one update of the closer, row and nothing else |
| MessageEffects.ApiMeans | api/public_sessions.py:138-148 | a new public session is pending and unlinked; a cancel and a failed start write only an unstarted one |
| ChargingSteps.RunKeeps | ocpp16/session.py:127-163 | every step of every run keeps the invariant that ties sessions, tasks, maps, links, bills and events together |
| ChargingSteps.Started201Keeps | ocpp201/transaction.py:67-107 | a 2.0.1 start keeps it |
| ChargingSteps.Resolve201Keeps | ocpp201/transaction.py:117-152 | the map and database look-up keeps it |
| ChargingSteps.CloserCloseKeeps | tasks/stale_sessions.py:57-63 | the closer's unguarded update keeps it, also over a session that was just stopped |
| CacheInvisible.CacheIsInvisible | ocpp201/transaction.py:117-152 | with the map of active transactions, every run in which no charger starts a transaction id twice and the closer takes no session gives the sessions, CDRs, events and in-flight messages of database-only look-up |
| CacheInvisible.ReconnectIsInvisible | ocpp201/handler.py:43-50 | under the same two conditions a fresh handler at any points of a run changes nothing |
| CacheInvisible.MapAnswersIff | ocpp201/transaction.py:119-128 | the map gives the database's answer exactly while its session is active |
| CacheInvisible.CloserMakesTheMapVisible | tasks/stale_sessions.py:57-63 | once the closer takes a session, a kept map raises its energy and a fresh one does not |
| ChargingHandlers.Core.HandleStartTransaction | ocpp16/session.py:35-105 | does the steps of a Start and returns the greatest id plus one |
| ChargingHandlers.Core.NewestLinkable | ocpp16/session.py:91-98 | the most recently created public session that may be linked, if there is one |
| ChargingHandlers.Core.HandleMeterValues | ocpp16/meter.py:108-222 | does the steps of every entry of a MeterValues message |
| ChargingHandlers.Core.HandleStopTransaction | ocpp16/session.py:108-177 | does the steps of a Stop, or nothing when no active session matches |
| ChargingHandlers.Core.GenerateCdr | ocpp16/session.py:319-373 | one CDR and one event with the session's stored energy, each amount the nearest cent at 0.35 euro and 21 % VAT; nothing when the session is gone |
| ChargingHandlers.Core.TransactionStarted | ocpp201/transaction.py:67-110 | does the step of a 2.0.1 start |
| ChargingHandlers.Core.TransactionReport | ocpp201/transaction.py:112-185 | Updated and Ended parse their meter values and do the steps of their message, whatever row the look-up returns |
| ChargingHandlers.Core.Resolve | ocpp201/transaction.py:117-152 | answers from the map first, remembers or removes the entry |
| ChargingHandlers.Core.ProcessMeterValues | ocpp201/meter.py:29-83 | does one step per meter value |
| ChargingHandlers.Core.FinishReport | ocpp201/handler.py:295-326 | guarded close, CDR and events of an Ended message |
| ChargingHandlers.Core.CloseStaleSessions | tasks/stale_sessions.py:26-145 | both passes close exactly the stale active sessions whose connector is not charging, count them, and are closer steps |
| Meter16.EnergyConserved | ocpp16/meter.py:21-31 | over any sessions on one meter, billed plus idle plus unmetered energy is what the register moved |
| Meter16.BilledAtMostDelivered | ocpp16/meter.py:21-31 | billed is at most delivered, equal exactly when nothing was idle or unmetered |
| Meter16.BackToBackBillsAll | ocpp16/session.py:136-144 | back-to-back sessions from a positive reading bill the whole movement |
| Meter16.SplitPreservesEnergy | ocpp16/meter.py:29-31 | exactly when splitting a session at a reading preserves its energy |
| Meter16.DocumentedDeltaIff | docs/ocpp16.md:106-106 | exactly when the documented delta is what is billed |
| Meter16.ParseSampledValues | ocpp16/meter.py:34-105 | the loop's result is, slot by slot, the last sample written there, with the V x I fallback |
| SampledValues.KindTable | ocpp16/meter.py:43-78 | the measurand table: absent or with Energy.Active.Import an energy, else with Power.Active.Import a power, and so on |
| Meter16.ReadingsAreSaid | ocpp16/meter.py:42-105 | every reading is what the last sample of its measurand and phase says, Wh and W in thousandths; without a power sample it is the sum of V x I, to the watt, if positive |
| Meter201.ParseSampledValues | ocpp201/meter.py:85-125 | the same for 2.0.1, with multipliers |
| Meter201.ReadingsAreSaid | ocpp201/meter.py:91-125 | the same with multipliers and the first line as the default phase, and no V x I |
| Meter201.PowersOfTen | ocpp201/meter.py:101-101 | the multiplier is a power of ten, negative ones included |
| Meter201.ParsersAgree | ocpp201/meter.py:91-125 | on plain phases and multiplier 0 both parsers read the same; 1.6 adds the rounded V x I sum exactly when it is positive |
| Meter201.SameSlotIff | ocpp201/meter.py:113-118 | they file a voltage or current in the same slot exactly when its phase is absent or L1, L2, L3 |
| Meter201.SameValueIff | ocpp201/meter.py:96-101 | they read the same number exactly when there is nothing to scale |
| Meter201.OtherPhasesDisagree | ocpp201/meter.py:113-115 | without the phase condition the parsers differ on one sample |
| CdrCost.CalculateIff | ocpp16/session.py:298-316 | the cost object is exactly: energy cost and VAT the nearest cents, ties away from zero, VAT at 21 % of the rounded cost, their sum; the default rate is 0.35 |
| CdrCost.TenKilowattHours | ocpp16/session.py:298-316 | 10 kWh cost 3.50 and 0.74 VAT |
| CdrCost.TotalNearExact | ocpp16/session.py:298-316 | the twice rounded total is within 0.01105 euro of the exact price |
| CdrCost.TotalErrorIsAttained | ocpp16/session.py:298-316 | that bound is attained |
| CdrCost.TotalMonotone | ocpp16/session.py:298-316 | more energy never costs less |
| CdrCost.SplitBillsTheSame | ocpp16/session.py:298-316 | splitting an energy over n sessions moves the sum of totals by at most n + 1 errors |
| Pricing.TierRatesAgree | api/pricing.py:234-235 | rounding once and rounding twice publish rates at most one unit apart |
| Pricing.TierRatesMayDiffer | api/pricing.py:128-129 | the unit is needed |
| Pricing.RatesAreNearest | api/pricing.py:128-129 | the published numbers are nearest, even on a tie, tax on the rounded or on the exact price |
| Pricing.EmptyTableIsFree | api/pricing.py:87-100 | without rows there is no cost, and these four keys are meta |
| Pricing.MetaRowsAreFree | api/pricing.py:87-100 | meta rows add nothing to the cost basis wherever they stand |
| Pricing.TaxRateIsDocumentedIff | api/pricing.py:103-109 | the tax rate is the documented one exactly when one of the two rows is missing or both are equal |
| Pricing.OldTaxRowWins | api/pricing.py:103-109 | with both rows present the old one decides |
| Pricing.Service.GetSpotPrice | api/pricing.py:37-84 | the price is younger than 60 s, or than 10 s when it is the fallback, and an unexpired one is kept |
| Pricing.Service.GetTierRate | api/pricing.py:112-136 | the tier's twice rounded rate at the cached spot price, or nothing for an unknown tier |
| Pricing.Service.GetAllTierRates | api/pricing.py:139-168 | exactly the tiers, each with that rate |
| Pricing.Service.PricingConfig | api/pricing.py:203-241 | every tier's once rounded rate |
| EventBusTheorems.DeliveredIsAckedOrPending | events/bus.py:113-153 | over every run a delivered entry is in exactly one of acked and pending and was taken by exactly one consumer; what was skipped had been trimmed |
| EventBusTheorems.GroupOverRun | events/bus.py:74-87 | the group keeps the position its first creator fixed, cursor and acknowledgements only grow |
| EventBusTheorems.YieldsAreTheMatchesInOrder | events/bus.py:126-145 | a consumer's yields are its matching entries in stream order, and no entry is yielded to two consumers of a group |
| EventBusTheorems.ProcessedEntries | events/bus.py:126-153 | what a consumer is past: yielded iff it matches, acknowledged unless malformed or its XACK raised; the rest pending |
| EventBusTheorems.PendingIsNeverYieldedAgain | events/bus.py:115-123 | malformed entries, failed XACKs and abandoned tails stay pending in every continuation and are never yielded again |
| EventBusTheorems.ComingBackAcknowledgesIff | events/bus.py:143-146 | when the caller of a yielded event comes back, the event is acknowledged exactly when the XACK goes through, and pending otherwise |
| EventBusTheorems.CrashedEventIsNotRedelivered | docs/events.md:7-7 | an event whose consumer dies over it never reaches a later consumer of the group |
| EventBusTheorems.PublishIsSafeIff | events/bus.py:49-61 | no allowed trimming of a publish loses an entry of a group exactly when the group keeps up |
| EventBusTheorems.NoLossWhileKeepingUp | events/bus.py:49-61 | while a group keeps up, every entry is delivered to it or still in the stream, without gaps up to its cursor |
| EventBusTheorems.NewGroupIsLossless | events/bus.py:74-82 | a new group starts with everything still in the stream from its position |
| EventBus.RunKeeps | events/bus.py:89-160 | every run keeps the accounting of groups, consumers and places |
| EventBusClient.Bus.Publish | events/bus.py:49-61 | appends the entry; trimming leaves at least the maximum length |
| EventBusClient.Bus.EnsureGroup | events/bus.py:74-87 | creates the group at 0 or at the end, or leaves an existing one |
| EventBusClient.Bus.Handle | events/bus.py:126-143 | yields a decoded entry exactly when each of the three filters is absent or has it; what a filter drops is acknowledged |
| EventBusClient.Bus.Consume | events/bus.py:89-160 | the nested loops are a run of the model that takes the next unread entries without gap and collects what they yield |
| RateLimit.Limiter.Dispatch | api/ratelimit.py:41-63 | every request is decided as the complete history of accepted requests decides it, under X-Real-IP or else the peer; exempt exactly for three paths and three addresses |
| RateLimit.Limiter.GetLimit | api/ratelimit.py:28-32 | the limit of the first fitting prefix, else the default |
| RateLimit.Limiter.CleanWindow | api/ratelimit.py:34-39 | the pruned list counts what the complete history has in the last minute |
| RateLimit.PruneAgain | api/ratelimit.py:34-39 | pruning a pruned list is pruning the history |
| RateLimit.PruningForgetsIff | api/ratelimit.py:34-39 | a pruned list counts right at another time exactly when no accepted request lies between |
| RateLimit.NoWindowOverLargestLimit | api/ratelimit.py:51-63 | no window (T - 60, T] of a key holds more than the largest limit used with it |
| RateLimit.RetryAfterSuffices | api/ratelimit.py:54-59 | a minute after a rejection, whatever arrived since, the request passes exactly when fewer than its limit were accepted since then within the last minute; with nothing accepted meanwhile, iff its limit is positive |
| RateLimit.SameSegmentSharesKey | api/ratelimit.py:49-49 | paths below one first segment share a key, whatever their prefixes |
| RateLimit.AddressDecides | api/ratelimit.py:43-49 | a non-empty X-Real-IP decides key and exemption whatever the peer, and the peer otherwise |
| RateLimit.BucketIsSecondPart | api/ratelimit.py:49-49 | the bucket is the part between the first two slashes, or after the only inner one |
| RateLimit.PlainPathIsItsBucket | api/ratelimit.py:49-49 | a path without an inner slash is its own bucket |
| RateLimit.SameKeyIff | api/ratelimit.py:49-49 | two requests of one client share a key exactly when their paths share a bucket |
| RateLimit.OtherPathsTrafficRejectsIff | api/ratelimit.py:41-63 | traffic to another path, at any times of the last minute and within that path's own limit, has a request rejected exactly when the two share a bucket and it reaches the request's limit |
| RateLimit.ManagementTrafficRejectsPublicRequest | api/main.py:33-42 | 60 to 120 requests of the last minute to the management API, which may have 120, have the first public request of that client rejected |
| PendingStarts.AtMostThreeAttemptsOneSuccess | ocpp16/handler_helpers.py:53-100 | over every run an entry is tried at most three times, at most once successfully, and ends sent, given up after three failures, or expired |
| PendingStarts.GoneAfterFourPasses | ocpp16/handler_helpers.py:66-100 | 4 - r passes remove an entry with r failures, whatever the charger answers |
| PendingStarts.QueueFailsOnlyUnstarted | api/public.py:227-239 | the queue marks a row failed only when it gives up and the session has not started |
| PendingStarts.GivingUpMarksUnstarted | ocpp16/handler_helpers.py:70-83 | giving up removes the entry and writes remote_start_failed to the row of a session that has not started, and nothing else |
| PendingStarts.OtherWrites | api/public_sessions.py:191-197 | what creation, start, cancel, expiry and an unreadable entry change, and nothing more |
| PendingStarts.OneDirectSendPerPayment | api/public.py:148-181 | when webhooks of a session do not overlap, the attempts webhooks make to start it, sent or queued, equal the times it became paid |
| PendingStarts.AtMostOneStartPerPayment | ocpp16/handler_helpers.py:53-100 | then, cancels included, the charger takes at most one start, from a webhook or the queue, for every time the session became paid, and one fewer while one is queued |
| PendingStarts.WriteSendsIff | api/public.py:164-179 | one webhook decides right exactly when the paid-ness it has read is still that of the row |
| PendingStarts.OverlappingWebhooksSendTwice | api/public.py:148-179 | two overlapping webhooks send twice for one payment |
| PendingStarts.Starter.ProcessPendingStarts | ocpp16/handler_helpers.py:43-100 | a pass handles every key once, in order, or the keys before the first whose send raises |
| PendingStarts.Starter.PaymentWebhook | api/public.py:110-181 | writes the status; newly paid or authorized it starts the charger or queues the start; without session, status or row it does nothing |
| PublicSessions.ReuseGuardPreventsDuplicates | api/public_sessions.py:73-97 | when creations of a connector do not overlap, no two sessions within two minutes both stay waiting |
| PublicSessions.InsertMakesNoDuplicateIff | api/public_sessions.py:138-148 | an INSERT makes no duplicate exactly when no session inserted since the request's look-up is a young one of its connector that has been waiting all along |
| PublicSessions.OverlappingCreationsDuplicate | api/public_sessions.py:73-97 | two overlapping creations do |
| PublicSessions.SessionApi.CreateSession | api/public_sessions.py:55-150 | busy; the newest session under two minutes old that is paid or pending, unlinked and unstopped; or a new pending one and no other change |
| PublicSessions.SessionApi.CancelSession | api/public_sessions.py:176-200 | uninterrupted, cancels exactly a session that has not started, and replies so |
| PublicSessions.SessionApi.LookForCancel | api/public_sessions.py:178-189 | its SELECT decides the reply |
| PublicSessions.SessionApi.WriteCancel | api/public_sessions.py:191-197 | its UPDATE writes only a session that has still not started |
| PublicSessions.CancelledReplyIsTrueIff | api/public_sessions.py:176-200 | whatever lies between the two, a reply of cancelled is true exactly when the session has not started at the UPDATE |
| PublicSessions.CancelIsAnUpdate | api/public_sessions.py:191-197 | a cancel is one of the updates the run theorems allow |
| CertificateTheorems.RevokedIffListed | api/users.py:139-152 | over every run a certificate is marked revoked iff it is in the revocation table |
| CertificateTheorems.OcspNeverGoodAgain | pki/ocsp.py:60-76 | an answer of revoked or expired stays so, whatever happens and however time passes |
| CertificateTheorems.OcspRevokedIff | pki/ocsp.py:60-76 | revoked iff in the revocation table or past its end, unknown iff never issued |
| CertificateTheorems.UsersTableNeverDecides | pki/ocsp.py:44-58 | the look-up in the users table changes no answer in any run |
| CertificateTheorems.OnlyTheCurrentIsLive | api/users.py:75-83 | when requests of a user do not overlap, every serial issued to a user other than the current one is revoked, and a user marked revoked has a revoked certificate |
| CertificateTheorems.IssueRevokesOthersIff | api/users.py:80-111 | one issue leaves no other live certificate exactly when the current one is revoked or is the one it has read as active |
| CertificateTheorems.RevokeKeepsMarksIff | api/users.py:285-308 | one revoke leaves every mark true exactly when the certificate it has read is still the user's, or the one the user has by now is revoked already |
| CertificateTheorems.OvertakenRevokeMarksWrong | api/users.py:285-308 | a revoke request overtaken by a request to issue: the user is marked revoked, the new certificate is not, OCSP calls it good and verify_client_cert refuses it |
| CertificateTheorems.ReissueLeavesGood | api/users.py:80-111 | after such a mark an ordinary issue does not revoke the certificate, and only the CA or its end ever makes it not good |
| CertificateTheorems.OvertakenRevokeLeavesGood | api/users.py:262-308 | so it is after that race, in every continuation without a revocation by the CA |
| CertificateTheorems.ForgottenStaysGood | pki/ocsp.py:60-76 | a certificate that is not revoked, of no user and read by no request stays good until its end unless the CA revokes it |
| CertificateTheorems.OverlappingIssuesLeaveTwo | api/users.py:262-282 | two overlapping issues leave two certificates that OCSP calls good |
| CertificateTheorems.VerifiersAgreeIff | api/users.py:208-250 | in every reachable state verify_client_cert and OCSP agree on a current certificate exactly when it has expired, or the user is marked revoked just when it is in the revocation table |
| CertificateTheorems.CaRevocationIsNotSeen | pki/ca_ops.py:24-37 | after the CA revokes a user's live certificate OCSP says revoked and verify_client_cert still accepts it |
| CertificateTheorems.OtherCertificateIsGood | pki/ca_certs.py:84-95 | a charger or contract certificate is good from its issue to its end |
| CertificateTheorems.CertificateStore.CreateUser | api/users.py:157-176 | conflict, or a user with a first certificate for a year |
| CertificateTheorems.CertificateStore.CreateAdmin | api/admin_setup.py:201-217 | conflict, or a user without a certificate |
| CertificateTheorems.CertificateStore.VerifyClientCert | api/users.py:208-250 | accepts exactly a serial that is the current, active and unexpired one of a user |
| CertificateTheorems.CertificateStore.IssueCert | api/users.py:262-282 | not found, or a new certificate for a year, the active one before it revoked as superseded |
| CertificateTheorems.CertificateStore.RevokeCert | api/users.py:285-311 | not found, bad request, or the certificate in both tables and the user marked revoked |
| CertificateTheorems.CertificateStore.RevokeCertificate | pki/ca_ops.py:20-40 | revokes exactly an active certificate, with its reason |
| CertificateTheorems.CertificateStore.HandleRequest | pki/ocsp.py:35-76 | revoked with its time, expired with its end, good or unknown, from the certificate row or else the user row |
| TokenAudit.AuditTellsStatus | api/tokens.py:224-334 | when requests of a token take turns, none dies half way and no request on it is under way, its stored status is the replay of its log entries |
| TokenAudit.AuditTellsStatusIff | api/tokens.py:132-334 | for every interleaving, requests that die included, with none under way that has a status written and not logged: the stored status is the replay of the log exactly when the last request on the token to end logged a status its row still had, or died over one the log already told |
| TokenAudit.LogEntryTellsIff | api/tokens.py:58-62 | in every state and for every kind of request, a log entry tells the status exactly when the row still has the status its request wrote |
| TokenAudit.DeadRequestTellsIff | api/tokens.py:224-334 | after a status change that died before its log entry, the log tells the status exactly when it said the same before |
| TokenAudit.DeadCreationIsUntold | api/tokens.py:132-153 | a creation that dies before its log entry leaves a token the log says nothing of, until another request logs it |
| TokenAudit.DeadReplacementTellsIff | api/tokens.py:279-316 | for each point a replacement can die at: the new token is untold, the old one is told as before the update, afterwards exactly when the log already said blocked, and after its log entry for certain |
| TokenAudit.DeadBlockContradictsTheLog | api/tokens.py:242-258 | a block that dies before its log entry leaves status blocked and replay active |
| TokenAudit.EditsTellNothing | api/tokens.py:195-220 | an edit is logged and changes neither a status nor what the log tells of it |
| TokenAudit.OverlapTellsStatusIff | api/tokens.py:242-258 | two requests updated in one order and logged in the other keep that exactly when both give one status |
| Tokens.ReplacementsMatch | api/tokens.py:279-316 | over every interleaving a replacement names what it replaces, nothing replaces two tokens, and uids are unique |
| Tokens.ReplacementChains | api/tokens.py:299-308 | following replaced_by_id from any token goes from token to replacement and ends |
| TokenAudit.TokenStore.CreateToken | api/tokens.py:132-153 | appends the token and one log entry, or reports a uid conflict and changes nothing |
| TokenAudit.TokenStore.ChangeStatus | api/tokens.py:224-334 | activate, block, unblock and revoke write active, blocked, active and revoked, whatever the status before, and log it |
| TokenAudit.TokenStore.ReplaceToken | api/tokens.py:279-316 | appends an active token, blocks and links the old one, logs both |
| Settings.MergeUpdate | api/settings.py:86-104 | the loop's result is, field by field, the merge |
| Settings.MergeIsUnique | api/settings.py:86-104 | which leaves no choice |
| Settings.MergeOfMaskedIff | api/settings.py:86-104 | merging what the API showed changes nothing exactly when the template is covered |
| Settings.MergeTwice | api/settings.py:86-104 | repeating a PUT changes nothing |
| Settings.MergeTouchesOnlyTemplate | api/settings.py:86-104 | other fields are untouched, no stored field is dropped, a masked secret is kept |
| Settings.MaskRevealsIff | state/settings.py:76-81 | what two masked dictionaries still tell apart |
| Settings.MaskTable | state/settings.py:76-81 | exactly five fields are shown as ****, when their value is true for Python |
| Settings.DefaultsAreTheTemplates | api/settings.py:107-112 | a field that is not stored is shown with the value of the template, and no other is |
| Settings.PutOfGetChangesNothing | api/settings.py:144-154 | a PUT of what GET answered stores what GET read |
| SettingsCache.AnswersAreRecent | state/settings.py:29-53 | with any other writers, every answer was the row's value less than 60 s plus the longest load before |
| SettingsCache.LateLoadHidesPutIff | state/settings.py:84-98 | a load that fills the cache over a fresh entry, at any time, leaves readers that entry's value exactly when it had found no row or the same value |
| SettingsCache.OvertakenLoadBringsOldValueBack | state/settings.py:37-53 | a load overtaken by a put brings the old value back into the cache while the table holds the new one |
| SettingsCache.Cache.GetSetting | state/settings.py:29-34 | the entry while it is under 60 s old, or else the row, or the empty dictionary |
| SettingsCache.Cache.PutSetting | state/settings.py:37-53 | writes the row and the entry and nothing else |
| SettingsCache.Cache.GetAllSettings | state/settings.py:56-68 | the whole table, refreshing every entry and no other |

## Left out

- Redis hashes for live display, the `meter_values` table, `duration_min`, connector and authorisation columns: nothing billed depends on them.
- Standalone 2.0.1 MeterValues: they carry no session and only publish.
- Visibility of the closer's updates only at its commit: each update is its own step.
- StartInsert: the event of a Start is published together with its INSERT; a handler that raises in between is modelled as raising after both.
- Overlapping passes of `_process_pending_starts`, and an entry that expires or is queued again during the two seconds between its GET and its SET: one key of a pass is one step.
- ProcessPendingStarts: the two-second pause between keys, and the key set it iterates over, are outside it.
- CloseStaleSessions: its two queries and each connector's status are parameters, and an exception that rolls a pass back is not in it; the run lemmas cover any set of fetched rows and any updates.
- Consume: a fixed number of reads alone on the stream, without the stop flag and the outer retry after a failed XREADGROUP; `RunKeeps` and the run lemmas cover other clients between its steps.
- GenerateCdr: no NULL cost after a failed calculation, because exact arithmetic does not fail.
- Deletions of chargers, sessions and tokens, the token purge, and status writes that bypass the token endpoints.
- Certificate setup tokens and charger enrolment: what they record is a certificate of no user.
- CRL contents, signing, PKCS#12 files, download tokens, certificate chain validation: opaque library code or one field.
- Pricing: how the external price is fetched is a parameter, a failing request its absence; the rounded cost basis and tax rate repeated beside the rates.
- Failing loads of a setting answer with the empty dictionary and leave the cache alone; the model has only loads that succeed.
- Text of events, log details, reasons and error messages; notifications, receipts and invoices; Lago, SMS, e-mail and push.
- Binary floating point: exact reals stand for it.
- Role checks and payment forms of the endpoints: they return before anything is read.
- Charger profiles, vehicles, accounts, OCPI, backups, setup: list handling without state to keep.

# Kinetix: a verified model of its admission, refresh and bookkeeping cores

Kinetix is a proxy in front of language-model providers. This project models the parts of it that keep promises over
time, and proves those promises with Dafny 4.11. `dafny verify dfyconfig.toml` checks everything.

The central part is **admission**. Every virtual key has a ledger: a deque of recently settled requests, a map of open
reservations and one spend accumulator each for the current day and month. A request is estimated, reserved, and later
reconciled with what it really used, or cancelled. `Ledger.KeyLedger` is that object with its methods; each method is
proved to compute a function of the old state. `LedgerRuns` sets whole runs of those functions beside the complete
history of what was ever admitted, and `LedgerTheorems` proves what every step keeps. From it `LedgerLimits` derives:

- no minute, wherever it starts, holds more admitted and uncancelled requests than the RPM limit, although the deque is
  not in time order and is pruned at its front only;
- no day or month is charged more than its budget plus the amount by which settlements exceeded their reservations;
  with known estimates and bills within them, never more than the budget;
- no minute is charged more tokens than the TPM limit plus the amount by which settlements exceeded their reservations,
  plus the most that the deque's wrapping `u64` sum hid from a reservation, which is nothing exactly when it never
  wraps (`LedgerTokens`); when settlements stay within reservations the charge is within the limit and the sum never
  gets near wrapping; a run in which it does wrap, and admits too much, is shown (`WrapWitness`);
- budget verdicts are exact; an RPM verdict is exact if the stale entries left in the deque are counted; a TPM verdict is
  exact if they are counted and what the deque's sum has lost by wrapping is left out. While the sum fits in a `u64`
  nothing is lost; a reservation slips past the limit exactly when it has wrapped and shows too little;
- stale entries exist (`LedgerWitness`), but never one older than two minutes (`LedgerStale`), so a request is turned
  away for its rate only if at least rpm requests were admitted in the two minutes before;
- taken together, a reservation is admitted exactly when it fits every positive limit, budgets only if its cost is known,
  and a rejection names the first limit that it does not fit (`LedgerVerdicts`);
- `check_current` can be inserted anywhere without changing any other verdict, and answers what the smallest reservation
  would be told.

`Cost` proves that the conservative estimate dominates any bill for usage within it, and `Billing` composes the two.
Two premises matter there: the cost of the estimate is known, and the request uses no more input than was estimated for
it (the figure is an approximation) and no more output than was reserved. If every request meets them, every limit is
kept in every run. If some do not, a limit is passed by no more than their own overruns (for
tokens, plus what a wrapped sum hid).

The other modules: `RefreshSchedule` and `RefreshGate` (credential refresh: deadlines, backoff, claims, pacing, and the
singleflight gate under interleaving), `LogQueue` (the usage-log queue as a concurrent protocol), `Redaction`,
`AuthSessions` (one-time sessions against their call history), `Alerts` (latency window, p95, edge triggers), `Cidr`,
`CatalogMerge` (values and provenance) and `AccountMode` (account-mode reconciliation).

## How the source is read

- `f64` amounts are exact reals; costs and prices are nonnegative where a theorem says so. `u64` counters are natural
  numbers with saturation and wrap-around written out. The release profile in `Cargo.toml` does not enable overflow
  checks, so `minute.iter().sum()` wraps.
- Clocks are arguments. Instants and wall-clock times are integer nanoseconds; the ledger sees the wall clock as a
  calendar date. Runs assume clocks that do not step back only where a theorem says so.
- Every ledger operation runs under one mutex and reads the clock after taking it, so a run is a list of operations
  whose times do not step back. `src/auth.rs`, unlike the ledger, reads the clock before it takes the lock: there, calls
  in lock order may carry instants that step back, and the theorems about one-time use and about the contents of the
  maps hold for every order. Only `AuthSessions.SweepingIsInvisible` assumes ordered instants.
- `status` locks its two maps one after the other. `StatusOf` describes a call that nothing interrupts; in runs its two
  halves are separate calls, `Peek` and `LookUp`, that others may come between.
- Reservation ids come from a counter and are fresh. The history is a proof device; the ledger does not store it.
- A ledger seeded from the database is any state of the invariant `LedgerRuns.Inv`, with the seeded rows as history.
- In `RefreshSchedule` a flight (resolve, rotate, resolve again) is one step, because production code resolves, refreshes
  and rotates under the account's gate. In `RefreshGate` a flight is not cancelled between `rotate` and the generation
  bump, `forget` does not occur, and the generation counter does not wrap.
- SHA-256 fingerprints are taken to be injective, random state tokens and row ids to be fresh.
- `latency_p95` takes `floor(0.95 n)` exactly.

## Model

| member | source | states |
|---|---|---|
| `Ledger.KeyLedger.RollPeriods` | src/admission.rs:210-221 | a new day or month starts its accumulator at zero, anything else stays |
| `Ledger.KeyLedger.Prune` | src/admission.rs:223-232 | the deque becomes its suffix from the first entry younger than a minute |
| `Ledger.PrunedIsSuffix` | src/admission.rs:223-232 | pruning drops a prefix of stale entries and stops at the first young one, whatever stands behind it |
| `Ledger.AddOpen` | src/admission.rs:245-259 | walking the open reservations in any order adds their saturated counts and exact period costs to the readings |
| `Ledger.KeyLedger.Current` | src/admission.rs:234-260 | rolls, prunes and reads requests, tokens, daily and monthly spend of deque, accumulators and open reservations |
| `Ledger.KeyLedger.CheckCurrent` | src/admission.rs:262-304 | the verdict on the current readings, and the advanced state |
| `Ledger.KeyLedger.Reserve` | src/admission.rs:306-369 | the verdict on readings plus estimate; the reservation is opened exactly when admitted |
| `Ledger.KeyLedger.Reconcile` | src/admission.rs:371-402 | the reservation leaves the map, joins the deque if young, and is charged to the periods still current |
| `Ledger.KeyLedger.Cancel` | src/admission.rs:404-406 | the reservation leaves the map and nothing else changes |
| `LedgerRuns.Perform` | src/admission.rs:164-207 | one event of a run is one call on the ledger object: same state, same verdict |
| `LedgerTheorems.CountsMinute` | src/admission.rs:240-249 | the ledger never under-counts: everything charged to the present minute is in its reading |
| `LedgerTheorems.CountsSpend` | src/admission.rs:250-257 | the day and month readings equal what the history charges to the current day and month |
| `LedgerTheorems.AdmittedFits` | src/admission.rs:316-356 | what passes the check fits the limit in exact arithmetic despite saturating counters; the token check overlooks exactly what the deque's sum has lost by wrapping |
| `LedgerTheorems.StepKeeps` | src/admission.rs:209-407 | every reserve, reconcile, cancel and check keeps the whole-history invariant |
| `LedgerTheorems.RunKeeps` | src/admission.rs:209-407 | so does every run under clocks that do not step back |
| `LedgerTheorems.EmptyKeeps` | src/admission.rs:40-48 | the default ledger satisfies the invariant at any time |
| `LedgerLimits.RequestsWithinLimit` | src/admission.rs:316-323 | over any run, every 60-second window holds at most rpm admitted, never-cancelled requests |
| `LedgerLimits.TokensWithinLimit` | src/admission.rs:324-334 | with settlements within reservations, every 60-second window is charged at most tpm tokens and the deque's sum cannot wrap |
| `LedgerTokens.TokensWithinExcess` | src/admission.rs:240-249 | with no premise: every minute is charged at most tpm, plus the excess of settlements over reservations, plus the most a wrapped sum hid from a reservation, which is zero exactly when no sum wraps |
| `WrapWitness.WrappingSumAdmits` | src/admission.rs:241 | a concrete run in which the sum wraps to zero and a minute is charged more than tpm plus all excess |
| `LedgerLimits.SpendWithinBudget` | src/admission.rs:335-356 | over any run, a day or month is charged at most its budget plus the excess of settlements over reservations |
| `LedgerLimits.SpendNeverExceedsBudget` | src/admission.rs:335-356 | with known estimates and bills within them, never more than the budget, late settlements included |
| `LedgerLimits.BudgetVerdictIsExact` | src/admission.rs:335-356 | a budget rejection happens exactly when the period's charges plus the new cost exceed the budget, also just after a limit was lowered |
| `LedgerLimits.RpmVerdictIsExact` | src/admission.rs:316-323 | an RPM rejection happens exactly when last-minute requests plus stale deque entries leave no room |
| `LedgerLimits.TpmVerdictIsExact` | src/admission.rs:324-334 | past the request check, a token rejection happens exactly when last-minute tokens, stale tokens and the estimate, less what the deque's sum has lost by wrapping, exceed tpm |
| `LedgerLimits.TpmVerdictUnwrapped` | src/admission.rs:324-334 | while the deque's sum fits in a u64: exactly when last-minute tokens, stale tokens and the estimate exceed tpm |
| `LedgerLimits.SlipsPastWhenWrapped` | src/admission.rs:241 | a reservation slips past tpm exactly when the sum has wrapped and what it still shows, with open reservations and the estimate, is within tpm |
| `LedgerStale.EntriesAreRecent` | src/admission.rs:223-232 | over any run, every deque entry, stale ones included, is from the two minutes before the last operation that read the clock |
| `LedgerStale.RejectionTakesRequests` | src/admission.rs:316-323 | over any run, an RPM rejection means at least rpm uncancelled requests were admitted in the two minutes before |
| `LedgerLimits.MinuteReading` | src/admission.rs:240-249 | a request or token reading is what the last minute is charged plus the stale entries behind a younger front |
| `LedgerVerdicts.UnknownCostSkipsBudgets` | src/admission.rs:335 | a reservation of unknown cost gets the verdict and leaves the ledger of a key without budgets |
| `LedgerVerdicts.OnlyPositiveLimitsCount` | src/admission.rs:316-336 | a limit of zero or less changes no operation; without limits everything is admitted |
| `LedgerVerdicts.AdmittedExactly` | src/admission.rs:306-369 | in terms of the history, a reservation is admitted exactly when it fits every positive limit, budgets only if its cost is known; a rejection names the first limit it does not fit |
| `LedgerVerdicts.CheckAnswersForSmallest` | src/admission.rs:262-304 | check_current answers, limit by limit, what a reservation of one token and any small enough positive cost would be told |
| `LedgerWitness.StaleEntryCanReject` | src/admission.rs:386-391 | a concrete run in which an out-of-order settlement leaves a stale entry that costs a request its place |
| `LedgerLimits.CheckIsTransparent` | src/admission.rs:262-304 | inserting check_current anywhere in a time-ordered run changes no other verdict and no later ledger |
| `LedgerLimits.CheckMeansRoom` | src/admission.rs:262-304 | check_current accepts exactly when some reservation of one token and positive cost would be; when it rejects, so does every reservation with a token and a positive cost |
| `Cost.BillBetween` | src/cost.rs:19-57 | the bill lies between all reported tokens at the cheapest and at the dearest rate, whatever the detail counters say |
| `Cost.BillIsKnown` | src/cost.rs:20-48 | a bill is known exactly when the model has some price and no token is reported without one |
| `Cost.ConservativeIsKnown` | src/admission.rs:438-454 | the same for the conservative cost |
| `Cost.ConservativeIsReached` | src/admission.rs:438-457 | some usage with just these totals is billed exactly the conservative cost |
| `Cost.ReservationIsLeast` | src/admission.rs:425-436 | the output reservation is the smaller of the client's and the model's positive maximum, or 8192 without either |
| `Cost.PermittedByList` | src/admission.rs:474-500 | no provider list permits every target, a list exactly its providers |
| `Cost.BillIsPerToken` | src/cost.rs:19-57 | the bill is a sum over single tokens, cached first, then cache writes, then regular; oversized detail counters charge nothing extra |
| `Cost.BillWithinConservative` | src/admission.rs:438-457 | if the conservative cost is known, the bill for any usage within it is known and no larger |
| `Cost.CollectModels` | src/admission.rs:470-507 | the candidate models are exactly the permitted ones, and when the request is refused |
| `Cost.EstimateModels` | src/admission.rs:509-524 | the least estimate covering every candidate; its cost is known exactly when every candidate's is |
| `Cost.EstimateRequest` | src/admission.rs:459-525 | not found, forbidden, or that estimate over the permitted models; its cost is unknown exactly when one of them lacks a price that the ask uses |
| `Billing.SettlesWithinEstimate` | src/admission.rs:76-90 | for usage within the estimated input and the output reservation: whatever permitted model serves the request, tokens and bill settle within the estimate |
| `Billing.SettlesBoth` | src/admission.rs:76-81 | a complete report settles as input plus output, saturated, and its bill; an incomplete one as reserved |
| `Billing.ReservationIsReached` | src/admission.rs:509-519 | some usage within the ask settles at exactly the tokens and cost reserved for a model |
| `Billing.OverrunsCostOnlyThemselves` | src/admission.rs:76-90 | in any traffic, every minute, day and month is charged at most its limit plus the overruns of the requests that exceeded their estimate or had none (for tokens, plus the most a wrapped sum hid) |
| `Billing.BilledTrafficKeepsLimits` | src/admission.rs:164-207 | if every estimate's cost is known and every request stays within its estimated input and output reservation, every request, token and budget limit is kept in every run |
| `RefreshSchedule.DerivedDeadline` | src/credential_refresh.rs:444-475 | a deadline derived from an expiry keeps the shorter of five minutes and half the lease, in whole seconds, in hand |
| `RefreshSchedule.HintsDecideDeadline` | src/credential_refresh.rs:444-475 | no hints no schedule; an explicit refresh time wins; what has passed is due now |
| `RefreshSchedule.IdentityIsLease` | src/credential_refresh.rs:450-454 | leases are the same exactly when hints and secret are |
| `RefreshSchedule.BackoffDoubles` | src/credential_refresh.rs:477-482 | the delay doubles from five seconds to five minutes for every failure count; the shift cap is invisible |
| `RefreshSchedule.RefreshCoordinator.StoreSchedule` | src/credential_refresh.rs:149-205 | one key's schedule becomes the merge of old schedule and observed lease; other keys stay |
| `RefreshSchedule.RefreshCoordinator.ObserveSuccessfulRotation` | src/credential_refresh.rs:130-147 | the store after a success, with the one-minute floor |
| `RefreshSchedule.RefreshCoordinator.RecordFailure` | src/credential_refresh.rs:419-437 | failure count, retry time and released claim of one key |
| `RefreshSchedule.RefreshCoordinator.ClaimDue` | src/credential_refresh.rs:238-252 | exactly the due and unclaimed keys are returned, once each, and only their claims change |
| `RefreshSchedule.RefreshCoordinator.RotateScheduledAt` | src/credential_refresh.rs:326-403 | the schedule after every path of a scheduled flight, and when it reports a rotation |
| `RefreshSchedule.RefreshCoordinator.RotateAfterAuthError` | src/credential_refresh.rs:275-307 | the schedule after every path of a reactive flight, and what it reports |
| `RefreshSchedule.RefreshCoordinator.Resolve` | src/credential_refresh.rs:93-117 | the schedule after a resolve under the gate |
| `RefreshSchedule.ResolveSchedules` | src/credential_refresh.rs:93-117 | a rotated credential is scheduled as after a success, any other as observed; an error changes nothing |
| `RefreshSchedule.ReactiveFlight` | src/credential_refresh.rs:275-307 | when a reactive flight rotates, which credential it schedules, which error it reports and records |
| `RefreshSchedule.LeavesRenewedAlone` | src/credential_refresh.rs:338-375 | a scheduled flight rotates nothing that another path renewed or that is not due |
| `RefreshSchedule.DueLeaseIsRotated` | src/credential_refresh.rs:377-402 | a due lease is rotated, and scheduled afresh or its error recorded |
| `RefreshSchedule.NothingToRotate` | src/credential_refresh.rs:350-357 | without a schedule or hints nothing is rotated |
| `RefreshSchedule.AfterSuccess` | src/credential_refresh.rs:130-147 | after a success the next attempt is strictly ahead: the kept deadline, or a minute away clipped to a live expiry |
| `RefreshSchedule.FirstObservation` | src/credential_refresh.rs:158-162 | the first observation takes the deadline of its hints; one without hints ends the schedule |
| `RefreshSchedule.ObservationIsQuiet` | src/credential_refresh.rs:164-205 | observing the same lease changes nothing; another lease releases the claim, keeps the failure count and gets exactly the stated deadline, strictly ahead |
| `RefreshSchedule.BackoffSurvives` | src/credential_refresh.rs:164-195 | no sequence of plain observations, resolves and claims lowers the failure count or the retry time |
| `RefreshSchedule.FailuresAddUp` | src/credential_refresh.rs:419-437 | over runs of failures and plain actions the count is the number of failures |
| `RefreshSchedule.FailuresBackOff` | src/credential_refresh.rs:419-437 | over such runs the n-th failure is retried after its hint, at most 300 s and possibly none, or after min(5 * 2^(n-1), 300) s, with its claim released |
| `RefreshSchedule.ClaimsAreSpaced` | src/credential_refresh.rs:238-252 | two claims of a key are at least 60 seconds apart if everything between them finds the lease on record: ticks, observations and resolves of it, failed resolves |
| `RefreshSchedule.FirstDueTickClaims` | src/credential_refresh.rs:238-252 | the first tick at or after an unclaimed deadline claims it for a minute, and no tick before does |
| `RefreshSchedule.ClaimsKeepDeadline` | src/credential_refresh.rs:238-252 | under the same actions nothing but the claim changes |
| `RefreshSchedule.EachGapIsLong` | src/credential_refresh.rs:207-223 | under unchanged hints and without recorded failures, a rotation follows the one before by a minute, or comes at or after the expiry of a lease that was live then |
| `RefreshSchedule.RotationsArePaced` | src/credential_refresh.rs:347-395 | under unchanged hints and without recorded failures, N scheduled rotations span at least N-2 minutes |
| `RefreshSchedule.OneGapCanBeShort` | src/credential_refresh.rs:216-222 | for any lease that expires within a minute of its rotation, a run whose next rotation comes at the expiry |
| `RefreshGate.RotationsAreRationed` | src/credential_refresh.rs:257-394 | of the callers that loaded a generation, at most one plus the number of scheduled rotations since call rotate, in every interleaving |
| `RefreshGate.AtMostOneRotation` | src/credential_refresh.rs:257-311 | of two callers whose loads had the same number of bumps before them, at most one calls rotate if no scheduled rotation has bumped since |
| `RefreshGate.BothCanRotate` | src/credential_refresh.rs:388-394 | a concrete interleaving in which one scheduled rotation lets two such callers rotate |
| `RefreshGate.ReusedResultIsLater` | src/credential_refresh.rs:269-273 | a reused result belongs to an identified flight, landed with that result, whose generation bump follows the caller's load in the run, scheduled rotations included |
| `RefreshGate.LoadIsRemembered` | src/credential_refresh.rs:266 | the generation a caller carries is the number of bumps before its load, in every interleaving |
| `RefreshGate.EveryCallerCanFinish` | src/credential_refresh.rs:257-311 | from any state a caller that has loaded can get its answer, by moves of its own and of the lock's holder |
| `RefreshGate.ReuseTakesLatest` | src/credential_refresh.rs:269-273 | that bump is the latest one at the moment of reuse |
| `RefreshGate.MutualExclusion` | src/credential_refresh.rs:264-267 | no two callers are inside the gate |
| `LogQueue.QueueKeeps` | src/logqueue.rs:30-51 | in every interleaving rows are conserved in order, the backlog is at most capacity plus 128, and counters are off by the updates owed, modulo 2^64 |
| `LogQueue.SettledCountersAreExact` | src/logqueue.rs:67-84 | once owed updates are made, depth is the backlog and dropped is rejected plus failed |
| `LogQueue.NothingIsLost` | src/logqueue.rs:43-49 | accepted rows are written, failed, in hand, in the batch or in the channel, and are handled in order |
| `LogQueue.SendFailsOnlyWhenFull` | src/logqueue.rs:67-75 | a row is accepted exactly when the channel has room |
| `LogQueue.RejectsOnlyAfterCapacity` | src/logqueue.rs:67-75 | over any run nothing is rejected before as many rows as the capacity were accepted |
| `LogQueue.QueueCanRest` | src/logqueue.rs:30-51 | from any state, without another row, everything accepted can be handled in order, with no new failure and exact counters |
| `LogQueue.DepthCanWrap` | src/logqueue.rs:44-70 | a concrete interleaving in which the depth counter wraps |
| `Redaction.Redact` | src/crypto.rs:139-167 | the loop computes the segment-wise redaction |
| `Redaction.SecretShape` | src/crypto.rs:169-177 | a secret is a known prefix with more than 12 bytes, or at least 40 bytes with 36 letters and digits |
| `Redaction.TrimShape` | src/crypto.rs:145-153 | trimming leaves what is between the outermost characters that are not trimmed |
| `Redaction.SecretIsMasked` | src/crypto.rs:139-167 | wherever a secret stands between separators, padded or not, it is masked, the separator kept, and the rest redacted on its own |
| `Redaction.RedactionIsLocal` | src/crypto.rs:139-167 | text cut behind any delimiter can be redacted in parts |
| `Redaction.SplitJoin` | src/crypto.rs:142-144 | splitting text rebuilt from well-formed segments gives the segments back |
| `Redaction.RedactedSegments` | src/crypto.rs:145-165 | the output splits into the redacted segments, same number and order |
| `Redaction.NoSecretLeft` | src/crypto.rs:145-165 | no output segment looks like a secret after trimming |
| `Redaction.SecretOnlyUntrimmed` | src/crypto.rs:145-176 | untrimmed, an output segment looks like a secret exactly when it did in the input and its trimmed form did not |
| `Redaction.DelimiterCanHide` | src/crypto.rs:154-176 | a concrete text with such a segment, which comes back unchanged |
| `Redaction.UnchangedIffClean` | src/crypto.rs:139-167 | the text comes back unchanged exactly when no segment looks like a secret after trimming |
| `Redaction.RedactIsIdempotent` | src/crypto.rs:139-167 | redacting twice is redacting once, on every string |
| `AuthSessions.PluginAuthSessions.Create` | src/auth.rs:76-122 | expired sessions are swept and the new one is stored for ten minutes |
| `AuthSessions.PluginAuthSessions.Peek` | src/auth.rs:124-133 | the live session of this initiator, or nothing |
| `AuthSessions.PluginAuthSessions.StatusOf` | src/auth.rs:135-151 | uninterrupted: pending, the recorded completion of this initiator, or nothing |
| `AuthSessions.PluginAuthSessions.LookUp` | src/auth.rs:143-150 | the second half of a status query, under its own lock |
| `AuthSessions.StatusFollowsHistory` | src/auth.rs:135-151 | with other calls between its halves: pending exactly if the session is held at the first, else the completion held at the second |
| `AuthSessions.PluginAuthSessions.RecordCompletion` | src/auth.rs:153-174 | the completion is kept for ten minutes |
| `AuthSessions.PluginAuthSessions.Take` | src/auth.rs:179-193 | the state is consumed whatever the answer |
| `AuthSessions.PluginAuthSessions.TakeLoopbackCallback` | src/auth.rs:202-234 | likewise, granted only for an approved loopback redirect |
| `AuthSessions.LoopbackMeansBareCallback` | src/auth.rs:211-233 | a loopback redirect is exactly a bare http callback on a host that the plugin may use |
| `AuthSessions.PluginAuthSessions.Revoke` | src/auth.rs:236-238 | the state is removed |
| `AuthSessions.Serve` | src/auth.rs:100-238 | one call of a run is one call on the session object: same maps, same answer |
| `AuthSessions.MapsHoldExactly` | src/auth.rs:100-238 | in every lock order, a session is in the map exactly when it was created, not taken or revoked since, and no sweeping call since read an instant at or past its expiry; likewise completions |
| `AuthSessions.AnswersFollowHistory` | src/auth.rs:100-238 | in every lock order, every answer is the one that history prescribes |
| `AuthSessions.SweepingIsInvisible` | src/auth.rs:100-238 | when instants do not step back: created, under 600 seconds old, not taken or revoked |
| `AuthSessions.SweepingCanShow` | src/auth.rs:125-127 | a concrete lock order in which a caller with an earlier instant is refused a session that is young by its own clock |
| `AuthSessions.NeverAfterConsumption` | src/auth.rs:176-238 | after any attempt to consume a state, even a failed one, nothing grants it again unless it is created anew, in every lock order |
| `AuthSessions.GrantedAtMostOnce` | src/auth.rs:176-234 | with fresh tokens, take and take_loopback_callback together grant each state at most once, in every lock order |
| `Alerts.LatencyWindow.RecordAddedLatency` | src/alerts.rs:61-80 | push, drop stale samples, drop down to the cap |
| `Alerts.WindowIsLongestFit` | src/alerts.rs:61-80 | after any run the deque is the longest suffix of all samples that is within 600 seconds and 20000 entries |
| `Alerts.LatencyWindow.LatencyP95` | src/alerts.rs:83-92 | nothing under twenty samples, else the sample of rank min(0.95 n, n - 1) |
| `Alerts.SortedRank` | src/alerts.rs:88-91 | the sorted copy's element at an index has that rank in the unsorted samples |
| `Alerts.AlertState.ShouldFire` | src/alerts.rs:106-114 | true exactly when the key becomes active |
| `Alerts.AlertState.ShouldResolve` | src/alerts.rs:117-120 | true exactly when the key stops being active |
| `Alerts.EdgesAlternate` | src/alerts.rs:94-121 | between two fires of a key lies a resolve, and between two resolves a fire |
| `Alerts.EdgesFollowLast` | src/alerts.rs:94-121 | a fire is an edge exactly when the last signal about its key was not a fire, a resolve exactly when it was |
| `Alerts.ResolveFollowsFire` | src/alerts.rs:94-121 | the first edge of a key is a fire |
| `Cidr.ContainsMeansPrefix` | src/limits.rs:127-153 | a block contains an address exactly when family, prefix range and leading bits (integer quotients) agree, for 32 and 128 bits |
| `Cidr.NestedOrDisjoint` | src/limits.rs:127-153 | two blocks that share an address are nested |
| `Cidr.PrefixesNest` | src/limits.rs:127-153 | longer prefixes select subsets; the full prefix one address, the empty prefix all |
| `Cidr.AllowedMeansListed` | src/limits.rs:107-125 | an address is allowed exactly when some entry names it or a block with its leading bits |
| `CatalogMerge.AddPriceLayer` | src/admin.rs:1602-1623 | one layer overwrites value and source of exactly the fields it declares, unless suppressed |
| `CatalogMerge.AddFlagLayer` | src/admin.rs:1565-1584 | the same for capability flags |
| `CatalogMerge.SuppressingIsStripping` | src/admin.rs:1602-1606 | suppressing canonical prices is merging the layers without them |
| `CatalogMerge.MergePrices` | src/admin.rs:1561-1623 | catalog value and source of each price come from the last unsuppressed layer declaring it, or are both absent |
| `CatalogMerge.MergeFlags` | src/admin.rs:1561-1584 | the same for text, vision, tool calling and structured output |
| `CatalogMerge.ObservePrices` | src/admin.rs:1649-1691 | each price is the provider's, else the plugin's, else the catalog's; its source names that origin and is null exactly when the price is |
| `CatalogMerge.ObserveFlags` | src/admin.rs:1811-1843 | the same for the four flags; reasoning is what the caller decided |
| `AccountMode.AccountStore.ReconcileProviderAccountMode` | src/admin.rs:5418-5514 | the account and route-target tables after one mode change |
| `AccountMode.ReconcileEstablishes` | src/admin.rs:5425-5511 | mode none leaves exactly one account, pristine, no-auth and with the empty secret, credential modes no synthetic one, and no target dangles |
| `AccountMode.LoneSyntheticIsKept` | src/admin.rs:5436-5485 | mode none keeps an account, with id, age and pinned targets, exactly when it is the only one and synthetic, legacy ones included; otherwise all give way to a new one |
| `AccountMode.ReconcileFrame` | src/admin.rs:5441-5509 | other providers, real accounts in credential modes and unaffected targets stay as they are |
| `AccountMode.ReconcileIsIdempotent` | src/admin.rs:5436-5454 | repeating a mode changes nothing but the encryption of the empty secret |
| `AccountMode.RunsKeepModes` | src/admin.rs:5418-5514 | across any sequence of changes every provider is in the state of its last change and no target dangles |
| `AccountMode.RunsKeepOthers` | src/admin.rs:5418-5514 | across any sequence of changes a provider that none of them names keeps exactly its accounts, and their targets |
| `AccountMode.AccountSurvives` | src/admin.rs:5485-5509 | a stored account survives a credential mode exactly when it has neither the internal label nor the label "public" with a secret of at most ten characters |
| `AccountMode.ShortPublicKeyIsRemoved` | src/admin.rs:5423 | a concrete user account that is taken for the legacy placeholder, because every short secret has the same mask |

## Left out

- Seeding the ledger from the database (src/admission.rs:109-162): a seeded ledger is an arbitrary state of the invariant.
- `f64` rounding and formatting: amounts are exact reals and error texts are not modelled.
- Tokenisation (`approx_input_tokens`), model resolution, JSON and URL parsing: their results are inputs.
- The flight of a reactive rotation as part of the gate: `RefreshGate` fixes which caller makes the flight and `RefreshSchedule` what the flight does; the strategy's answers are inputs.
- The `gates` map and `forget` (src/credential_refresh.rs:227-231): one gate is modelled; dropping it resets its generation.
- The consumer task of the log queue as sequential code: it is modelled as atomic steps, because its interleaving with producers is what matters.
- Reasoning capability and its source, context window, output limit, modalities and model type in the catalog merge: easier fields of the same kind, or plugin normalisers that are inputs.
- Admin login sessions (`Sessions` in src/auth.rs): a simpler form of the swept map that is modelled.
- Encryption, hashing, SQL, HTTP handlers, webhooks, configuration, CLI and dashboard: input and output around these cores.

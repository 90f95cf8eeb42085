# hms-hmcollector: a verified model

The hardware management collector subscribes to Redfish events of every BMC that the state manager
knows, keeps those subscriptions in place, polls the hardware that has no events, and forwards
everything to Kafka. This project models its hard parts in Dafny and proves what they promise, over
all inputs and all runs.

| part | files |
|---|---|
| One subscribe or verify pass against one BMC, with arbitrary request failures | `Subscriptions`, `SubscriptionFacts`, `MovedHardware`, `DuplicateCheck`, `PrefixGroups`, `SubscribePass`, `SubscriptionClient` |
| The whole reconciler: scan loop, two channels, subscribe and verify goroutines, status cells | `Reconciler`, `ReconcilerSafety`, `ReconcilerHistory`, `ReconcilerPass`, `ReconcilerRepair`, `ReconcilerBounds`, `ReconcilerProgress`, `ReconcilerRetry`, `ReconcilerAbandon`, `ReconcilerRace`, `ReconcilerRuns` |
| Redfish type cache and credential retry | `RedfishCache`, `HttpAction` |
| Stateful telemetry: power-state edges, sensor indices, rate limit, classification | `PduCollector`, `SensorIndex`, `PduRateLimit`, `Classification` |
| Event ingress: decoding, fan-out, routing, delivery, the endpoint's name | `Events`, `EventDecoding`, `Ingress`, `Routing`, `Identity` |
| Shared helpers | `Basics`, `Text` |

`dafny verify dfyconfig.toml` checks all of it.

## How to read the model

* A BMC is the sequence of its subscriptions. The loops of `rf_subscriptions.go` are methods of
  `SubscriptionClient` that change a `Bmc` and a `Record`; each is proved equal to a function of
  `Subscriptions` or `SubscribePass`, and the theorems are about those functions. `Walk` and `Sweep`
  restate the loops without identifiers; `Reconciled` says what a pass is for in terms of the member list
  and of the POSTs the BMC takes.
* The reconciler is a step function `Do` over labels. Every `endpoints[id] = RFSub{...}` is a new
  *generation* with fresh cells. The duplicate check of a group, its event-type GET and POST, and the final
  COMPLETE write are steps of their own, so passes of one endpoint can come between check and POST, and
  a status written in the middle of a pass is visible to the scan and to verify. A run is any list
  of enabled labels; all interleavings of these steps are covered.
* `Net` is an arbitrary oracle: it decides for every request of one operation whether it fails, which status
  code answers a POST, and which identifier it proposes. An operation makes each request at most once.

Assumptions:

* A request that reports no error takes effect and a GET is truthful (the code ignores the status codes
  at `rf_subscriptions.go` lines 195, 229 and 327); a request that reports an error has no effect. A POST
  creates a subscription when it is answered 200, 201 or 204, and not otherwise.
* Members keep their order, their identifiers are distinct, a POST appends under an unused identifier.
* `getDestination` answers the same for an endpoint throughout a run. Endpoint IDs are not empty.
* A step is atomic: the prune loop, a duplicate check, the event-type GET with the POST, each cell write.
* The validity test and the normaliser for xnames are arbitrary functions.
* The snapshot of a scan is an arbitrary set of endpoints; self-repair needs it to keep listing the
  endpoint, which holds because `HSMEndpoints` only grows.
* The discovery timestamp of an endpoint does not change during one `GetRedfishType` call.
* Other goroutines may write the credentials of an endpoint while a request is under way; reading the record,
  refreshing it and comparing is one step.
* Times never go backwards. The test of a PDU poll and the answer to a request are one step each, and steps of
  different workers interleave in any way. One payload of a PDU is parsed at a time.

## Where the code differs from its comments

* **Retry.** The comment before `rfSubscribe` says an endpoint marked ERROR is signalled again, and lines
  527, 547 and 557 write ERROR for that. Every pass then writes COMPLETE at line 575, and verify checks
  recorded groups only. So a group that failed is not retried: `RetryIff` gives the exact condition (a run
  queues the endpoint again if and only if a check of a group *recorded* for it fails and a later scan
  visits it), `MissingStaysMissing` says what happens otherwise, and `HalfFailedPass` is a run from the
  start in which one failed check loses all standard events while telemetry is verified for ever.
  When nothing was recorded the endpoint is never even contacted (`RetryReach`, if and only if), and one
  outage during its first pass is enough (`OutageFromStart`).
* The error branch at line 557 is unreachable: `postRFSubscription` returns the error of `json.Marshal`
  (line 124), not that of the request. The model has no such branch.
* **Overlap.** A scan between an ERROR write and the final COMPLETE write re-queues an endpoint whose
  goroutine still runs (`OverlapIsPossible`). Two such passes can both find a group missing before either
  POSTs it, and then the BMC holds two subscriptions although nothing was stuck (`TwoPostsRace`). The
  bound "max(1, initial) plus failed DELETEs" holds in every run if and only if telemetry streaming is off
  (`BoundIffNotStreaming`), and with streaming on in every run without such a race
  (`RaceFreeRunsAreBounded`); in general each overtaken POST adds one (`ReachableDuplicatesAreBounded`).
* The prefix list comparison with a list `a` is set equality, for all lists of its length, if and only if `a` has
  no duplicates (`AlikeIffDistinct`). The program compares nil and `["CrayTelemetry"]` only, which have none.
* A nil prefix group matches subscriptions without prefixes only; an empty group would match every one
  (`NilIsNotEmpty`). The program never builds the empty group.
* **Rate limit.** LastContacted is read when a poll is taken and written when a request is answered, by 30
  workers without a lock. A copy of a PDU taken before the first answer of the previous one passes the test
  as well (`TwoWorkersOverlap`): within an interval a poll passes if and only if nothing has been answered
  since the start of the one before (`PassesAgainIff`). The bound window/interval + 1 holds for a
  trace if and only if no two contacting polls overlap in this way (`BoundIffNotCrowded`).
* With `IgnoreProvidedTimestamp` on, an event without `Oem` dereferences nil in `parseRequest`; that event
  and all later ones of the request are lost (`OverrideLosesTail`).
* `doHTTPAction` need not terminate if Vault keeps changing its answer (`AlternatingVaultNeverStops`); `EndsIff`
  and `EndsExactly` say exactly when it does, and after how many requests. It compares with the shared record after
  the answer, so a refused call gives up without having tried Vault's credentials if and only if another
  call has stored them in the meantime (`GivesUpIffRefreshedElsewhere`).
* The type cache helps as long as the timestamp stays: a call probes if and only if its timestamp differs from that
  of the previous call for the endpoint, or that call failed (`ProbesIff`). Callers share one endpoint
  record, refreshed from the state manager, so only a state manager that goes back and forth makes
  every call probe (`AlternatingAttemptsAlwaysProbe`).

## Model

| member | source | states |
|---|---|---|
| `SubscriptionClient.PrefixesMatch` | cmd/hmcollector/rf_subscriptions.go:253-280 | The nested flag loops decide exactly: both lists empty, or a non-nil group all of whose prefixes are present |
| `SubscriptionClient.Bmc.PostSubscription` | cmd/hmcollector/rf_subscriptions.go:80-125 | The test on the status code (error, 400 with prefixes, not 200/201/204) answers yes exactly when the BMC now holds one more match for the group, appended and under our name; otherwise nothing changed |
| `SubscriptionClient.PruneOld` | cmd/hmcollector/rf_subscriptions.go:490-516 | The prune loop leaves the BMC that `Prune` describes, whatever fails |
| `MovedHardware.MovedIff` | cmd/hmcollector/rf_subscriptions.go:127-168 | A subscription counts as wrong if and only if pruning is on, the endpoint has a valid xname, and the context, or where that is no xname whatever follows the last slash of the destination, names another component |
| `MovedHardware.WrongXnameIff` | cmd/hmcollector/rf_subscriptions.go:139-167 | The same spelled out for a destination ending in "/other", for every front and every slash-free end |
| `MovedHardware.PruneExactly` | cmd/hmcollector/rf_subscriptions.go:490-516 | Whatever fails, the prune loop deletes exactly the subscriptions of moved hardware that it can list, read and delete, and keeps all others unchanged and in order |
| `MovedHardware.FailureFreePrune` | cmd/hmcollector/rf_subscriptions.go:490-516 | Without failures no subscription of moved hardware is left and nothing else is lost |
| `SubscriptionClient.FixMismatch` | cmd/hmcollector/rf_subscriptions.go:311-347 | PATCH, else DELETE: a fixed match stays as present, a deleted or undeletable one is reported absent |
| `SubscriptionClient.CheckDuplicate` | cmd/hmcollector/rf_subscriptions.go:225-309 | The duplicate check, with its deletions on the way, answers and leaves the BMC as `IsDup` describes |
| `DuplicateCheck.CheckIff` | cmd/hmcollector/rf_subscriptions.go:225-300 | The answer is an error if and only if the list, or a member before the first match, cannot be read; present if and only if the first match carries our name or can be patched; else absent, stuck if and only if the DELETE after the failed PATCH fails |
| `DuplicateCheck.CheckLeaves` | cmd/hmcollector/rf_subscriptions.go:240-346 | Member by member what the check leaves: those it passed unless they point elsewhere and belong to moved hardware, the one it ends at kept, patched or deleted, and the rest |
| `DuplicateCheck.HalvesWrite` | cmd/hmcollector/rf_subscriptions.go:521-572 | The status and record of each half of an iteration: ERROR, COMPLETE with a record, or no status, by which request fails first |
| `SubscriptionClient.SubscribeOneGroup` | cmd/hmcollector/rf_subscriptions.go:519-573 | One group iteration: BMC, mid-pass status and prefix list are those of `SubscribeGroup` |
| `SubscriptionClient.RunPass` | cmd/hmcollector/rf_subscriptions.go:470-576 | The goroutine body turns BMC and prefix list into those of `Pass`, and always ends COMPLETE |
| `SubscriptionClient.RunVerify` | cmd/hmcollector/rf_subscriptions.go:389-416 | ERROR is written if and only if some check does not answer present; for requests that succeed, if and only if some recorded group has no subscription; a status that stays clear means every recorded group is in place |
| `SubscribePass.VerifyIff` | cmd/hmcollector/rf_subscriptions.go:393-415 | Without failures and wrong xnames a verify pass reports a loss if and only if some recorded group has no subscription to our address |
| `SubscribePass.VerifyIsSound` | cmd/hmcollector/rf_subscriptions.go:393-415 | Whatever fails, a verify pass that reports nothing leaves every recorded group in place under our name |
| `SubscriptionFacts.LoopsAreWalks` | cmd/hmcollector/rf_subscriptions.go:225-309 | Both request loops, which look members up by identifier while deleting them, are single walks over the member list |
| `SubscriptionFacts.OpKeepsDistinctOids` | cmd/hmcollector/rf_subscriptions.go:470-576 | Every operation keeps the identifiers of a BMC distinct |
| `SubscriptionFacts.CorrectSurvives` | cmd/hmcollector/rf_subscriptions.go:127-168 | A subscription with our address and our name survives every operation of the program, whatever fails |
| `SubscriptionFacts.PresentIsTrue` | cmd/hmcollector/rf_subscriptions.go:282-300 | When the duplicate check answers yes, a matching subscription under our name is on the BMC it leaves |
| `SubscriptionFacts.RecordedIsInPlace` | cmd/hmcollector/rf_subscriptions.go:531-567 | Both halves of an iteration record a group only when it is in place on the BMC they leave |
| `SubscriptionFacts.AbsentLeavesRoom` | cmd/hmcollector/rf_subscriptions.go:327-346 | After the answer "absent" one more subscription stays within max(1, count), unless the DELETE after a failed PATCH failed too |
| `SubscriptionFacts.GroupsAreDisjoint` | cmd/hmcollector/rf_subscriptions.go:253-280 | No subscription matches both the nil group and the CrayTelemetry group |
| `SubscriptionFacts.PostCount` | cmd/hmcollector/rf_subscriptions.go:80-125 | A POST that is taken adds exactly one match, for its own group only |
| `SubscriptionFacts.DuplicatesAreBounded` | cmd/hmcollector/rf_subscriptions.go:253-346 | Over any sequence of prunes, checks, POSTs, verifications and losses, our matches for a group never exceed max(1, initial), plus the DELETEs that failed straight after a failed PATCH, plus the POSTs whose check was overtaken by another POST for the group |
| `SubscriptionFacts.ClearIff` | cmd/hmcollector/rf_subscriptions.go:521-551 | An answer "absent" still stands at the POST if and only if no subscription for the group was created in between |
| `SubscriptionFacts.SerialRunsAreBounded` | cmd/hmcollector/rf_subscriptions.go:519-573 | When every POST follows its own check directly, only the failed DELETEs count |
| `SubscriptionFacts.BoundIsReached` | cmd/hmcollector/rf_subscriptions.go:327-346 | The bound is tight: one such failed DELETE does produce a second match |
| `PrefixGroups.CompareGroups` | cmd/hmcollector/rf_subscriptions.go:428-444 | The nested loops decide equal length and one-way containment |
| `PrefixGroups.AppendUniqueRegPrefix` | cmd/hmcollector/rf_subscriptions.go:423-454 | The group is appended if and only if no listed group compares equal |
| `PrefixGroups.AlikeIsSetEquality` | cmd/hmcollector/rf_subscriptions.go:428-444 | On duplicate-free lists the comparison holds if and only if the lists are equal as sets (pigeonhole) |
| `PrefixGroups.AlikeIffDistinct` | cmd/hmcollector/rf_subscriptions.go:428-444 | The comparison with a list is set equality, for all lists of its length, if and only if the list has no duplicates |
| `PrefixGroups.AppendKeepsGoodList` | cmd/hmcollector/rf_subscriptions.go:423-454 | The list stays pairwise different as sets, and afterwards represents the group |
| `PrefixGroups.AtMostTwoGroups` | cmd/hmcollector/rf_subscriptions.go:474-487 | Such a list over the groups of a site has at most two entries |
| `SubscribePass.First` | cmd/hmcollector/rf_subscriptions.go:240-300 | The position of a group's first match, or the length when there is none |
| `SubscribePass.PruneIsKeep` | cmd/hmcollector/rf_subscriptions.go:490-516 | Without failures the prune loop removes exactly the wrong-xname subscriptions, and nothing when pruning is off |
| `SubscribePass.GroupIsEnsure` | cmd/hmcollector/rf_subscriptions.go:519-573 | Without failures an iteration names the first match or appends the group, and records it if and only if it is then there |
| `SubscribePass.FailureFreePass` | cmd/hmcollector/rf_subscriptions.go:470-576 | A failure-free pass takes any BMC to exactly: wrong-xname subscriptions dropped, each group's first match under our name, each missing accepted group appended |
| `SubscribePass.ReconciledIsHandled` | cmd/hmcollector/rf_subscriptions.go:519-573 | After the pass every group is in place under our name or missing altogether |
| `SubscribePass.SecondPassIsIdle` | cmd/hmcollector/rf_subscriptions.go:470-576 | A second failure-free pass changes nothing if and only if the BMC still refuses every group the first one left missing |
| `SubscribePass.PassRecordsTruth` | cmd/hmcollector/rf_subscriptions.go:519-573 | Whatever fails, every group in the prefix list at the end of a pass is in place |
| `ReconcilerSafety.InvPreserved` | cmd/hmcollector/rf_subscriptions.go:371-689 | Every step of scan, subscribe and verify keeps the reconciler's invariant |
| `ReconcilerSafety.InvHolds` | cmd/hmcollector/rf_subscriptions.go:371-689 | The invariant holds along every run |
| `ReconcilerHistory.PendingIsOwned` | cmd/hmcollector/rf_subscriptions.go:639-661 | In every reachable state a current record that reads PENDING is being sent, queued, or held by a goroutine before its final write |
| `ReconcilerHistory.OwnersAdvance` | cmd/hmcollector/rf_subscriptions.go:460-577 | An owner is never stuck: some step towards the final write is enabled |
| `ReconcilerHistory.ChannelsNeverOverflow` | cmd/hmcollector/rf_subscriptions.go:598-599 | Both channels hold at most 1000 records, and the scan waits to send if and only if its channel is full |
| `ReconcilerHistory.CellsAreIsolated` | cmd/hmcollector/rf_subscriptions.go:653-661 | Cells change only through a goroutine of their own generation; prefix lists change only in its subscribe goroutine and only grow |
| `ReconcilerHistory.ReplacedForGood` | cmd/hmcollector/rf_subscriptions.go:653-661 | A replaced record never becomes current again |
| `ReconcilerHistory.SentExactlyOnce` | cmd/hmcollector/rf_subscriptions.go:661 | Each record goes through the pending channel exactly once and gets exactly one subscribe goroutine |
| `ReconcilerHistory.PrefixListsStaySmall` | cmd/hmcollector/rf_subscriptions.go:474-487 | Over any run a record's prefix list is pairwise different as sets and holds at most two groups |
| `ReconcilerHistory.ErrorsComeFromVerify` | cmd/hmcollector/rf_subscriptions.go:389-416 | An ERROR that outlives its pass was written by a verify step that failed a recorded group |
| `ReconcilerHistory.RequeueNeedsFailedCheck` | cmd/hmcollector/rf_subscriptions.go:639-661 | A scan that finds no pass under way re-queues a known endpoint only after a failed check of a group recorded for its current record |
| `ReconcilerHistory.BmcSeesOps` | cmd/hmcollector/rf_subscriptions.go:371-582 | Along any run each BMC undergoes exactly the operations addressed to it |
| `ReconcilerHistory.ReachableDuplicatesAreBounded` | cmd/hmcollector/rf_subscriptions.go:519-573 | In every reachable state and every interleaving of checks and POSTs, the bound with its term for overtaken POSTs holds |
| `ReconcilerRace.RaceFreeRunsAreBounded` | cmd/hmcollector/rf_subscriptions.go:519-573 | In every run in which no POST is made while another goroutine of the endpoint is between check and POST for the same group, max(1, initial) plus failed DELETEs is the bound |
| `ReconcilerRace.SingleGroupIsRaceFree` | cmd/hmcollector/rf_subscriptions.go:474-487 | With streaming off no run has such a race: only the current record of an endpoint has work ahead, and it still reads PENDING |
| `ReconcilerRace.TwoPostsRace` | cmd/hmcollector/rf_subscriptions.go:521-567 | A run from the initial state, with streaming on, in which two passes of one endpoint both POST the telemetry group: two matches, none at first, no DELETE failed |
| `ReconcilerRace.BoundIffNotStreaming` | cmd/hmcollector/rf_subscriptions.go:474-573 | max(1, initial) plus failed DELETEs bounds the matches in every run, for every endpoint and group, if and only if streaming is off |
| `ReconcilerPass.UninterruptedPass` | cmd/hmcollector/rf_subscriptions.go:470-576 | A goroutine that is not interleaved performs exactly one `Pass` and ends COMPLETE, so the two levels of the model agree |
| `ReconcilerPass.UninterruptedVerify` | cmd/hmcollector/rf_subscriptions.go:376-416 | A verify goroutine that is not interleaved leaves the BMC and status of one verify pass over the recorded groups |
| `ReconcilerPass.CheckStepWrites` | cmd/hmcollector/rf_subscriptions.go:521-539 | What the scan can see after a check step: ERROR, COMPLETE with a record, or nothing and a POST to come, by which request fails first |
| `ReconcilerPass.PostStepWrites` | cmd/hmcollector/rf_subscriptions.go:541-572 | And after a POST step: ERROR if the event types cannot be read, else a record if and only if the BMC took the POST |
| `ReconcilerRepair.IterationRepairs` | cmd/hmcollector/rf_subscriptions.go:519-573 | An iteration without failure or refusal puts its group in place and records it |
| `ReconcilerRepair.OnTrackStep` | cmd/hmcollector/rf_subscriptions.go:616-677 | Every favourable step keeps a lost subscription on the way back: waiting for the check, in the check, flagged, or in repair |
| `ReconcilerRepair.SelfRepair` | cmd/hmcollector/rf_subscriptions.go:610-676 | A recorded subscription that is lost after scan k is in place again once the work of scan k+21 has drained, when the requests for its group succeed, scans keep listing the endpoint and work drains between scans |
| `ReconcilerProgress.WorkIsBounded` | cmd/hmcollector/rf_subscriptions.go:460-582 | Between two scans every run, whatever fails in it, has at most as many steps as a measure of scan, channels and goroutines |
| `ReconcilerProgress.RestIffDrained` | cmd/hmcollector/rf_subscriptions.go:598-607 | No deadlock, even with full channels: the machine is at rest if and only if all work is done |
| `ReconcilerProgress.MaximalRunsDrain` | cmd/hmcollector/rf_subscriptions.go:594-689 | Every run between two scans that goes as far as it can ends with all work done |
| `ReconcilerProgress.AlwaysDrains` | cmd/hmcollector/rf_subscriptions.go:594-689 | From every state of the invariant there is such a run in which no request fails and no scan starts |
| `ReconcilerProgress.ReachableStatesDrain` | cmd/hmcollector/rf_subscriptions.go:598-607 | Every reachable state has a continuation without failures or scans in which all work is done |
| `ReconcilerProgress.RepairHappens` | cmd/hmcollector/rf_subscriptions.go:610-676 | From every drained state with a recorded group a favourable run of 21 scans exists that drains and ends with the subscription in place, so the hypotheses of `SelfRepair` can be met |
| `ReconcilerBounds.NoEarlyRepair` | cmd/hmcollector/rf_subscriptions.go:662-676 | Before the next scan whose number is a multiple of 20, an endpoint at rest is not contacted at all, so the delay is forced |
| `ReconcilerRace.OverlapIsPossible` | cmd/hmcollector/rf_subscriptions.go:527-575 | A scan between an ERROR write and the final write re-queues an endpoint whose pass still runs, without any failed verification |
| `ReconcilerAbandon.AbandonedStep` | cmd/hmcollector/rf_subscriptions.go:393-416 | No step brings back an endpoint that reads COMPLETE with nothing recorded and nothing queued |
| `ReconcilerAbandon.AbandonedForever` | cmd/hmcollector/rf_subscriptions.go:639-675 | In every continuation such an endpoint stays COMPLETE and is never contacted |
| `ReconcilerAbandon.UnrecordedPassAbandons` | cmd/hmcollector/rf_subscriptions.go:575 | The final write of a pass that recorded nothing abandons its endpoint |
| `ReconcilerAbandon.OutageAbandons` | cmd/hmcollector/rf_subscriptions.go:521-575 | If every request of one pass fails, ERROR is written for group after group, and the final write still loses the endpoint for good |
| `ReconcilerAbandon.OutageFromStart` | cmd/hmcollector/rf_subscriptions.go:521-575 | From the initial state: an endpoint that does not answer during its first pass is contacted in no continuation |
| `ReconcilerAbandon.RetryReach` | cmd/hmcollector/rf_subscriptions.go:639-675 | Once work has drained, an endpoint that reads COMPLETE can ever be contacted again, if only to verify it, if and only if its last pass recorded a group |
| `ReconcilerRetry.RetryIff` | cmd/hmcollector/rf_subscriptions.go:456-458 | From a drained state in which an endpoint reads COMPLETE, a run queues it for another pass if and only if a check of a group recorded for its current record fails and a later scan visits it |
| `ReconcilerRetry.MissingStaysMissing` | cmd/hmcollector/rf_subscriptions.go:521-575 | In every continuation without such a failed check no prune, check or POST is made for the endpoint, it keeps reading COMPLETE, and no group gains a subscription, recorded or not |
| `ReconcilerRetry.HalfFailedPass` | cmd/hmcollector/rf_subscriptions.go:519-575 | A run from the initial state in which the check of the nil group fails and telemetry is subscribed: COMPLETE, telemetry recorded, no subscription for standard events |
| `Identity.LastSegmentIsName` | cmd/hmcollector/rf_subscriptions.go:139-147 | The last segment of a URL ending in "/id" is the ID if and only if the ID has no slash |
| `Identity.KeyGivesName` | cmd/hmcollector/kafka.go:93-101 | The log filter reads the context back from the Kafka key if and only if it has no dot |
| `Identity.KeyIsInjective` | cmd/hmcollector/rest.go:187 | A Kafka key determines its dot-free context and its message ID |
| `Identity.PathBaseIs` | cmd/hmcollector/rest.go:150-152 | The context restored from a path is its last non-empty segment, whatever slashes follow; a slash for a path of slashes, a dot for an empty one |
| `Identity.DestinationSegments` | cmd/hmcollector/rf_subscriptions.go:63-77 | The callback address splits into scheme (https where the endpoint needs it), host with the configured port or else the listening port unless 80 or 443, and ID |
| `Text.ItoaIsDecimal` | cmd/hmcollector/rf_subscriptions.go:71 | The port is written in decimal: digits only, no leading zero, and it reads back |
| `Identity.IdentityRoundTrip` | cmd/hmcollector/rf_subscriptions.go:56-78 | For every callback address, port and protocol choice, pruner, receiver and log filter read the same slash-free, dot-free ID back |
| `Identity.OwnSubscriptionPruned` | cmd/hmcollector/rf_subscriptions.go:127-168 | A subscription to our own address counts as wrong if and only if its context is a valid xname of another component; a blanked context does not lose it, since the empty string is no xname |
| `RedfishCache.EndpointsCache.ReadRfType` | cmd/hmcollector/cache.go:60-76 | The stored type if the timestamp agrees, else Unset |
| `RedfishCache.EndpointsCache.WriteRfType` | cmd/hmcollector/cache.go:78-94 | The field-wise update replaces exactly the entry of that endpoint |
| `RedfishCache.EndpointsCache.GetRedfishType` | cmd/hmcollector/rf.go:109-116 | A hit is returned unprobed; otherwise the probe's answer is returned and stored |
| `RedfishCache.CacheIsSound` | cmd/hmcollector/rf.go:109-116 | In every interleaving of calls each result came from a probe for the same endpoint and timestamp, and a failed probe is never served as a hit |
| `RedfishCache.UninterruptedCall` | cmd/hmcollector/rf.go:109-116 | A call of the interleaved machine that nothing interrupts probes if and only if it misses, and leaves the cache and result of the sequential view |
| `RedfishCache.ProbesIff` | cmd/hmcollector/rf.go:109-116 | In any sequence of calls, from any cache, a call probes if and only if its timestamp differs from that of the previous call for the endpoint, or that call returned Unset |
| `RedfishCache.ProbesAreRare` | cmd/hmcollector/cache.go:60-94 | Sequential calls with one timestamp probe an endpoint at most once more than probes fail, and not at all if the cache knows the answer, whatever else is asked in between |
| `RedfishCache.ChangingAttemptsAlwaysProbe` | cmd/hmcollector/cache.go:64-75 | When the timestamp changes from call to call every call probes |
| `RedfishCache.AlternatingAttemptsAlwaysProbe` | cmd/hmcollector/cache.go:64-75 | In particular when the state manager reports two timestamps in turn |
| `HttpAction.DoHTTPAction` | cmd/hmcollector/http.go:36-113 | For every server, Vault and interference of other goroutines with which the call ends at all: requests and final credentials are those of the first request that cannot lead to another, and one if-and-only-if per result: payload, unreadable body, no reply, failed refresh, unchanged credentials |
| `HttpAction.EndsExactly` | cmd/hmcollector/http.go:76-100 | The call ends after exactly m + 1 requests if and only if request m is the first that is not answered 401 or 403, or whose lookup fails, or whose lookup gives what the record holds already |
| `HttpAction.EndsIff` | cmd/hmcollector/http.go:76-100 | The recursion ends if and only if there is such a request |
| `HttpAction.GivesUpIffRefreshedElsewhere` | cmd/hmcollector/http.go:80-98 | A refused call gives up after one request, although Vault has other credentials than those tried, if and only if another goroutine has stored these in the record |
| `HttpAction.RequestsAreBounded` | cmd/hmcollector/http.go:76-100 | Retries number at most the changes of Vault's answer plus the writes of others, and exactly the changes when nobody interferes |
| `HttpAction.SettledVaultEnds` | cmd/hmcollector/http.go:76-100 | When Vault's answers change and others write finitely often every call ends, after at most one request more than both together |
| `HttpAction.ConstantVault` | cmd/hmcollector/http.go:76-100 | With a constant Vault and no interference at most two requests, the second with Vault's credentials |
| `HttpAction.RequestsDiffer` | cmd/hmcollector/http.go:90-99 | A retry never uses what the record held at the refusal, which without interference are the credentials just refused |
| `HttpAction.AlternatingVaultNeverStops` | cmd/hmcollector/http.go:90-94 | With a Vault that alternates between two accounts no number of requests is enough, even without interference |
| `PduCollector.Collector.ParseOutlet` | internal/river_collector/hpepdu.go:163-190 | A state event is emitted and stored if and only if the outlet is known and its state changed |
| `PduCollector.OutletsAreIndependent` | internal/river_collector/hpepdu.go:163-187 | What is announced and stored for an outlet depends only on its own observations, however outlets interleave |
| `PduCollector.PowerStateEvents` | internal/river_collector/hpepdu.go:163-187 | The states announced for a known outlet are the one and only stutter-free form of its observations starting from ""; the stored state is the last observed |
| `PduCollector.StutterFreeIsUnique` | internal/river_collector/hpepdu.go:163-187 | The stutter-free form of a sequence is unique |
| `PduCollector.KeysStay` | internal/river_collector/hpepdu.go:382-393 | The sensor keys, hence the polled URLs, never change, and unknown outlets announce nothing |
| `SensorIndex.IndexSensors` | internal/river_collector/hpepdu.go:284-306 | Collect, sort and number: the payloads are the sorted names with their positions as 16-bit indices and their own readings |
| `SensorIndex.SortSorts` | internal/river_collector/hpepdu.go:289 | Sorting an enumeration of a map's keys gives the keys in strictly increasing order |
| `SensorIndex.LessIff` | internal/river_collector/hpepdu.go:289 | The order of names is lexicographic: the first difference decides, and a proper prefix comes first |
| `SensorIndex.OrderDoesNotMatter` | internal/river_collector/hpepdu.go:285-306 | Any two iteration orders of the same map give the same list, hence identical payloads |
| `SensorIndex.IndexIsPosition` | internal/river_collector/hpepdu.go:291-306 | Every sensor is reported with its reading, in name order; each index is the signed 16-bit number congruent to the position, and all are exact if and only if there are at most 32768 sensors |
| `Classification.InvStep` | cmd/hmcollector/polling.go:167-436 | Every step of a classification round keeps the invariant |
| `Classification.ClassifiedOnce` | cmd/hmcollector/polling.go:167-436 | In every run and every order of goroutine appends no ID occurs twice across the two lists, both only grow and stay within HSMEndpoints, and only undecodable replies are probed again |
| `Classification.VerdictDecides` | cmd/hmcollector/polling.go:414-432 | The polled list is exactly the endpoints whose goroutine recognised them, in order of completion, and the ignore list exactly those it did not |
| `Classification.RoundIsComplete` | cmd/hmcollector/polling.go:175-436 | A round that can end has probed exactly the endpoints of its snapshot not classified before, and has classified each unless its reply did not decode |
| `PduRateLimit.Pdu.Due` | cmd/hmcollector/polling.go:73-76 | The test of a poll, taken after any trace, is that of the trace model |
| `PduRateLimit.Pdu.Answered` | cmd/hmcollector/polling.go:99 | An answer of any worker moves the shared cell to its time |
| `PduRateLimit.Pdu.Collect` | cmd/hmcollector/polling.go:71-99 | A whole poll that no other worker interrupts: it makes contact if and only if it passes the test and is answered, and the cell then holds the last answer's time |
| `PduRateLimit.PassesAgainIff` | cmd/hmcollector/polling.go:73-99 | In every interleaving of workers: a poll taken less than one interval after the start of one that passed the test passes too if and only if no request has been answered in between |
| `PduRateLimit.SeparatedBySpace` | cmd/hmcollector/polling.go:73-99 | Polls that pass the test with an answer in between start at least one interval apart |
| `PduRateLimit.RateIsBounded` | cmd/hmcollector/polling.go:73-99 | In every interleaving, polls that pass the test within a window number at most window/interval + 1 plus those taken before any answer since the previous one |
| `PduRateLimit.BoundIffNotCrowded` | cmd/hmcollector/polling.go:73-99 | window/interval + 1 bounds the contacting polls of a trace in all windows if and only if no two of them are taken within an interval without an answer in between |
| `PduRateLimit.PromptPollsAreBounded` | cmd/hmcollector/polling.go:73-99 | So it holds when an answer comes before the next contacting poll is taken, as when polls of one PDU do not overlap |
| `PduRateLimit.TwoWorkersOverlap` | cmd/hmcollector/polling.go:464-474 | Two workers that take copies of one PDU before its first answer both make contact, any time shorter than the interval apart, and break that bound |
| `Routing.RulesAreDisjoint` | cmd/hmcollector/rest.go:190-235 | No string fires two routing rules |
| `Routing.RoutingIsOrderFree` | cmd/hmcollector/rest.go:190-235 | The if-chain gives the topic of the one rule that fires, else the generic topic, or none for telemetry of unknown type, so branch order is irrelevant |
| `Routing.PathsAgree` | cmd/hmcollector/polling.go:129-147 | The polling switch routes exactly the message IDs the collectors can produce, and the event receiver gives each of them the same topic |
| `Ingress.FixSensors` | cmd/hmcollector/rest.go:160-174 | The two in-place loops give every sensor its own local time when asked and mark exactly the blank physical contexts |
| `Ingress.ParseRequest` | cmd/hmcollector/rest.go:149-236 | The messages are those of `FanOut` in the restored envelope; the handler crashes if and only if timestamps are overridden and some event has no Oem |
| `Ingress.HandleRequest` | cmd/hmcollector/rest.go:118-237 | From the payload on: bad request if and only if the payload does not decode, else the messages of its events |
| `Ingress.RoutableIsComplete` | cmd/hmcollector/rest.go:190-235 | The published positions are all positions whose message ID has a topic, in increasing order |
| `Ingress.FanOutConserves` | cmd/hmcollector/rest.go:158-236 | Each event with a topic becomes exactly one message, in order: same envelope, key of context and message ID, event unchanged but for sensor times and blank contexts |
| `Ingress.PlainEventsSurvive` | cmd/hmcollector/rest.go:166-174 | Without the override nothing crashes and an event without blank contexts is published unchanged |
| `Ingress.OverrideLosesTail` | cmd/hmcollector/rest.go:160-164 | With the override on, exactly the messages before the first event without Oem are published |
| `Ingress.WriteToKafka` | cmd/hmcollector/kafka.go:58-89 | One delivery per broker that lists the topic, in broker order |
| `Ingress.BrokersReceiveTheirTopics` | cmd/hmcollector/kafka.go:58-89 | Every broker receives exactly the messages on its topics, each once and in order |
| `Ingress.IngressConserves` | cmd/hmcollector/rest.go:118-237 | From payload to broker with the override off: the payload is read as what it means, the events with a topic become single-event messages in payload order, with a blank context taken from the path, and each broker receives exactly those on its topics |
| `Ingress.IngressIsNormal` | cmd/hmcollector/rest.go:57-113 | A payload that departs from the schema gives the same messages as its normal form |
| `EventDecoding.UnmarshalEvents` | cmd/hmcollector/rest.go:43-116 | The decoding loop, stopping at the first event that does not decode, computes `Unmarshal` |
| `EventDecoding.UnmarshalIff` | cmd/hmcollector/rest.go:43-116 | A payload decodes to a result if and only if the result is what it means: its envelope, and in order the other fields of each event object with its origin, be it a string, an object, null or missing |
| `EventDecoding.EventIsMeant` | cmd/hmcollector/rest.go:96-112 | Taking a string OriginOfCondition out and putting it back gives the event the object means |
| `EventDecoding.NormalizationIsInvisible` | cmd/hmcollector/rest.go:57-113 | A payload and its normal form (array of events, OriginOfCondition as object) decode to the same result, for every payload |
| `EventDecoding.CountAndOrder` | cmd/hmcollector/rest.go:72-113 | The i-th event of an accepted payload is what the i-th item of its Events array, or its single event object, means |
| `EventDecoding.AcceptedIff` | cmd/hmcollector/rest.go:43-116 | A payload is accepted if and only if its envelope decodes, Events is an array, an object or null, and every event object has decodable fields and an origin of an allowed form |

## Left out

- Kafka, Vault, state manager and TLS clients, CA bundle rolling, pod probes: foreign libraries and I/O, replaced by oracles and logs.
- Xname syntax and normalisation: arbitrary functions here.
- JSON bytes, case-insensitive keys, float formatting and percent-encoding: values are decoded already, keys are exact, readings are opaque.
- The Gigabyte, HPE, Intel and OpenBMC collectors and the branch payloads of PDUs: copying loops that would only add easy members.
- The chassis member loop of `httpGetRedfishType` and the model tests of `monitorPollingEndpoints`: a probe's answer and a verdict are inputs.
- Refresh of discovery fields in `doUpdateHSMEndpoints`: only the growth of the endpoint map is modelled (`Discover` in `Classification`).
- Shutdown, channel closing and `monitorSMA`: runs are modelled while `Running` holds, and a poll skipped by `smaOK` is a poll that is not in the list.
- Interleaving within a step: overlapping passes interleave by prune loop, duplicate check, and event-type GET with POST; the requests of one duplicate check are not interleaved with those of another pass.
- SubscriptionFacts.RecordedIsInPlace: needs the duplicate check to be atomic; a PATCH that reaches a subscription another goroutine has just deleted may report no error, since its status is ignored, and the group is then recorded although it is gone.
- SubscriptionClient.FixMismatch: the PATCH body omits an empty context; endpoint IDs are taken to be non-empty.
- PduCollector.Collector.ParseOutlet: the four telemetry events appended before the power-state test are not part of the result, because they copy readings.
- Ingress.WriteToKafka: a delivery is the call to the producer; what the producer does with it is not modelled.

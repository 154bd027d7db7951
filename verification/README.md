# Verified model of the Kyma Metrics Collector

The Kyma Metrics Collector (KMC) polls the Kyma Environment Broker (KEB) for runtimes, keeps the billable ones in
an in-memory cache, and lets a pool of workers scrape each cluster and send a bill to the Event Data Platform (EDP).
One poller and any number of workers share the cache and a delaying work queue. This project models that system and
proves what it keeps.

| file | content |
|---|---|
| `Domain.dfy` | runtimes, records, scans with their provenance, measurements |
| `WorkQueue.dfy` | the contract of the client-go delaying queue the model rests on |
| `Process.dfy` | class `Process`: `populateCacheAndQueue`, `processSubAccountID`, one round of `execute` |
| `Reconciliation.dfy` | what an uninterrupted poll does, per sub-account |
| `Protocol.dfy` | poller and workers as a step relation, every cache or queue access a step of its own; the invariant |
| `Safety.dfy` | every step keeps the invariant |
| `Theorems.dfy` | what holds in every reachable state |
| `Freshness.dfy` | which scans a bill falls back on, and exactly when a billed scan goes back in time |
| `Overlap.dfy` | what a poll leaves in the cache while workers run |
| `Progress.dfy` | every cached sub-account can be scraped again from every reachable state |
| `Liveness.dfy` | in every fair infinite run it is |
| `Refinement.dfy` | the methods of `Process` are runs of the protocol |
| `Examples.dfy` | concrete runs: a bill that goes back, a key that comes back, a fair run |
| `Collector.dfy` | class `Collector`: one pass with its two-stage fallback and counters |
| `Payload.dfy` | conversion of any scan, aggregation, order independence |
| `Nodes.dfy`, `Volumes.dfy` | conversion of node, claim, snapshot and Redis scans |
| `Sums.dfy` | sums and counts over sequences, with the laws that determine them |
| `Float64.dfy` | float64 rounding, defined rather than assumed, and shown to be the nearest float64 |
| `ClusterTracking.dfy` | the last-operation rule against a replay of the documented lifecycle |
| `StatusVerdict.dfy` | history and verdict of a runtime, stated on the fields of its status |
| `Keb.dfy` | pagination |
| `Jitter.dfy`, `Kubeconfig.dfy` | lifetimes with jitter, and the loading TTL cache |

How the source is read:

- Nondeterminism is explicit. Answers of clusters, KEB, EDP and the secret store, the random draw of the jitter and
  the clock are parameters; the order in which a Go map is walked and the order an unstable sort gives to equal keys
  are left open, and contracts hold for every choice.
- In `Protocol.dfy` an action carries every choice of its step and a run is a sequence of actions, so a statement
  about reachable states ranges over all interleavings and any number of workers. A collector pass touches neither
  the cache nor the queue and is therefore one step. The fields `polls`, `passes`, `bills` and each worker's `hold`
  record history; no step reads them to decide what to do.
- A scan carries the number of the pass that took it and the identity that pass ran under. That is how "taken in one
  pass, for this cluster" is stated.
- Float64 values are reals rounded after each operation by `Float64.Round`, which follows section 4.3.1 of
  IEEE 754-2019 (roundTiesToEven) with an unbounded exponent range; the values here stay far from its ends.

Findings, each with the exact condition:

- `getJitterTTL` panics for every TTL from 3m up to but not including 3m20s, because the jitter buffer truncates to
  zero and `rand.Int63n` rejects it, although its comment promises plain jitter from three minutes on
  (`Jitter.PanicsIff`). A TTL of more than two centuries can overflow 64 bits and then never expires. Every other
  positive TTL meets the freshness promise, and only those do (`Jitter.BoundedIff`).
- The last-operation rule bills a runtime whose provisioning failed and that was then updated, which the billing
  diagram does not (`ClusterTracking.LastOperationCanDisagree`). For runtimes with distinct creation times
  `ClusterTracking.TrackableAgreesIff` says exactly when the two agree; every history that follows the documented
  lifecycle is among them.
- A second poll of the same page with the same verdicts leaves the cache alone for every page. It calls `Queue.Add`
  if and only if some sub-account is listed both as trackable and as not trackable (`Reconciliation.NothingQueuedIff`),
  and the queue differs afterwards if and only if such a sub-account was cached, was not due, and is listed as not
  trackable only after its trackable runtimes (`Reconciliation.PollIdempotentIff`).
- `GetAllRuntimes` ends, against a server that cuts a list into pages and announces its length, if and only if some
  page reaches the end of the list (`Keb.TerminatesIff`); empty pages for ever keep it asking for ever.
- A later bill can use an older scan of a scanner than an earlier bill did (`Examples.BillGoesBack`). It does if and
  only if the earlier bill used a fresh scan, the later one fell back, and every pass from the earlier bill up to the
  later one ended in an error, so that the fresh scan was billed but never stored (`Freshness.BilledScanGoesBackIff`).
- A sub-account that KEB no longer reports, or reports as not trackable, can be back in the cache when a poll is over
  (`Examples.KeyComesBack`). It is there if and only if a worker that held it wrote it back after the poll began and
  the poll did not take it out again (`Overlap.LeftBehindIff`); to keys that are not written back like this the poll
  does what it would have done alone (`Overlap.PollAsIfAlone`).

## Model

| member | source | states |
|---|---|---|
| Theorems.NoSubAccountLost | pkg/process/keb_processing.go:94-106 | in every reachable state each cached key is dirty, delayed, held by a worker that will read the cache or owes a re-schedule, or is the key the poller is about to queue; covers `Cache.Add` failing because a worker wrote in between |
| Theorems.ScheduledWhenQuiet | pkg/process/process.go:116-134 | with idle workers and no pending `Queue.Add`, every cached key is ready or delayed |
| Theorems.OneHolderPerKey | pkg/process/process.go:116-129 | two workers between Get and Done never have the same key, and a held key is not ready |
| Theorems.WriteBackIsOwn | pkg/process/queue_processing.go:88-97 | a write-back changes no key but the one its worker holds |
| Theorems.RecordIntegrity | pkg/process/keb_processing.go:51-115 | every cached value is a record of its own non-empty key, not filtered, and its identity is, field by field, that of a runtime an earlier poll listed and found trackable, the provider in lower case letter by letter; the nil record of `handleError` is never dereferenced |
| Theorems.BillIdentity | pkg/process/queue_processing.go:63-70 | so is the identity of every bill of every run |
| Theorems.DueByTimerOrPoll | pkg/process/queue_processing.go:108 | with a positive interval, a key becomes due only when its timer fires or the poller queues it |
| Theorems.CachedScansAreSnapshots | pkg/process/queue_processing.go:63-97 | cached scans are none, or one convertible scan per scanner, all of one pass under the record's own identity |
| Theorems.RescheduledOncePerHold | pkg/process/queue_processing.go:16-114 | a finished hold re-scheduled its key exactly once if it was cached at the read, never otherwise |
| Theorems.BillsOwnScansOnly | pkg/process/queue_processing.go:62-86 | no bill of any run uses a scan of another identity; its scans come from the billing pass and at most one earlier pass, and with an earlier complete pass every scanner is billed |
| Theorems.PayloadOfEveryBill | pkg/collector/edp/collector.go:36-83 | for every bill of every run, every visiting order and every order of machine types: Total <= Rounded <= Total + 31 * Count, and one measurement per scanner once a pass was complete |
| Freshness.FallbackNeverGoesBack | pkg/process/queue_processing.go:81-97 | bills are ordered by pass, and the snapshot behind a later bill of a sub-account is never older than the one behind an earlier bill |
| Freshness.MonotoneStep | pkg/process/queue_processing.go:81-97 | every step keeps the invariant behind that: what is cached or held is not older than what any past bill left, up to a write-back that is under way |
| Freshness.CachedScansWereBilled | pkg/process/queue_processing.go:75-97 | the scans kept in the cache are exactly those of an earlier bill of the same cluster that the backend accepted, from a pass without error |
| Freshness.SuccessIff | pkg/collector/edp/collector.go:36-83 | for every bill of every run: its pass ended without error iff the backend accepted it and it uses a scan of that pass for every scanner |
| Freshness.BilledScanGoesBackIff | pkg/collector/edp/collector.go:58-160 | between two bills of a sub-account the scan billed for a scanner goes back in time iff the first was fresh, the second a fallback, and every pass from the first up to the second ended in an error |
| Overlap.PollAsIfAlone | pkg/process/keb_processing.go:44-176 | for every interleaving: when a poll is over, every key is as the poll alone would have left it, except keys written back since it began and not taken out since |
| Overlap.WrittenBackStays | pkg/process/keb_processing.go:94-116 | those hold the last record written back, or an empty record of a trackable runtime of the page that the poller replaced it with |
| Overlap.LastWriteBackHolds | pkg/process/keb_processing.go:95-100 | over every run: what a worker writes back is what the cache holds until a write-back, a removal, a rename or a new poll, also when the poller had read the key as absent |
| Overlap.ReplacedOnlyOnRename | pkg/process/keb_processing.go:95-116 | in every reachable state, a step other than a write-back replaces a cached item only if the poller had found it under another shoot name; `Cache.Add` never does |
| Overlap.DecisionOnFields | pkg/process/keb_processing.go:74-149 | what a decision does to any key, whatever workers did since the read: it removes only what was found, adds only what is absent, replaces only a changed shoot name |
| Overlap.QueuesWhatItAdds | pkg/process/keb_processing.go:95-106 | the poller goes on to queue iff it has brought an absent key into the cache |
| Overlap.LeftBehindIff | pkg/process/queue_processing.go:97 | a key the poll did not report, or last judged not trackable, is cached afterwards iff a worker that held it wrote it back after the poll began and the poll did not take it out after that |
| Overlap.OnTrackStep | pkg/process/keb_processing.go:50-175 | every step of poller or worker keeps the invariant behind that |
| Liveness.AlwaysScrapedAgain | pkg/process/process.go:115-135 | in every fair infinite run, with any number of workers: a sub-account that stays cached is read by a worker again, at every time |
| Liveness.ReadyIsTaken | pkg/process/process.go:117-119 | a ready key is handed to a worker, first in first out |
| Examples.BillGoesBack | pkg/process/queue_processing.go:81-86 | a run in which a bill goes back from a scan of pass 1 to one of pass 0 |
| Examples.KeyComesBack | pkg/process/queue_processing.go:97 | a run in which a dropped key is written back |
| Examples.FairRunExists | pkg/process/process.go:115-135 | a fair run that keeps a key cached |
| Progress.CanAlwaysBeScraped | pkg/process/process.go:115-135 | from every reachable state, every cached key has a continuation in which a worker reads its record |
| Safety.InvStep | pkg/process/queue_processing.go:16-114 | every step of poller or worker keeps the whole invariant |
| Safety.InvRun | pkg/process/process.go:95-135 | hence every run does |
| Safety.NothingLostStep | pkg/process/keb_processing.go:94-115 | no step leaves a cached key uncovered |
| Safety.ExclusiveStep | pkg/process/process.go:116-134 | every step keeps holds exclusive and the queue consistent with them |
| Safety.RecordsStep | pkg/process/keb_processing.go:74-116 | every step keeps cached and held records well-formed |
| Safety.NewBillIsGood | pkg/collector/edp/collector.go:58-75 | a bill built from a well-formed record uses only that record's own scans |
| Refinement.PollIsRun | pkg/process/keb_processing.go:44-176 | what the poll method does to cache and queue is a run of poller steps |
| Refinement.TurnIsRun | pkg/process/process.go:116-134 | what an uninterrupted worker round does is a run of worker steps |
| Process.Process.constructor | pkg/process/process.go:62-92 | the process starts with an empty cache and an empty queue |
| Process.Process.PopulateCacheAndQueue | pkg/process/keb_processing.go:44-176 | cache and queue after a poll equal the reconcile function of the old ones, for verdicts the unstable sort allows |
| Process.Process.ReconcileRuntime | pkg/process/keb_processing.go:74-149 | the effect of one runtime that is not skipped |
| Process.Process.HandleRuntime | pkg/process/keb_processing.go:50-150 | one turn of the loop, with the verdict the filter and the sort allow |
| Process.Process.CleanUp | pkg/process/keb_processing.go:155-175 | exactly the keys KEB no longer reports are removed |
| Process.Process.ProcessSubAccountID | pkg/process/queue_processing.go:16-114 | per case: missing key, value that is no record, error, success; new cache, queue and re-queue verdict; what is sent names the cluster of the record, and a success has been accepted by the backend |
| Process.Process.ExecuteOnce | pkg/process/process.go:117-133 | the round on the first ready key, with re-scheduling before Done on errors and after it on success |
| Reconciliation.CachedAfterPollIff | pkg/process/keb_processing.go:50-175 | a key is cached after a poll iff its last acted-on runtime is trackable, or it appears only in skipped runtimes and was cached |
| Reconciliation.CachedOnFields | pkg/process/keb_processing.go:50-175 | the same on the fields: the last runtime outside the filter is trackable, or all runtimes of the key are filtered and it was cached |
| Reconciliation.LastRuntimeDecides | pkg/process/keb_processing.go:74-149 | the last acted-on runtime decides presence and gives the shoot name |
| Reconciliation.OthersKeptOrDropped | pkg/process/keb_processing.go:67-72 | keys only in skipped runtimes stay as they were, unreported keys go |
| Reconciliation.ItemOrigin | pkg/process/keb_processing.go:75-83 | an item is the one found or a fresh record of a trackable runtime of the page |
| Reconciliation.ScansSurvivePoll | pkg/process/keb_processing.go:108-116 | a record keeps its scans if every runtime of its key is trackable under its shoot name |
| Reconciliation.QueuedExactlyOnAppearance | pkg/process/keb_processing.go:95-106 | `Queue.Add` is called exactly on absent-to-present transitions, in order |
| Reconciliation.AppearsIffNew | pkg/process/keb_processing.go:95-106 | with one runtime per sub-account that means absent before the poll and present after |
| Reconciliation.AppearsIff | pkg/process/keb_processing.go:95-106 | on every page: a key is queued iff it has a trackable runtime and was absent before or dropped earlier in the page |
| Reconciliation.CacheIdempotent | pkg/process/keb_processing.go:44-176 | for every page a second poll leaves the cache as the first left it |
| Reconciliation.SecondPollQueuesIff | pkg/process/keb_processing.go:95-149 | a second poll queues a key iff the page lists it both as trackable and as not trackable |
| Reconciliation.NothingQueuedIff | pkg/process/keb_processing.go:95-149 | a second poll never calls `Queue.Add` iff no key is listed both ways |
| Reconciliation.PollIdempotentIff | pkg/process/keb_processing.go:44-176 | a second poll changes neither cache nor queue iff no cached key that is not due is listed as trackable and only later as not trackable |
| Reconciliation.PollIdempotent | pkg/process/keb_processing.go:44-176 | in particular a second poll changes neither cache nor queue if every sub-account has one runtime |
| Reconciliation.RepeatedSubAccountIsQueued | pkg/process/keb_processing.go:136-149 | the shortest page that meets the condition: a second poll queues the key again |
| WorkQueue.GetValid | pkg/queue/queue.go:5-13 | Get hands out a key nobody holds and keeps ready equal to dirty minus processing, without duplicates |
| Collector.Collector.ScanOne | pkg/collector/edp/collector.go:91-111 | one scanner: new scan, previous scan, or a counted miss |
| Collector.Collector.ExecuteScans | pkg/collector/edp/collector.go:85-115 | scans after stage one, the joined error, and both counters |
| Collector.Collector.ConvertOne | pkg/collector/edp/collector.go:125-156 | one scan: itself, its predecessor, or nothing; one counted conversion |
| Collector.Collector.ConvertScansToEDPMeasurements | pkg/collector/edp/collector.go:117-160 | for every visiting order: the usable scans, one measurement each, the joined error, one counted conversion per scan |
| Collector.Collector.CollectAndSend | pkg/collector/edp/collector.go:36-83 | returned scans, error and payload of a pass; with distinct scanner IDs one scan and one conversion outcome counted per scanner, as the success or failure it was |
| Collector.FallbackRule | pkg/collector/edp/collector.go:85-160 | both stages together: the new scan if taken and convertible, else the previous one if convertible, else nothing |
| Collector.SuccessIsSnapshot | pkg/collector/edp/collector.go:36-83 | a pass without error returns a complete map taken in that pass |
| Collector.OkIff | pkg/collector/edp/collector.go:36-83 | a pass ends without error iff there are scanners, every scan succeeds, every scan converts and the backend accepts |
| Collector.BilledIff | pkg/collector/edp/collector.go:58-64 | a payload is built iff some scanner has a new or a previous scan that converts |
| Collector.UsedOrigin | pkg/collector/edp/collector.go:100-106 | every billed scan is of this pass or from the previous map |
| Collector.FallbackComplete | pkg/collector/edp/collector.go:85-160 | with a complete previous map the result is complete whatever fails |
| Collector.OneMeasurementPerScanner | pkg/collector/edp/collector.go:124-157 | a complete map gives exactly one measurement per scanner |
| Collector.ChainInvariant | pkg/collector/edp/collector.go:85-160 | along a chain fed its own output every scan converts, coverage never shrinks, and the double conversion failure is never reached |
| Collector.OneEventPerScanner | pkg/collector/edp/collector.go:90-127 | the two functions count one scan and one conversion outcome per scanner between them |
| Collector.ReorderedBill | pkg/collector/edp/payload.go:31-46 | measurements that agree per scanner add up to the same bill in any two orders |
| Collector.PassOrderIndependent | pkg/collector/edp/collector.go:124-157 | the payload of a pass is the same bill for every order of the scans and every order of the machine types in each node scan |
| Payload.NewPayload | pkg/collector/edp/payload.go:19-29 | the payload names the cluster and carries the aggregate |
| Payload.AggregateEDPMeasurements | pkg/collector/edp/payload.go:31-46 | the loop computes the aggregate |
| Payload.AggregateConserves | pkg/collector/edp/payload.go:34-43 | every number of the aggregate is the sum of that number over the measurements, and every machine type entry occurs as often as in all of them |
| Payload.OrderIndependent | pkg/collector/edp/payload.go:31-46 | permuted measurements give the same bill |
| Payload.EntryOrderIndependent | pkg/resource/node/scan.go:54-59 | so do measurements whose histograms are listed in another order |
| Payload.ConvertScan | pkg/resource/interface.go:30-34 | the conversion of any scan: a measurement the specification allows, or an error exactly when there is none |
| Payload.ConversionDeterministic | pkg/resource/interface.go:30-34 | two conversions of one scan give the same bill |
| Payload.ConvertibleIff | pkg/resource/interface.go:30-34 | a scan converts iff every machine type is known, every ready snapshot has a restore size, every tier is priced |
| Payload.NodeBill | pkg/resource/node/scan.go:39-61 | for a converted node scan: each entry counts the nodes whose label is its name in lower case, and every node is in an entry |
| Payload.NodeTotals | pkg/resource/node/scan.go:49-50 | CPU and memory are those of the machine type of each node, added up |
| Payload.VolumeBill | pkg/resource/pvc/scan.go:47-79 | claims and snapshots: one volume per bound claim or ready snapshot, the sum of their whole GiB and of those rounded up to 32 |
| Payload.RedisBill | pkg/resource/redis/scan.go:35-48 | one volume per instance at the price of its tier |
| Payload.PayloadWithinRounding | pkg/collector/edp/payload.go:40-42 | any payload has Total <= Rounded <= Total + 31 * Count |
| Nodes.NodeEDP | pkg/resource/node/scan.go:32-62 | CPU and memory sums over known nodes, a histogram of them, and no error iff every node is known |
| Nodes.HistogramEntries | pkg/resource/node/scan.go:54-59 | for every map order: distinct names, positive counts, every type listed |
| Nodes.HistogramConserves | pkg/resource/node/scan.go:39-59 | any per-node sum equals its count-weighted sum over the histogram |
| Nodes.NodeConservation | docs/contributor/assets/prod-schema.json:142-152 | counts sum to the known nodes; instances times CPU and times RAM give the totals |
| Nodes.MeasurementOfLabels | pkg/resource/node/scan.go:39-59 | histogram and error condition stated on the labels of the nodes |
| Nodes.TotalsOfLabels | pkg/resource/node/scan.go:39-52 | CPU and memory stated on the labels of the nodes |
| Volumes.HasAllLabels | pkg/resource/pvc/scan.go:82-91 | true iff every wanted label is present with its value |
| Volumes.PvcEDP | pkg/resource/pvc/scan.go:42-80 | the loop tallies the billed size of each claim |
| Volumes.PvcBillOfClaims | pkg/resource/pvc/scan.go:47-77 | the tally on the claims: bound claims counted, the sum of their sizes and of their rounded sizes |
| Volumes.NfsLabelsIff | pkg/resource/pvc/scan.go:24-28 | which three labels make an NFS claim |
| Volumes.BilledSizeExact | pkg/resource/pvc/scan.go:49-75 | the billed size in whole numbers: bound claims only, NFS three times, label before capacity |
| Volumes.PvcSizeExact | pkg/resource/pvc/scan.go:99-107 | for 0..2^53 the float computation equals the floor of milli / (1000 * 2^30) |
| Volumes.RoundedToFactorExact | pkg/resource/pvc/scan.go:93-95 | for 0..2^53 the float rounding equals rounding up to a multiple of 32 |
| Volumes.PvcMeasurementBounds | pkg/resource/pvc/scan.go:47-77 | Rounded is a multiple of 32, at least the rounded Total, at most Total + 31 * Count; up to 2^40 claims fit an int64 |
| Volumes.VscEDP | pkg/resource/vsc/scan.go:34-58 | the loop tallies ready snapshots; an error iff a ready one has no restore size |
| Volumes.VscBillOfSnapshots | pkg/resource/vsc/scan.go:38-55 | the tally on the snapshots |
| Volumes.VscSizeExact | pkg/resource/vsc/scan.go:60-64 | for 0..2^53 the float computation equals the floor of value / 2^30 |
| Volumes.VscMeasurementBounds | pkg/resource/vsc/scan.go:34-68 | the same bounds for snapshots |
| Volumes.ListTiers | pkg/resource/redis/scan.go:51-67 | all tiers of the three providers, in order |
| Volumes.RedisEDP | pkg/resource/redis/scan.go:30-49 | price sums without rounding, and no error iff every tier is priced |
| Volumes.RedisBillOfTiers | pkg/resource/redis/scan.go:35-46 | total and count on the tiers |
| Float64.RoundIsNearest | pkg/resource/pvc/scan.go:104 | no float64 is nearer to x than Round(x) |
| Float64.RoundIsFloat | pkg/resource/pvc/scan.go:104 | Round(x) is a float64 |
| Float64.RelativeError | pkg/resource/pvc/scan.go:104 | one rounding errs by at most 2^-53 of its argument |
| ClusterTracking.SortOperations | pkg/process/cluster_tracking.go:69-115 | a sorted permutation of all collected operations, which `StatusVerdict.HistoryOfStatus` counts |
| ClusterTracking.IsRuntimeTrackable | pkg/process/cluster_tracking.go:33-55 | a verdict some admissible sort leads to |
| StatusVerdict.HistoryOfStatus | pkg/process/cluster_tracking.go:69-107 | a sorted history holds every operation exactly as often as the status field of its kind lists it |
| StatusVerdict.VerdictOfStatus | pkg/process/cluster_tracking.go:33-55 | on the fields alone: trackable is possible iff a succeeded provisioning or unsuspension, an update or an upgrade is among the latest operations; not trackable iff a deprovisioning, a suspension or an unsuccessful provisioning or unsuspension is, or there is none |
| StatusVerdict.LatestDecides | pkg/process/cluster_tracking.go:42-54 | the verdict is forced when all the latest operations speak the same way |
| ClusterTracking.VerdictIffLatest | pkg/process/cluster_tracking.go:33-55 | the possible verdicts are exactly those of the operations with the latest creation time |
| ClusterTracking.TieRobust | pkg/process/cluster_tracking.go:109-112 | the verdict is forced iff those operations agree |
| ClusterTracking.BilledWhileRunning | docs/contributor/README.md:71-96 | on lifecycle runs the billing diagram is billable exactly while the cluster runs |
| ClusterTracking.LastOperationRefinesReplay | pkg/process/cluster_tracking.go:42-54 | on lifecycle runs the last operation gives the verdict of the whole replay |
| ClusterTracking.TrackableRefinesLifecycle | pkg/process/cluster_tracking.go:33-55 | a runtime with distinct creation times that follows the lifecycle is trackable iff the replay ends billable |
| ClusterTracking.ReplayIffStartedAndNotEnded | docs/contributor/README.md:86-96 | the replay is billable iff billing was started and not ended since |
| ClusterTracking.LastOperationAgreesIff | pkg/process/cluster_tracking.go:47-54 | on arbitrary histories, exactly when rule and replay agree |
| ClusterTracking.TrackableAgreesIff | pkg/process/cluster_tracking.go:33-55 | a runtime with distinct creation times gets the verdict of the replay iff that condition holds of its history |
| ClusterTracking.LastOperationCanDisagree | pkg/process/cluster_tracking.go:52-53 | a runtime with a failed provisioning and a later update is trackable, while the replay of its one sorted history is not billable |
| Keb.GetAllRuntimes | pkg/keb/client.go:57-86 | against any server, after any number of requests: still asking because every page so far fell short of the total, or ended by the first page that did not, in its failure or with the concatenated pages, Count their length and TotalCount the sum of page counts |
| Keb.YieldsOnce | pkg/keb/client.go:57-86 | the answers of the server determine the outcome |
| Keb.DoneOnPages | pkg/keb/client.go:69-83 | for any server: the data of the pages in order, its length, and the sum of the stated counts, where the announced total is first reached |
| Keb.PaginationExact | pkg/keb/client.go:63-81 | against every server that cuts a list into pages, empty ones included: the whole list in order with both counts, or still asking exactly when no page has reached the end |
| Keb.TerminatesIff | pkg/keb/client.go:63-81 | the loop ends iff some page reaches the end of the list |
| Keb.PaginationComplete | pkg/keb/client.go:63-81 | if no page below the end is empty, one request per runtime returns the whole list in order with Count = TotalCount = its length |
| Keb.EmptyPagesNeverStop | pkg/keb/client.go:75-80 | one runtime announced and only empty pages: still asking after any number of requests |
| Jitter.PanicsIff | pkg/runtime/kubeconfigprovider/kubeconfig.go:131-143 | the call panics iff 3m <= ttl < 3m20s |
| Jitter.LifetimeBounds | pkg/runtime/kubeconfigprovider/kubeconfig.go:131-143 | the lifetime is ttl below three minutes, otherwise above ttl minus one minute and below 1.3 ttl, and negative if the draw takes it beyond 64 bits |
| Jitter.BoundedIff | pkg/runtime/kubeconfigprovider/kubeconfig.go:131-143 | every draw gives a lifetime within these bounds iff the TTL neither panics nor can overflow; a TTL whose 1.3-fold fits 64 bits cannot |
| Jitter.DrawSpreads | pkg/runtime/kubeconfigprovider/kubeconfig.go:139-142 | each minute drawn is a minute of lifetime on top of the whole minutes of the TTL |
| Kubeconfig.KubeconfigProvider.constructor | pkg/runtime/kubeconfigprovider/kubeconfig.go:41-55 | an empty cache with the given TTL |
| Kubeconfig.KubeconfigProvider.DeleteExpired | pkg/runtime/kubeconfigprovider/kubeconfig.go:78 | exactly the expired items are removed |
| Kubeconfig.KubeconfigProvider.Load | pkg/runtime/kubeconfigprovider/kubeconfig.go:59-73 | the loader stores what the secret held when read, with a lifetime; no config, or a panic, stores nothing |
| Kubeconfig.KubeconfigProvider.Get | pkg/runtime/kubeconfigprovider/kubeconfig.go:75-86 | a served value is non-empty and was the config entry of the secret, read at most a lifetime plus the longest time from reading to storing ago; an item serves until it expires, and hits leave the expiry alone; misses load, fail or panic as stated |

## Left out

- HTTP, retries, JSON, Kubernetes clients and list calls: their answers are parameters.
- Prometheus, tracing and logging: only the scan and conversion counters are kept; deletion of metrics in a poll is not modelled.
- go-cache, ttlcache and client-go internals: the cache is a map, the TTL map compares expiry with the clock, and `WorkQueue.dfy` states the queue contract; shutdown of the queue is not modelled.
- Start, wait groups, the HTTP service, flags, configuration and the parsing of the filter file: plumbing; the filter is a set.
- Unified metering and all `UM` methods: stubs in the repository.
- Lookup of cloud specifications by provider name: a map from provider to machine types.
- ToLower: lower-cases ASCII letters only.
- Progress.CanAlwaysBeScraped: shows that a continuation exists from every reachable state; `Liveness.AlwaysScrapedAgain` covers what a fair scheduler must do. That the Go scheduler and its timers are fair is assumed there.
- Overlap.PollAsIfAlone: speaks of the cache; which keys an interleaved poll queues is covered step by step by `Overlap.QueuesWhatItAdds`, and over runs by `Theorems.NoSubAccountLost`.
- Kubeconfig.KubeconfigProvider.Get: calls do not overlap; TTLs are positive, since other values switch expiry off.
- Nodes.NodeEDP: CPU and memory are summed over the reals, so rounding of float64 additions is not modelled.
- Volumes.PvcEDP: sums are unbounded integers; `Volumes.PvcMeasurementBounds` shows that up to 2^40 claims fit an int64. Quantities are non-negative milli-values; saturation and parsing of quantities are not modelled.
- Volumes.VscEDP: sums are unbounded integers.
- ClusterTracking.SortOperations: works on sequences, with an insertion sort standing for the library sort; nothing relies on more than its contract.

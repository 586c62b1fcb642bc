# ChainMesh: verified models of the gateway's stateful protocols

This project models, in Dafny 4.11, the parts of the ChainMesh gateway whose guarantees hold over whole
runs, and proves them for every input, every run and every reachable state:

- `RateLimiter.dfy`, `RateLimiterTheorems.dfy`: the three-tier cascaded rate limiter on Redis counters,
  with any number of calls in flight, interleaved script by script, lost replies and failed scripts. The
  main results are the closed form of a day's admissions, no over-admission of any window and exactly how
  late a script may run for that, and the sliding-window bound that fixed windows give.
- `Failover.dfy`, `FailoverTheorems.dfy`: endpoint health, routing order and the failover loop. Health is a
  function of the trace of marks, the order is a sorted and partitioned permutation, and an endpoint that
  always fails costs at most m + 2 attempts over any run of up to m concurrent calls.
- `Telemetry.dfy`, `TelemetryTheorems.dfy`, `TelemetryRecorder.dfy`: the bounded telemetry queue, its retrying worker and the
  cancel-and-drain shutdown: conservation, FIFO order, exact drop counters, bounded shutdown, and exactly
  when a shutdown strands a job.
- `Stats.dfy`, `StatsTheorems.dfy`, `StatsStore.dfy`: the statistics summary from the grouped view has
  exactly the same correct answers as the direct queries, with the cutoff rounded up to a minute.
- `Usage.dfy`: usage metering as an order-independent aggregate, from request outcomes to daily listing.
- `Manager.dfy`: configuration reconciliation: exact, idempotent, leaking no health checker, also when reloads
  and Stop overlap; and exactly when the string signature it relies on leaves a client stale.
- `KeyStore.dfy`, `AuthCache.dfy`: the API key store and the tenant cache in front of it: one live key per
  tenant, dead keys stay dead, prefix lookup equals full scan, bounded staleness, and a bound on how long a
  rotated key still authenticates.
- `RpcCache.dfy`: the RPC response cache: an injective key, and provenance and freshness of every hit.
- `Counting.dfy`, `Strings.dfy`, `Json.dfy`, `Options.dfy`: shared sums, groupings, string splitting, the
  lexical structure of JSON, optional values.

`dafny verify dfyconfig.toml` checks everything.

## How the model is built

Each stateful component is a class with the source's fields, whose methods carry the source's branches and
loops and are proved to compute a specification function of the old state. The same specification functions
are the steps of an event system in which concurrent requests, goroutines and transactions interleave
freely, and the theorems are about all runs of that system; `SequentialCallIsARun`, `SendIsARun` and
the contracts of `TelemetryRecorder` connect a method that runs alone to the system's runs. Contracts of main
operations say what their results are in the fields of the records themselves, not only through the
specification functions. What the environment decides (replies,
latencies, clock readings, which of two ready `select` cases runs, whether a write succeeds) is an event or a
parameter. Where a run depends on a timing assumption, the assumption is a named predicate (`TimelyRun`)
or part of the step (`Timing.delay`).

What the proofs found out about the code:

- The comment at `redis.go:118` calls the three checks atomic; each script is, the cascade is not. The
  quotas hold all the same while scripts run soon enough after their call read the clock: a bound on that
  delay protects a tier if and only if it is at most the tier's TTL minus its window, 1 s, 60 s and 3600 s
  (`OverAdmissionIff`).
- A reply that is lost on one of a window's first `quota` increments uses up one place of the quota without
  admitting anyone; one lost later costs nothing. A quota is used in full if and only if no reply was lost so
  early (`LostRepliesFallShort`).
- The rollup path answers for the cutoff rounded up to a minute. Off a minute boundary its request total is
  right if and only if the partial minute is empty (`UnalignedTotalsAgreeIff`).
- The two paths label a configuration with an empty name differently; their network counts agree if and
  only if no counted row belongs to one (`NetworkCountsAgreeIff`).
- The configuration signature is shared by a configuration with other endpoints if and only if one of its
  own endpoints contains a `|` (`SignatureIsAmbiguousIff`); and exactly then some change of it leaves, after
  a successful reload, the old client with the old endpoints in place (`StaleClientIff`). Changes range over
  all strings a row of the table can hold, whether or not a handler of the gateway writes them; so do the
  empty names above.
- A reload that listed its configurations before `Stop` puts clients in the map whose health checkers have
  ended and which nobody stops (`ReloadAfterStop`).
- The comment at `recorder.go:58` speaks of remaining jobs as dropped, but a job abandoned in a backoff is
  in no drop counter. A shutdown can abandon one if and only if at the cancellation some job has a backoff
  still ahead of it (`ShutdownAbandonsIff`), and a shutdown with a clean drain can leave a job in the queue if and only if a sender
  was between its context check and its send at the cancellation (`CleanShutdownStrandsIff`).
- The RPC cache key is unambiguous even when network identifiers contain the separating colon: a collision would
  need parameters that are not JSON text (`CacheKeyInjective`, by `NoSuchSuffix`).
- A tenant cache item still serves at the instant it expires, so the staleness bound is attained: a rotated
  key can authenticate x after its rotation if and only if x is at most ttl + delay (`RotatedKeyServesIff`).
- No loop over query rows asks why the rows ended, so a query that breaks off midway yields a truncated list
  and no error. A summary is then served without falling back, and is right if and only if every list
  arrived whole (`RawServedIff`, `RollupServedIff`); so is a daily listing (`CutListingIff`); and reload prunes
  the enabled networks that did not arrive (`TruncatedListingIff`).
- The rollup path answers for the last refresh: its request total is right for the log since if and only if
  no newer row is since the cutoff (`GrownLogTotalsAgreeIff`).

## Model

| member | source | states |
|---|---|---|
| RateLimiter.Client.EvalScript | backend/shared/storage/redis/redis.go:110-116 | One script execution: an absent or expired key restarts at 1 with a new deadline, a live one is incremented and keeps its deadline; a script that did not run changes nothing |
| RateLimiter.Client.CheckRateLimits | backend/shared/storage/redis/redis.go:120-199 | Without an error a call is allowed iff the counters it leaves are all within the quotas; a rejection names the first tier whose counter is beyond its quota, and touches no later key; an error names a tier whose script gave no reply; reset, retry hint, minute limit and remaining quota on each path; the verdict is that of the phase the cascade ended in |
| RateLimiter.Client.RunCascade | backend/shared/storage/redis/redis.go:120-199 | The cascade takes exactly the steps of the event system, and every field of its result is determined by where it ended, on every path |
| RateLimiter.EndMeans | backend/shared/storage/redis/redis.go:136-196 | Where a call that ran alone ended, read off the counters it left and the replies it got |
| RateLimiter.RetrySeconds | backend/shared/storage/redis/redis.go:164-170 | The retry hint is 1 with less than a second left and otherwise the whole seconds to the deadline |
| RateLimiter.NextDay | backend/shared/storage/redis/redis.go:186 | The day reset is the first instant of the next day's window |
| RateLimiterTheorems.StepKeepsInv | backend/shared/storage/redis/redis.go:127-198 | Every event of any call in flight keeps, tier by tier and whatever the quotas: each counter is the number of calls that incremented it and cannot expire while timely scripts may use it, and no more calls have cleared the tier than the largest quota a call of the window was made with |
| RateLimiterTheorems.StepKeepsFixed | backend/shared/storage/redis/redis.go:127-198 | And for a tenant whose quotas do not change: of the first `quota` increments of a window exactly those whose reply was lost did not get their call past the tier |
| RateLimiterTheorems.CounterIsExact | backend/shared/storage/redis/redis.go:110-147 | In every reachable state the stored counter equals the number of calls that ran that tier's script, all of which got past every earlier tier, so a call stopped at one tier consumes nothing of a later one |
| RateLimiterTheorems.NeverOverAdmitsLargest | backend/shared/storage/redis/redis.go:143-146 | The same with quotas that change at any time: the calls that cleared the tier in a window are no more than the largest quota one of its calls was made with |
| RateLimiterTheorems.NeverOverAdmits | backend/shared/storage/redis/redis.go:143-146 | In every state reached with the tier's scripts timely, whatever fails and however late other tiers' scripts are, no second, minute or day lets more calls past the tier than the tenant's unchanging quota |
| RateLimiterTheorems.LostRepliesFallShort | backend/shared/storage/redis/redis.go:139-146 | Of the calls that ran a tier's script, min(number, quota) get past it less exactly those whose reply was lost on one of the window's first `quota` increments; the quota is used in full iff there is none |
| RateLimiterTheorems.LateScriptOverAdmits | backend/shared/storage/redis/redis.go:110-116 | For every tier, and every quota it may have alone, a run with scripts at most one nanosecond beyond TTL minus window admits one call more than the quota |
| RateLimiterTheorems.OverAdmissionIff | backend/shared/storage/redis/redis.go:110-116 | For every tier and lateness bound: some run whose scripts of the tier are within it over-admits the tier iff the bound exceeds TTL minus window |
| RateLimiterTheorems.TierCaps | backend/shared/storage/redis/redis.go:136-196 | On settled calls a tier passes exactly min(quota, calls reaching it), or all of them if it is off |
| RateLimiterTheorems.ClosedForm | backend/shared/storage/redis/redis.go:118-198 | For any interleaving, a day admits min(QD, sum over minutes of min(QM, sum over seconds of min(QS, arrivals))), a quota that is not positive dropping its min |
| RateLimiterTheorems.SingleTierPassesQuota | backend/gateway/middleware/ratelimit_test.go:68-99 | With one tier on, exactly min(arrivals, quota) of a window's calls are admitted |
| RateLimiterTheorems.SlidingWindowBound | backend/shared/storage/redis/redis.go:136-171 | Any half-open interval of length L sees at most (ceil(L/window) + 1) * quota admissions, per tier, in every run |
| RateLimiterTheorems.AnyMinuteAtMostTwice | backend/shared/storage/redis/redis.go:150-171 | Any sixty seconds see at most twice the per-minute quota |
| RateLimiterTheorems.SequentialCallIsARun | backend/shared/storage/redis/redis.go:120-199 | A call run alone is a run of the interleaved system with the same store and verdict |
| Failover.Client.constructor | backend/shared/blockchain/client.go:44-56 | Every configured endpoint starts healthy with an empty record |
| Failover.Client.MarkSuccess | backend/shared/blockchain/client.go:419-433 | Of the endpoint's record, created if there is none, exactly the fields of a successful call change; no other record does |
| Failover.Client.MarkFailure | backend/shared/blockchain/client.go:435-450 | The same for a failed call, unhealthy from the third failure in a row |
| Failover.Client.RecordProbe | backend/shared/blockchain/client.go:126-199 | The same for a probe: success needs a 2xx status, a parseable body and no RPC error |
| Failover.Client.RunHealthCheck | backend/shared/blockchain/client.go:106-203 | A round of probes, landing in any order, applies exactly one mark per configured endpoint |
| Failover.MarksMatchReplies | backend/shared/blockchain/client.go:126-296 | Each probe and each attempt makes one mark, a good one exactly for the replies acceptable to it: to Call a body that parses, to ProxyRaw a 2xx status, to a probe both and no RPC error |
| Failover.SortByLatency | backend/shared/blockchain/client.go:406-408 | In-place sort: non-decreasing recorded latencies, same multiset |
| Failover.Client.EndpointsForCall | backend/shared/blockchain/client.go:376-417 | A permutation of the configured endpoints in which all before a healthy one are healthy and of no greater recorded latency |
| Failover.Client.TryInOrder | backend/shared/blockchain/client.go:220-295 | The loop tries a prefix of the route, stops at the first acceptable reply and returns its body, fails only when all are unacceptable, and applies exactly one mark per attempt; acceptable is parseable for Call, 2xx for ProxyRaw |
| Failover.Client.Send | backend/shared/blockchain/client.go:206-371 | Call and ProxyRaw: the loop along an order of the health snapshot that puts healthy endpoints first, by non-decreasing recorded latency |
| FailoverTheorems.HealthIsAFunctionOfTheTrace | backend/shared/blockchain/client.go:126-199 | For every interleaving of probes and calls: the map's domain stays the configured set, ConsecutiveFails is the length of the endpoint's trailing failure run, Healthy iff that is below 3, totals count call outcomes only, Latency is that of the last mark that is not a call failure |
| FailoverTheorems.DescriptionIsUnique | backend/shared/blockchain/client.go:21-29 | That description determines the whole record |
| FailoverTheorems.InterleavingIsIrrelevant | backend/shared/blockchain/client.go:114-202 | Traces that agree endpoint by endpoint leave the same health map |
| Failover.RoutingOrderIsPermutation | backend/shared/blockchain/client.go:373-417 | Every routing order is a permutation of the configured endpoints, duplicates kept, healthy before unhealthy and by non-decreasing recorded latency, an endpoint without a record counting as healthy with latency 0 |
| Failover.UnhealthyKeepOrder | backend/shared/blockchain/client.go:390-416 | The unhealthy endpoints come last, in the order in which they are configured |
| FailoverTheorems.FreshOrderIsNoThreat | backend/shared/blockchain/client.go:373-417 | Once an endpoint is marked unhealthy no new snapshot puts it before a healthy one |
| FailoverTheorems.StepKeepsInv | backend/shared/blockchain/client.go:219-296 | Every event keeps the potential: attempts on the bad endpoint up to its third failure, then attempts plus calls still about to reach it at most m + 2 |
| FailoverTheorems.BadEndpointCost | backend/shared/blockchain/client.go:219-296 | An always-failing endpoint is attempted at most m + 2 times over any run of up to m concurrent calls and probes, three times with sequential calls, while an always-succeeding one is configured |
| FailoverTheorems.FailoverCost | backend/shared/blockchain/client.go:219-296 | k such endpoints waste at most k * (m + 2) attempts altogether |
| FailoverTheorems.SendIsARun | backend/shared/blockchain/client.go:219-371 | What the failover method proves of its body is a run of the concurrent system with the same attempts and health |
| Telemetry.Capacity | backend/shared/telemetry/recorder.go:40-48 | The queue capacity is the given one if that is positive, 4096 otherwise |
| TelemetryRecorder.Recorder.Enqueue | backend/shared/telemetry/recorder.go:96-107 | The job goes to the end of the queue, or is counted as dropped if the recorder is not running or the queue is full; a run of the step system |
| TelemetryRecorder.Recorder.CancelContext | backend/shared/telemetry/recorder.go:59-64 | Cancels only a started recorder, and repeatedly without effect; the step system's cancellation |
| Telemetry.FateFrom | backend/shared/telemetry/recorder.go:147-192 | Written at the first attempt that succeeds, dropped only after three, abandoned only in a backoff the cancellation cut short, with no earlier attempt successful |
| TelemetryRecorder.Recorder.Process | backend/shared/telemetry/recorder.go:147-192 | The retry loop finishes the job with exactly that fate and counts it iff dropped; a run of the step system |
| TelemetryRecorder.Recorder.DrainRound | backend/shared/telemetry/recorder.go:128-144 | One round of the drain is a run of the step system: it finishes the job it receives with the fate of the round's writes, gives up, finds the queue empty, or makes progress |
| TelemetryRecorder.Recorder.Drain | backend/shared/telemetry/recorder.go:124-145 | The drain is a run of the step system to the worker's exit; each job it finishes was taken in one of its rounds and has the fate of that round's writes; jobs are finished in queue order; each drop counter grows by the jobs so dropped and the sends refused; rounds are bounded by queue length plus twice the pending sends; it ends at its deadline or with an empty queue |
| TelemetryTheorems.StepKeepsConserved | backend/shared/telemetry/recorder.go:96-192 | Every step of requests, worker and shutdown keeps conservation, order and counters |
| TelemetryTheorems.AcceptedIsFifo | backend/shared/telemetry/recorder.go:102-121 | In every reachable state the jobs that entered the queue are, in order, finished ++ in hand ++ waiting, and the queue is within capacity |
| TelemetryTheorems.JobsAreConserved | backend/shared/telemetry/recorder.go:96-192 | Of any class of jobs, submitted = written + dropped + abandoned + pending; nothing is abandoned before cancellation |
| TelemetryTheorems.DropCountersAreExact | backend/shared/telemetry/recorder.go:98-105 | Each kind's drop counter is its enqueue refusals plus its retry drops |
| TelemetryTheorems.WrittenKeepsOrder | backend/shared/telemetry/recorder.go:109-121 | The written jobs are a subsequence of the accepted ones |
| TelemetryTheorems.RunKeepsDropBalance | backend/shared/telemetry/recorder.go:98-191 | Over any part of any run a kind's drop counter grows by its jobs refused and its jobs dropped |
| TelemetryTheorems.RunGrows | backend/shared/telemetry/recorder.go:102-121 | Over any part of any run the line of jobs finished, in hand and waiting only grows, at its end, by those newly accepted |
| TelemetryTheorems.ShutdownIsBounded | backend/shared/telemetry/recorder.go:59-80 | After cancellation at most 10 steps per pending send, 7 per waiting job and 8 for the worker remain, in any interleaving |
| TelemetryTheorems.OnlyEarlierChecksEnter | backend/shared/telemetry/recorder.go:96-107 | After cancellation only jobs whose context check preceded it can enter the queue |
| TelemetryTheorems.CleanExitIsComplete | backend/shared/telemetry/recorder.go:138-141 | A drain that ends by its default branch leaves an empty queue, every accepted job finished after at least one attempt |
| TelemetryTheorems.ExitIsFinal | backend/shared/telemetry/recorder.go:124-145 | After the worker has exited nothing more is finished and no job leaves the queue, in any run |
| TelemetryTheorems.StrandedIff | backend/shared/telemetry/recorder.go:96-107 | In every reachable state whose worker has exited: the run can go on so that some accepted job is never processed iff a job is waiting or a sender is between its check and its send |
| TelemetryTheorems.CleanExitStrandsIff | backend/shared/telemetry/recorder.go:138-141 | At every reachable clean exit that is iff a sender is between its check and its send |
| TelemetryTheorems.CanDrain | backend/shared/telemetry/recorder.go:124-145 | From every state after the cancellation a clean exit can be reached without any sender moving |
| TelemetryTheorems.CleanShutdownStrandsIff | backend/shared/telemetry/recorder.go:59-80 | At every reachable cancellation: the shutdown can end in a clean drain with a job stranded iff a sender is then between its check and its send |
| TelemetryTheorems.ShutdownAbandonsIff | backend/shared/telemetry/recorder.go:160-192 | At every reachable cancellation: the shutdown can abandon a job iff one is waiting, backing off or in a write before its last attempt, or a sender is between its check and its send |
| TelemetryTheorems.ProcessIsARun | backend/shared/telemetry/recorder.go:147-192 | The fate the loop computes is the one the step system gives the job |
| Stats.Keys | backend/shared/storage/postgres/stats_store_test.go:138-152 | The groups of the view, each once, exactly those that occur |
| StatsTheorems.BuildViewIsView | backend/shared/storage/postgres/stats_store_test.go:138-152 | The view as defined has one row per group with that group's aggregates |
| StatsTheorems.ViewSum | backend/shared/storage/postgres/stats_store.go:201-212 | Summing an aggregate over selected groups is summing its weight over the rows of those groups |
| StatsTheorems.RawTotalsMean | backend/shared/storage/postgres/stats_store.go:41-65 | The direct totals are the numbers of rows since the cutoff: all, successful, not successful, cache hits, and the rest |
| StatsTheorems.RawAverageMeans | backend/shared/storage/postgres/stats_store.go:48-49 | The direct average times the number of rows is the sum of their latencies, and it is 0 without rows |
| StatsTheorems.RawCountsMean | backend/shared/storage/postgres/stats_store.go:67-139 | A label is counted iff a row since the cutoff carries it and it is not the skipped one, with the number of such rows |
| StatsTheorems.LabelsMean | backend/shared/storage/postgres/stats_store.go:118-121 | The labels are the method, the status, and the network's name, its identifier, or unknown |
| StatsTheorems.RawSeriesMeans | backend/shared/storage/postgres/stats_store.go:141-183 | The series ascends, each point a whole hour or minute with the numbers of its rows |
| StatsTheorems.RawSeriesCovers | backend/shared/storage/postgres/stats_store.go:141-183 | There is a point exactly for the hours or minutes with a row since the cutoff |
| Stats.LeftOffTopFive | backend/shared/storage/postgres/stats_store.go:67-77 | A name is left off a top five only if five are listed, none with a smaller count |
| StatsTheorems.AlignedCutoff | backend/shared/storage/postgres/stats_store.go:209-210 | The rounded cutoff is the first whole minute at or after the cutoff |
| StatsTheorems.TotalsAgree | backend/shared/storage/postgres/stats_store.go:201-224 | Requests, successes, errors, hits and misses of the two paths agree at the rounded cutoff |
| StatsTheorems.AverageAgrees | backend/shared/storage/postgres/stats_store.go:207 | The request-weighted mean of the group averages is the mean over the rows, the empty case included |
| StatsTheorems.CountsAgree | backend/shared/storage/postgres/stats_store.go:226-260 | The counts per method and per status agree |
| StatsTheorems.NetworkCountsAgreeIff | backend/shared/storage/postgres/stats_store.go:275-288 | The counts per network agree iff no counted row belongs to a configuration with an empty name |
| StatsTheorems.SeriesAgree | backend/shared/storage/postgres/stats_store.go:302-327 | The time series agree point by point, by minute and by hour |
| StatsTheorems.RollupRefinesRaw | backend/shared/storage/postgres/stats_store.go:187-346 | A summary is a correct answer of the rollup path iff it is one of the direct path at the rounded cutoff |
| StatsTheorems.AlignedPathsAgree | backend/shared/storage/postgres/stats_store.go:10-23 | On a minute-aligned cutoff the two paths are interchangeable |
| StatsTheorems.UnalignedTotalsAgreeIff | backend/shared/storage/postgres/stats_store.go:15-21 | On any cutoff the request totals agree iff the partial minute holds no row |
| StatsTheorems.GrownLogTotalsAgreeIff | backend/shared/storage/postgres/stats_store.go:10-23 | Against a log grown since the refresh the request totals agree iff no newer row is since the rounded cutoff; at the cutoff itself iff moreover the partial minute is empty |
| StatsTheorems.RawSeriesPartitionsTotals | backend/shared/storage/postgres/stats_store.go:141-183 | The direct series' requests, errors and hits add up to the totals |
| StatsTheorems.RollupSeriesPartitionsTotals | backend/shared/storage/postgres/stats_store.go:302-344 | And so do the rollup series' |
| StatsStore.DB.Refresh | backend/shared/statsrollup/refresher.go:66-88 | A successful refresh makes the view that of the current log; a failed one keeps the old snapshot |
| StatsStore.DB.GetStatsSummaryFromRaw | backend/shared/storage/postgres/stats_store.go:25-185 | The summary has the direct queries' figures, with derived misses, and of each list what arrived before its rows ended, in order |
| StatsStore.DB.GetStatsSummaryFromRollup | backend/shared/storage/postgres/stats_store.go:187-346 | The summary has the view's figures, with derived successes and misses, and of each list what arrived before its rows ended, in order |
| StatsStore.RawServedIff | backend/shared/storage/postgres/stats_store.go:82-90 | A summary of the direct path is a correct answer iff every list arrived whole |
| StatsStore.RollupServedIff | backend/shared/storage/postgres/stats_store.go:245-253 | And so is one of the rollup path |
| StatsStore.DB.GetStatsSummary | backend/shared/storage/postgres/stats_store.go:10-23 | The view answers for cutoffs more than five minutes old if its queries return no error, truncated or not; the direct queries otherwise |
| Usage.UsageStore.RecordUsage | backend/shared/storage/postgres/usage_store.go:9-18 | The upsert inserts the row of the job's tenant, method and minute or adds count and bytes to it, and changes no other |
| Usage.UsageStore.GetDailyUsage | backend/shared/storage/postgres/usage_store.go:20-39 | The listing is what arrived of exactly the tenant's rows of the day, by its first and last minute, each once, ended by a spoiled entry if a row did not scan; it is right iff it is all of them |
| Usage.CutListingIff | backend/shared/storage/postgres/usage_store.go:32-38 | A listing cut short, its last row possibly spoiled, is a listing of the tenant's day iff nothing was lost |
| Usage.RowIsSum | backend/shared/storage/postgres/usage_store.go:9-18 | A row exists iff its key was written, and holds the sums of count and bytes |
| Usage.WriteOrderIsIrrelevant | backend/shared/storage/postgres/usage_store.go:9-18 | Any permutation of the jobs builds the same table |
| Usage.DailyUsageCountsOutcomes | backend/gateway/proxy/proxy.go:260-269 | The daily listing's counts sum to the tenant's outcomes of that day with a method name, whatever the write order |
| Usage.RowsMeterOutcomes | backend/gateway/proxy/proxy.go:260-269 | There is a row for a tenant, method and minute iff there was such an outcome, with their number and the bytes they read, whatever the write order |
| Manager.SignatureInjective | backend/gateway/manager.go:163-165 | A configuration free of `\|` shares its signature only with configurations of the same endpoints |
| Manager.SignatureDecides | backend/gateway/manager.go:163-165 | It shares it exactly with the configurations of the same endpoints and switch |
| Manager.SignatureIsAmbiguousIff | backend/gateway/manager.go:163-165 | Some configuration with other endpoints shares the signature iff an endpoint contains `\|` |
| Manager.StaleClientIff | backend/gateway/manager.go:87-91 | From every state, after reloading a configuration some further reload of a changed one keeps a client with other endpoints iff an endpoint of the first contains `\|` |
| Manager.Manager.VisitConfigs | backend/gateway/manager.go:80-114 | The first loop of reload computes its specification and the enabled identifiers; a checker started under the cancelled health context does not keep running |
| Manager.Manager.PruneClients | backend/gateway/manager.go:116-123 | The loop over the map keeps exactly the desired clients, as they were, and stops exactly the others |
| Manager.Manager.Reload | backend/gateway/manager.go:71-126 | reload computes the reconciled state of whatever was listed, under a live or a cancelled health context; a listing that returns an error changes nothing |
| Manager.Manager.Stop | backend/gateway/manager.go:150-161 | Cancels the health context, which ends every checker, stops every current client and empties both maps |
| Manager.ReloadKeepsValid | backend/gateway/manager.go:71-126 | A reload keeps: the running checkers are those of the clients in the map, none once the context is cancelled; the clients outside the map, and no others, have been stopped; clients have distinct identities, each built from the configuration its signature came from |
| Manager.ReloadIsExact | backend/gateway/manager.go:80-123 | After a successful reload both maps have exactly the enabled identifiers and current signatures; unchanged signatures keep their client, changed ones get a new one; the client of a `\|`-free configuration has its identifier, its first endpoint, and its second if there is one, and no others |
| Manager.ReloadIsIdempotent | backend/gateway/manager.go:87-91 | A second reload of the same configurations creates and stops nothing |
| Manager.NoCheckerIsLeaked | backend/gateway/manager.go:93-161 | In every run of reloads and the two parts of Stop, in any order: before the cancellation the running checkers are exactly those of the clients in the map, after it there are none whatever reloads follow; every client ever created is in the map or has been stopped, never both |
| Manager.CancelMomentIsIrrelevant | backend/gateway/manager.go:150-151 | The cancellation, which takes no lock, leaves the same state before, within or after a reload |
| Manager.ReloadAfterStop | backend/gateway/manager.go:71-78 | A reload after Stop leaves exactly its enabled configurations' clients in the map, none with a running checker and none stopped |
| Manager.LastListingWins | backend/gateway/manager.go:71-75 | After any run ending in a successful reload and any failed ones, the clients are those of its enabled configurations |
| Manager.TruncatedListingIff | backend/shared/storage/postgres/blockchain_config_store.go:17-25 | After a listing that broke off, the clients are those of the table's enabled configurations iff none of these is among the rows that did not arrive |
| KeyStore.APIKeyPrefix | backend/shared/util/apikey.go:45-50 | The first twelve characters of a longer key, all of a shorter one |
| KeyStore.Store.CreateTenantWithKey | backend/shared/storage/postgres/tenant_store.go:130-221 | The transaction adds the tenant, an empty plan becoming free, and its key to the tables, which otherwise stay as they are, or nothing |
| KeyStore.Store.RotateAPIKey | backend/shared/storage/postgres/tenant_store.go:265-307 | The transaction revokes the tenant's rows and adds the new one, other rows staying as they are, or, failing or without such a tenant, nothing |
| KeyStore.Store.UpdateTenant | backend/shared/storage/postgres/tenant_store.go:223-258 | Replaces an existing tenant's columns and nothing else |
| KeyStore.Store.DeleteTenant | backend/shared/storage/postgres/tenant_store.go:260-263 | Removes the tenant and, by cascade, its keys, and nothing else |
| KeyStore.Store.MatchKey | backend/shared/storage/postgres/tenant_store.go:14-42 | The loop over the indexed rows that arrived, in any order, finds a tenant iff the matching row is among them, and then the one verifying every unrevoked row would find; with all rows it agrees with that in both directions |
| KeyStore.Store.GetTenantByAPIKey | backend/shared/storage/postgres/tenant_store.go:11-52 | Run with nothing between its two queries, the lookup finds what verifying every unrevoked row would |
| KeyStore.OneLiveKeyPerTenant | backend/shared/storage/postgres/tenant_store.go:130-307 | In every reachable state each tenant has exactly one unrevoked key, rows belong to tenants, and keys are distinct |
| KeyStore.DeadKeysStayDead | backend/shared/storage/postgres/tenant_store.go:272-284 | A key that stopped resolving never resolves again, whatever operations follow |
| KeyStore.RotationReplacesTheKey | backend/shared/storage/postgres/tenant_store.go:265-307 | A committed rotation kills the old key and makes the new one resolve to the tenant |
| KeyStore.RevocationKills | backend/shared/storage/postgres/tenant_store.go:260-284 | A committed rotation or deletion of the tenant whose key it is kills the key |
| KeyStore.OthersKeepResolving | backend/shared/storage/postgres/tenant_store.go:130-307 | No create, rotate, update or delete, committed or not, changes what a key of another tenant resolves to |
| KeyStore.OthersKeepTheirRows | backend/shared/storage/postgres/tenant_store.go:130-307 | Nor the row of another tenant |
| KeyStore.CreationResolves | backend/shared/storage/postgres/tenant_store.go:155-213 | A committed creation makes the new key resolve to the given columns, an empty plan becoming free |
| KeyStore.UpdateResolves | backend/shared/storage/postgres/tenant_store.go:223-258 | A committed update of an existing tenant makes its key resolve to the new columns |
| KeyStore.RollbackChangesNothing | backend/shared/storage/postgres/tenant_store.go:136-213 | An operation that does not commit leaves both tables as they are |
| KeyStore.OwnerMeans | backend/shared/storage/postgres/tenant_store.go:14-38 | A key is a tenant's iff some unrevoked row of the tenant holds its hash |
| AuthCache.TenantCache.Get | backend/gateway/middleware/auth.go:38-46 | Serves an item up to and including its expiry |
| AuthCache.TenantCache.Set | backend/gateway/middleware/auth.go:48-55 | Stores the tenant until ttl from now |
| AuthCache.TenantCache.Auth | backend/gateway/middleware/auth.go:64-101 | 401 without a bearer key; a hit answers alone; a miss answers what the store resolves and caches successes only |
| AuthCache.StepKeepsBacked | backend/gateway/middleware/auth.go:75-98 | Every event keeps: requests between the lookup's queries, pending requests, cached items and grants go back to moments when the key was the tenant's and, then or later, the row was the tenant's |
| AuthCache.AuthenticationIsFresh | backend/gateway/middleware/auth.go:38-98 | With any operations between a lookup's two queries, every authenticated request carries a tenant whose key it was at u and whose row it was at w, time - ttl - delay <= u <= w <= time |
| AuthCache.RevokedKeyExpires | backend/gateway/middleware/auth.go:42-44 | A key dead at some moment authenticates nothing later than ttl + delay after it |
| AuthCache.RotatedKeyExpires | backend/shared/storage/postgres/tenant_store.go:260-284 | A key whose tenant's key is rotated, or whose tenant is deleted, authenticates nothing later than ttl + delay after that |
| AuthCache.RotatedKeyServesIff | backend/gateway/middleware/auth.go:38-98 | For every ttl and delay: a rotated key authenticates x after its rotation in some run iff x <= ttl + delay |
| RpcCache.CacheKeyInjective | backend/gateway/proxy/proxy.go:128-132 | Two cacheable requests share a key only if they are the same, for any network identifiers, colons included |
| Json.NoSuchSuffix | backend/gateway/proxy/proxy.go:128-132 | No JSON text ends in a method name, or in a method name, a colon and JSON parameters: method names can only stand inside string literals |
| RpcCache.Proxy.Serve | backend/gateway/proxy/proxy.go:128-178 | The key as built step by step; live non-empty entries are hits; only answers that are no RPC error are cached, with their method's TTL |
| RpcCache.StepKeepsSourced | backend/gateway/proxy/proxy.go:134-172 | Every event keeps: answers, entries and hits go back to the upstream's answer to that request |
| RpcCache.HitsAreGenuineAndFresh | backend/gateway/proxy/proxy.go:29-35 | Each hit was returned by the upstream for the same network, method and parameters, was no RPC error, and was stored less than the method's TTL before |
| RpcCache.HitAges | backend/gateway/proxy/proxy.go:29-35 | No hit is as old as its method's lifetime: a day, or 2, 30, 15 or 15 seconds |
| RpcCache.StoredAnswerIsServed | backend/gateway/proxy/proxy.go:134-149 | A stored non-empty answer is served to every later request for the same network, method and parameters until its lifetime ends, as long as Redis keeps the key and nothing newer overwrites it |
| RpcCache.PolicyIs | backend/gateway/proxy/proxy.go:29-35 | The five cacheable methods and their lifetimes |

## Left out

- HTTP, routing, headers, logging, JSON parsing, Prometheus registration and environment variables: outcomes are events or parameters.
- The text of Redis key timestamps: a rate-limit key is a tier, a tenant and a window index; that the formatted keys are distinct is not modelled.
- go-redis retries of a script whose reply was lost: a script runs at most once per call.
- One clock is assumed for gateway and Redis; UTC, without leap seconds.
- CheckRateLimit, the older one-tier check with a separate expire, is not modelled.
- LastCheck times of endpoint records, and the request and failure metrics, are not modelled.
- Failover.Client.Send: Call and ProxyRaw are one method with two acceptance rules; request bodies and headers are not modelled.
- The telemetry write-failure counter, write timeouts, and a second Start of the same recorder are not modelled; the worker's endless outer loop appears only as steps of the event system.
- The approximate 95th percentile of both statistics paths: it is a maximum of per-group values and neither equals nor bounds the global one.
- Stats: averages are exact reals, so floating-point rounding is not modelled; of the summary against a log grown since the refresh only the request total is compared.
- Manager: a client is a value with an identity number and its running goroutine a set membership, so in-place update through a shared client pointer is not modelled; the endpoint health inside it is the subject of Failover.
- The one health check a checker makes before it sees its cancelled context, and Stop's wait for the checkers to end, are not modelled: running means having a live context.
- bcrypt is an ideal hash, generated keys and identifiers are fresh, transactions are atomic, and an error means nothing was written; `last_used_at` is not modelled.
- KeyStore.Store.GetTenantByAPIKey: as a method it runs with nothing between its two queries; operations between them are events of AuthCache.
- AuthCache: the middleware without a cache, and the exact text of 401 responses, are not modelled.
- RpcCache: the JSON text of parameters stands for the parameters, absent and empty ones identified, and of JSON only its lexical rules are used (RFC 8259: string literals are closed, and outside them there is neither a backslash nor an underscore); batches are never cached and are not part of it.
- Admin handlers, the ingestor, block storage, audit logs, SSRF checks, request identifiers and the web front end.

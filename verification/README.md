# Mini-Lambda: verified models of its state machines

Mini-Lambda runs user functions in warm containers behind a gateway. Most of it connects
libraries, but a few parts are real state machines whose correctness depends on
interleavings, on time arithmetic, or on what adds up over a whole run. This project models
those parts and proves what they keep.

* **Warm containers.** `DockerPool.dfy` is the pool as small steps: executions, replenishing
  workers, the lifecycle tick, Start and Shutdown interleave at every channel operation,
  atomic load, critical section and Docker call. `DockerPoolPlaces`, `DockerPoolSafety`,
  `DockerPoolClose`, `DockerPoolCounts` and `DockerPoolRoom` each carry one invariant through
  every step; `DockerPoolRuns` states what follows for all runs, `DockerPoolPanics` which
  threads can panic on the closed channel or the WaitGroup, exactly, and `DockerPoolRaces` when
  Shutdown is safe and that it leaks nothing. `DockerPoolClass` has the methods with their loops,
  `DockerPoolAlone` ties them to the machine, and `DockerPoolAnswers` says when a container goes
  back, is retired or is replaced. `PoolRegistry.dfy` puts any number of such pools
  under the registry's double-checked locking and replacement, `PoolRegistryRuns` and
  `PoolRegistryShutdown` prove what holds of all of its runs, and `PoolRegistryClass` has its
  methods.
* **Limiters and breaker.** `TokenBucket.dfy`, `FixedWindow.dfy`, `CircuitBreaker.dfy`.
* **Metadata cache.** `MetadataCache.dfy`: read-through, singleflight, background tasks;
  `MetadataCacheDeletes.dfy`: what a task does to the cache, and when a deleted function is gone.
* **Pod pool.** `KubernetesPool.dfy`: rotation, swap-removal, eviction, overlapping creation.
* **Builds.** `BuildQueue.dfy` (acknowledgement across reconnects) and `BuildLog.dfy` (worker
  sentinels, the gateway's cursor loop, and server-sent events parsed as in sections 9.2.5
  and 9.2.6 of the WHATWG HTML Standard).
* **Function store.** `FunctionStore.dfy`: metadata rows and content-addressed objects under
  faults.

Each component is given twice where the source mutates state: as steps on a value, over
which whole runs are reasoned about, and as a class whose methods have the source's
branches and loops. External systems are maps and queues that may fail at any call; clocks,
random jitter and the answers of Docker, Redis, S3, AMQP and Kubernetes are parameters.

What the code does not do is stated too. A Release, a CreateNew or a Start can panic when
Shutdown closes the channel between its check and its send; a Discard or a retirement that
overlaps Shutdown's Wait can panic, or make it panic; a Start that overlaps Shutdown, which a
second key in the registry can cause, leaves a goroutine that panics; a failed replacement
leaves the registry pointing at a pool it has told to stop; deleting or updating a function, or
failing to create one, takes shared code away from another; a refused update has already erased
the old code; a refill slower than one capacity per hour breaks the token bucket's refinement
and its bound; with two calls in flight a half-open breaker may be below its threshold; a log
line with a carriage return does not survive the event stream; an update can take another
function's name as far as the service is concerned. Where such a condition can be
exact, the lemma is an if-and-only-if.

## Model

| member | source | states |
|---|---|---|
| DockerPoolPlaces.StepKeepsPlaces | services/lambda-service/internal/pool/docker_pool.go:64-333 | every step of every thread keeps each created container in exactly one place and each thread's hands fitting its program point |
| DockerPoolPlaces.PerformConserves | services/lambda-service/internal/pool/docker_pool.go:91-157 | moving a container from the head of one place to the tail of another, or adding a new one, keeps all places disjoint, without repeats and complete |
| DockerPoolRuns.InExactlyOnePlace | services/lambda-service/internal/pool/docker_pool.go:64-333 | conservation over all interleavings: a container exists if and only if it is in the idle channel, one thread's variable or the stopped list, and it is in only one of them, once |
| DockerPoolRuns.HeldByOneExecution | services/lambda-service/internal/pool/docker_pool.go:91-157 | exclusivity over all runs: two executions never hold one container, and the in-use map names exactly the containers some execution holds between Acquire's store and Release's or Discard's delete |
| DockerPoolRuns.NeverAcquiredAgain | services/lambda-service/internal/pool/docker_pool.go:108-157 | a container handed to stop, swept by Shutdown while in use, or given up by a timed-out execution stays so and is never in the idle channel in any continuation of the run |
| DockerPoolRuns.CloseIsSafe | services/lambda-service/internal/pool/docker_pool.go:210-218 | after the idle channel is closed no registered worker, registered before or after Wait returned, stands at a send or receive on it, and a lifecycle goroutine is left only if Start overlapped Shutdown; no worker ever panics, Shutdown never closes a channel twice and panics only in its Wait, a lifecycle goroutine only on the closed channel after such an overlap, a CreateNew only on the closed channel |
| DockerPoolRuns.ClosedChannelOnlyDrains | services/lambda-service/internal/pool/docker_pool.go:210-224 | in every continuation of a run in which the channel is closed its content is a suffix of what it was, so a drained pool never serves an Acquire again |
| DockerPoolClose.StepKeepsCalm | services/lambda-service/internal/pool/docker_pool.go:70-88 | each step keeps: the channel is closed only after Wait returned, and from then on registered goroutines are only where they read the closed flag first |
| DockerPoolPanics.SendCanRaceShutdown | services/lambda-service/internal/pool/docker_pool.go:147-156 | from every state with an execution, a CreateNew or a Start between its closed check and its send and nothing registered, Shutdown can close the channel first and the send panics |
| DockerPoolPanics.PanicIff | services/lambda-service/internal/pool/docker_pool.go:63-279 | some run of a new pool ends in a panic of a thread of a role for a cause, if asked with Start and Shutdown apart, if and only if: on the closed channel, an execution with MaxUseCount not 1, a CreateNew, and only with an overlap a Start with MinSize > 0 or the lifecycle goroutine; on the WaitGroup, an execution, Shutdown itself, and only with an overlap a Start; a registered worker never |
| DockerPoolPanics.DiscardCanRaceWait | services/lambda-service/internal/pool/docker_pool.go:112-123 | from every state with only the lifecycle goroutine registered and an execution holding a container, a Shutdown and a Discard can panic on the WaitGroup: in the Add of the Discard, or in the Wait that finds its worker |
| DockerPoolRaces.PoliteRunsDoNotPanic | services/lambda-service/internal/pool/docker_pool.go:210-236 | on every run in which Shutdown begins with no execution, Start or CreateNew in progress and none begins afterwards, no thread panics |
| DockerPoolRaces.ShutdownLeaksNothing | services/lambda-service/internal/pool/docker_pool.go:219-236 | when the idle channel is closed and every thread has finished, the containers ever created are exactly those handed to stop |
| DockerPoolPanics.StartPastShutdownPanics | services/lambda-service/internal/pool/docker_pool.go:64-88 | from every state with the channel closed and empty and a Start still filling, the lifecycle goroutine it launches can panic at its first tick, with no further call of the pool |
| DockerPoolPanics.PanicNeeds | services/lambda-service/internal/pool/docker_pool.go:63-333 | from every state the invariants describe, a step that panics does so in a role and for a cause that the configuration and the overlap of Start and Shutdown allow |
| DockerPoolRoom.StepKeepsApt | services/lambda-service/internal/pool/docker_pool.go:272-278 | each step keeps the idle channel within its capacity (one hand-over for an unbuffered channel) and Start from creating containers unless MinSize is positive |
| DockerPoolRuns.UsesAddUp | services/lambda-service/internal/pool/docker_pool.go:91-106 | the use counts of all containers ever created sum to the warm starts plus the acquisitions about to count theirs; with MaxUseCount positive, idle containers are below it and no container is above it |
| DockerPoolCounts.StepKeepsBalanced | services/lambda-service/internal/pool/docker_pool.go:97-101 | each step changes the sum of use counts by as much as the warm starts and the pending acquisitions |
| DockerPoolRuns.RunsPoolCode | services/lambda-service/internal/pool/docker_pool.go:248-265 | whatever an execution holds, and whatever is idle, was seeded with the pool's code key |
| DockerPoolAnswers.ReleaseDecidesIff | services/lambda-service/internal/pool/docker_pool.go:126-151 | in every run, whatever else goes on, Release stops its container if and only if MaxUseCount is positive and the use count has reached it, or the pool is closed; a replacement is started only for a retirement that Docker carried out; every other container is sent back |
| DockerPoolAnswers.ReleaseSendsIff | services/lambda-service/internal/pool/docker_pool.go:152-156 | in every run, the send puts the container last in the idle channel if and only if there is room or a receiver waits at the empty channel, and stops it otherwise |
| DockerPoolAnswers.ReleasedIff | services/lambda-service/internal/pool/docker_pool.go:126-157 | Release run alone in an open pool with room ends with the container last in the idle channel if and only if MaxUseCount <= 0 or the use count is below it, and in every other case with the container stopped |
| DockerPoolAnswers.HandedOutExactly | services/lambda-service/internal/pool/docker_pool.go:91-143 | in an open pool with room an undisturbed container is handed out exactly as often as MaxUseCount leaves it uses, and the Release after the last of them retires it |
| DockerPoolAnswers.ServesAgain | services/lambda-service/internal/pool/docker_pool.go:91-157 | below the limit, and without one, it is idle again after each of any number of rounds, its uses counted |
| DockerPoolAnswers.ReplenishRunsAlone | services/lambda-service/internal/pool/docker_pool.go:281-288 | replenishOne run alone in an open pool, with Docker answering, adds one idle container below MinSize and nothing otherwise |
| DockerPoolAnswers.DiscardIsReplaced | services/lambda-service/internal/pool/docker_pool.go:108-123 | in an open pool below MinSize, Discard and its goroutine leave the container stopped and out of use and a new one idle |
| DockerPoolAnswers.RetiredIsReplaced | services/lambda-service/internal/pool/docker_pool.go:132-143 | so does a Release that retires its container |
| DockerPoolAnswers.StartFills | services/lambda-service/internal/pool/docker_pool.go:63-73 | Start run alone on an open pool, with Docker answering, fills it to exactly MinSize in the order of creation |
| DockerPoolAnswers.TickRestoresMinimum | services/lambda-service/internal/pool/docker_pool.go:290-333 | a tick and its workers run alone, with Docker answering, end with the containers younger than MaxIdleTime in order followed by just as many new ones as bring the pool back to MinSize |
| DockerPoolSafety.StepKeepsAllFit | services/lambda-service/internal/pool/docker_pool.go:91-279 | each step keeps, for every container at every place, its code key, its use bound, whether it is registered as in use and whether it may have been swept |
| DockerPoolClass.TickRunsAlone | services/lambda-service/internal/pool/docker_pool.go:294-333 | the step machine's tick, undisturbed, reaches exactly the idle channel, stopped list and deficit that EvictAndReplenish computes |
| DockerPoolAlone.AcquireRunsAlone | services/lambda-service/internal/pool/docker_pool.go:91-106 | Acquire run alone is the machine's receive, mark and count |
| DockerPoolAlone.ReleaseRunsAlone | services/lambda-service/internal/pool/docker_pool.go:126-157 | Release run alone is a run of the machine, for every outcome |
| DockerPoolAlone.DiscardRunsAlone | services/lambda-service/internal/pool/docker_pool.go:112-123 | Discard and its goroutine's stop are a run of the machine |
| DockerPoolAlone.EnqueueRunsAlone | services/lambda-service/internal/pool/docker_pool.go:239-279 | enqueueNew run alone, for CreateNew, a worker or Start, is a run of the machine, for every answer of Docker |
| DockerPoolAlone.ShutdownRunsAlone | services/lambda-service/internal/pool/docker_pool.go:210-236 | Shutdown run alone, whatever is idle and in use, is a run of the machine |
| DockerPoolClass.TickLosesNone | services/lambda-service/internal/pool/docker_pool.go:294-323 | the containers a tick keeps and evicts are, as a multiset, the idle ones |
| DockerPoolClass.TickSplitsByAge | services/lambda-service/internal/pool/docker_pool.go:300-305 | a tick keeps exactly the idle containers used less than MaxIdleTime ago and evicts exactly the others |
| DockerPoolClass.TickKeepsOrder | services/lambda-service/internal/pool/docker_pool.go:314-321 | of two containers that go back, the first is the one that was first before |
| DockerPoolClass.DockerPool.Acquire | services/lambda-service/internal/pool/docker_pool.go:91-106 | takes the oldest idle container, counts its use, marks it in use and counts the warm start, as Acquire run alone on the step machine; nothing changes when none is idle |
| DockerPoolClass.DockerPool.Release | services/lambda-service/internal/pool/docker_pool.go:126-157 | no container is an error; otherwise, field by field and as Release run alone on the step machine: at MaxUseCount uses, if that is positive, stopped, with a replacement unless stopping failed; else last in the channel, or stopped when the pool is closed or full |
| DockerPoolClass.DockerPool.Discard | services/lambda-service/internal/pool/docker_pool.go:112-123 | the container is out of use and stopped, nothing else changes and a replacement is started: the state of Discard and its goroutine up to replenishing, run alone on the step machine |
| DockerPoolClass.DockerPool.EnqueueNew | services/lambda-service/internal/pool/docker_pool.go:239-279 | succeeds exactly when the pool is open and Docker created and seeded the container; then it is idle if there is room, and every other container made is stopped; as enqueueNew run alone on the step machine |
| DockerPoolClass.DockerPool.ReplenishOne | services/lambda-service/internal/pool/docker_pool.go:281-288 | below MinSize in an open pool with room one more idle container when Docker answers; at MinSize, or closed, nothing |
| DockerPoolClass.DockerPool.Fill | services/lambda-service/internal/pool/docker_pool.go:64-69 | the fill loop of Start: ends with MinSize idle containers or at the first failure, the new ones behind the old in order of creation |
| DockerPoolClass.DockerPool.Drain | services/lambda-service/internal/pool/docker_pool.go:295-309 | the drain loop empties the channel into the kept and the evicted list, each in order |
| DockerPoolClass.DockerPool.EvictAndReplenish | services/lambda-service/internal/pool/docker_pool.go:294-333 | the fresh containers are back in order, the stale ones stopped, nothing else changed, and one worker started per container missing to MinSize |
| DockerPoolClass.DockerPool.Shutdown | services/lambda-service/internal/pool/docker_pool.go:210-236 | the state of Shutdown run alone on the step machine: closed, everything idle stopped in order, everything in use swept |
| PoolRegistryRuns.NoStaleCode | services/lambda-service/internal/executor/pool_registry.go:53-68 | in every interleaving of calls with changing keys, replacement, late releases and replenishment, a container held by a call was seeded with the key the call asked for, by a pool made for its function |
| PoolRegistryRuns.NoSharedContainer | services/lambda-service/internal/executor/pool_registry.go:53-74 | no container is held by two calls, of the same pool or of different ones |
| PoolRegistryRuns.EveryPoolAccounted | services/lambda-service/internal/executor/pool_registry.go:88-154 | every pool ever created has had Shutdown requested if and only if it is not its function's current entry, or its replacement could not be created |
| PoolRegistryRuns.FailedReplacementKeepsEntry | services/lambda-service/internal/executor/pool_registry.go:129-141 | when creating the new pool fails, the old entry stays and later calls with the old key resolve to the pool that was told to stop |
| PoolRegistryShutdown.DrainedPoolServesNobody | services/lambda-service/internal/executor/pool_registry.go:53-63 | once a pool is shut down and drained, in every continuation no call that resolved to it receives a container, and while its entry stays every new call with its key resolves to it |
| PoolRegistryShutdown.RacedIff | services/lambda-service/internal/executor/pool_registry.go:147-153 | in every run of the registry Start and Shutdown of a pool have overlapped if and only if Start was called and Shutdown ran before or during it, and a lifecycle goroutine has panicked only then |
| PoolRegistryShutdown.RegistrySafeIff | services/lambda-service/internal/executor/pool_registry.go:111-154 | for every configuration and every set of function and key pairs: no thread of any pool panics on any run that asks only for these pairs, if and only if each function is asked for under one key and the registry is not shut down (unless nothing is asked) |
| PoolRegistryShutdown.DoomedEarlyPanics | services/lambda-service/internal/executor/pool_registry.go:147-153 | whenever a pool is to be shut down before its creator has called Start, since the entry is published first, a panic is reachable |
| PoolRegistryRuns.AtMostOnePool | services/lambda-service/internal/executor/pool_registry.go:111-154 | from any reachable state, while calls for a function agree on its key and the registry is not shut down, at most one further pool is created for it, however the calls interleave |
| PoolRegistryRuns.ActKeepsRunners | services/lambda-service/internal/executor/docker.go:93-135 | a call that received a container is one execution thread of its pool, undisturbed by every other step, until its own Release or Discard ends it |
| PoolRegistryRuns.ActKeepsAccounts | services/lambda-service/internal/executor/pool_registry.go:88-154 | each registry or pool step keeps the accounting of pools |
| PoolRegistryClass.PoolRegistry.GetOrCreate | services/lambda-service/internal/executor/pool_registry.go:111-154 | a hit returns the entry and changes nothing; a miss makes and enters a pool for the function and key and tells the one it replaces to stop, or on a failed creation tells it to stop and returns none; the effect of the step machine's write-locked section |
| PoolRegistryClass.PoolRegistry.Shutdown | services/lambda-service/internal/executor/pool_registry.go:88-107 | empties the map and shuts down each current pool, once per entry |
| TokenBuckets.StoredTokensBounded | services/gateway/internal/ratelimit/token_bucket.go:66-96 | on every run with nondecreasing time the stored tokens and those after refill stay within the capacity |
| TokenBuckets.AdmittedIffTokensReported | services/gateway/internal/ratelimit/token_bucket.go:137-173 | in every reachable state a request is admitted if and only if GetTokens at that instant is positive |
| TokenBuckets.ReportedIsExact | services/gateway/internal/ratelimit/token_bucket.go:137-173 | in every reachable state GetTokens reports the number of tokens the script would find, and the eager bucket's number when refillRate * 3600 >= capacity |
| TokenBuckets.ReportedAreAdmitted | services/gateway/internal/ratelimit/token_bucket.go:59-97 | of n requests at one instant exactly as many are admitted as GetTokens reports there, or all n |
| TokenBuckets.RefinesEagerIff | services/gateway/internal/ratelimit/token_bucket.go:59-97 | the lazy, expiring bucket answers every request of every run like a bucket that adds refillRate each second up to capacity, if and only if refillRate * 3600 >= capacity |
| TokenBuckets.SlowRefillDiffers | services/gateway/internal/ratelimit/token_bucket.go:91-94 | for every slower refill a run exists on which expiry hands out a full bucket too early |
| TokenBuckets.KeysApart | services/gateway/internal/ratelimit/token_bucket.go:53-54 | no two clients share a Redis key, and no token key is a timestamp key |
| TokenBuckets.KeysIndependent | services/gateway/internal/ratelimit/token_bucket.go:52-97 | what a client is told depends on its own requests alone |
| TokenBuckets.AdmissionBound | services/gateway/internal/ratelimit/token_bucket.go:66-96 | without Reset, an interval of seconds admits at most capacity + refillRate times its length |
| TokenBuckets.AdmissionBoundIff | services/gateway/internal/ratelimit/token_bucket.go:66-96 | that bound holds on all runs without Reset if and only if refillRate * 3600 >= capacity |
| TokenBuckets.SlowRefillAdmitsTwice | services/gateway/internal/ratelimit/token_bucket.go:91-94 | for every slower refill a run admits two capacities within the hour |
| TokenBuckets.TokenBucketLimiter.Allow | services/gateway/internal/ratelimit/token_bucket.go:52-97 | the script's answer and new store, refused requests writing nothing |
| TokenBuckets.TokenBucketLimiter.GetTokens | services/gateway/internal/ratelimit/token_bucket.go:137-173 | the tokens a caller is told, missing keys included, or the error of the GET that failed |
| TokenBuckets.TokenBucketLimiter.Reset | services/gateway/internal/ratelimit/token_bucket.go:176-186 | both keys of the client are gone and no other, or the error of the pipeline |
| FixedWindows.PassesIffQuota | services/gateway/internal/ratelimit/bucket_ratelimit.go:99-117 | the user check passes if and only if GetRemainingQuota was positive just before |
| FixedWindows.QuotaIsExact | services/gateway/internal/ratelimit/bucket_ratelimit.go:99-117 | of n checks of a user at one instant exactly as many pass as GetRemainingQuota reports there, or all n; it reports 5 to a user without a window |
| FixedWindows.SharpSpanBound | services/gateway/internal/ratelimit/bucket_ratelimit.go:68-96 | an interval of any length in milliseconds, wherever it starts, lets through at most the limit plus what the windows before its last one can, windows starting more than their length apart and an earlier one having spent a check outside |
| FixedWindows.SharpSpanReached | services/gateway/internal/ratelimit/bucket_ratelimit.go:68-96 | a run reaches that count for every positive limit, window and length |
| FixedWindows.SpanBound | services/gateway/internal/ratelimit/bucket_ratelimit.go:68-96 | so any span of T seconds lets at most limit * (floor(T / window) + 2) checks of a key through |
| FixedWindows.GlobalWindowBound | services/gateway/internal/ratelimit/bucket_ratelimit.go:32-60 | however callers interleave their two scripts, at most 20 builds are admitted per global window |
| FixedWindows.GlobalWindowReached | services/gateway/internal/ratelimit/bucket_ratelimit.go:32-60 | some run admits 20 builds in the window of the first minute |
| FixedWindows.BuildRateLimiter.CheckLimit | services/gateway/internal/ratelimit/bucket_ratelimit.go:68-96 | the counter script's answer and new store, or an error that changes nothing |
| FixedWindows.BuildRateLimiter.Allow | services/gateway/internal/ratelimit/bucket_ratelimit.go:32-60 | which of the two scripts run, the store after them, and whether the reply is an admission, a global or user refusal, or an error |
| FixedWindows.BuildRateLimiter.GetRemainingQuota | services/gateway/internal/ratelimit/bucket_ratelimit.go:99-117 | the quota left, never negative, the full quota when the key is absent or the read fails |
| CircuitBreakers.InterleavedBreaker | services/gateway/internal/circuitbreaker/circuit_breaker.go:49-122 | under all interleavings `failures` is the number of failures recorded since the last recorded success, Closed is below the threshold, and Open is left only for HalfOpen and only more than resetTimeout after the latest recorded failure |
| CircuitBreakers.StepAnswers | services/gateway/internal/circuitbreaker/circuit_breaker.go:49-122 | under all interleavings, told by the history: a call that read Open is let through, half-opening the breaker, if and only if more than resetTimeout has passed since the latest recorded failure, and is rejected without effect otherwise; a failure opens the breaker if and only if it is at least the maxFailures-th in a row; a success closes a half-open breaker |
| CircuitBreakers.HalfOpenMeansThresholdIff | services/gateway/internal/circuitbreaker/circuit_breaker.go:80-122 | on all runs with at most K calls in flight a half-open breaker has reached its threshold, if and only if K <= 1 (or the threshold is not positive) |
| CircuitBreakers.LateSuccessResetsOpen | services/gateway/internal/circuitbreaker/circuit_breaker.go:117-121 | for every positive threshold, two calls in flight reach half-open with a count of zero: a late success resets the count of the open breaker |
| CircuitBreakers.LateTrialReopensClosed | services/gateway/internal/circuitbreaker/circuit_breaker.go:80-91 | so do two calls that both read Open: the second half-opens the breaker that the first one's success closed, because handleOpen does not look at the state again |
| CircuitBreakers.PerformAllIsRun | services/gateway/internal/circuitbreaker/circuit_breaker.go:49-122 | every list of calls that do not overlap is a run of the interleaved system with at most one call in flight and the same breaker and history |
| CircuitBreakers.AloneOpenIffTrailingFailures | services/gateway/internal/circuitbreaker/circuit_breaker.go:72-122 | on every run of the interleaved system with at most one call in flight, between calls the breaker is Open if and only if the history ends in at least maxFailures failures, and otherwise Closed |
| CircuitBreakers.OpenIffTrailingFailures | services/gateway/internal/circuitbreaker/circuit_breaker.go:72-122 | without overlap the breaker is Open if and only if the executed calls end in at least maxFailures failures, and otherwise Closed |
| CircuitBreakers.ExecutedIff | services/gateway/internal/circuitbreaker/circuit_breaker.go:49-101 | without overlap the next call is executed and recorded if and only if fewer than maxFailures failures in a row precede it or it begins more than resetTimeout after the latest of them |
| CircuitBreakers.SharpStretchBound | services/gateway/internal/circuitbreaker/circuit_breaker.go:80-122 | a failure-only stretch of length T executes at most maxFailures + floor(T / (resetTimeout + 1)) calls, whatever came before |
| CircuitBreakers.SharpStretchReached | services/gateway/internal/circuitbreaker/circuit_breaker.go:80-122 | for every stretch some failing calls reach that number |
| CircuitBreakers.FailureStretchBound | services/gateway/internal/circuitbreaker/circuit_breaker.go:80-122 | so it executes at most maxFailures + floor(T / resetTimeout) calls |
| CircuitBreakers.CircuitBreaker.RecordResult | services/gateway/internal/circuitbreaker/circuit_breaker.go:103-122 | the count, the time and the state after a failure and after a success |
| CircuitBreakers.CircuitBreaker.TryTrial | services/gateway/internal/circuitbreaker/circuit_breaker.go:80-94 | a trial is let through exactly when more than resetTimeout has passed since the last failure, and only then the state changes |
| CircuitBreakers.CircuitBreaker.Call | services/gateway/internal/circuitbreaker/circuit_breaker.go:49-101 | the function is executed exactly when the breaker is not open or more than resetTimeout has passed since the last failure, and the breaker afterwards is that of the sequential layer |
| MetadataCaches.BoundedStaleness | services/lambda-service/internal/cache/cached_repository.go:39-73 | every value FindByID returned at t was the database's value at a moment in [t - max(359 + D, F), t], for any order of fills, saves, deletes and any failures |
| MetadataCaches.StalenessReached | services/lambda-service/internal/cache/cached_repository.go:39-110 | for every D and F some run of the repository's own operations returns a value that the database last held exactly that long ago, so no smaller bound holds |
| MetadataCaches.ExistsIsBoundedlyStale | services/lambda-service/internal/cache/cached_repository.go:123-132 | a cache hit in Exists is a function that existed within 359 + D |
| MetadataCacheDeletes.TaskAnswers | services/lambda-service/internal/cache/cached_repository.go:68-110 | a background task that runs is done and touches one entry: an invalidation that did not fail leaves none for its id, a fill leaves its value for 300 to 359 seconds, a failed one changes nothing |
| MetadataCacheDeletes.EntryStays | services/lambda-service/internal/cache/cached_repository.go:39-110 | an entry changes only by a task about its id or by the cache losing it |
| MetadataCacheDeletes.ForgottenIff | services/lambda-service/internal/cache/cached_repository.go:39-110 | once a function is not in the database, on every continuation that writes no row for it nobody is told of it again, if and only if no live entry, no pending fill and no flight holds it |
| MetadataCacheDeletes.DeleteIsFinal | services/lambda-service/internal/cache/cached_repository.go:96-110 | if the invalidation of a delete runs without failing when no fill is pending and no flight holds the row, then on every continuation that writes no row for the id every lookup misses and every answer is not found |
| MetadataCacheDeletes.UncachedStays | services/lambda-service/internal/cache/cached_repository.go:39-110 | an id without entry and pending fill has no entry, so no lookup hits, until its next save or successful query, whatever else happens |
| MetadataCacheDeletes.OneQueryPerFlight | services/lambda-service/internal/cache/cached_repository.go:36-63 | in every run, however many callers miss, each flight that ended made one query and the one under way at most one |
| MetadataCacheDeletes.CallersWait | services/lambda-service/internal/cache/cached_repository.go:47 | a caller that missed joins the flight of its id, which goes on as it was, or leads a new one |
| MetadataCacheDeletes.WaitersStay | services/lambda-service/internal/cache/cached_repository.go:47 | and waits in it until it ends |
| MetadataCacheDeletes.QueryAnswers | services/lambda-service/internal/cache/cached_repository.go:48-58 | a query reads what the database holds then; a row it found is filled in later, an error or a missing row is not |
| MetadataCaches.CachedFunctionRepository.FindByID | services/lambda-service/internal/cache/cached_repository.go:39-63 | a live hit is answered from the cache; anything else from the database, with a fill for a row found, or its error; the machine's lookup, or one that leads its own flight |
| MetadataCaches.CachedFunctionRepository.Save | services/lambda-service/internal/cache/cached_repository.go:81-94 | the row is written and a fill of it started, or nothing on an error; the machine's save |
| MetadataCaches.CachedFunctionRepository.Delete | services/lambda-service/internal/cache/cached_repository.go:97-110 | the row is gone and an invalidation started, or nothing on an error or an unknown id; the machine's delete |
| MetadataCaches.CachedFunctionRepository.Exists | services/lambda-service/internal/cache/cached_repository.go:123-132 | true on a live hit, otherwise the database's answer or its error |
| MetadataCaches.CachedFunctionRepository.RunTask | services/lambda-service/internal/cache/cached_repository.go:70-73 | a fill writes its entry to expire 300 seconds and the jitter later, an invalidation removes the entry, a failure changes nothing; the machine's background step |
| KubernetesPools.SizeBound | services/lambda-service/internal/pool/kubernetes_pool.go:114-151 | with at most K CreateNew calls in flight the pool never exceeds MaxSize + K - 1 pods |
| KubernetesPools.SizeBoundReachedIff | services/lambda-service/internal/pool/kubernetes_pool.go:114-151 | some run with at most K CreateNew calls in flight reaches MaxSize + K - 1 pods if and only if MaxSize >= 1 or K = 1 |
| KubernetesPools.UsesBounded | services/lambda-service/internal/pool/kubernetes_pool.go:87-112 | with a use limit, in every run no pod is used more often than the limit and a warm one has a use left |
| KubernetesPools.UsesReached | services/lambda-service/internal/pool/kubernetes_pool.go:58-112 | a pod given back after each use is handed out n times for every n up to the limit, and for every n without one |
| KubernetesPools.RotationKeepsPods | services/lambda-service/internal/pool/kubernetes_pool.go:255-262 | rotation preserves the multiset of pods and the uniqueness of their names |
| KubernetesPools.SwapRemovalRemovesOne | services/lambda-service/internal/pool/kubernetes_pool.go:272-278 | swap-removal removes exactly the pod at the index |
| KubernetesPools.SwapRemovalKeepsOthers | services/lambda-service/internal/pool/kubernetes_pool.go:272-278 | with unique names, exactly the other pods remain |
| KubernetesPools.VictimIsWarmIff | services/lambda-service/internal/pool/kubernetes_pool.go:153-173 | eviction takes a warm pod if and only if some warm pod was last used before now or the first pod is warm |
| KubernetesPools.VictimUnique | services/lambda-service/internal/pool/kubernetes_pool.go:161-171 | the least recently used warm pod, ties to the front, determines the victim |
| KubernetesPools.VictimIsOldest | services/lambda-service/internal/pool/kubernetes_pool.go:161-171 | it is warm, no warm pod was used longer ago and none before it in the slice as long ago, whenever some warm pod was last used before now; otherwise it is the first pod |
| KubernetesPools.KubernetesPodPool.MoveToEnd | services/lambda-service/internal/pool/kubernetes_pool.go:255-262 | the in-place shift is the rotation |
| KubernetesPools.KubernetesPodPool.Acquire | services/lambda-service/internal/pool/kubernetes_pool.go:58-85 | the first warm pod is taken into use and rotated to the end, all others kept; none only if no pod is warm |
| KubernetesPools.KubernetesPodPool.RemovePod | services/lambda-service/internal/pool/kubernetes_pool.go:264-285 | the first pod of that name is swap-removed, an unknown name changes nothing |
| KubernetesPools.KubernetesPodPool.Evict | services/lambda-service/internal/pool/kubernetes_pool.go:153-173 | exactly the victim is removed; an empty pool is an error |
| KubernetesPools.KubernetesPodPool.Release | services/lambda-service/internal/pool/kubernetes_pool.go:87-112 | no pod is an error; with MaxUseCount positive and reached the pod is removed, counted as an eviction, and no other; otherwise it is warm again, used now, and nothing else changes |
| KubernetesPools.KubernetesPodPool.CreateNew | services/lambda-service/internal/pool/kubernetes_pool.go:114-151 | a full pool loses its victim, the new pod is appended warm, and called alone the size stays within MaxSize |
| BuildQueues.NoMessageLost | services/build-service/internal/queue/rabbitmq.go:300-440 | over every run a published message is exactly one of ready, unacked, acked, discarded; acked only after the handler returned nil for it, discarded only after it returned an error; no channel has more than one unacked message |
| BuildQueues.StaleSettlementIgnored | services/build-service/internal/queue/rabbitmq.go:364-396 | an acknowledgement sent on a dropped channel changes nothing at the broker |
| BuildQueues.SettledAsReturned | services/build-service/internal/queue/rabbitmq.go:386-391 | after any run a settlement on a live channel takes effect: the message is acked if and only if the handler returned nil for it, discarded if and only if it returned an error, and neither ready nor unacked any more; on a dead channel no message moves |
| BuildQueues.RequeuedAndDelivered | services/build-service/internal/queue/rabbitmq.go:336-359 | a dropped channel gives its unacked messages back ahead of the queue, and a delivery takes the head of the queue |
| BuildQueues.QueueConsumer.ProcessMessages | services/build-service/internal/queue/rabbitmq.go:364-396 | each delivery is settled in order, acked exactly when its handler returned nil, until the first signal that is not a delivery |
| BuildQueues.QueueConsumer.Reconnect | services/build-service/internal/queue/rabbitmq.go:398-440 | installs the channel of the first complete attempt, always with its prefetch limit set, and fails exactly when closed before one |
| BuildLogs.RoundTripIff | services/gateway/internal/router/stream.go:80-83 | parsing the emitted frames gives back the lines in order, newlines turned into spaces, if and only if no line has a carriage return |
| BuildLogs.HandleBuildLogs | services/gateway/internal/router/stream.go:44-91 | under any batching of reads the output is the frames of an initial part of the stream, each entry once and in order, ending at the first sentinel exactly when the reader finished; how many entries is exactly what the polls allow, so enough polls of the whole stream before any reason to stop reach the sentinel or the end |
| BuildLogs.ReaderProgress | services/gateway/internal/router/stream.go:49-91 | each poll of the whole stream before a reason to stop brings the reader ten entries further, or to the sentinel or the end |
| BuildLogs.TimeoutsDoNotMatter | services/gateway/internal/router/stream.go:65-68 | a poll that times out with nothing new, anywhere among the polls, changes nothing |
| BuildLogs.SentinelText | services/gateway/internal/router/stream.go:86-88 | the lines that end the stream are the one success line and all that start with the failure mark |
| BuildLogs.WriteBatch | services/gateway/internal/router/stream.go:80-89 | the inner loop writes the batch up to and including the first sentinel and leaves the cursor on the last entry written |
| BuildLogs.BatchIsNext | services/gateway/internal/router/stream.go:59-63 | a read from the cursor returns the next entries of the stream, without repeating or skipping any |
| BuildLogs.JobLogIsClosed | services/build-service/cmd/worker/main.go:201-260 | whichever stage fails, the job's log has one sentinel, at its end, of the kind that matches the result |
| BuildLogs.LogOfSuccess | services/build-service/cmd/worker/main.go:201-244 | the six lines of a build that succeeds |
| BuildLogs.LogOfFailure | services/build-service/cmd/worker/main.go:201-227 | the lines of a build that fails, for each stage |
| BuildLogs.BuildWorker.ProcessBuildJob | services/build-service/cmd/worker/main.go:201-260 | the lines appended, the error returned and the job's status for every outcome of the stages |
| BuildLogs.BuildWorker.FailBuild | services/build-service/cmd/worker/main.go:51-56 | appends the failure sentinel and returns its text as the error |
| BuildLogs.EndToEnd | services/gateway/internal/router/stream.go:44-91 | the gateway's reader on any growing part of a job's log: when it finishes it has written the whole log, whose last line is DONE if and only if the job returned nil and FAILED if and only if it returned an error; otherwise a part without its sentinel; one poll of the whole log before any reason to stop is enough to finish |
| FunctionStores.KeyRoundTrip | services/lambda-service/internal/storage/s3.go:245-269 | the hash is recovered from the key built from it, for every prefix and every slash-free hash |
| FunctionStores.KeyParts | services/lambda-service/internal/storage/s3.go:245-250 | a key is its prefix, the shard of two characters and the hash, with slashes between them |
| FunctionStores.ExtractHashFromKey | services/lambda-service/internal/storage/s3.go:253-269 | the backwards scan returns what follows the last slash, or the whole key, and it is slash-free |
| FunctionStores.RightBytesOrError | shared/domain/repository.go:108-128 | after every run of create, update and delete with faults anywhere, shared and corrupted objects, GetFunction returns an error or exactly the function last saved |
| FunctionStores.SavedIffReported | shared/domain/repository.go:74-192 | unless a database reply is lost, a call changes what is saved if and only if it reports success |
| FunctionStores.ValidIff | shared/domain/function.go:22-48 | which functions are accepted, and which error names which fault |
| FunctionStores.CreateReports | shared/domain/repository.go:74-106 | for every world and fault, CreateFunction succeeds if and only if the function is valid, the lookup worked, no row has its name, its code is stored and the row written; a taken name, a storage fault, a database fault and an invalid function each give their own error exactly then |
| FunctionStores.CreateLeaves | shared/domain/repository.go:74-106 | and leaves nothing changed when refused before storing; after that the row is written unless refused, and the object stays unless the row write failed and its rollback worked |
| FunctionStores.UpdateReports | shared/domain/repository.go:140-175 | the same of UpdateFunction, which needs the row and not a free name |
| FunctionStores.UpdateLeaves | shared/domain/repository.go:140-175 | and what it leaves: the replaced object is erased only if the code changed, before the row is written |
| FunctionStores.DeleteReports | shared/domain/repository.go:177-192 | when DeleteFunction succeeds, which error it gives otherwise, and what it leaves: the object goes only after a removal of the row that was reported |
| FunctionStores.GetReports | shared/domain/repository.go:108-128 | in every reachable world GetFunction gives the function last saved, or exactly: a database fault, not found, a storage fault for a failed read or a missing object, a hash mismatch for a corrupted one |
| FunctionStores.NamesStayUniqueIff | shared/domain/repository.go:74-192 | names stay unique through every event except, exactly, an update whose row is written under the name of another function |
| FunctionStores.ReadableIff | services/lambda-service/internal/storage/s3.go:149-182 | a fault-free read succeeds if and only if the row exists and its object holds the saved code |
| FunctionStores.OthersStayReadableIff | shared/domain/repository.go:74-192 | for every create, update, delete, corruption and loss and every fault: a readable function that the event is not about stays readable if and only if the event does not take away or change the object of its code, spelled out from the call, its faults and the saved codes |
| FunctionStores.SharedCodeIsLost | shared/domain/repository.go:97-192 | from two creates of one code, deleting one function, updating it to other code, or a failed create of a third each make the other unreadable |
| FunctionStores.OwnUpdateReadableIff | shared/domain/repository.go:140-175 | for every fault: a readable function stays readable through its own update if and only if the update stops before erasing, or its row write is refused with the code unchanged or the erasing failed, or its row is written and no wrong object was found under the new key |
| FunctionStores.FunctionService.StoreCode | services/lambda-service/internal/storage/s3.go:94-147 | an object already there is reused, otherwise written; faults leave or lose the write |
| FunctionStores.FunctionService.RetrieveCode | services/lambda-service/internal/storage/s3.go:149-182 | the bytes, or an error when missing, unreadable or not matching the key's hash |
| FunctionStores.FunctionService.CreateFunction | shared/domain/repository.go:74-106 | validation, name check, object write, row write and its rollback, for every fault: the call that CreateReports and CreateLeaves describe |
| FunctionStores.FunctionService.GetFunction | shared/domain/repository.go:108-131 | the row with its code filled in, or the error of the step that failed: the call that GetReports describes |
| FunctionStores.FunctionService.UpdateFunction | shared/domain/repository.go:140-175 | the new object, the old one's removal and the row write, for every fault: the call that UpdateReports and UpdateLeaves describe |
| FunctionStores.FunctionService.DeleteFunction | shared/domain/repository.go:177-192 | the row and then its object are removed, for every fault: the call that DeleteReports describes |

## Left out

- Clients of Docker, Kubernetes, S3, Redis, AMQP and Postgres: abstract maps, sets and queues that may fail at any call; creating a Docker container and seeding it are one step each, failing or succeeding.
- Fields of a container the pool does not read (State, Runtime, timestamps of creation) and the cold-start, creation and eviction counters of DockerPool.
- DockerPool's Evict, Size and Stats: Evict has no caller in the executor, the other two only read.
- Whether stopDockerContainer succeeds: a container counts as stopped once it is handed to it; only Release looks at the error, and that branch is modelled.
- Goroutines that evictAndReplenish starts only to stop a container: the container is handed to stop in the same step.
- A caller's last `go` statement: the thread turns into the goroutine it starts, under the same thread name.
- A Go panic ends the whole process; the registry's runs only end the pool it happened in, so they cover more behaviours than the process has.
- DockerPoolClass.DockerPool.Release: called, as by the executor, with a container that the caller acquired and has not given back.
- DockerPoolClass.DockerPool.Discard: the goroutine's later replenishing is counted, not run; ReplenishOne and the step machine run it.
- DockerPoolClass.DockerPool.Shutdown: called with no registered goroutine to wait for, and the errors of stopping containers are not collected; waiting and racing are in the step machine.
- A hand-over to a receiver that waits on the empty channel is the send followed by the receive; in between the container counts as idle, also when MaxSize is 0 and the channel unbuffered.
- A collision of an Add with the last Done of the WaitGroup is charged to the thread that adds, though Go may report it in the goroutine that is done.
- PoolRegistryClass.PoolRegistry.GetOrCreate: the call of Start after the lock is released is a step of the registry machine, not of the method.
- PoolRegistryClass.PoolRegistry.Shutdown: the errors that the pools' Shutdowns return are not collected.
- A bound on idle plus in-use containers of DockerPool: the code keeps none, since replenishing looks at idle containers only.
- Exclusive use of Kubernetes pods: CreateNew publishes the pod it returns as warm, so the code does not give it.
- KubernetesPools.KubernetesPodPool.Release: pods are values identified by name, so a pod released after its eviction is simply unknown; pointer aliasing is not modelled.
- The registry's Shutdown calls pools one after the other; a pool on its list counts as told to stop from the moment it is listed.
- TokenBuckets.TokenBucketLimiter.Allow: a Redis error, answered by an in-memory limiter of a library, is not part of this model.
- TokenBuckets.TokenBucketLimiter.Reset: the two deletions of the pipeline are one step, and an error means that neither happened.
- Clocks that go backwards; Lua's doubles are unbounded integers here, exact up to 2^53.
- Redis expires a key when the clock has passed its deadline, so a key is readable at its deadline.
- MetadataCaches.BoundedStaleness: D is counted from the database access that starts a background task, and all callers of a flight return when it completes.
- MetadataCaches.CachedFunctionRepository.FindByID: the method runs alone and leads its own flight; joining a flight is in the step machine.
- BuildQueues.QueueConsumer.Reconnect: closing the old connection is a separate event of the broker model, and a list of attempts that ends without success stands for a consumer that is closed.
- BuildLogs.BuildWorker.ProcessBuildJob: parsing the job, webhooks and metrics are not modelled.
- The GitHub path of the build worker, failed or trimmed appends to the log stream, and user output that imitates a sentinel.
- Invalid UTF-8 in log lines: strings are sequences of characters.
- The publisher's side of the queue, consumer liveness and backoff.
- Pointer aliasing of the function GetFunction updates: functions are values, and their timeouts whole seconds.
- The database's own constraint that names are unique: a row write it turns down is a refused write.
- Event bus, processor, cron, webhooks, metrics, HTTP forwarding, ZIP and image builds, path parsers and validators other than the function's: wiring, or settled by one branch.

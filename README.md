# QuiCKCRDB core, modelled in Dafny

QuiCKCRDB is a queue whose coordination state lives in CockroachDB. A worker
process runs a hash-ring **scanner** that peeks queue-zone pointers whose
vesting time has passed, drops the zones it is already processing, and hands
the rest, without blocking, to a bounded channel read by **manager** routines.
A manager takes a zone's lease with an optimistic conditional update and then
dequeues a batch of the zone's items. Every database call goes through a
**reliable-execution layer** that retries with backoff and classifies errors as
permanent or retryable.

This project models, sequentially:

- `utils.dfy` (module `Utils`, from `utils/utils.go`): Go error chains as a
  datatype (`Base(cause)` under `Wrap(msg, inner)` layers), `errors.Is` and
  `errors.As`, `IsPermSQLErr`, and `reliableExec`. A retry loop runs over a
  script of attempt outcomes and a connection-pool object. The script gives the
  acquire result, the result of `f`, and whether the outer deadline has passed.
  The pool object counts checked-out connections. The module also has the
  transaction body of `ReliableExecInReadCommittedTx`.
- `queries.dfy` (module `Queries`): the generated-query interface. It holds the
  zone-pointer row, the three parameter records and Go's `int32(...)` cast. A
  lease store gives `ObtainTopLevelQueue` its assumed compare-and-swap meaning.
- `options.dfy` (module `Options`, from `worker_options.go` and `worker.go`):
  the `workerConfig` value, its defaults, the three options, and a
  `WorkerConfig` class whose fields the options write in place.
- `worker.dfy` (module `QuickWorker`, from `worker.go`): the `Worker` class.
  It covers `NewWorker`, the scanner loop with its token advance,
  `scanHashToken` (filter, then non-blocking sends into `managerRecv`) and
  `StopScanner`.
- `manager.dfy` (module `Manager`, from `manager.go`):
  `managerObtainTopLevelQueue`, which obtains the lease, then dequeues,
  treating no-rows as an expected miss in both phases.
- `logger.dfy` (module `Logger`, from `logger.go`): the
  `zerolog.CallerMarshalFunc` closure, with `strings.LastIndex` and
  `strconv.Itoa`.

Behaviour of the code that the model keeps, as written:

- `NewWorker` stores the package-level `defaultConfig` object itself and runs
  the options on it. Options therefore persist into every later worker, and
  they also reach every earlier one. `StopScanner` reads the routine counts
  from that shared object when it runs, but the stop channels were sized when
  the worker was made. When a later worker raises a routine count, an earlier
  worker's `StopScanner` blocks on a full channel
  (`QuickWorker.SharedDefaultsReachEarlierWorker`).
- The manager does not distinguish a won lease from a missed one: after a
  no-rows obtain it still dequeues (`Manager.RaceForZone`).
- Nothing ever writes `processingQueueZones`, so the scanner's filter keeps
  every peeked zone (`QuickWorker.NotProcessingNothingProcessing`).
- `launchManager` is never started, so nothing drains `managerRecv`. Once it
  holds `managerRecvBuffer` zones, every further zone is dropped.
- With a negative `hashRingSize` the token stays at 0. The ring period is
  `max(0, hashRingSize) + 1`.

Three further facts about the code:

- The dequeue runs after a missed obtain as well as after a won one: a no-rows
  obtain returns nil from its transaction body (manager.go:34-37).
- An acquire failure is permanent only when the acquire error wraps
  `context.Canceled` or the outer context's deadline has passed
  (utils/utils.go:94). A canceled outer context is not checked directly.
- The rows `DequeueItems` returns are discarded (manager.go:54).

## Model

| member | source | states |
|---|---|---|
| Utils.IsMeansRootCause | utils/utils.go:118 | `errors.Is` walking the wrap chain finds a sentinel exactly when it is the chain's root cause |
| Utils.AsPgError | utils/utils.go:121-122 | `errors.As` yields a PgError code exactly when the chain ends in a PgError, and it is that error's code |
| Utils.IsPermSQLErr | utils/utils.go:114-133 | nil is not permanent. A non-nil error is permanent iff its chain ends in ErrNoRows, or in a PgError with code 23505 or 42703 |
| Utils.PermIgnoresWrapping | utils/utils.go:114-133 | wrapping an error with `%w` never changes its classification |
| Utils.Classify | utils/utils.go:86-110 | an attempt succeeds iff it acquires and f returns nil. An acquire failure is returned wrapped, permanent iff it wraps Canceled or the outer deadline passed. An f error is returned as is, permanent iff IsPermSQLErr accepts it, it wraps Canceled, or the outer deadline passed |
| Utils.RunCharacterized | utils/utils.go:82-85 | backoff.Retry with 3 retries makes 1 to 4 attempts. Every attempt before the last was retryable. The last succeeded, failed permanently, or was retryable with no retry left, and its error is the one returned |
| Utils.RunSucceedsIff | utils/utils.go:82-112 | reliableExec returns nil iff some attempt within the cap acquired a connection and f succeeded, after only retryable failures |
| Utils.ConnPool.Acquire | utils/utils.go:89 | acquiring checks out one connection exactly when it does not fail |
| Utils.ConnPool.Release | utils/utils.go:99 | releasing returns one connection to the pool |
| Utils.TryOnce | utils/utils.go:86-110 | one attempt yields the verdict `Classify` gives, and leaves the pool's checked-out count as it found it (release on every exit) |
| Utils.ReliableExec | utils/utils.go:82-112 | the retry loop returns exactly the error and attempt count `Run` gives with MaxRetries = 3, and leaves every connection released |
| Utils.ReadCommittedBody | utils/utils.go:64-78 | the isolation statement runs first. f runs, last, iff that statement succeeded, and then its error is returned. Otherwise the statement's error is returned wrapped |
| Queries.ToInt32 | worker.go:134-135 | Go's `int32(x)`: the result is in the int32 range, congruent to x modulo 2^32, and equal to x when x fits |
| Queries.ObtainCas | manager.go:24-32 | (assumed meaning of the generated SQL) the lease and vesting time are written iff the zone exists and its lease equals KnownLease, NULL matching NULL, and no other zone changes |
| Queries.SecondObtainMisses | manager.go:24-39 | of two obtains carrying the same known lease, the second misses once the first has won |
| Queries.LeaseStore.ObtainTopLevelQueue | manager.go:24-32 | a statement failure is returned and changes nothing. Otherwise the compare-and-swap writes the lease or ErrNoRows is returned |
| Queries.ObtainError | manager.go:24-33 | the error the obtain query returns: the fault if any, else nil iff the compare-and-swap matched, else ErrNoRows |
| Options.DefaultConfig | worker.go:56-72 | the defaults: routine counts and processing bound are NumCPU, not sequential, peekMax 100, selectionMax 10, dequeueMax 10, managerRecvBuffer 100, scannerInterval 100 ms |
| Options.SequentialWritesOnlySequential | worker_options.go:6-10 | `Sequential()` sets sequential and leaves every other field unchanged |
| Options.ManagersWritesOnlyManagerRoutines | worker_options.go:13-17 | `Managers(n)` sets managerRoutines to n and nothing else |
| Options.WorkersWritesOnlyWorkerRoutines | worker_options.go:19-24 | `Workers(n)` sets workerRoutines to n and nothing else. In particular it does not touch managerRoutines |
| Options.ApplyIdempotent | worker_options.go:6-24 | applying any option twice equals applying it once |
| Options.ManagersWorkersCommute | worker_options.go:13-24 | Managers and Workers commute |
| Options.ApplyOptionsLastWins | worker.go:86-88 | after a list of options, the last Managers and the last Workers decide the counts. sequential is set iff some option is Sequential or it was already set. All other fields are untouched |
| Options.WorkerConfig.Apply | worker_options.go:6-24 | running an option closure on the config object changes its value exactly as the option says |
| Options.WorkerConfig.ApplyEach | worker.go:86-88 | the option loop leaves the object holding the options applied in order |
| QuickWorker.NextTokenInRing | worker.go:118-121 | advancing a token in [0, max(0, hashRingSize)] stays in that range |
| QuickWorker.TokenInRing | worker.go:104-121 | starting from 0, every token the scanner reaches lies in [0, max(0, hashRingSize)] |
| QuickWorker.TokenFirstPass | worker.go:104-121 | the first hashRingSize + 1 ticks scan tokens 0, 1, ..., hashRingSize in order |
| QuickWorker.TokenCycle | worker.go:118-121 | the token sequence repeats with period max(0, hashRingSize) + 1 |
| QuickWorker.NotProcessingMembers | worker.go:151-159 | a zone survives the filter iff it was peeked and its QueueZone is not a key of processingQueueZones. The filter never lengthens the list |
| QuickWorker.NotProcessingAppend | worker.go:151-159 | the filter keeps order: filtering a concatenation concatenates the filtered parts |
| QuickWorker.NotProcessingNothingProcessing | worker.go:151-159 | with an empty processing map (which is what NewWorker creates at worker.go:82, and nothing writes it) the filter keeps every zone |
| QuickWorker.NonBlockingSendsPrefix | worker.go:162-173 | the non-blocking sends append the longest prefix of the filtered zones that fits, drop the rest, and never exceed the channel's capacity |
| QuickWorker.Worker.constructor | worker.go:74-101 | NewWorker keeps the shared default object as its config after applying the options to it in order. It starts with an empty processing map, an empty managerRecv and no stop signals. Channel capacities are the config's managerRecvBuffer and routine counts at that moment |
| QuickWorker.Worker.ScanHashToken | worker.go:126-174 | the peek request carries the token and int32(peekMax). A failed peek returns its error and sends nothing. Otherwise no error, and managerRecv becomes the non-blocking sends of the filtered zones. processingQueueZones is unchanged |
| QuickWorker.Worker.LaunchScanner | worker.go:103-123 | the k-th scan uses token `TokenAt(hashRingSize, k)`, within the ring. A stop returns before any further scan and leaves the token alone. A scan error crashes the loop. Every earlier scan succeeded. managerRecv ends as `ChannelAfter` of the ticks handled: each successful peek's unprocessed zones sent without blocking, a failed peek sending nothing |
| QuickWorker.ChannelAfterBounded | worker.go:162-173 | across any number of scans managerRecv keeps what it held and never exceeds its capacity |
| QuickWorker.Worker.StopScanner | worker.go:197-208 | a call after the first changes nothing. The first sets shuttingDown and sends 1 scanner stop, then max(0, managerRoutines) manager stops and max(0, workerRoutines) worker stops (counts read now). It blocks iff a count exceeds its channel's capacity |
| QuickWorker.SharedDefaultsReachEarlierWorker | worker.go:77-92 | after a second NewWorker with Managers(NumCPU+1), the first worker's managerRoutines is NumCPU+1 too, and the first worker's StopScanner then blocks |
| Manager.ExpectMiss | manager.go:33-40 | a phase body returns nil iff its query returned nil or an error wrapping ErrNoRows. Any other error comes back wrapped with the phase's message |
| Manager.ManagerObtainTopLevelQueue | manager.go:14-85 | a UUID failure returns the wrapped error before any store work. The obtain carries the new lease, now + zone lease duration, the zone and the scanned lease. The store changes only by that compare-and-swap. The dequeue runs iff the obtain succeeded or missed, with the hash token, zone, int32(dequeueMax) and now + item lease duration. The result is the dequeue phase's verdict |
| Manager.RaceForZone | manager.go:23-61 | two managers racing with the same known lease: the first takes the lease; the second misses without error and still dequeues; the first one's lease stays |
| Logger.LastIndex | logger.go:23 | `strings.LastIndex`: -1 iff the character is absent, otherwise an index holding it with none after it |
| Logger.ItoaRoundTrip | logger.go:29 | `strconv.Itoa` is invertible: parsing its output gives back the number |
| Logger.ItoaCharacters | logger.go:29 | Itoa writes only a sign and decimal digits |
| Logger.TrimFunctionName | logger.go:22-26 | the printed name is a suffix of the function name. If a '/' occurs past index 0, it is the part after the last '/', holds no '/', and follows a '/'. Otherwise it is the whole name |
| Logger.CallerMarshal | logger.go:18-30 | with no function: `file:line`. With one: `file:line name()`, where name is trimmed |
| Logger.CallerLineRecoverable | logger.go:29 | the result begins with `file:`, and the line can be read back from the digits that follow |

## Left out

- Goroutines, `select`, tickers and channel blocking (worker.go:98, 105-117, 176-190). The scanner loop runs over a finite script of wake-ups, and each manager call runs on its own. Blocking on a full stop channel is reported as `blocked`.
- QuickWorker.Worker.LaunchScanner: the Go loop runs until stopped. The model runs over a finite event list, and its stop events are not tied to the `stopScanner` counter that `StopScanner` fills.
- Manager.ManagerObtainTopLevelQueue: each phase makes one store call. The retries of `ReliableExecInSerializedTx` around it are modelled, on their own, by `Utils.ReliableExec`.
- The SQL behind `PeekTopLevelQueues` and `DequeueItems` is not part of this model. Their results are inputs: the peek's zones or error, and the dequeue's error. The dequeued rows are discarded by the source anyway.
- `ObtainTopLevelQueue` as a compare-and-swap on the lease is an assumption taken from its parameter names. Leases compare as SQL's `IS NOT DISTINCT FROM`: a NULL KnownLease matches a NULL `lease_id`, so a never-leased zone can be obtained (under a plain `=` it never could). The generated query code is not part of this model. The row type's fields are those used by `scanHashToken` and the manager; scanner_queries.go:11-16 shows the same shape.
- `crdbpgx.ExecuteTx` (BEGIN/COMMIT and its own retries), and the pass-through wrappers `ReliableExec` and `ReliableExecInSerializedTx` (utils/utils.go:41-62).
- Backoff intervals, jitter and the backoff's maximum elapsed time. The per-attempt context timeout is left out too. Its effect reaches the model only through the attempt outcomes.
- OpenTelemetry spans and logging output (utils/utils.go:80, 88-90, 100-102; the debug and fatal log calls).
- `getEnvOrDefault`, `getEnvOrDefaultInt` (environment I/O), logger `init`/`NewLogger` global setup, and `runtime.FuncForPC`, whose result is the optional function name.
- query/helpers.go (tracing wrappers), scanner_queries.go (unused raw SQL) and queue_item.go (a plain record).
- The float `selectionFrac`. The other unused configuration fields are carried but read by nothing.
- Wall-clock time and UUID generation are inputs. The int64 range of `time.Time` arithmetic is not modelled.
- Go's 64-bit `int` is modelled as unbounded. With `hashRingSize` equal to the largest int, `token++` at worker.go:118 would wrap to a negative value, which `TokenInRing` does not cover. `make` with a size too large to allocate panics, which is not modelled either.
- NewWorker's `pool` and `workerFunction` parameters: the pool is external, and the source never stores the function. The scanner ticker and `scannerInterval` timeouts are timing.
- QuickWorker.Worker.constructor: `make` with a negative size panics in Go. Those sizes are excluded by its requires rather than modelled as a panic.

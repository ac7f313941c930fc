/**
 * The worker configuration (workerConfig in worker.go) and the functional
 * options of worker_options.go that write it in place.
 * Durations are integers in nanoseconds, as Go's time.Duration.
 */
module Options {

  const Millisecond: int := 1_000_000
  const Second: int := 1_000_000_000

  /** The value of a workerConfig (selectionFrac, a float, is not modelled). */
  datatype Config = Config(
    managerRoutines: int,
    workerRoutines: int,
    sequential: bool,
    peekMax: int,
    selectionMax: int,
    processingBound: int,
    dequeueMax: int,
    pointerLeaseDuration: int,
    pointerMinInactive: int,
    vestingTimeRewriteThreshold: int,
    scannerInterval: int,
    managerRecvBuffer: int)

  /** The initial value of the package-level defaultConfig; runtime.NumCPU() is a parameter. */
  function DefaultConfig(numCPU: int): (c: Config)
    ensures c.managerRoutines == c.workerRoutines == c.processingBound == numCPU
    ensures !c.sequential
    ensures c.peekMax == 100 && c.selectionMax == 10 && c.dequeueMax == 10
    ensures c.managerRecvBuffer == 100 && c.scannerInterval == 100 * Millisecond
  {
    Config(
      managerRoutines := numCPU,
      workerRoutines := numCPU,
      sequential := false,
      peekMax := 100,
      selectionMax := 10,
      processingBound := numCPU,
      dequeueMax := 10,
      pointerLeaseDuration := Second,
      pointerMinInactive := 30 * Second,
      vestingTimeRewriteThreshold := 250 * Millisecond,
      scannerInterval := 100 * Millisecond,
      managerRecvBuffer := 100)
  }

  /** The three WorkerOption closures, by the constructor function that makes them. */
  datatype WorkerOption = Sequential | Managers(threads: int) | Workers(threads: int)

  /** What one option closure does to a configuration. */
  function ApplyOption(c: Config, o: WorkerOption): Config
  {
    match o
    case Sequential => c.(sequential := true)
    case Managers(n) => c.(managerRoutines := n)
    case Workers(n) => c.(workerRoutines := n)
  }

  /** The options applied one after the other, as `for _, opt := range opts { opt(config) }`. */
  function ApplyOptions(c: Config, opts: seq<WorkerOption>): Config
  {
    if opts == [] then c
    else ApplyOption(ApplyOptions(c, opts[..|opts| - 1]), opts[|opts| - 1])
  }

  /** Sequential() sets sequential and leaves every other field as it was. */
  lemma SequentialWritesOnlySequential(c: Config)
    ensures ApplyOption(c, Sequential).sequential
    ensures ApplyOption(c, Sequential).(sequential := c.sequential) == c
  {
  }

  /** Managers(n) sets managerRoutines to n and leaves every other field as it was. */
  lemma ManagersWritesOnlyManagerRoutines(c: Config, n: int)
    ensures ApplyOption(c, Managers(n)).managerRoutines == n
    ensures ApplyOption(c, Managers(n)).(managerRoutines := c.managerRoutines) == c
  {
  }

  /** Workers(n) sets workerRoutines (not managerRoutines) to n and nothing else. */
  lemma WorkersWritesOnlyWorkerRoutines(c: Config, n: int)
    ensures ApplyOption(c, Workers(n)).workerRoutines == n
    ensures ApplyOption(c, Workers(n)).managerRoutines == c.managerRoutines
    ensures ApplyOption(c, Workers(n)).(workerRoutines := c.workerRoutines) == c
  {
  }

  /** Every option is idempotent. */
  lemma ApplyIdempotent(c: Config, o: WorkerOption)
    ensures ApplyOption(ApplyOption(c, o), o) == ApplyOption(c, o)
  {
  }

  /** Managers and Workers write disjoint fields, so their order does not matter. */
  lemma ManagersWorkersCommute(c: Config, m: int, w: int)
    ensures ApplyOption(ApplyOption(c, Managers(m)), Workers(w)) == ApplyOption(ApplyOption(c, Workers(w)), Managers(m))
  {
  }

  /** The value of managerRoutines after a list of options: the last Managers option wins. */
  function LastManagers(opts: seq<WorkerOption>, default: int): int
  {
    if opts == [] then default
    else if opts[|opts| - 1].Managers? then opts[|opts| - 1].threads
    else LastManagers(opts[..|opts| - 1], default)
  }

  /** The value of workerRoutines after a list of options: the last Workers option wins. */
  function LastWorkers(opts: seq<WorkerOption>, default: int): int
  {
    if opts == [] then default
    else if opts[|opts| - 1].Workers? then opts[|opts| - 1].threads
    else LastWorkers(opts[..|opts| - 1], default)
  }

  /**
   * Applying a list of options: the last Managers and the last Workers option
   * decide the routine counts, sequential is set exactly when some option is
   * Sequential (or it was already set), and every other field is untouched.
   */
  lemma {:induction false} ApplyOptionsLastWins(c: Config, opts: seq<WorkerOption>)
    ensures ApplyOptions(c, opts).managerRoutines == LastManagers(opts, c.managerRoutines)
    ensures ApplyOptions(c, opts).workerRoutines == LastWorkers(opts, c.workerRoutines)
    ensures ApplyOptions(c, opts).sequential <==> c.sequential || Sequential in opts
    ensures ApplyOptions(c, opts).(managerRoutines := c.managerRoutines,
                               workerRoutines := c.workerRoutines,
                               sequential := c.sequential) == c
  {
    if opts != [] {
      var init := opts[..|opts| - 1];
      ApplyOptionsLastWins(c, init);
      assert opts == init + [opts[|opts| - 1]];
    }
  }

  /** A workerConfig object; options write its fields in place, and it may be shared. */
  class WorkerConfig {
    var managerRoutines: int
    var workerRoutines: int
    var sequential: bool
    var peekMax: int
    var selectionMax: int
    var processingBound: int
    var dequeueMax: int
    var pointerLeaseDuration: int
    var pointerMinInactive: int
    var vestingTimeRewriteThreshold: int
    var scannerInterval: int
    var managerRecvBuffer: int

    /** The configuration the fields currently hold. */
    function Value(): Config
      reads this
    {
      Config(managerRoutines, workerRoutines, sequential, peekMax, selectionMax, processingBound,
             dequeueMax, pointerLeaseDuration, pointerMinInactive, vestingTimeRewriteThreshold,
             scannerInterval, managerRecvBuffer)
    }

    constructor (c: Config)
      ensures Value() == c
    {
      managerRoutines, workerRoutines, sequential := c.managerRoutines, c.workerRoutines, c.sequential;
      peekMax, selectionMax, processingBound := c.peekMax, c.selectionMax, c.processingBound;
      dequeueMax, pointerLeaseDuration, pointerMinInactive := c.dequeueMax, c.pointerLeaseDuration, c.pointerMinInactive;
      vestingTimeRewriteThreshold, scannerInterval := c.vestingTimeRewriteThreshold, c.scannerInterval;
      managerRecvBuffer := c.managerRecvBuffer;
    }

    /** Runs one option closure on this object: exactly one field is written. */
    method Apply(o: WorkerOption)
      modifies this
      ensures Value() == ApplyOption(old(Value()), o)
    {
      match o
      case Sequential => sequential := true;
      case Managers(n) => managerRoutines := n;
      case Workers(n) => workerRoutines := n;
    }

    /** The loop of NewWorker that runs every option, in order, on this object. */
    method ApplyEach(opts: seq<WorkerOption>)
      modifies this
      ensures Value() == ApplyOptions(old(Value()), opts)
    {
      for i := 0 to |opts|
        invariant Value() == ApplyOptions(old(Value()), opts[..i])
      {
        Apply(opts[i]);
        assert opts[..i + 1][..i] == opts[..i];
      }
      assert opts[..|opts|] == opts;
    }
  }
}

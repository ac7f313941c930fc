/**
 * The Worker of worker.go: the hash-ring scanner (token advance and per-token
 * dispatch of zone pointers into the bounded managerRecv channel), the
 * shutdown broadcast of StopScanner, and NewWorker.
 *
 * Channels are modelled by their buffered contents (managerRecv) or by how many
 * signals sit in them (the stop channels), each with the capacity fixed when it
 * was made. Nothing in the source receives from managerRecv or from the manager
 * and worker stop channels (launchManager is never started and launchWorker is
 * empty), so no method here removes from them.
 */
module QuickWorker {
  import opened Wrappers
  import opened Utils
  import opened Queries
  import opened Options

  // ---------------------------------------------------------------------------
  // The hash-ring token of launchScanner

  /** How many tokens the scanner cycles through: 0 .. hashRingSize, or just 0 when the size is negative. */
  function RingPeriod(hashRingSize: int): (p: nat)
    ensures p >= 1
  {
    if hashRingSize < 0 then 1 else hashRingSize + 1
  }

  /** `token++; if token > hashRingSize { token = 0 }` */
  function NextToken(token: int, hashRingSize: int): int
  {
    if token + 1 > hashRingSize then 0 else token + 1
  }

  /** The token launchScanner scans on its k-th tick, counting from 0, starting from token 0. */
  function TokenAt(hashRingSize: int, k: nat): int
  {
    if k == 0 then 0 else NextToken(TokenAt(hashRingSize, k - 1), hashRingSize)
  }

  /** The tokens of the first `n` scans, in order. */
  function ScanTokens(hashRingSize: int, n: nat): (r: seq<int>)
    ensures |r| == n && forall k :: 0 <= k < n ==> r[k] == TokenAt(hashRingSize, k)
  {
    if n == 0 then [] else ScanTokens(hashRingSize, n - 1) + [TokenAt(hashRingSize, n - 1)]
  }

  /** Advancing a token inside the ring keeps it inside the ring. */
  lemma NextTokenInRing(token: int, hashRingSize: int)
    requires 0 <= token < RingPeriod(hashRingSize)
    ensures 0 <= NextToken(token, hashRingSize) < RingPeriod(hashRingSize)
  {
  }

  /** Every token the scanner reaches lies in [0, max(0, hashRingSize)]. */
  lemma {:induction false} TokenInRing(hashRingSize: int, k: nat)
    ensures 0 <= TokenAt(hashRingSize, k) < RingPeriod(hashRingSize)
  {
    if k > 0 {
      TokenInRing(hashRingSize, k - 1);
      NextTokenInRing(TokenAt(hashRingSize, k - 1), hashRingSize);
    }
  }

  /** During its first pass the scanner visits 0, 1, ..., max(0, hashRingSize) in order. */
  lemma {:induction false} TokenFirstPass(hashRingSize: int, k: nat)
    requires k < RingPeriod(hashRingSize)
    ensures TokenAt(hashRingSize, k) == k
  {
    if k > 0 {
      TokenFirstPass(hashRingSize, k - 1);
    }
  }

  /**
   * After max(0, hashRingSize) + 1 ticks the scanner is back where it was: the
   * tokens repeat with period RingPeriod(hashRingSize), so every tick from the
   * first pass on revisits 0, 1, ..., max(0, hashRingSize).
   */
  lemma {:induction false} TokenCycle(hashRingSize: int, k: nat)
    ensures TokenAt(hashRingSize, k + RingPeriod(hashRingSize)) == TokenAt(hashRingSize, k)
  {
    var p := RingPeriod(hashRingSize);
    if k == 0 {
      TokenFirstPass(hashRingSize, p - 1);
    } else {
      TokenCycle(hashRingSize, k - 1);
      assert k + p - 1 == (k - 1) + p;
    }
  }

  // ---------------------------------------------------------------------------
  // scanHashToken

  /** The peeked zones whose QueueZone is not a key of the local processing map, in their order. */
  function NotProcessing(queues: seq<TopLevelQueue>, processing: map<string, string>): seq<TopLevelQueue>
  {
    if queues == [] then []
    else
      var last := queues[|queues| - 1];
      NotProcessing(queues[..|queues| - 1], processing) + (if last.queueZone in processing then [] else [last])
  }

  /** A zone survives the filter exactly when it was peeked and is not being processed. */
  lemma {:induction false} NotProcessingMembers(queues: seq<TopLevelQueue>, processing: map<string, string>)
    ensures forall q :: q in NotProcessing(queues, processing) <==> q in queues && q.queueZone !in processing
    ensures |NotProcessing(queues, processing)| <= |queues|
  {
    if queues != [] {
      var init := queues[..|queues| - 1];
      NotProcessingMembers(init, processing);
      assert queues == init + [queues[|queues| - 1]];
    }
  }

  /** The filter keeps order: filtering a concatenation concatenates the filtered parts. */
  lemma {:induction false} NotProcessingAppend(a: seq<TopLevelQueue>, b: seq<TopLevelQueue>, processing: map<string, string>)
    ensures NotProcessing(a + b, processing) == NotProcessing(a, processing) + NotProcessing(b, processing)
    decreases |b|
  {
    if b != [] {
      var initB := b[..|b| - 1];
      assert (a + b)[..|a + b| - 1] == a + initB;
      NotProcessingAppend(a, initB, processing);
    } else {
      assert a + b == a;
    }
  }

  /** With nothing being processed the filter keeps every peeked zone. */
  lemma {:induction false} NotProcessingNothingProcessing(queues: seq<TopLevelQueue>)
    ensures NotProcessing(queues, map[]) == queues
  {
    if queues != [] {
      NotProcessingNothingProcessing(queues[..|queues| - 1]);
      assert queues == queues[..|queues| - 1] + [queues[|queues| - 1]];
    }
  }

  /**
   * The non-blocking sends `select { case managerRecv <- queue: default: }`, one
   * per zone in order: a zone enters the channel when there is room and is
   * dropped otherwise.
   */
  function NonBlockingSends(channel: seq<TopLevelQueue>, capacity: nat, queues: seq<TopLevelQueue>): seq<TopLevelQueue>
    decreases |queues|
  {
    if queues == [] then channel
    else NonBlockingSends(if |channel| < capacity then channel + [queues[0]] else channel, capacity, queues[1..])
  }

  /** How many of n zones fit into a channel holding `held` of `capacity`. */
  function Room(held: nat, capacity: nat, n: nat): nat
  {
    if held >= capacity then 0 else if n < capacity - held then n else capacity - held
  }

  /**
   * The sends never overflow the channel: what is sent is the longest prefix of
   * the zones that fits, appended after what the channel already held; the rest
   * is dropped.
   */
  lemma {:induction false} NonBlockingSendsPrefix(channel: seq<TopLevelQueue>, capacity: nat, queues: seq<TopLevelQueue>)
    requires |channel| <= capacity
    ensures NonBlockingSends(channel, capacity, queues) == channel + queues[..Room(|channel|, capacity, |queues|)]
    ensures |NonBlockingSends(channel, capacity, queues)| <= capacity
    decreases |queues|
  {
    if queues != [] {
      if |channel| < capacity {
        NonBlockingSendsPrefix(channel + [queues[0]], capacity, queues[1..]);
        var n := Room(|channel| + 1, capacity, |queues| - 1);
        assert queues[..n + 1] == [queues[0]] + queues[1..][..n];
      } else {
        NonBlockingSendsPrefix(channel, capacity, queues[1..]);
      }
    }
  }

  /** What one wake-up of the scanner does to managerRecv (a failed peek and a stop send nothing). */
  function ScanStep(channel: seq<TopLevelQueue>, capacity: nat, processing: map<string, string>,
                    event: ScannerEvent): seq<TopLevelQueue>
  {
    match event
    case Tick(Success(queues)) => NonBlockingSends(channel, capacity, NotProcessing(queues, processing))
    case _ => channel
  }

  /** What managerRecv holds after the scanner has handled the first `n` of `events`, in order. */
  function ChannelAfter(channel: seq<TopLevelQueue>, capacity: nat, processing: map<string, string>,
                        events: seq<ScannerEvent>, n: nat): seq<TopLevelQueue>
    requires n <= |events|
  {
    if n == 0 then channel
    else ScanStep(ChannelAfter(channel, capacity, processing, events, n - 1), capacity, processing, events[n - 1])
  }

  /**
   * However many scans run, managerRecv keeps what it held, gains only zones the
   * scans sent, and never holds more than its capacity.
   */
  lemma {:induction false} ChannelAfterBounded(channel: seq<TopLevelQueue>, capacity: nat,
                                               processing: map<string, string>, events: seq<ScannerEvent>, n: nat)
    requires |channel| <= capacity && n <= |events|
    ensures channel <= ChannelAfter(channel, capacity, processing, events, n)
    ensures |ChannelAfter(channel, capacity, processing, events, n)| <= capacity
  {
    if n > 0 {
      ChannelAfterBounded(channel, capacity, processing, events, n - 1);
      var before := ChannelAfter(channel, capacity, processing, events, n - 1);
      match events[n - 1]
      case Tick(Success(queues)) =>
        NonBlockingSendsPrefix(before, capacity, NotProcessing(queues, processing));
      case _ =>
    }
  }

  /** `i < n` loops of StopScanner run max(0, n) times. */
  function Max0(n: int): nat
  {
    if n < 0 then 0 else n
  }

  /** What the scanner loop is woken by: the stop signal, or a tick whose peek returned this result. */
  datatype ScannerEvent = Stop | Tick(peek: Result<seq<TopLevelQueue>, Error>)

  /** How launchScanner ended: it returned on a stop signal, crashed (logger.Fatal), or the events ran out. */
  datatype ScannerExit = Stopped | Crashed(err: Error) | OutOfEvents

  class Worker {
    /** The configuration object; NewWorker stores the shared default configuration itself. */
    const config: WorkerConfig
    const hashRingSize: int
    const queueZoneLeaseDuration: int
    const queueItemLeaseDuration: int

    /** The zones this process believes it is processing (keyed by QueueZone). */
    var processingQueueZones: map<string, string>

    /** The buffered contents of managerRecv, oldest first, and its capacity. */
    var managerRecv: seq<TopLevelQueue>
    const managerRecvCapacity: nat

    var shuttingDown: bool

    /** How many stop signals sit in stopScanner (capacity 1), stopManagers and stopWorkers. */
    var stopScanner: nat
    var stopManagers: nat
    var stopWorkers: nat
    const stopManagersCapacity: nat
    const stopWorkersCapacity: nat

    /** No channel holds more than it was made for, and no stop signal is sent before shutdown. */
    ghost predicate Valid()
      reads this
    {
      && |managerRecv| <= managerRecvCapacity
      && stopScanner <= 1
      && stopManagers <= stopManagersCapacity
      && stopWorkers <= stopWorkersCapacity
      && (!shuttingDown ==> stopScanner == 0 && stopManagers == 0 && stopWorkers == 0)
    }

    /**
     * NewWorker: runs every option, in order, on the shared default configuration
     * and keeps that very object as the worker's configuration; the stop channels
     * are sized to the routine counts and managerRecv to managerRecvBuffer as they
     * are at this moment. (Go's make panics on a negative size, hence the requires.)
     */
    constructor (defaultConfig: WorkerConfig, hashRingSize: int,
                 queueZoneLeaseDuration: int, queueItemLeaseDuration: int, opts: seq<WorkerOption>)
      requires ApplyOptions(defaultConfig.Value(), opts).managerRoutines >= 0
      requires ApplyOptions(defaultConfig.Value(), opts).workerRoutines >= 0
      requires ApplyOptions(defaultConfig.Value(), opts).managerRecvBuffer >= 0
      modifies defaultConfig
      ensures config == defaultConfig
      ensures defaultConfig.Value() == ApplyOptions(old(defaultConfig.Value()), opts)
      ensures this.hashRingSize == hashRingSize
      ensures this.queueZoneLeaseDuration == queueZoneLeaseDuration
      ensures this.queueItemLeaseDuration == queueItemLeaseDuration
      ensures processingQueueZones == map[] && managerRecv == [] && !shuttingDown
      ensures managerRecvCapacity == defaultConfig.managerRecvBuffer
      ensures stopManagersCapacity == defaultConfig.managerRoutines
      ensures stopWorkersCapacity == defaultConfig.workerRoutines
      ensures Valid()
    {
      config := defaultConfig;
      this.hashRingSize := hashRingSize;
      this.queueZoneLeaseDuration := queueZoneLeaseDuration;
      this.queueItemLeaseDuration := queueItemLeaseDuration;
      processingQueueZones := map[];
      shuttingDown := false;
      defaultConfig.ApplyEach(opts);
      stopScanner, stopManagers, stopWorkers := 0, 0, 0;
      stopManagersCapacity := defaultConfig.managerRoutines;
      stopWorkersCapacity := defaultConfig.workerRoutines;
      managerRecv := [];
      managerRecvCapacity := defaultConfig.managerRecvBuffer;
    }

    /**
     * scanHashToken: asks the store for up to peekMax zones of the token; on a
     * failed peek returns its error and sends nothing; otherwise drops the zones
     * already being processed and sends the rest, without blocking, to managerRecv.
     * `peek` is what the read-committed peek returned for `request`.
     */
    method ScanHashToken(token: int, peek: Result<seq<TopLevelQueue>, Error>)
      returns (request: PeekParams, err: Option<Error>)
      requires Valid()
      modifies this`managerRecv
      ensures Valid()
      ensures request == PeekParams(token, ToInt32(config.peekMax))
      ensures peek.Failure? ==> err == Some(peek.error) && managerRecv == old(managerRecv)
      ensures peek.Success? ==>
        && err.None?
        && managerRecv == NonBlockingSends(old(managerRecv), managerRecvCapacity,
                                           NotProcessing(peek.value, processingQueueZones))
    {
      request := PeekParams(token, ToInt32(config.peekMax));
      if peek.Failure? {
        return request, Some(peek.error);
      }
      var topLevelQueues := peek.value;

      var notProcessing: seq<TopLevelQueue> := [];
      for i := 0 to |topLevelQueues|
        invariant notProcessing == NotProcessing(topLevelQueues[..i], processingQueueZones)
      {
        assert topLevelQueues[..i + 1][..i] == topLevelQueues[..i];
        if topLevelQueues[i].queueZone !in processingQueueZones {
          notProcessing := notProcessing + [topLevelQueues[i]];
        }
      }
      assert topLevelQueues[..|topLevelQueues|] == topLevelQueues;
      topLevelQueues := notProcessing;

      for i := 0 to |topLevelQueues|
        invariant |managerRecv| <= managerRecvCapacity
        invariant NonBlockingSends(managerRecv, managerRecvCapacity, topLevelQueues[i..])
               == NonBlockingSends(old(managerRecv), managerRecvCapacity, topLevelQueues)
      {
        assert topLevelQueues[i..][1..] == topLevelQueues[i + 1..];
        if |managerRecv| < managerRecvCapacity {
          managerRecv := managerRecv + [topLevelQueues[i]];
        }
      }
      err := None;
    }

    /**
     * launchScanner, run over a finite sequence of wake-ups: on a stop signal it
     * returns without touching the token; on a tick it scans the current token,
     * crashes on a scan error, and otherwise advances the token around the ring.
     * `tokens` lists the token of every scan made.
     */
    method LaunchScanner(events: seq<ScannerEvent>) returns (tokens: seq<int>, exit: ScannerExit)
      requires Valid()
      modifies this`managerRecv
      ensures Valid()
      ensures |tokens| <= |events|
      ensures forall k :: 0 <= k < |tokens| ==>
        events[k].Tick? && tokens[k] == TokenAt(hashRingSize, k) && 0 <= tokens[k] < RingPeriod(hashRingSize)
      ensures exit.Stopped? ==> |tokens| < |events| && events[|tokens|].Stop?
      ensures exit.Crashed? ==> |tokens| >= 1 && events[|tokens| - 1].peek == Failure(exit.err)
      ensures forall k :: 0 <= k < |tokens| && (exit.Crashed? ==> k < |tokens| - 1) ==> events[k].peek.Success?
      ensures exit.OutOfEvents? ==> |tokens| == |events|
      ensures managerRecv == ChannelAfter(old(managerRecv), managerRecvCapacity, processingQueueZones, events, |tokens|)
      ensures old(managerRecv) <= managerRecv
    {
      var token := 0;
      tokens := [];
      exit := OutOfEvents;
      var i := 0;
      while i < |events|
        invariant 0 <= i <= |events| && |tokens| == i
        invariant token == TokenAt(hashRingSize, i)
        invariant forall k :: 0 <= k < i ==> events[k].Tick? && events[k].peek.Success?
        invariant tokens == ScanTokens(hashRingSize, i)
        invariant Valid()
        invariant managerRecv == ChannelAfter(old(managerRecv), managerRecvCapacity, processingQueueZones, events, i)
      {
        if events[i].Stop? {
          exit := Stopped;
          break;
        }
        var _, err := ScanHashToken(token, events[i].peek);
        tokens := tokens + [token];
        if err.Some? {
          exit := Crashed(err.value);
          break;
        }
        token := token + 1;
        if token > hashRingSize {
          token := 0;
        }
        i := i + 1;
      }
      forall k | 0 <= k < |tokens|
        ensures 0 <= tokens[k] < RingPeriod(hashRingSize)
      {
        TokenInRing(hashRingSize, k);
      }
      ChannelAfterBounded(old(managerRecv), managerRecvCapacity, processingQueueZones, events, |tokens|);
    }

    /**
     * StopScanner: only the call that flips shuttingDown from false to true sends;
     * it sends one signal to the scanner, then one per manager routine and one per
     * worker routine, reading the routine counts from the configuration as it is
     * now. A send into a full stop channel blocks for good (`blocked`): nothing
     * receives from the manager and worker stop channels.
     */
    method StopScanner() returns (blocked: bool)
      requires Valid()
      modifies this`shuttingDown, this`stopScanner, this`stopManagers, this`stopWorkers
      ensures Valid()
      ensures old(shuttingDown) ==> !blocked && unchanged(this)
      ensures !old(shuttingDown) ==>
        && shuttingDown && stopScanner == 1
        && (blocked <==> config.managerRoutines > stopManagersCapacity
                         || config.workerRoutines > stopWorkersCapacity)
        && (config.managerRoutines > stopManagersCapacity ==>
              stopManagers == stopManagersCapacity && stopWorkers == 0)
        && (config.managerRoutines <= stopManagersCapacity ==>
              && stopManagers == Max0(config.managerRoutines)
              && stopWorkers == if config.workerRoutines > stopWorkersCapacity
                                then stopWorkersCapacity else Max0(config.workerRoutines))
    {
      if shuttingDown {
        return false;
      }
      shuttingDown := true;
      stopScanner := stopScanner + 1;
      var i := 0;
      while i < config.managerRoutines
        invariant 0 <= i <= Max0(config.managerRoutines)
        invariant stopManagers == i <= stopManagersCapacity
        invariant shuttingDown && stopScanner == 1 && stopWorkers == 0
      {
        if stopManagers == stopManagersCapacity {
          return true;
        }
        stopManagers := stopManagers + 1;
        i := i + 1;
      }
      i := 0;
      while i < config.workerRoutines
        invariant 0 <= i <= Max0(config.workerRoutines)
        invariant stopWorkers == i <= stopWorkersCapacity
        invariant shuttingDown && stopScanner == 1 && stopManagers == Max0(config.managerRoutines)
      {
        if stopWorkers == stopWorkersCapacity {
          return true;
        }
        stopWorkers := stopWorkers + 1;
        i := i + 1;
      }
      blocked := false;
    }
  }

  /**
   * Options given to one NewWorker reach every worker made before it, because all
   * of them keep the same configuration object: here a second worker asks for
   * more manager routines than the first one's stop channel holds, and the first
   * worker's StopScanner then blocks.
   */
  method SharedDefaultsReachEarlierWorker(numCPU: nat) returns (firstManagerRoutines: int, blocked: bool)
    ensures firstManagerRoutines == numCPU + 1
    ensures blocked
  {
    var defaults := new WorkerConfig(DefaultConfig(numCPU));
    var first := new Worker(defaults, 16, Second, Second, []);
    var second := new Worker(defaults, 16, Second, Second, [Managers(numCPU + 1)]);
    firstManagerRoutines := first.config.managerRoutines;
    assert firstManagerRoutines > first.stopManagersCapacity;
    blocked := first.StopScanner();
  }
}

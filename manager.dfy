/**
 * managerObtainTopLevelQueue (manager.go): the two-phase lease step a manager
 * routine runs for one zone pointer. Phase one tries to take the zone's lease
 * with ObtainTopLevelQueue; phase two dequeues up to dequeueMax items of the
 * zone with DequeueItems and discards them. In both phases pgx.ErrNoRows is an
 * expected miss and becomes nil; any other error is wrapped and returned.
 *
 * Each phase runs inside ReliableExecInSerializedTx; this model lets each phase
 * make one store call (the retry loop itself is modelled in module Utils).
 */
module Manager {
  import opened Wrappers
  import opened Utils
  import opened Queries
  import opened Options
  import opened QuickWorker

  const NewUuidFailedMsg: string := "error in NewUUID"
  const ObtainFailedMsg: string := "error in ObtainTopLevelQueue"
  const DequeueFailedMsg: string := "error in DequeueItems"

  /**
   * What a phase's transaction body returns for the error its query returned:
   * pgx.ErrNoRows anywhere in the chain is an expected miss (nil); any other
   * error comes back wrapped with the phase's message.
   */
  function ExpectMiss(queryErr: Option<Error>, msg: string): (r: Option<Error>)
    ensures r.None? <==> queryErr.None? || RootCause(queryErr.value) == NoRows
    ensures r.Some? ==> r.value == Wrap(msg, queryErr.value)
  {
    if queryErr.None? then None
    else
      IsMeansRootCause(queryErr.value, NoRows);
      if Is(queryErr.value, NoRows) then None else Some(Wrap(msg, queryErr.value))
  }

  /**
   * managerObtainTopLevelQueue for zone pointer `queue` on worker `w`.
   * `leaseUuid` is what uuid.NewUUID produced, `obtainNow` and `dequeueNow` the
   * two readings of time.Now(), `obtainFault` a failure of the obtain statement
   * itself, and `dequeueErr` the error DequeueItems returned (its SQL is not
   * modelled; its rows are discarded). `obtain` and `dequeue` are the requests
   * the two phases sent, None for a phase that never ran.
   */
  method ManagerObtainTopLevelQueue(
    w: Worker, store: LeaseStore, queue: TopLevelQueue, leaseUuid: Result<string, Error>,
    obtainNow: int, dequeueNow: int, obtainFault: Option<Error>, dequeueErr: Option<Error>)
    returns (err: Option<Error>, obtain: Option<ObtainParams>, dequeue: Option<DequeueParams>)
    modifies store
    ensures leaseUuid.Failure? ==>
      && err == Some(Wrap(NewUuidFailedMsg, leaseUuid.error))
      && obtain.None? && dequeue.None? && store.zones == old(store.zones)
    ensures leaseUuid.Success? ==>
      obtain == Some(ObtainParams(Some(leaseUuid.value), obtainNow + w.queueZoneLeaseDuration,
                                  queue.queueZone, queue.leaseId))
    ensures obtain.Some? ==>
      var queryErr := ObtainError(old(store.zones), obtain.value, obtainFault);
      && store.zones == (if queryErr.None? then ObtainCas(old(store.zones), obtain.value).value
                         else old(store.zones))
      && (dequeue.Some? <==> ExpectMiss(queryErr, ObtainFailedMsg).None?)
      && (dequeue.None? ==> err == ExpectMiss(queryErr, ObtainFailedMsg))
    ensures dequeue.Some? ==>
      && dequeue.value == DequeueParams(queue.hashToken, queue.queueZone, ToInt32(w.config.dequeueMax),
                                        Some(dequeueNow + w.queueItemLeaseDuration))
      && err == ExpectMiss(dequeueErr, DequeueFailedMsg)
  {
    if leaseUuid.Failure? {
      return Some(Wrap(NewUuidFailedMsg, leaseUuid.error)), None, None;
    }
    var leaseId := leaseUuid.value;

    var obtainParams := ObtainParams(Some(leaseId), obtainNow + w.queueZoneLeaseDuration,
                                     queue.queueZone, queue.leaseId);
    obtain := Some(obtainParams);
    var queryErr := store.ObtainTopLevelQueue(obtainParams, obtainFault);
    err := ExpectMiss(queryErr, ObtainFailedMsg);
    if err.Some? {
      return err, obtain, None;
    }

    // Reached whether the lease was won or missed.
    var dequeueParams := DequeueParams(queue.hashToken, queue.queueZone, ToInt32(w.config.dequeueMax),
                                       Some(dequeueNow + w.queueItemLeaseDuration));
    dequeue := Some(dequeueParams);
    err := ExpectMiss(dequeueErr, DequeueFailedMsg);
  }

  /**
   * Two managers race for one zone pointer read with the same lease: the first
   * takes the lease; the second one's obtain misses, which is not an error, and
   * the second manager still goes on to dequeue, leaving the first one's lease.
   */
  method RaceForZone(w: Worker, store: LeaseStore, queue: TopLevelQueue, lease1: string, lease2: string, now: int)
    returns (err1: Option<Error>, err2: Option<Error>, secondDequeued: bool)
    requires queue.queueZone in store.zones && store.zones[queue.queueZone].leaseId == queue.leaseId
    requires Some(lease1) != queue.leaseId
    modifies store
    ensures err1.None? && err2.None? && secondDequeued
    ensures queue.queueZone in store.zones
    ensures store.zones[queue.queueZone] == ZoneRow(Some(lease1), now + w.queueZoneLeaseDuration)
  {
    var o1, o2, d1, d2;
    err1, o1, d1 := ManagerObtainTopLevelQueue(w, store, queue, Success(lease1), now, now, None, None);
    assert store.zones[queue.queueZone].leaseId == Some(lease1);
    err2, o2, d2 := ManagerObtainTopLevelQueue(w, store, queue, Success(lease2), now, now, None, None);
    secondDequeued := d2.Some?;
  }
}

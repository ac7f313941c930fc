/**
 * The interface of the generated query layer the core calls: the row type of
 * the zone-pointer table, the parameter records of the three queries, and an
 * abstract store for the one query whose effect the core depends on.
 *
 * The SQL behind the queries is not part of this model. ObtainTopLevelQueue is
 * modelled, as an ASSUMPTION drawn from its parameter names, as a compare-and-swap
 * of the zone's lease from KnownLease to NewLease that reports pgx.ErrNoRows when
 * no row matches. Leases are compared as SQL's IS NOT DISTINCT FROM would: a NULL
 * KnownLease matches a NULL lease_id, so a zone never leased can be obtained.
 */
module Queries {
  import opened Wrappers
  import opened Utils

  /** A row of the zone-pointer table (query.QuickTopLevelQueue). Times are integers. */
  datatype TopLevelQueue = TopLevelQueue(
    queueZone: string,
    hashToken: int,
    leaseId: Option<string>,  // sql.NullString
    vestingTime: int)

  /** query.PeekTopLevelQueuesParams */
  datatype PeekParams = PeekParams(hashToken: int, limit: int)

  /** query.ObtainTopLevelQueueParams */
  datatype ObtainParams = ObtainParams(
    newLease: Option<string>,
    vestingTime: int,
    queueZone: string,
    knownLease: Option<string>)

  /** query.DequeueItemsParams */
  datatype DequeueParams = DequeueParams(
    hashToken: int,
    queueZone: string,
    limit: int,
    vestingTime: Option<int>)  // sql.NullTime

  const TwoTo31: int := 0x8000_0000
  const TwoTo32: int := 0x1_0000_0000

  /** Go's int32(x) conversion: keeps the low 32 bits, read as two's complement. */
  function ToInt32(x: int): (r: int)
    ensures -TwoTo31 <= r < TwoTo31
    ensures (r - x) % TwoTo32 == 0
    ensures -TwoTo31 <= x < TwoTo31 ==> r == x
  {
    (x + TwoTo31) % TwoTo32 - TwoTo31
  }

  /** The lease-related columns of one zone row. */
  datatype ZoneRow = ZoneRow(leaseId: Option<string>, vestingTime: int)

  /**
   * The assumed effect of ObtainTopLevelQueue on the zone table: when the zone
   * exists and its lease is still KnownLease (NULL equal to NULL), the new lease and vesting time are
   * written (Some of the new table); otherwise no row matches (None).
   */
  function ObtainCas(zones: map<string, ZoneRow>, p: ObtainParams): (r: Option<map<string, ZoneRow>>)
    ensures r.Some? <==> p.queueZone in zones && zones[p.queueZone].leaseId == p.knownLease
    ensures r.Some? ==>
      && r.value.Keys == zones.Keys
      && r.value[p.queueZone] == ZoneRow(p.newLease, p.vestingTime)
      && (forall z :: z in zones && z != p.queueZone ==> r.value[z] == zones[z])
  {
    if p.queueZone in zones && zones[p.queueZone].leaseId == p.knownLease
    then Some(zones[p.queueZone := ZoneRow(p.newLease, p.vestingTime)])
    else None
  }

  /**
   * Mutual exclusion under the compare-and-swap reading: of two obtain attempts on
   * one zone that carry the same known lease and different new leases, once the
   * first has won the second finds no matching row.
   */
  lemma SecondObtainMisses(zones: map<string, ZoneRow>, p1: ObtainParams, p2: ObtainParams)
    requires p1.queueZone == p2.queueZone && p1.knownLease == p2.knownLease
    requires p1.newLease != p1.knownLease
    requires ObtainCas(zones, p1).Some?
    ensures ObtainCas(ObtainCas(zones, p1).value, p2).None?
  {
  }

  /** The zone table, as far as the lease protocol touches it. */
  class LeaseStore {
    var zones: map<string, ZoneRow>

    constructor (zones: map<string, ZoneRow>)
      ensures this.zones == zones
    {
      this.zones := zones;
    }

    /**
     * ObtainTopLevelQueue: a failure of the statement itself (`fault`) is returned
     * and changes nothing; otherwise the compare-and-swap either writes the new
     * lease or reports pgx.ErrNoRows.
     */
    method ObtainTopLevelQueue(p: ObtainParams, fault: Option<Error>) returns (err: Option<Error>)
      modifies this
      ensures err == ObtainError(old(zones), p, fault)
      ensures zones == if err.None? then ObtainCas(old(zones), p).value else old(zones)
    {
      if fault.Some? {
        return fault;
      }
      var r := ObtainCas(zones, p);
      if r.Some? {
        zones := r.value;
        err := None;
      } else {
        err := Some(Base(NoRows));
      }
    }
  }

  /** The error ObtainTopLevelQueue returns: the fault, else ErrNoRows on a mismatch, else nil. */
  function ObtainError(zones: map<string, ZoneRow>, p: ObtainParams, fault: Option<Error>): (r: Option<Error>)
    ensures fault.Some? ==> r == fault
    ensures fault.None? ==> (r.None? <==> ObtainCas(zones, p).Some?)
    ensures fault.None? && r.Some? ==> r.value == Base(NoRows)
  {
    if fault.Some? then fault
    else if ObtainCas(zones, p).Some? then None
    else Some(Base(NoRows))
  }
}

/**
 * The reliable-execution layer (utils/utils.go): the permanent-versus-retryable
 * error classifier and the bounded retry loop that every database call goes through.
 */
module Utils {
  import opened Wrappers

  /** The root causes the system's error chains end in. */
  datatype Cause =
    | NoRows                 // pgx.ErrNoRows
    | Canceled               // context.Canceled
    | DeadlineExceeded       // context.DeadlineExceeded
    | PgError(code: string)  // a *pgconn.PgError carrying its SQLSTATE code
    | Other(msg: string)     // any other error

  /** A Go error: a root cause under zero or more `fmt.Errorf("...: %w", err)` layers. */
  datatype Error = Base(cause: Cause) | Wrap(msg: string, inner: Error)

  /** The cause at the bottom of the chain. */
  function RootCause(e: Error): Cause
  {
    match e
    case Base(c) => c
    case Wrap(_, inner) => RootCause(inner)
  }

  /** `errors.Is(e, target)` for a sentinel target: walks the chain one layer at a time. */
  predicate Is(e: Error, target: Cause)
  {
    match e
    case Base(c) => c == target
    case Wrap(_, inner) => Is(inner, target)
  }

  /** Walking the chain finds a sentinel exactly when it is the chain's root cause. */
  lemma {:induction false} IsMeansRootCause(e: Error, target: Cause)
    ensures Is(e, target) <==> RootCause(e) == target
  {
    match e
    case Base(_) =>
    case Wrap(_, inner) => IsMeansRootCause(inner, target);
  }

  /** `errors.As(e, &pgErr)`: the SQLSTATE code of the first *pgconn.PgError in the chain. */
  function AsPgError(e: Error): (r: Option<string>)
    ensures r.Some? <==> RootCause(e).PgError?
    ensures r.Some? ==> RootCause(e) == PgError(r.value)
  {
    match e
    case Base(c) => if c.PgError? then Some(c.code) else None
    case Wrap(_, inner) => AsPgError(inner)
  }

  /** SQLSTATE of a unique-constraint (duplicate key) violation. */
  const UniqueViolation: string := "23505"
  /** SQLSTATE of a reference to a column that does not exist. */
  const UndefinedColumn: string := "42703"

  /**
   * IsPermSQLErr: an error is permanent when its chain holds pgx.ErrNoRows, or a
   * PgError whose code is a unique violation or an undefined column; nil is not.
   */
  function IsPermSQLErr(err: Option<Error>): (r: bool)
    ensures err.None? ==> !r
    ensures err.Some? ==>
      (r <==> RootCause(err.value) in {NoRows, PgError(UniqueViolation), PgError(UndefinedColumn)})
  {
    if err.None? then false
    else
      IsMeansRootCause(err.value, NoRows);
      if Is(err.value, NoRows) then true
      else
        match AsPgError(err.value)
        case Some(code) => code == UniqueViolation || code == UndefinedColumn
        case None => false
  }

  /** Wrapping an error with `%w` never changes how IsPermSQLErr classifies it. */
  lemma PermIgnoresWrapping(msg: string, e: Error)
    ensures IsPermSQLErr(Some(Wrap(msg, e))) == IsPermSQLErr(Some(e))
  {
  }

  // ---------------------------------------------------------------------------
  // reliableExec

  /** `backoff.WithMaxRetries(..., 3)`: after the first attempt, at most three more. */
  const MaxRetries: nat := 3

  /** The message fmt.Errorf puts around a failed pool acquisition. */
  const AcquireFailedMsg: string := "failed pool.Acquire"

  /**
   * What one attempt meets: the error pool.Acquire returns (None: a connection),
   * the error f returns when it runs, and whether the caller's (outer) context
   * has passed its deadline when the attempt inspects it.
   */
  datatype Attempt = Attempt(acquire: Option<Error>, run: Option<Error>, outerDeadlineExceeded: bool)

  /** What an attempt hands to backoff.Retry: nil, backoff.Permanent(err), or a plain err. */
  datatype Verdict = Succeeded | Permanent(err: Error) | Transient(err: Error)

  /** The error a verdict carries, if any. */
  function VerdictError(v: Verdict): Option<Error>
  {
    if v.Succeeded? then None else Some(v.err)
  }

  /**
   * The body of the retried closure in reliableExec. An acquisition failure is
   * permanent when it wraps context.Canceled or the outer context's deadline has
   * passed; an error from f is permanent when IsPermSQLErr accepts it, when it
   * wraps context.Canceled, or when the outer deadline has passed; everything
   * else is retried. (backoff.Permanent(nil) is nil, so f's success is success.)
   */
  function Classify(a: Attempt): (v: Verdict)
    ensures v.Succeeded? <==> a.acquire.None? && a.run.None?
    ensures a.acquire.Some? ==>
      && v.err == Wrap(AcquireFailedMsg, a.acquire.value)
      && (v.Permanent? <==> RootCause(a.acquire.value) == Canceled || a.outerDeadlineExceeded)
    ensures a.acquire.None? && a.run.Some? ==>
      && v.err == a.run.value
      && (v.Permanent? <==>
            RootCause(a.run.value) in {NoRows, Canceled, PgError(UniqueViolation), PgError(UndefinedColumn)}
            || a.outerDeadlineExceeded)
  {
    match a.acquire
    case Some(e) =>
      var w := Wrap(AcquireFailedMsg, e);
      IsMeansRootCause(w, Canceled);
      if Is(w, Canceled) || a.outerDeadlineExceeded then Permanent(w) else Transient(w)
    case None =>
      match a.run
      case None => Succeeded
      case Some(e) =>
        IsMeansRootCause(e, Canceled);
        if IsPermSQLErr(a.run) then Permanent(e)
        else if Is(e, Canceled) || a.outerDeadlineExceeded then Permanent(e)
        else Transient(e)
  }

  /** What backoff.Retry returns, and how many attempts it made. */
  datatype Outcome = Outcome(err: Option<Error>, attempts: nat)

  /**
   * backoff.Retry over a script of attempts with `retriesLeft` retries still
   * allowed: stop on success or on a permanent error (returning the error it
   * wraps), otherwise retry until the retries run out and return the last error.
   */
  function Run(script: seq<Attempt>, retriesLeft: nat): Outcome
    requires |script| > retriesLeft
    decreases retriesLeft
  {
    match Classify(script[0])
    case Succeeded => Outcome(None, 1)
    case Permanent(e) => Outcome(Some(e), 1)
    case Transient(e) =>
      if retriesLeft == 0 then Outcome(Some(e), 1)
      else
        var rest := Run(script[1..], retriesLeft - 1);
        Outcome(rest.err, rest.attempts + 1)
  }

  /**
   * The retry loop, characterised: it makes between 1 and retriesLeft + 1
   * attempts; every attempt but the last was retryable; the last one either
   * succeeded, failed permanently, or was retryable with no retry left; and the
   * error returned is the one the last attempt produced.
   */
  lemma {:induction false} RunCharacterized(script: seq<Attempt>, retriesLeft: nat)
    requires |script| > retriesLeft
    ensures var r := Run(script, retriesLeft);
      && 1 <= r.attempts <= retriesLeft + 1
      && (forall j :: 0 <= j < r.attempts - 1 ==> Classify(script[j]).Transient?)
      && r.err == VerdictError(Classify(script[r.attempts - 1]))
      && (Classify(script[r.attempts - 1]).Transient? ==> r.attempts == retriesLeft + 1)
  {
    match Classify(script[0])
    case Succeeded =>
    case Permanent(_) =>
    case Transient(_) =>
      if retriesLeft > 0 {
        RunCharacterized(script[1..], retriesLeft - 1);
        var rest := Run(script[1..], retriesLeft - 1);
        forall j | 0 <= j < rest.attempts
          ensures Classify(script[j]).Transient?
        {
          if j > 0 { assert script[j] == script[1..][j - 1]; }
        }
      }
  }

  /** reliableExec succeeds exactly when some attempt acquires a connection and f succeeds, after only retryable failures. */
  lemma {:induction false} RunSucceedsIff(script: seq<Attempt>, retriesLeft: nat)
    requires |script| > retriesLeft
    ensures Run(script, retriesLeft).err.None? <==>
      exists k :: 0 <= k <= retriesLeft
        && script[k].acquire.None? && script[k].run.None?
        && (forall j :: 0 <= j < k ==> Classify(script[j]).Transient?)
  {
    RunCharacterized(script, retriesLeft);
    var r := Run(script, retriesLeft);
    if r.err.None? {
      assert Classify(script[r.attempts - 1]).Succeeded?;
    } else {
      forall k | 0 <= k <= retriesLeft && script[k].acquire.None? && script[k].run.None?
        ensures exists j :: 0 <= j < k && !Classify(script[j]).Transient?
      {
        if k <= r.attempts - 1 {
          assert false;
        } else {
          assert !Classify(script[r.attempts - 1]).Transient?;
        }
      }
    }
  }

  /** The connection pool's bookkeeping: how many connections are checked out. */
  class ConnPool {
    var inUse: nat

    constructor ()
      ensures inUse == 0
    {
      inUse := 0;
    }

    /** pool.Acquire: hands out a connection unless the given failure occurs. */
    method Acquire(failure: Option<Error>) returns (err: Option<Error>)
      modifies this
      ensures err == failure
      ensures inUse == old(inUse) + (if failure.None? then 1 else 0)
    {
      err := failure;
      if failure.None? {
        inUse := inUse + 1;
      }
    }

    /** conn.Release: returns a connection to the pool. */
    method Release()
      requires inUse > 0
      modifies this
      ensures inUse == old(inUse) - 1
    {
      inUse := inUse - 1;
    }
  }

  /** One attempt of reliableExec: acquire, run f, release the connection on the way out, classify. */
  method TryOnce(pool: ConnPool, a: Attempt) returns (v: Verdict)
    modifies pool
    ensures v == Classify(a)
    ensures pool.inUse == old(pool.inUse)
  {
    var err := pool.Acquire(a.acquire);
    if err.Some? {
      var w := Wrap(AcquireFailedMsg, err.value);
      IsMeansRootCause(w, Canceled);
      if Is(w, Canceled) || a.outerDeadlineExceeded {
        return Permanent(w);
      }
      return Transient(w);
    }
    // defer conn.Release()
    err := a.run;
    if IsPermSQLErr(err) {
      v := Permanent(err.value);
    } else if err.Some? && (Is(err.value, Canceled) || a.outerDeadlineExceeded) {
      v := Permanent(err.value);
    } else if err.Some? {
      v := Transient(err.value);
    } else {
      v := Succeeded;
    }
    pool.Release();
  }

  /**
   * reliableExec: retries the attempt under backoff.Retry with at most MaxRetries
   * retries, and leaves the pool with as many connections checked out as before.
   */
  method ReliableExec(pool: ConnPool, script: seq<Attempt>) returns (err: Option<Error>, attempts: nat)
    requires |script| > MaxRetries
    modifies pool
    ensures Outcome(err, attempts) == Run(script, MaxRetries)
    ensures pool.inUse == old(pool.inUse)
  {
    var i := 0;
    while true
      invariant 0 <= i <= MaxRetries
      invariant pool.inUse == old(pool.inUse)
      invariant var r := Run(script[i..], MaxRetries - i);
        Run(script, MaxRetries) == Outcome(r.err, r.attempts + i)
      decreases MaxRetries - i
    {
      var v := TryOnce(pool, script[i]);
      match v
      case Succeeded =>
        return None, i + 1;
      case Permanent(e) =>
        return Some(e), i + 1;
      case Transient(e) =>
        if i == MaxRetries {
          return Some(e), i + 1;
        }
        assert script[i..][1..] == script[i + 1..];
        i := i + 1;
    }
  }

  // ---------------------------------------------------------------------------
  // ReliableExecInReadCommittedTx

  /** The isolation statement issued first in every read-committed transaction. */
  const SetReadCommitted: string := "SET TRANSACTION ISOLATION LEVEL READ COMMITTED"
  const SetReadCommittedFailedMsg: string := "failed to set read committed"

  /** A step of the transaction body: a SQL statement, or the call of the caller's function. */
  datatype TxStep = Exec(sql: string) | CallF

  /** The steps the transaction body took and the error it returned. */
  datatype TxRun = TxRun(steps: seq<TxStep>, err: Option<Error>)

  /**
   * The transaction body of ReliableExecInReadCommittedTx: set the isolation
   * level, and only when that succeeded call f and return its error.
   */
  function ReadCommittedBody(setResult: Option<Error>, fResult: Option<Error>): (r: TxRun)
    ensures |r.steps| >= 1 && r.steps[0] == Exec(SetReadCommitted)
    ensures CallF in r.steps <==> setResult.None?
    ensures CallF in r.steps ==> r.steps[|r.steps| - 1] == CallF && r.err == fResult
    ensures setResult.Some? ==> r.err == Some(Wrap(SetReadCommittedFailedMsg, setResult.value))
  {
    if setResult.Some? then TxRun([Exec(SetReadCommitted)], Some(Wrap(SetReadCommittedFailedMsg, setResult.value)))
    else TxRun([Exec(SetReadCommitted), CallF], fResult)
  }
}

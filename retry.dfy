/**
 * The two bounded retry loops with exponential back-off: `get_connection`
 * (processing job) and `insert_single_record` (download job). Whatever the
 * database does on each attempt is given as a script of outcomes, one per
 * attempt; an attempt beyond the end of the script succeeds. Sleeps are
 * recorded as their durations in seconds instead of being waited out.
 */
module Retry {
  import opened Wrappers

  /** What one attempt at a database operation ends with. */
  datatype Attempt = Succeeded | OperationalError | OtherError

  const MaxConnectAttempts: nat := 3
  const MaxInsertAttempts: nat := 5

  function Outcome(script: seq<Attempt>, i: nat): Attempt
  {
    if i < |script| then script[i] else Succeeded
  }

  function Pow2(k: nat): (p: nat)
    ensures p >= 1
  {
    if k == 0 then 1 else 2 * Pow2(k - 1)
  }

  /** The sleeps `2 ** attempt` for attempts 0, 1, ..., n - 1. */
  function Backoff(n: nat): (r: seq<real>)
    ensures |r| == n
    ensures forall i :: 0 <= i < n ==> r[i] == Pow2(i) as real
  {
    if n == 0 then [] else Backoff(n - 1) + [Pow2(n - 1) as real]
  }

  /** The first attempt index in `from .. limit` that `stop` accepts, or `limit`. */
  function FirstFrom(script: seq<Attempt>, from: nat, limit: nat, stop: Attempt -> bool): (k: nat)
    requires from <= limit
    ensures from <= k <= limit
    ensures forall i :: from <= i < k ==> !stop(Outcome(script, i))
    ensures k < limit ==> stop(Outcome(script, k))
    decreases limit - from
  {
    if from == limit then limit
    else if stop(Outcome(script, from)) then from
    else FirstFrom(script, from + 1, limit, stop)
  }

  // ---------------------------------------------------------------------
  // get_connection
  // ---------------------------------------------------------------------

  /** How a call of `get_connection` ends: connected or not, after how many attempts, having slept how long. */
  datatype Connection = Connection(ok: bool, attempts: nat, sleeps: seq<real>)

  /**
   * `get_connection`: up to three attempts, any exception is a failed attempt,
   * the first success returns at once, and every failed attempt but the last
   * is followed by a sleep of `2 ** attempt` seconds.
   */
  function ConnectPlan(script: seq<Attempt>): (c: Connection)
    ensures 1 <= c.attempts <= MaxConnectAttempts
    ensures forall i :: 0 <= i < c.attempts - 1 ==> Outcome(script, i) != Succeeded
    ensures c.ok <==> Outcome(script, c.attempts - 1) == Succeeded
    ensures !c.ok ==> c.attempts == MaxConnectAttempts && c.sleeps == [1.0, 2.0]
    ensures c.ok ==> c.sleeps == Backoff(c.attempts - 1)
  {
    var k := FirstFrom(script, 0, MaxConnectAttempts, a => a == Succeeded);
    if k < MaxConnectAttempts then Connection(true, k + 1, Backoff(k))
    else Connection(false, MaxConnectAttempts, Backoff(MaxConnectAttempts - 1))
  }

  /** The attempt loop of `get_connection`; `conn` is the index of the attempt that connected. */
  method GetConnection(script: seq<Attempt>) returns (conn: Option<nat>, sleeps: seq<real>)
    ensures conn.Some? == ConnectPlan(script).ok
    ensures conn.Some? ==> conn.value + 1 == ConnectPlan(script).attempts
    ensures sleeps == ConnectPlan(script).sleeps
  {
    sleeps := [];
    for attempt := 0 to MaxConnectAttempts
      invariant sleeps == Backoff(if attempt < MaxConnectAttempts then attempt else MaxConnectAttempts - 1)
      invariant forall i :: 0 <= i < attempt ==> Outcome(script, i) != Succeeded
    {
      if Outcome(script, attempt) == Succeeded {
        return Some(attempt), sleeps;
      }
      if attempt < MaxConnectAttempts - 1 {
        sleeps := sleeps + [Pow2(attempt) as real];
      }
    }
    conn := None;
  }

  // ---------------------------------------------------------------------
  // insert_single_record
  // ---------------------------------------------------------------------

  datatype Insertion = Insertion(ok: bool, attempts: nat, sleeps: seq<real>)

  /**
   * `insert_single_record`: up to five attempts. Success returns true at once;
   * an OperationalError sleeps `2 ** attempt` seconds and retries (the fifth
   * one sleeps too, then false is returned); any other error returns false at
   * once.
   */
  function InsertPlan(script: seq<Attempt>): (r: Insertion)
    ensures 1 <= r.attempts <= MaxInsertAttempts
    ensures forall i :: 0 <= i < r.attempts - 1 ==> Outcome(script, i) == OperationalError
    ensures r.ok <==> Outcome(script, r.attempts - 1) == Succeeded
    ensures Outcome(script, r.attempts - 1) == OperationalError ==>
              r.attempts == MaxInsertAttempts && r.sleeps == [1.0, 2.0, 4.0, 8.0, 16.0]
    ensures Outcome(script, r.attempts - 1) != OperationalError ==> r.sleeps == Backoff(r.attempts - 1)
  {
    var k := FirstFrom(script, 0, MaxInsertAttempts, a => a != OperationalError);
    if k < MaxInsertAttempts then Insertion(Outcome(script, k) == Succeeded, k + 1, Backoff(k))
    else Insertion(false, MaxInsertAttempts, Backoff(MaxInsertAttempts))
  }

  /** The attempt loop of `insert_single_record`. */
  method InsertSingleRecord(script: seq<Attempt>) returns (ok: bool, sleeps: seq<real>)
    ensures ok == InsertPlan(script).ok
    ensures sleeps == InsertPlan(script).sleeps
  {
    sleeps := [];
    for attempt := 0 to MaxInsertAttempts
      invariant sleeps == Backoff(attempt)
      invariant forall i :: 0 <= i < attempt ==> Outcome(script, i) == OperationalError
    {
      match Outcome(script, attempt)
      case Succeeded =>
        return true, sleeps;
      case OperationalError =>
        sleeps := sleeps + [Pow2(attempt) as real];
      case OtherError =>
        return false, sleeps;
    }
    ok := false;
  }

  // ---------------------------------------------------------------------
  // When the loops give up
  // ---------------------------------------------------------------------

  /** `get_connection` returns None exactly when all three attempts fail. */
  lemma ConnectFailsIffAllFail(script: seq<Attempt>)
    ensures !ConnectPlan(script).ok <==> forall i :: 0 <= i < MaxConnectAttempts ==> Outcome(script, i) != Succeeded
  {
    var c := ConnectPlan(script);
    if c.ok {
      assert Outcome(script, c.attempts - 1) == Succeeded;
    }
  }

  /**
   * `insert_single_record` returns True exactly when some attempt succeeds
   * and every attempt before it hit an OperationalError.
   */
  lemma InsertSucceedsIff(script: seq<Attempt>)
    ensures InsertPlan(script).ok <==>
      exists k :: 0 <= k < MaxInsertAttempts && Outcome(script, k) == Succeeded &&
        forall i :: 0 <= i < k ==> Outcome(script, i) == OperationalError
  {
    var r := InsertPlan(script);
    if !r.ok {
      forall k | 0 <= k < MaxInsertAttempts && Outcome(script, k) == Succeeded
        ensures exists i :: 0 <= i < k && Outcome(script, i) != OperationalError
      {
        assert Outcome(script, r.attempts - 1) != OperationalError;
        assert r.attempts - 1 < k;
      }
    }
  }
}

// One outgoing integration delivery with its numbered attempts and the
// connection whose circuit breaker it feeds.
module Integrations {
  import opened Common

  datatype Status = Queued | Sending | Succeeded | Failed | Uncertain

  datatype AttemptStatus = Sending | Succeeded | Failed | Uncertain

  datatype ConnectionStatus = Inactive | Active | Degraded | Disabled

  // leaseExpires is set exactly while the attempt holds its lease.
  datatype Attempt = Attempt(sequence: nat, status: AttemptStatus, leaseExpires: Option<int>, externalId: string,
                             retryable: bool)

  datatype Connection = Connection(status: ConnectionStatus, failures: nat, lastSuccessAt: Option<int>,
                                   degradedAt: Option<int>)

  datatype Delivery = Delivery(status: Status, nextAttemptAt: Option<int>, attempts: seq<Attempt>)

  datatype Job = Job(delivery: Delivery, connection: Connection)

  // What the adapter's send came back with, by the exception it raised.
  datatype Answer = Accepted(externalId: string) | Ambiguous | Transient | Permanent

  const MAX_FAILURES := 3
  const MAX_ATTEMPTS := 3
  const LEASE_SECONDS := 90

  const NewDelivery := Delivery(Queued, None, [])

  // The retry delay doubles with the attempt's number.
  function RetryDelay(sequence: nat): int {
    Doublings(sequence)
  }

  predicate Claimable(job: Job, now: int) {
    var delivery := job.delivery;
    && (delivery.status == Queued || (delivery.status == Status.Failed && delivery.nextAttemptAt.Some?))
    && !Waiting(delivery.nextAttemptAt, now)
    && job.connection.status == Active
    && |delivery.attempts| < MAX_ATTEMPTS
  }

  function Claim(job: Job, now: int): Job
    requires Claimable(job, now)
  {
    var attempts := job.delivery.attempts;
    var attempt := Attempt(|attempts| + 1, AttemptStatus.Sending, Some(now + LEASE_SECONDS), "", false);
    job.(delivery := Delivery(Status.Sending, None, attempts + [attempt]))
  }

  // --- recovery of lost sends ---

  predicate Expired(attempt: Attempt, now: int) {
    attempt.status == AttemptStatus.Sending && attempt.leaseExpires.Some? && attempt.leaseExpires.value < now
  }

  function Lost(attempt: Attempt): Attempt {
    attempt.(status := AttemptStatus.Uncertain, leaseExpires := None, retryable := false)
  }

  function RecoverAttempts(attempts: seq<Attempt>, now: int): (r: seq<Attempt>)
    ensures |r| == |attempts|
    ensures forall i :: 0 <= i < |r| ==> r[i] == if Expired(attempts[i], now) then Lost(attempts[i]) else attempts[i]
  {
    seq(|attempts|, i requires 0 <= i < |attempts| => if Expired(attempts[i], now) then Lost(attempts[i])
        else attempts[i])
  }

  function ExpiredAttempts(attempts: seq<Attempt>, now: int): set<nat> {
    set i: nat | i < |attempts| && Expired(attempts[i], now)
  }

  predicate AnyExpired(attempts: seq<Attempt>, now: int) {
    exists i :: 0 <= i < |attempts| && Expired(attempts[i], now)
  }

  function Recover(job: Job, now: int): Job {
    if !AnyExpired(job.delivery.attempts, now) then job
    else job.(delivery := Delivery(Status.Uncertain, None, RecoverAttempts(job.delivery.attempts, now)))
  }

  // --- the end of an attempt ---

  function FailedConnection(connection: Connection, now: int): Connection {
    var counted := connection.(failures := connection.failures + 1);
    if counted.failures < MAX_FAILURES then counted else counted.(status := Degraded, degradedAt := Some(now))
  }

  function SucceededConnection(connection: Connection, now: int): Connection {
    Connection(if connection.status == Degraded then Active else connection.status, 0, Some(now), None)
  }

  // The lease is not consulted: whoever sent records its answer, however late.
  function Finish(job: Job, a: nat, answer: Answer, now: int): Job
    requires a < |job.delivery.attempts|
  {
    var delivery := job.delivery;
    var attempt := delivery.attempts[a].(
                   externalId := if answer.Accepted? then answer.externalId else "",
                   retryable := answer.Transient?,
                   leaseExpires := None,
                   status := if answer.Accepted? then AttemptStatus.Succeeded
                   else if answer.Ambiguous? then AttemptStatus.Uncertain else AttemptStatus.Failed);
    var finished := delivery.(attempts := delivery.attempts[a := attempt]);
    match answer
    case Ambiguous => job.(delivery := finished.(status := Status.Uncertain))
    case Accepted(_) => Job(finished.(status := Status.Succeeded), SucceededConnection(job.connection, now))
    case Permanent => Job(finished.(status := Status.Failed), FailedConnection(job.connection, now))
    case Transient =>
      Job(finished.(
          status := Status.Failed,
          nextAttemptAt := if attempt.sequence < MAX_ATTEMPTS then Some(now + RetryDelay(attempt.sequence))
          else delivery.nextAttemptAt),
          FailedConnection(job.connection, now))
  }

  // A reconciler writes onto the delivery it read earlier, status column only.
  function Reconcile(job: Job, seen: Status, confirmed: bool): Job {
    if confirmed && seen == Status.Uncertain then job.(delivery := job.delivery.(status := Status.Succeeded)) else job
  }

  // --- the circuit breaker over a whole history of outcomes ---

  // How an attempt over the connection ended, and when; ambiguous answers do not
  // touch the breaker.
  datatype Ending = Good(at: int) | Bad(at: int)

  function AfterEndings(connection: Connection, endings: seq<Ending>): Connection {
    if endings == [] then connection
    else
      var earlier := AfterEndings(connection, endings[..|endings| - 1]);
      match endings[|endings| - 1]
      case Good(at) => SucceededConnection(earlier, at)
      case Bad(at) => FailedConnection(earlier, at)
  }

  // Failures since the last success, when some were counted before.
  function Carried(before: nat, endings: seq<Ending>): nat {
    if endings == [] then before
    else if endings[|endings| - 1].Good? then 0
    else Carried(before, endings[..|endings| - 1]) + 1
  }

  predicate Recovers(endings: seq<Ending>) {
    exists i :: 0 <= i < |endings| && endings[i].Good?
  }

  // Some failure is the third or a later one in a row.
  predicate Trips(before: nat, endings: seq<Ending>) {
    exists i :: 0 <= i < |endings| && endings[i].Bad? && MAX_FAILURES <= Carried(before, endings[..i + 1])
  }

  lemma TripsSnoc(before: nat, endings: seq<Ending>)
    requires endings != []
    ensures Trips(before, endings)
            <==> || Trips(before, endings[..|endings| - 1])
                 || (endings[|endings| - 1].Bad? && MAX_FAILURES <= Carried(before, endings))
  {
    var n := |endings| - 1;
    var front := endings[..n];
    assert forall i :: 0 <= i < n ==> front[..i + 1] == endings[..i + 1] && front[i] == endings[i];
    assert endings[..n + 1] == endings;
    if Trips(before, front) {
      var i :| 0 <= i < n && front[i].Bad? && MAX_FAILURES <= Carried(before, front[..i + 1]);
      assert endings[i].Bad? && MAX_FAILURES <= Carried(before, endings[..i + 1]);
    }
  }

  // Where any connection stands after any history.  Once a third failure in a
  // row was counted it is degraded while three or more carry, and active again
  // after a success, whatever it was before; until then only a success on a
  // degraded connection changes its status.
  lemma {:induction false} BreakerExactly(connection: Connection, endings: seq<Ending>)
    ensures var after := AfterEndings(connection, endings);
            && after.failures == Carried(connection.failures, endings)
            && after.status ==
               (if Trips(connection.failures, endings) then
                  (if MAX_FAILURES <= Carried(connection.failures, endings) then Degraded else Active)
                else if connection.status == Degraded && Recovers(endings) then Active
                else connection.status)
  {
    if endings != [] {
      var n := |endings| - 1;
      BreakerExactly(connection, endings[..n]);
      TripsSnoc(connection.failures, endings);
      assert Recovers(endings) <==> Recovers(endings[..n]) || endings[n].Good? by {
        if i :| 0 <= i < n && endings[..n][i].Good? {
          assert endings[i].Good?;
        }
        if i :| 0 <= i < |endings| && endings[i].Good? {
          assert i < n ==> endings[..n][i].Good?;
        }
      }
    }
  }

  // A connection somebody disabled stays so exactly until a third failure in a
  // row is counted on it, earlier failures included; from there late outcomes
  // degrade and reactivate it like any other.
  lemma DisabledConnectionComesBack(connection: Connection, endings: seq<Ending>)
    requires connection.status == Disabled
    ensures var status := AfterEndings(connection, endings).status;
            var trips := Trips(connection.failures, endings);
            var carried := Carried(connection.failures, endings);
            && (status == Disabled <==> !trips)
            && (status == Degraded <==> trips && MAX_FAILURES <= carried)
            && (status == Active <==> trips && carried < MAX_FAILURES)
  {
    BreakerExactly(connection, endings);
  }

  // --- the program's form ---

  class ConnectionRow {
    var status: ConnectionStatus
    var failures: nat
    var lastSuccessAt: Option<int>
    var degradedAt: Option<int>

    function Value(): Connection
      reads this
    {
      Connection(status, failures, lastSuccessAt, degradedAt)
    }

    constructor (connection: Connection)
      ensures Value() == connection
    {
      status, failures := connection.status, connection.failures;
      lastSuccessAt, degradedAt := connection.lastSuccessAt, connection.degradedAt;
    }

    method CountFailure(now: int)
      modifies this
      ensures Value() == FailedConnection(old(Value()), now)
    {
      failures := failures + 1;
      if MAX_FAILURES <= failures {
        status := Degraded;
        degradedAt := Some(now);
      }
    }

    method CountSuccess(now: int)
      modifies this
      ensures Value() == SucceededConnection(old(Value()), now)
    {
      failures := 0;
      lastSuccessAt := Some(now);
      degradedAt := None;
      if status == Degraded {
        status := Active;
      }
    }
  }

  lemma OneMoreSeen(attempts: seq<Attempt>, i: nat, now: int)
    requires i < |attempts|
    ensures |ExpiredAttempts(attempts[..i + 1], now)|
            == |ExpiredAttempts(attempts[..i], now)| + (if Expired(attempts[i], now) then 1 else 0)
    ensures AnyExpired(attempts[..i + 1], now) <==> AnyExpired(attempts[..i], now) || Expired(attempts[i], now)
  {
    var before, after := attempts[..i], attempts[..i + 1];
    assert forall j :: 0 <= j < i ==> after[j] == before[j];
    assert ExpiredAttempts(after, now) == ExpiredAttempts(before, now)
           + (if Expired(attempts[i], now) then {i} else {});
    if AnyExpired(before, now) {
      var j :| 0 <= j < |before| && Expired(before[j], now);
      assert Expired(after[j], now);
    }
    if Expired(attempts[i], now) {
      assert Expired(after[i], now);
    }
  }

  class DeliveryDesk {
    const connection: ConnectionRow
    var status: Status
    var nextAttemptAt: Option<int>
    var attempts: seq<Attempt>

    function Snapshot(): Job
      reads this, connection
    {
      Job(Delivery(status, nextAttemptAt, attempts), connection.Value())
    }

    constructor (row: ConnectionRow)
      ensures connection == row && Snapshot() == Job(NewDelivery, row.Value())
    {
      connection, status, nextAttemptAt, attempts := row, Queued, None, [];
    }

    // The new attempt's index, or nothing when the delivery is not claimable.
    method ClaimDelivery(now: int) returns (claimed: Option<nat>)
      modifies this
      ensures if Claimable(old(Snapshot()), now)
              then Snapshot() == Claim(old(Snapshot()), now) && claimed == Some(|old(attempts)|)
              else Snapshot() == old(Snapshot()) && claimed == None
    {
      if status !in {Queued, Status.Failed} {
        return None;
      }
      if status == Status.Failed && nextAttemptAt.None? {
        return None;
      }
      if Waiting(nextAttemptAt, now) || connection.status != Active {
        return None;
      }
      var prior := |attempts|;
      if MAX_ATTEMPTS <= prior {
        return None;
      }
      attempts := attempts + [Attempt(prior + 1, AttemptStatus.Sending, Some(now + LEASE_SECONDS), "", false)];
      status := Status.Sending;
      nextAttemptAt := None;
      claimed := Some(prior);
    }

    method RecoverLeases(now: int) returns (count: nat)
      modifies this
      ensures Snapshot() == Recover(old(Snapshot()), now)
      ensures count == |ExpiredAttempts(old(attempts), now)|
    {
      count := 0;
      for i := 0 to |attempts|
        modifies this
        invariant |attempts| == |old(attempts)|
        invariant attempts[..i] == RecoverAttempts(old(attempts), now)[..i]
        invariant attempts[i..] == old(attempts)[i..]
        invariant count == |ExpiredAttempts(old(attempts)[..i], now)|
        invariant if !AnyExpired(old(attempts)[..i], now) then status == old(status)
                  && nextAttemptAt == old(nextAttemptAt)
                  else status == Status.Uncertain && nextAttemptAt == None
      {
        OneMoreSeen(old(attempts), i, now);
        assert attempts[i] == old(attempts)[i];
        if Expired(attempts[i], now) {
          attempts := attempts[i := Lost(attempts[i])];
          status := Status.Uncertain;
          nextAttemptAt := None;
          count := count + 1;
        }
      }
      assert attempts == RecoverAttempts(old(attempts), now);
      assert old(attempts)[..|old(attempts)|] == old(attempts);
      if !AnyExpired(old(attempts), now) {
        assert attempts == old(attempts);
      }
    }

    method FinishAttempt(a: nat, answer: Answer, now: int)
      requires a < |attempts|
      modifies this, connection
      ensures Snapshot() == Finish(old(Snapshot()), a, answer, now)
    {
      var attempt := attempts[a];
      attempt := attempt.(externalId := "", retryable := answer.Transient?, leaseExpires := None);
      if answer.Ambiguous? {
        attempt := attempt.(status := AttemptStatus.Uncertain);
        status := Status.Uncertain;
      } else if answer.Accepted? {
        attempt := attempt.(status := AttemptStatus.Succeeded, externalId := answer.externalId);
        status := Status.Succeeded;
        connection.CountSuccess(now);
      } else {
        attempt := attempt.(status := AttemptStatus.Failed);
        status := Status.Failed;
        connection.CountFailure(now);
        if answer.Transient? && attempt.sequence < MAX_ATTEMPTS {
          nextAttemptAt := Some(now + RetryDelay(attempt.sequence));
        }
      }
      attempts := attempts[a := attempt];
    }

    // One uninterrupted dispatch; answer is what the adapter's send does.
    method Dispatch(answer: Answer, now: int) returns (sent: bool)
      modifies this, connection
      ensures sent == Claimable(old(Snapshot()), now)
      ensures Snapshot() ==
              if sent then Finish(Claim(old(Snapshot()), now), |old(attempts)|, answer, now) else old(Snapshot())
    {
      var claimed := ClaimDelivery(now);
      sent := claimed.Some?;
      if sent {
        FinishAttempt(claimed.value, answer, now);
      }
    }
  }
}

// What each step over a delivery does, in every state a run can reach.
module IntegrationCommands {
  import opened Common
  import opened Integrations
  import opened IntegrationRuns

  // Nothing but time stood in the way, and it has passed.
  predicate Due(delivery: Delivery, now: int) {
    && (delivery.status == Queued || (delivery.status == Status.Failed && delivery.nextAttemptAt.Some?))
    && (delivery.nextAttemptAt.Some? ==> delivery.nextAttemptAt.value <= now)
  }

  // A worker starts the next numbered attempt, leased for ninety seconds,
  // exactly when the delivery is due and its connection is ACTIVE; then nobody
  // else serves it and its last attempt failed in a way worth retrying.
  lemma ClaimsExactly(system: System, events: seq<Event>, w: nat, now: int)
    requires Fresh(system) && PhaseOf(Run(system, events), w).Idle?
    ensures var before := Run(system, events);
            var after := React(before, Claims(w, now));
            var n := |before.job.delivery.attempts|;
            && (after != before <==>
                  Due(before.job.delivery, now) && before.job.connection.status == ConnectionStatus.Active)
            && (after != before ==>
                  && !InFlight(before)
                  && n < 3
                  && (0 < n ==> before.job.delivery.attempts[n - 1].status == AttemptStatus.Failed
                                && before.job.delivery.attempts[n - 1].retryable)
                  && after == before.(
                              workers := before.workers[w := Claimed(n)],
                              job := Job(
                                Delivery(Status.Sending, None,
                                         before.job.delivery.attempts
                                         + [Attempt(n + 1, AttemptStatus.Sending, Some(now + 90), "", false)]),
                                before.job.connection)))
  {
    RunInv(system, events);
    var before := Run(system, events);
    if Claimable(before.job, now) {
      var after := React(before, Claims(w, now));
      assert |after.job.delivery.attempts| == |before.job.delivery.attempts| + 1;
    }
  }

  // The attempt as its own answer leaves it, without its lease.
  function Concluded(attempt: Attempt, status: AttemptStatus, externalId: string, retryable: bool): Attempt {
    Attempt(attempt.sequence, status, None, externalId, retryable)
  }

  // A failure counted on the connection, and what a third in a row does to it.
  function Blamed(connection: Connection, now: int): Connection {
    if 2 <= connection.failures then
      connection.(failures := connection.failures + 1, status := Degraded, degradedAt := Some(now))
    else connection.(failures := connection.failures + 1)
  }

  function Cleared(connection: Connection, now: int): Connection {
    Connection(if connection.status == Degraded then ConnectionStatus.Active else connection.status, 0, Some(now), None)
  }

  // Each answer is recorded on attempt, delivery and connection, whatever was
  // recorded meanwhile: a transient failure schedules the next attempt two
  // seconds after the first and four after the second, and an answer nobody can
  // interpret is not held against the connection.
  lemma AnswersAreRecorded(system: System, events: seq<Event>, w: nat, now: int)
    requires Fresh(system) && PhaseOf(Run(system, events), w).Answered?
    ensures var before := Run(system, events);
            var a, answer := PhaseOf(before, w).a, PhaseOf(before, w).answer;
            var delivery, connection := before.job.delivery, before.job.connection;
            && a + 1 == |delivery.attempts| <= 3
            && var attempt := delivery.attempts[a];
               React(before, Finishes(w, now)) == SetPhase(before.(job :=
                 match answer
                 case Accepted(id) =>
                   Job(Delivery(Status.Succeeded, delivery.nextAttemptAt,
                                delivery.attempts[a := Concluded(attempt, AttemptStatus.Succeeded, id, false)]),
                       Cleared(connection, now))
                 case Ambiguous =>
                   Job(Delivery(Status.Uncertain, delivery.nextAttemptAt,
                                delivery.attempts[a := Concluded(attempt, AttemptStatus.Uncertain, "", false)]),
                       connection)
                 case Permanent =>
                   Job(Delivery(Status.Failed, delivery.nextAttemptAt,
                                delivery.attempts[a := Concluded(attempt, AttemptStatus.Failed, "", false)]),
                       Blamed(connection, now))
                 case Transient =>
                   Job(Delivery(Status.Failed,
                                if a == 0 then Some(now + 2) else if a == 1 then Some(now + 4)
                                else delivery.nextAttemptAt,
                                delivery.attempts[a := Concluded(attempt, AttemptStatus.Failed, "", true)]),
                       Blamed(connection, now))), w, Idle)
  {
    RunInv(system, events);
    DelaysDouble();
  }

  lemma DelaysDouble()
    ensures RetryDelay(1) == 2 && RetryDelay(2) == 4
  {
    assert Doublings(1) == 2;
  }

  // Recovery gives up exactly the sends whose lease ran out, and then the
  // delivery with them; without one it changes nothing.
  lemma RecoveryGivesUpExactly(job: Job, now: int)
    ensures var after := Recover(job, now);
            var lost := (a: Attempt) => a.status == AttemptStatus.Sending && a.leaseExpires.Some?
                                        && a.leaseExpires.value < now;
            && |after.delivery.attempts| == |job.delivery.attempts|
            && after.connection == job.connection
            && (forall i :: 0 <= i < |job.delivery.attempts| ==>
                  after.delivery.attempts[i] ==
                  if lost(job.delivery.attempts[i]) then
                    job.delivery.attempts[i].(status := AttemptStatus.Uncertain, leaseExpires := None,
                                              retryable := false)
                  else job.delivery.attempts[i])
            && (if exists i :: 0 <= i < |job.delivery.attempts| && lost(job.delivery.attempts[i])
                then after.delivery.status == Status.Uncertain && after.delivery.nextAttemptAt.None?
                else after == job)
  {
    if i :| 0 <= i < |job.delivery.attempts| && Expired(job.delivery.attempts[i], now) {
      assert AnyExpired(job.delivery.attempts, now);
    }
  }

  // A reconciler reports success exactly when it read UNCERTAIN and the other
  // side confirmed; what was written since it read is overwritten.
  lemma ReconciledExactly(system: System, r: nat, confirmed: bool)
    ensures React(system, Writes(r, confirmed)) ==
            if confirmed && r in system.seen && system.seen[r] == Status.Uncertain
            then system.(job := system.job.(delivery := system.job.delivery.(status := Status.Succeeded)))
            else system
  {
  }
}

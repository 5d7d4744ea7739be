// Every interleaving of dispatch workers, lease recovery, reconciliation and
// late finishers over one delivery.
module IntegrationRuns {
  import opened Common
  import opened Integrations

  // Where a worker stands between claiming attempt a and recording its answer.
  datatype Phase = Idle | Claimed(a: nat) | Answered(a: nat, answer: Answer)

  // seen holds what each reconciler read before it went to the provider;
  // sends counts the adapter calls.
  datatype System = System(job: Job, workers: map<nat, Phase>, seen: map<nat, Status>, sends: nat)

  datatype Event =
    | Claims(worker: nat, now: int)
    | Sends(worker: nat, answer: Answer)
    | Finishes(worker: nat, now: int)
    | Crashes(worker: nat)
    | Recovers(now: int)
    | Reads(reconciler: nat)
    | Writes(reconciler: nat, confirmed: bool)
    | ConnectionChanges(connection: Connection)

  function PhaseOf(system: System, w: nat): Phase {
    if w in system.workers then system.workers[w] else Idle
  }

  function SetPhase(system: System, w: nat, phase: Phase): System {
    system.(workers := system.workers[w := phase])
  }

  function React(system: System, event: Event): System {
    match event
    case Claims(w, now) =>
      if !PhaseOf(system, w).Idle? || !Claimable(system.job, now) then system
      else SetPhase(system.(job := Claim(system.job, now)), w, Claimed(|system.job.delivery.attempts|))
    case Sends(w, answer) =>
      var phase := PhaseOf(system, w);
      if !phase.Claimed? then system else SetPhase(system, w, Answered(phase.a, answer)).(sends := system.sends + 1)
    case Finishes(w, now) =>
      var phase := PhaseOf(system, w);
      if !phase.Answered? || |system.job.delivery.attempts| <= phase.a then system
      else SetPhase(system.(job := Finish(system.job, phase.a, phase.answer, now)), w, Idle)
    case Crashes(w) => SetPhase(system, w, Idle)
    case Recovers(now) => system.(job := Recover(system.job, now))
    case Reads(r) => system.(seen := system.seen[r := system.job.delivery.status])
    case Writes(r, confirmed) =>
      if r in system.seen then system.(job := Reconcile(system.job, system.seen[r], confirmed)) else system
    case ConnectionChanges(connection) => system.(job := system.job.(connection := connection))
  }

  function Run(system: System, events: seq<Event>): System
    decreases |events|
  {
    if events == [] then system else React(Run(system, events[..|events| - 1]), events[|events| - 1])
  }

  predicate Fresh(system: System) {
    system.job.delivery == NewDelivery && system.workers == map[] && system.seen == map[] && system.sends == 0
  }

  // --- the invariant ---

  // The statuses the partial unique index counts as active.
  predicate Open(attempt: Attempt) {
    attempt.status == AttemptStatus.Sending || attempt.status == AttemptStatus.Uncertain
  }

  predicate Numbered(attempts: seq<Attempt>) {
    forall i :: 0 <= i < |attempts| ==> attempts[i].sequence == i + 1
  }

  // Every attempt but the last failed in a way worth retrying.
  predicate EarlierFailed(attempts: seq<Attempt>) {
    forall i :: 0 <= i < |attempts| - 1 ==> attempts[i].status == AttemptStatus.Failed && attempts[i].retryable
  }

  // Whoever is still at work is alone, on the last attempt, which is open.
  predicate WorkersOnLast(system: System) {
    var attempts := system.job.delivery.attempts;
    && (forall w :: w in system.workers && !system.workers[w].Idle? ==>
          system.workers[w].a == |attempts| - 1 && Open(attempts[|attempts| - 1]))
    && (forall v, w :: v in system.workers && w in system.workers ==>
          v == w || system.workers[v].Idle? || system.workers[w].Idle?)
  }

  predicate InFlight(system: System) {
    exists w :: w in system.workers && !system.workers[w].Idle?
  }

  predicate Unsent(system: System) {
    exists w :: w in system.workers && system.workers[w].Claimed?
  }

  predicate Retrying(delivery: Delivery) {
    delivery.status == Queued || (delivery.status == Status.Failed && delivery.nextAttemptAt.Some?)
  }

  // A delivery that may be claimed is one whose last attempt ended and whom
  // nobody is serving.
  predicate RetryIsSafe(system: System) {
    var delivery := system.job.delivery;
    && (delivery.status == Queued ==> delivery.attempts == [])
    && (delivery.status == Queued || delivery.status == Status.Failed ==>
          && !InFlight(system)
          && (delivery.attempts != [] ==> delivery.attempts[|delivery.attempts| - 1].status == AttemptStatus.Failed))
    && (Retrying(delivery) ==>
          && |delivery.attempts| < MAX_ATTEMPTS
          && (delivery.attempts != [] ==> delivery.attempts[|delivery.attempts| - 1].retryable))
  }

  predicate Inv(system: System) {
    var attempts := system.job.delivery.attempts;
    && |attempts| <= MAX_ATTEMPTS
    && Numbered(attempts)
    && EarlierFailed(attempts)
    && WorkersOnLast(system)
    && RetryIsSafe(system)
    && (InFlight(system) ==> system.job.delivery.nextAttemptAt.None?)
    && system.sends + (if Unsent(system) then 1 else 0) <= |attempts|
  }

  lemma ClaimKeepsInv(system: System, w: nat, now: int)
    requires Inv(system)
    ensures Inv(React(system, Claims(w, now)))
  {
    var system' := React(system, Claims(w, now));
    if PhaseOf(system, w).Idle? && Claimable(system.job, now) {
      assert !InFlight(system);
      forall v | v in system'.workers && v != w
        ensures system'.workers[v].Idle?
      {
        assert system'.workers[v] == system.workers[v];
      }
    }
  }

  lemma SendKeepsInv(system: System, w: nat, answer: Answer)
    requires Inv(system)
    ensures Inv(React(system, Sends(w, answer)))
  {
    var system' := React(system, Sends(w, answer));
    if PhaseOf(system, w).Claimed? {
      assert Unsent(system) && InFlight(system);
      forall v | v in system'.workers && v != w
        ensures system'.workers[v].Idle?
      {
        assert system'.workers[v] == system.workers[v];
      }
    }
  }

  lemma FinishKeepsInv(system: System, w: nat, now: int)
    requires Inv(system)
    ensures Inv(React(system, Finishes(w, now)))
  {
    var system' := React(system, Finishes(w, now));
    if PhaseOf(system, w).Answered? {
      assert InFlight(system);
      forall v | v in system'.workers
        ensures system'.workers[v].Idle?
      {
        assert v != w ==> system'.workers[v] == system.workers[v];
      }
    }
  }

  lemma IdleKeepsInv(system: System, w: nat)
    requires Inv(system)
    ensures Inv(React(system, Crashes(w)))
  {
    var system' := React(system, Crashes(w));
    forall v | v in system'.workers && !system'.workers[v].Idle?
      ensures v in system.workers && system.workers[v] == system'.workers[v]
    {
    }
    if Unsent(system') {
      var v :| v in system'.workers && system'.workers[v].Claimed?;
      assert system.workers[v].Claimed?;
    }
    if InFlight(system') {
      var v :| v in system'.workers && !system'.workers[v].Idle?;
      assert !system.workers[v].Idle?;
    }
  }

  lemma RecoverKeepsInv(system: System, now: int)
    requires Inv(system)
    ensures Inv(React(system, Recovers(now)))
  {
  }

  lemma ReactKeepsInv(system: System, event: Event)
    requires Inv(system)
    ensures Inv(React(system, event))
  {
    match event
    case Claims(w, now) => ClaimKeepsInv(system, w, now);
    case Sends(w, answer) => SendKeepsInv(system, w, answer);
    case Finishes(w, now) => FinishKeepsInv(system, w, now);
    case Crashes(w) => IdleKeepsInv(system, w);
    case Recovers(now) => RecoverKeepsInv(system, now);
    case Reads(_) =>
    case Writes(_, _) =>
    case ConnectionChanges(_) =>
  }

  lemma {:induction false} RunInv(system: System, events: seq<Event>)
    requires Fresh(system)
    ensures Inv(Run(system, events))
    decreases |events|
  {
    if events != [] {
      RunInv(system, events[..|events| - 1]);
      ReactKeepsInv(Run(system, events[..|events| - 1]), events[|events| - 1]);
    }
  }

  // --- theorems about every run ---

  // Sends never overlap and never exceed three; attempts are numbered 1..n and
  // the one-active index never has anything to object to.
  lemma SendsAreBoundedAndApart(system: System, events: seq<Event>)
    requires Fresh(system)
    ensures var now := Run(system, events);
            var attempts := now.job.delivery.attempts;
            && now.sends <= |attempts| <= MAX_ATTEMPTS
            && Numbered(attempts)
            && (forall v, w :: v in now.workers && w in now.workers ==>
                v == w || now.workers[v].Idle? || now.workers[w].Idle?)
            && (forall i, j :: 0 <= i < j < |attempts| ==> !(Open(attempts[i]) && Open(attempts[j])))
  {
    RunInv(system, events);
  }

  // --- exactly when a delivery can be attempted again ---

  // A worker whose answer is or may turn out to be a transient failure.
  predicate MayFailTransiently(phase: Phase) {
    phase.Claimed? || (phase.Answered? && phase.answer.Transient?)
  }

  predicate MayBeRetried(system: System) {
    || Retrying(system.job.delivery)
    || (&& |system.job.delivery.attempts| < MAX_ATTEMPTS
        && exists w :: w in system.workers && MayFailTransiently(system.workers[w]))
  }

  lemma FinishedRetries(system: System, w: nat, now: int)
    requires Inv(system) && PhaseOf(system, w).Answered?
    ensures Retrying(React(system, Finishes(w, now)).job.delivery) <==>
            PhaseOf(system, w).answer.Transient? && |system.job.delivery.attempts| < MAX_ATTEMPTS
  {
    assert InFlight(system);
  }

  lemma NoRetryStays(system: System, event: Event)
    requires Inv(system) && !MayBeRetried(system)
    ensures var next := React(system, event);
            !MayBeRetried(next) && |next.job.delivery.attempts| == |system.job.delivery.attempts|
  {
    var next := React(system, event);
    if event.Finishes? && PhaseOf(system, event.worker).Answered? {
      FinishedRetries(system, event.worker, event.now);
    }
    forall w | w in next.workers && |next.job.delivery.attempts| < MAX_ATTEMPTS
      ensures !MayFailTransiently(next.workers[w])
    {
      assert next.workers[w] == PhaseOf(system, w) || next.workers[w].Idle? || PhaseOf(system, w).Claimed?;
    }
  }

  lemma {:induction false} NoRetryForever(system: System, events: seq<Event>)
    requires Inv(system) && !MayBeRetried(system)
    ensures var later := Run(system, events);
            && Inv(later) && !MayBeRetried(later)
            && |later.job.delivery.attempts| == |system.job.delivery.attempts|
    decreases |events|
  {
    if events != [] {
      var before := events[..|events| - 1];
      NoRetryForever(system, before);
      ReactKeepsInv(Run(system, before), events[|events| - 1]);
      NoRetryStays(Run(system, before), events[|events| - 1]);
    }
  }

  lemma RunOne(system: System, event: Event)
    ensures Run(system, [event]) == React(system, event)
  {
    assert [event][..0] == [];
  }

  lemma {:induction false} RunJoins(system: System, first: seq<Event>, second: seq<Event>)
    ensures Run(system, first + second) == Run(Run(system, first), second)
    decreases |second|
  {
    if second == [] {
      assert first + second == first;
    } else {
      var before := second[..|second| - 1];
      RunJoins(system, first, before);
      assert (first + second)[..|first + second| - 1] == first + before;
    }
  }

  const HEALTHY := Connection(Active, 0, None, None)

  lemma RetryingCanBeClaimed(system: System) returns (events: seq<Event>)
    requires Inv(system) && Retrying(system.job.delivery)
    ensures |Run(system, events).job.delivery.attempts| == |system.job.delivery.attempts| + 1
  {
    var due := system.job.delivery.nextAttemptAt;
    var now := if due.Some? then due.value else 0;
    var first := ConnectionChanges(HEALTHY);
    var ready := React(system, first);
    forall w | w in system.workers
      ensures system.workers[w].Idle?
    {
    }
    events := [first] + [Claims(0, now)];
    RunOne(system, first);
    RunOne(ready, Claims(0, now));
    RunJoins(system, [first], [Claims(0, now)]);
  }

  lemma LateFailureReopens(system: System, w: nat) returns (events: seq<Event>)
    requires Inv(system) && |system.job.delivery.attempts| < MAX_ATTEMPTS
    requires w in system.workers && MayFailTransiently(system.workers[w])
    ensures Inv(Run(system, events)) && Retrying(Run(system, events).job.delivery)
    ensures |Run(system, events).job.delivery.attempts| == |system.job.delivery.attempts|
  {
    var sent := React(system, Sends(w, Transient));
    SendKeepsInv(system, w, Transient);
    RunOne(system, Sends(w, Transient));
    RunOne(sent, Finishes(w, 0));
    RunJoins(system, [Sends(w, Transient)], [Finishes(w, 0)]);
    FinishKeepsInv(sent, w, 0);
    FinishedRetries(sent, w, 0);
    events := [Sends(w, Transient)] + [Finishes(w, 0)];
  }

  // In a reachable state another attempt can follow if and only if the delivery
  // is due for one, or a worker that lost its lease may still report a
  // transient failure.  The second case is the gap: recovery and reconciliation
  // may have reported UNCERTAIN or SUCCEEDED meanwhile, and the late report
  // puts the delivery back in the queue.
  lemma AnotherAttemptExactly(system: System, events: seq<Event>)
    requires Fresh(system)
    ensures var now := Run(system, events);
            MayBeRetried(now) <==>
            exists later :: |Run(now, later).job.delivery.attempts| > |now.job.delivery.attempts|
  {
    var now := Run(system, events);
    RunInv(system, events);
    if MayBeRetried(now) {
      var first: seq<Event> := [];
      if !Retrying(now.job.delivery) {
        var w :| w in now.workers && MayFailTransiently(now.workers[w]);
        first := LateFailureReopens(now, w);
      }
      var second := RetryingCanBeClaimed(Run(now, first));
      RunJoins(now, first, second);
      assert |Run(now, first + second).job.delivery.attempts| > |now.job.delivery.attempts|;
    } else {
      forall later: seq<Event>
        ensures |Run(now, later).job.delivery.attempts| == |now.job.delivery.attempts|
      {
        NoRetryForever(now, later);
      }
    }
  }

  // A permanent failure, or a transient one on the third attempt, is final.
  lemma PermanentlyFailedIsNeverClaimed(system: System, events: seq<Event>, later: seq<Event>)
    requires Fresh(system)
    requires Run(system, events).job.delivery.status == Status.Failed
    requires Run(system, events).job.delivery.nextAttemptAt.None?
    ensures |Run(Run(system, events), later).job.delivery.attempts| == |Run(system, events).job.delivery.attempts|
  {
    RunInv(system, events);
    NoRetryForever(Run(system, events), later);
  }

  lemma RunFour(system: System, a: Event, b: Event, c: Event, d: Event)
    ensures Run(system, [a, b, c, d]) == React(React(React(React(system, a), b), c), d)
  {
    assert [a, b, c, d][..3] == [a, b, c] && [a, b, c][..2] == [a, b] && [a, b][..1] == [a];
    RunOne(system, a);
    assert Run(system, [a, b]) == React(Run(system, [a]), b);
    assert Run(system, [a, b, c]) == React(Run(system, [a, b]), c);
  }

  // A worker outlives its lease, recovery gives the send up and reconciliation
  // confirms it.
  lemma ConfirmedWhileInFlight(system: System) returns (events: seq<Event>)
    requires Fresh(system) && system.job.connection.status == Active
    ensures var now := Run(system, events);
            && now.job.delivery.status == Status.Succeeded
            && |now.job.delivery.attempts| == 1
            && PhaseOf(now, 0).Claimed?
  {
    var late := LEASE_SECONDS + 1;
    events := [Claims(0, 0), Recovers(late), Reads(7), Writes(7, true)];
    RunFour(system, Claims(0, 0), Recovers(late), Reads(7), Writes(7, true));
    var claimed := React(system, Claims(0, 0));
    assert Expired(claimed.job.delivery.attempts[0], late);
  }

  // A delivery reported SUCCEEDED can be sent again: the late transient failure
  // of the worker that lost its lease reopens it.
  lemma ConfirmedDeliverySentAgain(system: System)
    requires Fresh(system) && system.job.connection.status == Active
    ensures exists events, later ::
              && Run(system, events).job.delivery.status == Status.Succeeded
              && |Run(Run(system, events), later).job.delivery.attempts| > |Run(system, events).job.delivery.attempts|
  {
    var events := ConfirmedWhileInFlight(system);
    var now := Run(system, events);
    assert MayFailTransiently(now.workers[0]);
    AnotherAttemptExactly(system, events);
  }
}

// The dispatch protocol: any number of workers run dispatch_message over one
// message, interleaved with each other and with every other command.  A worker
// may crash or stall at any point, for any time.
module MessageDispatch {
  import opened Common
  import opened Messaging
  import opened MessageRow

  // What a send_text call came back with.  Blocked means it raised
  // ProviderEffectsDisabled, before anything left; Lost is any other exception.
  datatype Answer = Accepted(externalId: string) | Rejected | Lost | Blocked

  // Where a worker stands between its transactions.
  datatype Phase =
    | Idle
    | Holding(token: nat)
    | Mismatched(token: nat)
    | Refused(token: nat)
    | Authorised(token: nat)
    | Answered(token: nat, answer: Answer)

  // sends counts the send_text calls that did not raise ProviderEffectsDisabled.
  datatype System = System(post: Post, workers: map<nat, Phase>, sends: nat)

  datatype Event =
    | Claims(worker: nat, now: int)
    | FindsMismatch(worker: nat)
    | Authorises(worker: nat, world: World, now: int)
    | Sends(worker: nat, answer: Answer)
    | Settles(worker: nat, event: nat, now: int)
    | Crashes(worker: nat)
    | Outside(step: Step)

  // Steps taken by somebody other than a dispatch worker.
  predicate Foreign(step: Step) {
    step.Cancel? || step.Callback? || step.Reconcile? || step.RecordPreference? || step.HardFeedbackElsewhere?
      || step.TakeId?
  }

  function PhaseOf(system: System, w: nat): Phase {
    if w in system.workers then system.workers[w] else Idle
  }

  function SetPhase(system: System, w: nat, phase: Phase): System {
    system.(workers := system.workers[w := phase])
  }

  // A worker whose message turned out to be lost has nothing more to do.
  function ClaimEvent(system: System, w: nat, now: int): System {
    if !PhaseOf(system, w).Idle? then system
    else
      match Execute(system.post, Claim(now))
      case Err(_) => system
      case Ok(post) =>
        var claimed := system.(post := post);
        if post.message.status == Status.Uncertain || post.attempt.token.None? then claimed
        else SetPhase(claimed, w, Holding(post.attempt.token.value))
  }

  // A domain refusal leads to mark_failed; any other exception ends the worker.
  function AuthoriseEvent(system: System, w: nat, world: World, now: int): System {
    var phase := PhaseOf(system, w);
    if !phase.Holding? then system
    else
      match Execute(system.post, Prepare(phase.token, world, now))
      case Ok(post) => SetPhase(system.(post := post), w, Authorised(phase.token))
      case Err(error) => SetPhase(system, w, if DomainError(error) then Refused(phase.token) else Idle)
  }

  function SendEvent(system: System, w: nat, answer: Answer): System {
    var phase := PhaseOf(system, w);
    if !phase.Authorised? then system
    else SetPhase(system, w, Answered(phase.token, answer)).(sends := if answer.Blocked? then system.sends
                                                             else system.sends + 1)
  }

  // The transaction with which the worker records where it got to.
  function Record(phase: Phase, event: nat, now: int): Step
    requires phase.Mismatched? || phase.Refused? || phase.Answered?
  {
    match phase
    case Mismatched(token) => Release(token, true, now)
    case Refused(token) => MarkFailed(token, event, now)
    case Answered(token, answer) =>
      match answer
      case Accepted(externalId) => Accept(token, externalId, event, now)
      case Rejected => MarkFailed(token, event, now)
      case Lost => MarkUncertain(token, event)
      case Blocked => Release(token, true, now)
  }

  // When recording an answer raises, the worker falls back to mark_uncertain.
  function SettleEvent(system: System, w: nat, event: nat, now: int): System {
    var phase := PhaseOf(system, w);
    if !(phase.Mismatched? || phase.Refused? || phase.Answered?) then system
    else
      match Execute(system.post, Record(phase, event, now))
      case Ok(post) => SetPhase(system.(post := post), w, Idle)
      case Err(_) =>
        if phase.Answered? && (phase.answer.Accepted?
                               || phase.answer.Rejected?) then SetPhase(system, w, Answered(phase.token, Lost))
        else SetPhase(system, w, Idle)
  }

  function React(system: System, event: Event): System {
    match event
    case Claims(w, now) => ClaimEvent(system, w, now)
    case FindsMismatch(w) =>
      if PhaseOf(system, w).Holding? then SetPhase(system, w, Mismatched(PhaseOf(system, w).token)) else system
    case Authorises(w, world, now) => AuthoriseEvent(system, w, world, now)
    case Sends(w, answer) => SendEvent(system, w, answer)
    case Settles(w, e, now) => SettleEvent(system, w, e, now)
    case Crashes(w) => SetPhase(system, w, Idle)
    case Outside(step) => if Foreign(step) then system.(post := Next(system.post, step)) else system
  }

  function Run(system: System, events: seq<Event>): System
    decreases |events|
  {
    if events == [] then system else React(Run(system, events[..|events| - 1]), events[|events| - 1])
  }

  // A message as create_message leaves it, before any worker looked at it.
  predicate Fresh(system: System) {
    && RowInv(system.post)
    && system.post.message.status == Pending
    && !Logged(system.post, SendingMark)
    && system.workers == map[]
    && system.sends == 0
  }

  // --- the invariant ---

  // A worker that may still call the provider, or has and not yet recorded it.
  predicate Live(phase: Phase) {
    phase.Authorised? || phase.Answered?
  }

  // What the worker's own knowledge says about the number of sends so far.
  predicate Accounted(phase: Phase, sends: nat) {
    && (phase.Authorised? ==> sends == 0)
    && (phase.Answered? ==> sends == if phase.answer.Blocked? then 0 else 1)
  }

  predicate TokensApart(system: System) {
    && (forall w :: w in system.workers && !system.workers[w].Idle? ==> system.workers[w].token < system.post.nextToken)
    && (forall v, w :: v in system.workers && w in system.workers && v != w ==>
          system.workers[v].Idle? || system.workers[w].Idle? || system.workers[v].token != system.workers[w].token)
  }

  predicate OneLive(system: System) {
    && system.sends <= 1
    && (forall w :: w in system.workers ==> Accounted(system.workers[w], system.sends))
    && (forall v, w :: v in system.workers && w in system.workers ==>
          v == w || !Live(system.workers[v]) || !Live(system.workers[w]))
  }

  predicate NoneLive(system: System) {
    forall w :: w in system.workers ==> !Live(system.workers[w])
  }

  // While the send is under way the lease names its worker, if it still lives.
  predicate LeaseNamesSender(system: System) {
    forall w :: w in system.workers && !system.workers[w].Idle? ==>
                  (Some(system.workers[w].token) == system.post.attempt.token <==> Live(system.workers[w]))
  }

  // What the status of the message tells about exposure to the provider.
  predicate Exposure(system: System) {
    match system.post.message.status
    case Pending => NoneLive(system) && system.sends == 0
    case Queued => NoneLive(system) && system.sends == 0
    case Sending => LeaseNamesSender(system)
    case Sent => NoneLive(system) && system.sends == 1
    case Delivered => NoneLive(system) && system.sends == 1
    case Failed => NoneLive(system)
    case Cancelled => NoneLive(system) && system.sends == 0
    case Uncertain => true
  }

  predicate Inv(system: System) {
    && RowInv(system.post)
    && TokensApart(system)
    && OneLive(system)
    && Exposure(system)
    && (system.sends > 0 || !NoneLive(system) ==> Logged(system.post, SendingMark))
  }

  // --- preservation, event by event ---

  lemma FreshInv(system: System)
    requires Fresh(system)
    ensures Inv(system)
  {
  }

  // A committed claim either hands out a fresh token or gives up a send whose
  // lease ran out.
  lemma ClaimEffect(post: Post, now: int)
    requires RowInv(post) && Execute(post, Claim(now)).Ok?
    ensures var post' := Execute(post, Claim(now)).value;
            if post.message.status == Status.Sending then
              post'.message.status == Status.Uncertain && post'.nextToken == post.nextToken
            else
              && post.message.status in {Pending, Queued} && post'.message.status == Queued
              && post'.attempt.token == Some(post.nextToken) && post'.nextToken == post.nextToken + 1
  {
  }

  lemma ClaimedKeepsInv(system: System, w: nat, post: Post)
    requires Inv(system) && RowInv(post) && PhaseOf(system, w).Idle?
    requires system.post.message.status in {Pending, Queued} && post.message.status == Queued
    requires post.attempt.token == Some(system.post.nextToken) && post.nextToken == system.post.nextToken + 1
    ensures Inv(SetPhase(system.(post := post), w, Holding(system.post.nextToken)))
  {
  }

  lemma LostKeepsInv(system: System, post: Post)
    requires Inv(system) && RowInv(post)
    requires post.message.status == Status.Uncertain && post.nextToken == system.post.nextToken
    requires Logged(system.post, SendingMark) ==> Logged(post, SendingMark)
    ensures Inv(system.(post := post))
  {
  }

  lemma ClaimKeepsInv(system: System, w: nat, now: int)
    requires Inv(system)
    ensures Inv(ClaimEvent(system, w, now))
  {
    var step := Claim(now);
    if PhaseOf(system, w).Idle? && Execute(system.post, step).Ok? {
      var post := Execute(system.post, step).value;
      StepKeepsRow(system.post, step);
      LogGrows(system.post, step);
      ClaimEffect(system.post, now);
      if post.message.status == Queued {
        ClaimedKeepsInv(system, w, post);
      } else {
        LostKeepsInv(system, post);
      }
    }
  }

  lemma LogGrows(post: Post, step: Step)
    requires RowInv(post)
    ensures forall command :: Logged(post, command) ==> Logged(Next(post, step), command)
  {
    var post' := Next(post, step);
    forall command | Logged(post, command)
      ensures Logged(post', command)
    {
      var i :| 0 <= i < |post.history| && post.history[i].command == command;
      if Execute(post, step).Ok? {
        OneEntryPerChange(post, step);
      }
      assert post'.history[i].command == command;
    }
  }

  lemma AuthoriseKeepsInv(system: System, w: nat, world: World, now: int)
    requires Inv(system)
    ensures Inv(AuthoriseEvent(system, w, world, now))
  {
    var phase := PhaseOf(system, w);
    if phase.Holding? {
      var step := Prepare(phase.token, world, now);
      StepKeepsRow(system.post, step);
      AuthorisedExactly(system.post, phase.token, world, now);
      var r := Execute(system.post, step);
      if r.Ok? {
        AppendedLog(system.post, r.value, Entry(Some(Queued), Status.Sending, SendingMark), SendingMark);
      }
    }
  }

  lemma SendKeepsInv(system: System, w: nat, answer: Answer)
    requires Inv(system)
    ensures Inv(SendEvent(system, w, answer))
  {
  }

  // The status a worker's record leads to.
  function RecordedStatus(phase: Phase): Status
    requires phase.Mismatched? || phase.Refused? || phase.Answered?
  {
    match phase
    case Mismatched(_) => Pending
    case Refused(_) => Status.Failed
    case Answered(_, answer) =>
      match answer
      case Accepted(_) => Sent
      case Rejected => Status.Failed
      case Lost => Status.Uncertain
      case Blocked => Pending
  }

  // Whoever no longer holds the lease records nothing.
  lemma RecordEffect(post: Post, phase: Phase, event: nat, now: int)
    requires RowInv(post)
    requires phase.Mismatched? || phase.Refused? || phase.Answered?
    requires Execute(post, Record(phase, event, now)).Ok?
    ensures var post' := Execute(post, Record(phase, event, now)).value;
            && post'.nextToken == post.nextToken
            && (if post.attempt.token == Some(phase.token) then post'.message.status == RecordedStatus(phase)
                else post' == post)
  {
  }

  // The lease holder's record takes the message where its phase says.
  lemma RecordedKeepsInv(system: System, w: nat, post: Post)
    requires Inv(system) && RowInv(post)
    requires PhaseOf(system, w).Mismatched? || PhaseOf(system, w).Refused? || PhaseOf(system, w).Answered?
    requires system.post.attempt.token == Some(PhaseOf(system, w).token)
    requires post.nextToken == system.post.nextToken && post.message.status == RecordedStatus(PhaseOf(system, w))
    requires Logged(system.post, SendingMark) ==> Logged(post, SendingMark)
    ensures Inv(SetPhase(system.(post := post), w, Idle))
  {
    var phase := system.workers[w];
    var system' := SetPhase(system.(post := post), w, Idle);
    assert system.post.message.status in {Queued, Status.Sending};
    assert NoneLive(system') by {
      forall v | v in system'.workers
        ensures !Live(system'.workers[v])
      {
        assert v != w ==> system'.workers[v] == system.workers[v];
      }
    }
  }

  lemma SettleKeepsInv(system: System, w: nat, event: nat, now: int)
    requires Inv(system)
    ensures Inv(SettleEvent(system, w, event, now))
  {
    var phase := PhaseOf(system, w);
    if phase.Mismatched? || phase.Refused? || phase.Answered? {
      var step := Record(phase, event, now);
      StepKeepsRow(system.post, step);
      LogGrows(system.post, step);
      if Execute(system.post, step).Ok? {
        RecordEffect(system.post, phase, event, now);
        var post := Execute(system.post, step).value;
        if system.post.attempt.token == Some(phase.token) {
          RecordedKeepsInv(system, w, post);
        } else {
          CrashKeepsInv(system, w);
        }
      } else if !(phase.Answered? && (phase.answer.Accepted? || phase.answer.Rejected?)) {
        CrashKeepsInv(system, w);
      }
    }
  }

  // A worker may vanish at any moment.
  lemma CrashKeepsInv(system: System, w: nat)
    requires Inv(system)
    ensures Inv(SetPhase(system, w, Idle))
  {
  }

  lemma MismatchKeepsInv(system: System, w: nat)
    requires Inv(system) && PhaseOf(system, w).Holding?
    ensures Inv(SetPhase(system, w, Mismatched(PhaseOf(system, w).token)))
  {
  }

  // Nobody else touches a lease: a command may cancel before the send, a
  // callback may conclude after it.
  lemma OutsideEffect(post: Post, step: Step)
    requires RowInv(post) && Foreign(step)
    ensures var post' := Next(post, step);
            && post'.nextToken == post.nextToken
            && (|| (post'.message.status == post.message.status && post'.attempt.token == post.attempt.token)
                || (post.message.status in {Pending, Queued} && post'.message.status == Status.Cancelled)
                || (post.message.status == Sent && post'.message.status in {Status.Delivered, Status.Failed}))
  {
  }

  lemma ConcludedKeepsInv(system: System, post: Post)
    requires Inv(system) && RowInv(post) && post.nextToken == system.post.nextToken
    requires
      || (post.message.status == system.post.message.status && post.attempt.token == system.post.attempt.token)
      || (system.post.message.status in {Pending, Queued} && post.message.status == Status.Cancelled)
      || (system.post.message.status == Sent && post.message.status in {Status.Delivered, Status.Failed})
    requires Logged(system.post, SendingMark) ==> Logged(post, SendingMark)
    ensures Inv(system.(post := post))
  {
  }

  lemma OutsideKeepsInv(system: System, step: Step)
    requires Inv(system) && Foreign(step)
    ensures Inv(system.(post := Next(system.post, step)))
  {
    StepKeepsRow(system.post, step);
    LogGrows(system.post, step);
    OutsideEffect(system.post, step);
    ConcludedKeepsInv(system, Next(system.post, step));
  }

  lemma ReactKeepsInv(system: System, event: Event)
    requires Inv(system)
    ensures Inv(React(system, event))
  {
    match event
    case Claims(w, now) => ClaimKeepsInv(system, w, now);
    case Authorises(w, world, now) => AuthoriseKeepsInv(system, w, world, now);
    case Sends(w, answer) => SendKeepsInv(system, w, answer);
    case Settles(w, e, now) => SettleKeepsInv(system, w, e, now);
    case Outside(step) => if Foreign(step) { OutsideKeepsInv(system, step); }
    case FindsMismatch(w) => if PhaseOf(system, w).Holding? { MismatchKeepsInv(system, w); }
    case Crashes(w) => CrashKeepsInv(system, w);
  }

  lemma {:induction false} RunInv(system: System, events: seq<Event>)
    requires Fresh(system)
    ensures Inv(Run(system, events))
    decreases |events|
  {
    if events == [] {
      FreshInv(system);
    } else {
      RunInv(system, events[..|events| - 1]);
      ReactKeepsInv(Run(system, events[..|events| - 1]), events[|events| - 1]);
    }
  }

  function At(system: System, events: seq<Event>, k: nat): System
    requires k <= |events|
  {
    Run(system, events[..k])
  }

  lemma AtNext(system: System, events: seq<Event>, k: nat)
    requires k < |events|
    ensures At(system, events, k + 1) == React(At(system, events, k), events[k])
  {
    assert events[..k + 1][..k] == events[..k];
  }

  // --- theorems about every run ---

  // No interleaving of workers, crashes, stalls, cancellations and callbacks
  // hands the message to the provider twice; the status tells how often it was.
  lemma AtMostOneSend(system: System, events: seq<Event>)
    requires Fresh(system)
    ensures var now := Run(system, events);
            && now.sends <= 1
            && RowInv(now.post)
            && (now.post.message.status in {Pending, Queued, Status.Cancelled} ==> now.sends == 0 && NoneLive(now))
            && (now.post.message.status in {Sent, Status.Delivered} ==> now.sends == 1)
  {
    RunInv(system, events);
  }

  // The transaction an event runs, if it runs one.
  function Performed(system: System, event: Event): Option<Step> {
    match event
    case Claims(w, now) => if PhaseOf(system, w).Idle? then Some(Claim(now)) else None
    case FindsMismatch(_) => None
    case Authorises(w, world, now) =>
      var phase := PhaseOf(system, w);
      if phase.Holding? then Some(Prepare(phase.token, world, now)) else None
    case Sends(_, _) => None
    case Settles(w, e, now) =>
      var phase := PhaseOf(system, w);
      if phase.Mismatched? || phase.Refused? || phase.Answered? then Some(Record(phase, e, now)) else None
    case Crashes(_) => None
    case Outside(step) => if Foreign(step) then Some(step) else None
  }

  lemma OnlyTransactionsWrite(system: System, event: Event)
    ensures React(system, event).post ==
            if Performed(system, event).Some? then Next(system.post, Performed(system, event).value) else system.post
  {
  }

  predicate SameOutcome(first: System, later: System) {
    && later.post.message == first.post.message
    && later.post.attempt == first.post.attempt
    && later.post.history == first.post.history
    && later.sends == first.sends
  }

  lemma FinalStays(system: System, event: Event)
    requires Inv(system) && Final(system.post.message.status)
    ensures SameOutcome(system, React(system, event))
  {
    OnlyTransactionsWrite(system, event);
    if Performed(system, event).Some? {
      FinalIsAbsorbing(system.post, Performed(system, event).value);
    }
  }

  lemma FinalStaysInRun(system: System, events: seq<Event>, k: nat)
    requires Fresh(system) && k < |events| && Final(At(system, events, k).post.message.status)
    ensures SameOutcome(At(system, events, k), At(system, events, k + 1))
  {
    RunInv(system, events[..k]);
    AtNext(system, events, k);
    FinalStays(At(system, events, k), events[k]);
  }

  lemma SameOutcomeNext(system: System, events: seq<Event>, first: System, k: nat)
    requires Fresh(system) && k < |events| && Final(first.post.message.status)
    requires SameOutcome(first, At(system, events, k))
    ensures SameOutcome(first, At(system, events, k + 1))
  {
    FinalStaysInRun(system, events, k);
  }

  // DELIVERED, FAILED and CANCELLED absorb stale workers and repeated
  // callbacks alike.
  lemma {:induction false} OutcomeIsFinal(system: System, events: seq<Event>, i: nat, j: nat)
    requires Fresh(system) && i <= j <= |events|
    requires Final(At(system, events, i).post.message.status)
    ensures SameOutcome(At(system, events, i), At(system, events, j))
    decreases j
  {
    if i < j {
      OutcomeIsFinal(system, events, i, j - 1);
      SameOutcomeNext(system, events, At(system, events, i), j - 1);
    }
  }

  // A cancelled message was not sent, is not being sent and will not be sent.
  lemma CancelledIsNeverSent(system: System, events: seq<Event>, i: nat, j: nat)
    requires Fresh(system) && i <= j <= |events|
    requires At(system, events, i).post.message.status == Status.Cancelled
    ensures At(system, events, j).sends == 0 && NoneLive(At(system, events, j))
  {
    OutcomeIsFinal(system, events, i, j);
    AtMostOneSend(system, events[..j]);
  }

  // --- authorisation ---

  // Worker w's k-th event authorised the send on consent in force.
  predicate AuthorisedAt(system: System, events: seq<Event>, k: nat, w: nat)
    requires k < |events|
  {
    var before := At(system, events, k);
    && events[k].Authorises?
    && events[k].worker == w
    && PhaseOf(before, w).Holding?
    && before.post.attempt.token == Some(PhaseOf(before, w).token)
    && before.post.message.status == Queued
    && Eligible(before.post, events[k].world, events[k].now)
    && !Logged(before.post, SendingMark)
  }

  lemma BecomesAuthorised(system: System, events: seq<Event>, k: nat, w: nat)
    requires Fresh(system) && k < |events|
    requires PhaseOf(At(system, events, k + 1), w).Authorised? && !PhaseOf(At(system, events, k), w).Authorised?
    ensures AuthorisedAt(system, events, k, w)
  {
    var before := At(system, events, k);
    RunInv(system, events[..k]);
    AtNext(system, events, k);
    assert events[k].Authorises? && events[k].worker == w && PhaseOf(before, w).Holding?;
    var token := PhaseOf(before, w).token;
    AuthorisedExactly(before.post, token, events[k].world, events[k].now);
  }

  // A worker that asks for authorisation on its lease of the queued message may
  // send, gives up without a trace when the contact went to another customer or
  // the message was authorised before, and fails the message for any other reason.
  lemma AskingEndsExactly(system: System, w: nat, world: World, now: int)
    requires Inv(system) && PhaseOf(system, w).Holding?
    requires system.post.attempt.token == Some(PhaseOf(system, w).token) && system.post.message.status == Queued
    ensures var token := PhaseOf(system, w).token;
            var eligible := Eligible(system.post, world, now);
            var spent := Logged(system.post, SendingMark);
            PhaseOf(React(system, Authorises(w, world, now)), w) ==
            if eligible && !spent then Authorised(token)
            else if eligible || world.contactOwner != system.post.message.customer then Idle
            else Refused(token)
  {
    var token := PhaseOf(system, w).token;
    AuthorisedExactly(system.post, token, world, now);
    RefusalEscapesExactly(system.post, token, world, now);
  }

  lemma {:induction false} AuthorisationPrecedes(system: System, events: seq<Event>, k: nat, w: nat) returns (j: nat)
    requires Fresh(system) && k <= |events|
    requires PhaseOf(At(system, events, k), w).Authorised?
    ensures j < k && AuthorisedAt(system, events, j, w)
    decreases k
  {
    assert events[..0] == [];
    if PhaseOf(At(system, events, k - 1), w).Authorised? {
      j := AuthorisationPrecedes(system, events, k - 1, w);
    } else {
      BecomesAuthorised(system, events, k - 1, w);
      j := k - 1;
    }
  }

  // Every send has its own earlier authorisation by the same worker, when
  // nothing the message was created on had changed.
  lemma SendWasAuthorised(system: System, events: seq<Event>, k: nat)
    requires Fresh(system) && k < |events|
    requires At(system, events, k + 1).sends != At(system, events, k).sends
    ensures events[k].Sends? && exists j :: 0 <= j < k && AuthorisedAt(system, events, j, events[k].worker)
  {
    AtNext(system, events, k);
    var j := AuthorisationPrecedes(system, events, k, events[k].worker);
  }

  // --- what can no longer be sent ---

  // The message can never be authorised (again).
  predicate Spent(post: Post) {
    && post.message.evidence < |post.preferences|
    && (Logged(post, SendingMark) || !post.preferences[post.message.evidence].active)
  }

  lemma SpentStays(post: Post, step: Step)
    requires RowInv(post) && Spent(post)
    ensures Spent(Next(post, step))
    ensures step.Prepare? ==> Execute(post, step).Err?
  {
    if Logged(post, SendingMark) {
      LogGrows(post, step);
      if step.Prepare? {
        AuthorisedExactly(post, step.token, step.world, step.now);
      }
    }
    if !post.preferences[post.message.evidence].active {
      WithdrawnConsentNeverReturns(post, step);
    }
    StepKeepsRow(post, step);
  }

  // Nobody is about to send, and nobody can be authorised any more.
  predicate SendingOver(system: System) {
    && (forall w :: w in system.workers ==> !system.workers[w].Authorised?)
    && Spent(system.post)
  }

  lemma SendingStaysOver(system: System, event: Event)
    requires Inv(system) && SendingOver(system)
    ensures SendingOver(React(system, event)) && React(system, event).sends == system.sends
  {
    OnlyTransactionsWrite(system, event);
    if Performed(system, event).Some? {
      SpentStays(system.post, Performed(system, event).value);
    }
  }

  lemma SendingStaysOverInRun(system: System, events: seq<Event>, k: nat)
    requires Fresh(system) && k < |events| && SendingOver(At(system, events, k))
    ensures SendingOver(At(system, events, k + 1)) && At(system, events, k + 1).sends == At(system, events, k).sends
  {
    RunInv(system, events[..k]);
    AtNext(system, events, k);
    SendingStaysOver(At(system, events, k), events[k]);
  }

  // Once the consent a message was created on is replaced or suppressed, or
  // once a send began and its worker stopped short of the provider, no run
  // sends the message any more, whatever consent is recorded afterwards.
  lemma {:induction false} NothingSentAfterwards(system: System, events: seq<Event>, i: nat, j: nat)
    requires Fresh(system) && i <= j <= |events|
    requires SendingOver(At(system, events, i))
    ensures At(system, events, j).sends == At(system, events, i).sends
    ensures SendingOver(At(system, events, j))
    decreases j
  {
    if i < j {
      NothingSentAfterwards(system, events, i, j - 1);
      SendingStaysOverInRun(system, events, j - 1);
    }
  }

  // The release after ProviderEffectsDisabled puts the message back to PENDING
  // for a later attempt, but that attempt can never be authorised.
  lemma ReleasedSendIsNeverRetried(system: System, events: seq<Event>, k: nat, w: nat, event: nat, now: int)
    requires Fresh(system) && k < |events|
    requires PhaseOf(At(system, events, k), w).Answered? && PhaseOf(At(system, events, k), w).answer.Blocked?
    requires events[k] == Settles(w, event, now)
    ensures Run(system, events).sends == 0
  {
    var before := At(system, events, k);
    var after := At(system, events, k + 1);
    RunInv(system, events[..k]);
    RunInv(system, events[..k + 1]);
    AtNext(system, events, k);
    assert Live(before.workers[w]);
    LogGrows(before.post, Record(before.workers[w], event, now));
    NothingSentAfterwards(system, events, k + 1, |events|);
    assert events[..|events|] == events;
  }
}

// The messaging service in the form the program has: the message and its
// attempt are mutated in place inside a transaction the database may reject.
module MessageService {
  import opened Common
  import opened Messaging
  import D = MessageDispatch

  // A call either leaves exactly the rows the specification commits, or raises
  // the specified error and leaves every row as it was.
  ghost predicate Answers(before: Post, after: Post, r: Result<(), MessagingError>, spec: Outcome) {
    match spec
    case Ok(post) => r == Ok(()) && after == post
    case Err(error) => r == Err(error) && after == before
  }

  class MessageDesk {
    const provider: Provider
    var message: Message
    var attempt: Attempt
    var history: seq<Entry>
    var preferences: seq<Preference>
    var takenIds: set<string>
    var callbackReceipts: set<(string, string)>
    var nextToken: nat

    function Snapshot(): Post
      reads this
    {
      Post(provider, message, attempt, history, preferences, takenIds, callbackReceipts, nextToken)
    }

    constructor (post: Post)
      ensures Snapshot() == post
    {
      provider, message, attempt, history := post.provider, post.message, post.attempt, post.history;
      preferences, takenIds, callbackReceipts, nextToken := post.preferences, post.takenIds, post.callbackReceipts,
        post.nextToken;
    }

    // --- the transaction boundary ---

    method RollBack(savepoint: Post)
      requires savepoint.provider == provider
      modifies this
      ensures Snapshot() == savepoint
    {
      message, attempt, history, preferences := savepoint.message, savepoint.attempt, savepoint.history,
        savepoint.preferences;
      takenIds, callbackReceipts, nextToken := savepoint.takenIds, savepoint.callbackReceipts, savepoint.nextToken;
    }

    method Save(savepoint: Post) returns (r: Result<(), MessagingError>)
      requires savepoint.provider == provider
      modifies this
      ensures if Constraints(old(Snapshot())) then r == Ok(()) && Snapshot() == old(Snapshot())
              else r == Err(IntegrityViolation) && Snapshot() == savepoint
    {
      if Constraints(Snapshot()) {
        return Ok(());
      }
      RollBack(savepoint);
      r := Err(IntegrityViolation);
    }

    method Log(before: Status, command: CommandId)
      modifies this`history
      ensures history == old(history) + [Entry(Some(before), message.status, command)]
    {
      history := history + [Entry(Some(before), message.status, command)];
    }

    method DropLease()
      modifies this`attempt
      ensures attempt == Unleased(old(attempt), None)
    {
      attempt := attempt.(token := None, leaseExpires := None);
      attempt := attempt.(availableAt := None);
    }

    // --- the worker's transactions ---

    method ClaimDispatch(now: int) returns (r: Result<(), MessagingError>)
      modifies this
      ensures Answers(old(Snapshot()), Snapshot(), r, Execute(old(Snapshot()), Claim(now)))
    {
      if attempt.status !in {Requested, AttemptStatus.Sending} {
        return Err(InvalidMessage);
      }
      if Waiting(attempt.availableAt, now) || Waiting(attempt.leaseExpires, now) {
        return Err(InvalidMessage);
      }
      var savepoint := Snapshot();
      if attempt.status == AttemptStatus.Sending {
        DropLease();
        attempt := attempt.(status := AttemptStatus.Uncertain, version := attempt.version + 1);
        var from := message.status;
        message := message.(status := Status.Uncertain, version := message.version + 1);
        Log(from, LostMark);
      } else {
        if message.status == Queued {
          message := message.(status := Pending);
        }
        if message.status != Pending {
          RollBack(savepoint);
          return Err(InvalidMessage);
        }
        attempt := attempt.(token := Some(nextToken), leaseExpires := Some(now + LEASE_SECONDS));
        attempt := attempt.(dispatches := attempt.dispatches + 1, availableAt := None);
        nextToken := nextToken + 1;
        var from := message.status;
        message := message.(status := Queued, version := message.version + 1);
        Log(from, Dispatch(attempt.dispatches));
      }
      assert ClaimBody(savepoint, now) == Ok(Snapshot());
      r := Save(savepoint);
    }

    method ReleaseDispatch(token: nat, failed: bool, now: int) returns (r: Result<(), MessagingError>)
      modifies this
      ensures Answers(old(Snapshot()), Snapshot(), r, Execute(old(Snapshot()), Release(token, failed, now)))
    {
      var savepoint := Snapshot();
      if attempt.token == Some(token) {
        DropLease();
        if attempt.status == AttemptStatus.Sending {
          attempt := attempt.(status := Requested);
          attempt := attempt.(version := attempt.version + 1);
        }
        if failed {
          attempt := attempt.(availableAt := Some(now + Backoff(attempt.dispatches)));
        }
        if message.status in {Queued, Status.Sending} {
          var from := message.status;
          message := message.(status := Pending, version := message.version + 1);
          Log(from, ReleaseMark);
        }
        assert ReleaseBody(savepoint, token, failed, now) == Ok(Snapshot());
      }
      r := Save(savepoint);
    }

    method PrepareSend(token: nat, world: World, now: int) returns (r: Result<(), MessagingError>)
      modifies this
      ensures Answers(old(Snapshot()), Snapshot(), r, Execute(old(Snapshot()), Prepare(token, world, now)))
    {
      if attempt.token != Some(token) {
        return Err(InvalidMessage);
      }
      if message.status != Queued || attempt.status != Requested {
        return Err(InvalidMessage);
      }
      if world.contactOwner != message.customer {
        return Err(RowMissing);
      }
      var savepoint := Snapshot();
      attempt := attempt.(status := AttemptStatus.Sending, version := attempt.version + 1);
      var from := message.status;
      message := message.(status := Status.Sending, version := message.version + 1);
      var checked := Revalidate(message, world, preferences, now);
      if checked.Err? {
        RollBack(savepoint);
        return Err(checked.error);
      }
      Log(from, SendingMark);
      r := Save(savepoint);
    }

    method AcceptSend(token: nat, externalId: string, event: nat, now: int) returns (r: Result<(), MessagingError>)
      modifies this
      ensures Answers(old(Snapshot()), Snapshot(), r, Execute(old(Snapshot()), Accept(token, externalId, event, now)))
    {
      if externalId == "" || attempt.token != Some(token) || message.status != Status.Sending {
        return Err(InvalidMessage);
      }
      var savepoint := Snapshot();
      attempt := attempt.(externalId := externalId, status := Accepted);
      DropLease();
      attempt := attempt.(version := attempt.version + 1);
      if !AttemptRowValid(attempt, takenIds) {
        RollBack(savepoint);
        return Err(InvalidMessage);
      }
      var from := message.status;
      message := message.(status := Sent, sentAt := Some(now), version := message.version + 1);
      Log(from, OutboxEvent(event));
      r := Save(savepoint);
    }

    method RecordUncertain(token: nat, event: nat) returns (r: Result<(), MessagingError>)
      modifies this
      ensures Answers(old(Snapshot()), Snapshot(), r, Execute(old(Snapshot()), MarkUncertain(token, event)))
    {
      if attempt.token != Some(token) {
        return Err(InvalidMessage);
      }
      var savepoint := Snapshot();
      DropLease();
      attempt := attempt.(status := AttemptStatus.Uncertain, version := attempt.version + 1);
      var from := message.status;
      message := message.(status := Status.Uncertain, version := message.version + 1);
      Log(from, OutboxEvent(event));
      r := Save(savepoint);
    }

    method RecordFailure(token: nat, event: nat, now: int) returns (r: Result<(), MessagingError>)
      modifies this
      ensures Answers(old(Snapshot()), Snapshot(), r, Execute(old(Snapshot()), MarkFailed(token, event, now)))
    {
      if attempt.token != Some(token) {
        return Err(InvalidMessage);
      }
      var savepoint := Snapshot();
      DropLease();
      attempt := attempt.(status := AttemptStatus.Failed, version := attempt.version + 1);
      var from := message.status;
      message := message.(status := Status.Failed, failedAt := Some(now), version := message.version + 1);
      Log(from, OutboxEvent(event));
      r := Save(savepoint);
    }

    // --- commands and callbacks ---

    method CancelMessage(manager: bool, version: nat, key: string, now: int) returns (r: Result<(), MessagingError>)
      modifies this
      ensures Answers(old(Snapshot()), Snapshot(), r, Execute(old(Snapshot()), Cancel(manager, version, key, now)))
    {
      if !manager {
        return Err(PermissionDenied);
      }
      if message.version != version {
        return Err(VersionConflict);
      }
      if message.status !in {Pending, Queued} {
        return Err(InvalidMessage);
      }
      var savepoint := Snapshot();
      if attempt.status == Requested {
        attempt := attempt.(status := AttemptStatus.Cancelled, version := attempt.version + 1);
        DropLease();
      }
      var from := message.status;
      message := message.(status := Status.Cancelled, cancelledAt := Some(now), version := message.version + 1);
      Log(from, Client(key));
      assert CancelBody(savepoint, manager, version, key, now) == Ok(Snapshot());
      r := Save(savepoint);
    }

    method CanonicalEvidence(target: Status, command: CommandId, now: int)
      requires target in {Sent, Status.Delivered, Status.Failed}
      modifies this`message, this`attempt, this`history
      ensures Snapshot() == ApplyEvidence(old(Snapshot()), target, command, now)
    {
      if Final(message.status) || target == message.status {
        return;
      }
      var from := message.status;
      message := message.(status := target);
      if target == Status.Delivered {
        attempt := attempt.(status := AttemptStatus.Delivered);
        message := message.(deliveredAt := Some(now));
      } else if target == Status.Failed {
        attempt := attempt.(status := AttemptStatus.Failed);
        message := message.(failedAt := Some(now));
      } else {
        attempt := attempt.(status := Accepted);
      }
      message := message.(version := message.version + 1);
      attempt := attempt.(version := attempt.version + 1);
      Log(from, command);
    }

    method HearDelivery(enabled: bool, externalId: string, request: string, word: string, now: int)
      returns (r: Result<(), MessagingError>)
      modifies this
      ensures Answers(old(Snapshot()), Snapshot(), r,
                      Execute(old(Snapshot()), Callback(enabled, externalId, request, word, now)))
    {
      if externalId == "" {
        return Err(CallbackRejected);
      }
      if !enabled {
        return Err(InvalidMessage);
      }
      var savepoint := Snapshot();
      if (externalId, request) !in callbackReceipts {
        var target := MapDeliveryStatus(provider, word);
        if target.None? {
          return Err(UnknownDeliveryStatus);
        }
        if attempt.externalId != externalId {
          return Err(OrganizationMismatch);
        }
        CanonicalEvidence(target.value, CallbackRequest(externalId, request), now);
        if target.value == Status.Failed && word in HARD_FEEDBACK {
          Decide(false, now);
        }
        callbackReceipts := callbackReceipts + {(externalId, request)};
      }
      r := Save(savepoint);
    }

    method ReconcileUncertain(
      manager: bool, version: nat, word: string, key: string, now: int) returns (r: Result<(), MessagingError>)
      modifies this
      ensures Answers(old(Snapshot()), Snapshot(), r,
                      Execute(old(Snapshot()), Reconcile(manager, version, word, key, now)))
    {
      if !manager {
        return Err(PermissionDenied);
      }
      if message.status != Status.Uncertain || attempt.externalId == "" {
        return Err(InvalidMessage);
      }
      var target := MapDeliveryStatus(provider, word);
      if target.None? {
        return Err(UnknownDeliveryStatus);
      }
      if message.version != version {
        return Err(VersionConflict);
      }
      var savepoint := Snapshot();
      CanonicalEvidence(target.value, Client(key), now);
      r := Save(savepoint);
    }

    // Whatever was in force is switched off before the new decision is added.
    method Decide(allowed: bool, now: int)
      modifies this`preferences
      ensures preferences == Recorded(old(preferences), allowed, now)
    {
      preferences := Deactivated(preferences);
      preferences := preferences + [Preference(allowed, now, true)];
    }

    method RecordDecision(manager: bool, allowed: bool, now: int) returns (r: Result<(), MessagingError>)
      modifies this
      ensures Answers(old(Snapshot()), Snapshot(), r, Execute(old(Snapshot()), RecordPreference(manager, allowed, now)))
    {
      if !manager {
        return Err(PermissionDenied);
      }
      var savepoint := Snapshot();
      Decide(allowed, now);
      r := Save(savepoint);
    }

    // --- one dispatch, from claim to record ---

    // The protocol's events for one worker that nobody interrupts.  Events that
    // do not apply to the worker's phase do nothing.
    static function Script(matches: bool, world: World, answer: D.Answer, event: nat, now: int): seq<D.Event> {
      [D.Claims(0, now),
       if matches then D.Authorises(0, world, now) else D.FindsMismatch(0),
       D.Sends(0, answer), D.Settles(0, event, now), D.Settles(0, event, now)]
    }

    static lemma ScriptUnfolds(system: D.System, script: seq<D.Event>)
      requires |script| == 5
      ensures D.Run(system, script) ==
              D.React(D.React(D.React(D.React(D.React(system, script[0]), script[1]), script[2]), script[3]), script[4])
    {
      assert script[..0] == [] && script[..5] == script;
      D.AtNext(system, script, 0);
      D.AtNext(system, script, 1);
      D.AtNext(system, script, 2);
      D.AtNext(system, script, 3);
      D.AtNext(system, script, 4);
    }

    // Record what the provider answered; if that raises, fall back to uncertain.
    method RecordAnswer(ghost system: D.System, token: nat, answer: D.Answer, event: nat, now: int)
      requires system.post == Snapshot() && D.PhaseOf(system, 0) == D.Answered(token, answer)
      modifies this
      ensures Snapshot() == D.SettleEvent(D.SettleEvent(system, 0, event, now), 0, event, now).post
    {
      match answer {
        case Accepted(externalId) =>
          var r := AcceptSend(token, externalId, event, now);
          if r.Err? {
            r := RecordUncertain(token, event);
          }
        case Rejected =>
          var r := RecordFailure(token, event, now);
          if r.Err? {
            r := RecordUncertain(token, event);
          }
        case Lost =>
          var r := RecordUncertain(token, event);
        case Blocked =>
          var r := ReleaseDispatch(token, true, now);
      }
    }

    // From the claimed lease on.
    method Proceed(
      ghost system: D.System, token: nat, matches: bool, world: World, answer: D.Answer, event: nat, now: int)
      requires system.post == Snapshot() && D.PhaseOf(system, 0) == D.Holding(token)
      modifies this
      ensures var script := Script(matches, world, answer, event, now);
              Snapshot() == D.React(D.React(D.React(D.React(system, script[1]), script[2]), script[3]), script[4]).post
    {
      if !matches {
        var released := ReleaseDispatch(token, true, now);
        return;
      }
      var r := PrepareSend(token, world, now);
      if r.Ok? {
        RecordAnswer(D.SendEvent(D.AuthoriseEvent(system, 0, world, now), 0, answer), token, answer, event, now);
      } else if DomainError(r.error) {
        r := RecordFailure(token, event, now);
      }
    }

    // dispatch_message with its exception handlers; answer is what the adapter
    // does if it is called.
    method DispatchMessage(matches: bool, world: World, answer: D.Answer, event: nat, now: int)
      modifies this
      ensures Snapshot() ==
              D.Run(D.System(old(Snapshot()), map[], 0), Script(matches, world, answer, event, now)).post
    {
      ghost var system := D.System(Snapshot(), map[], 0);
      ScriptUnfolds(system, Script(matches, world, answer, event, now));
      var r := ClaimDispatch(now);
      if r.Ok? && message.status != Status.Uncertain && attempt.token.Some? {
        Proceed(D.ClaimEvent(system, 0, now), attempt.token.value, matches, world, answer, event, now);
      }
    }
  }
}

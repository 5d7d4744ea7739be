// Exactly when each messaging step commits, and everything it leaves behind.
module MessageCommands {
  import opened Common
  import opened Messaging
  import opened MessageRow

  lemma AppendedOnce(post: Post, after: Post)
    requires HistoryUnique(post.history)
    requires |after.history| == |post.history| + 1 && after.history[..|post.history|] == post.history
    ensures HistoryUnique(after.history) <==> !Logged(post, after.history[|post.history|].command)
  {
    assert forall k :: 0 <= k < |post.history| ==> after.history[k] == post.history[k];
    if Logged(post, after.history[|post.history|].command) {
      var i :| 0 <= i < |post.history| && post.history[i].command == after.history[|post.history|].command;
      assert after.history[i].command == after.history[|post.history|].command;
    }
  }

  // The message reaches a status, its attempt follows, and one entry says so.
  function Reached(post: Post, message: Message, attempt: Attempt, before: Status, command: CommandId): Post {
    post.(message := message.(version := post.message.version + 1),
          attempt := attempt,
          history := post.history + [Entry(Some(before), message.status, command)])
  }

  // The attempt in a new status, its lease given back.
  function Settled(post: Post, status: AttemptStatus): Attempt {
    post.attempt.(status := status, token := None, leaseExpires := None, availableAt := None,
                  version := post.attempt.version + 1)
  }

  // --- the worker ---

  predicate Due(attempt: Attempt, now: int) {
    && (attempt.availableAt.Some? ==> attempt.availableAt.value <= now)
    && (attempt.leaseExpires.Some? ==> attempt.leaseExpires.value <= now)
  }

  lemma ClaimIsLoggedOnce(post: Post, now: int)
    requires RowInv(post) && ClaimBody(post, now).Ok?
    ensures var command := if post.message.status == Status.Sending then LostMark
                           else Dispatch(post.attempt.dispatches + 1);
            Execute(post, Claim(now)).Ok? <==> !Logged(post, command)
  {
    AppendedOnce(post, ClaimBody(post, now).value);
  }

  // A message nobody is serving can be claimed, whether it waited or its last
  // lease ran out.
  lemma ClaimedExactly(post: Post, now: int)
    requires RowInv(post)
    ensures var command := if post.message.status == Status.Sending then LostMark
                           else Dispatch(post.attempt.dispatches + 1);
            Execute(post, Claim(now)).Ok? <==>
            && post.message.status in {Pending, Queued, Status.Sending}
            && Due(post.attempt, now)
            && !Logged(post, command)
  {
    if ClaimBody(post, now).Ok? {
      ClaimIsLoggedOnce(post, now);
    }
  }

  // The claim leases it for ninety seconds under a fresh token; a send whose
  // lease ran out is given up instead.
  lemma ClaimLeaves(post: Post, now: int)
    requires RowInv(post) && Execute(post, Claim(now)).Ok?
    ensures var number := post.attempt.dispatches + 1;
            Execute(post, Claim(now)) ==
            Ok(if post.message.status == Status.Sending then
                 Reached(post, post.message.(status := Status.Uncertain), Settled(post, AttemptStatus.Uncertain),
                         Status.Sending, LostMark)
               else
                 Reached(post, post.message.(status := Queued),
                         post.attempt.(token := Some(post.nextToken), leaseExpires := Some(now + 90),
                                       availableAt := None, dispatches := number),
                         Pending, Dispatch(number)).(nextToken := post.nextToken + 1))
  {
  }

  // Only the holder gives a lease back, once; the message waits again, for the
  // back-off when the dispatch failed.
  lemma ReleasedExactly(post: Post, token: nat, failed: bool, now: int)
    requires RowInv(post)
    ensures var r := Execute(post, Release(token, failed, now));
            if post.attempt.token != Some(token) then r == Ok(post)
            else if Logged(post, ReleaseMark) then r == Err(IntegrityViolation)
            else
              r == Ok(Reached(post, post.message.(status := Pending),
                              post.attempt.(
                                status := Requested, token := None, leaseExpires := None,
                                availableAt := if failed then Some(now + Backoff(post.attempt.dispatches)) else None,
                                version := if post.message.status == Status.Sending then post.attempt.version + 1
                                           else post.attempt.version),
                              post.message.status, ReleaseMark))
  {
    var body := ReleaseBody(post, token, failed, now);
    if post.attempt.token == Some(token) {
      AppendedOnce(post, body.value);
    }
  }

  // The holder of a send under way records the provider's identifier, unless
  // the channel already has it.
  lemma AcceptedExactly(post: Post, token: nat, externalId: string, event: nat, now: int)
    requires RowInv(post)
    ensures var r := Execute(post, Accept(token, externalId, event, now));
            && (r.Ok? <==>
                  && externalId != ""
                  && post.attempt.token == Some(token)
                  && post.message.status == Status.Sending
                  && externalId !in post.takenIds
                  && !Logged(post, OutboxEvent(event)))
            && (r.Ok? ==>
                  r.value == Reached(post, post.message.(status := Sent, sentAt := Some(now)),
                                     Settled(post, Accepted).(externalId := externalId), Status.Sending,
                                     OutboxEvent(event)))
            && (r.Err? && !Logged(post, OutboxEvent(event)) ==> r == Err(InvalidMessage))
  {
    var body := AcceptBody(post, token, externalId, event, now);
    if body.Ok? {
      AppendedOnce(post, body.value);
    }
  }

  lemma UncertainExactly(post: Post, token: nat, event: nat)
    requires RowInv(post)
    ensures var r := Execute(post, MarkUncertain(token, event));
            && (r.Ok? <==> post.attempt.token == Some(token) && !Logged(post, OutboxEvent(event)))
            && (r.Ok? ==>
                  r.value == Reached(post, post.message.(status := Status.Uncertain),
                                     Settled(post, AttemptStatus.Uncertain), post.message.status, OutboxEvent(event)))
  {
    var body := MarkUncertainBody(post, token, event);
    if body.Ok? {
      AppendedOnce(post, body.value);
    }
  }

  lemma FailedExactly(post: Post, token: nat, event: nat, now: int)
    requires RowInv(post)
    ensures var r := Execute(post, MarkFailed(token, event, now));
            && (r.Ok? <==> post.attempt.token == Some(token) && !Logged(post, OutboxEvent(event)))
            && (r.Ok? ==>
                  r.value == Reached(post, post.message.(status := Status.Failed, failedAt := Some(now)),
                                     Settled(post, AttemptStatus.Failed), post.message.status, OutboxEvent(event)))
  {
    var body := MarkFailedBody(post, token, event, now);
    if body.Ok? {
      AppendedOnce(post, body.value);
    }
  }

  // A manager cancels what was not handed to the provider yet; a lease on it
  // ends there.
  lemma CancelledExactly(post: Post, manager: bool, version: nat, key: string, now: int)
    requires RowInv(post)
    ensures var r := Execute(post, Cancel(manager, version, key, now));
            && (r.Ok? <==>
                  && manager
                  && post.message.version == version
                  && post.message.status in {Pending, Queued}
                  && !Logged(post, Client(key)))
            && (r.Ok? ==>
                  r.value == Reached(post, post.message.(status := Status.Cancelled, cancelledAt := Some(now)),
                                     Settled(post, AttemptStatus.Cancelled), post.message.status, Client(key)))
  {
    var body := CancelBody(post, manager, version, key, now);
    if body.Ok? {
      AppendedOnce(post, body.value);
    }
  }

  // --- delivery feedback, word by word ---

  predicate Reports(provider: Provider, word: string, status: Status) {
    match status
    case Sent => provider != Ses && word == "sent"
    case Delivered => word == "delivered" || (provider != Ses && word == "read")
    case Failed => if provider == Ses then word == "bounce" || word == "complaint" || word == "reject"
                   else word == "failed"
    case _ => false
  }

  // Feedback after which the address may not be written to again.
  predicate Suppresses(provider: Provider, word: string) {
    provider == Ses && (word == "bounce" || word == "complaint" || word == "reject")
  }

  lemma ReportsAreTheTables(provider: Provider, word: string)
    ensures forall status :: Reports(provider, word, status) <==> MapDeliveryStatus(provider, word) == Some(status)
    ensures Suppresses(provider, word) <==>
            MapDeliveryStatus(provider, word) == Some(Status.Failed) && word in HARD_FEEDBACK
  {
  }

  // The callback is let in, is about this message, and was not heard before.
  predicate Heard(post: Post, enabled: bool, externalId: string, request: string) {
    enabled && externalId != "" && post.attempt.externalId == externalId
      && (externalId, request) !in post.callbackReceipts
  }

  // What the provider is believed: nothing about a message whose outcome is
  // recorded, nothing it said before.
  function Told(post: Post, status: Status, command: CommandId, now: int): Post {
    if post.message.status in {Status.Delivered, Status.Failed, Status.Cancelled, status} then post
    else
      Reached(post,
              post.message.(
                status := status,
                deliveredAt := if status == Status.Delivered then Some(now) else post.message.deliveredAt,
                failedAt := if status == Status.Failed then Some(now) else post.message.failedAt),
              post.attempt.(status := Mirror(status), version := post.attempt.version + 1),
              post.message.status, command)
  }

  // The consent after the feedback: a bounce, a complaint or a rejection by the
  // mail provider replaces what was in force by a refusal, nothing else touches it.
  ghost predicate Suppressed(before: seq<Preference>, after: seq<Preference>, now: int) {
    && |after| == |before| + 1
    && after[|before|] == Preference(false, now, true)
    && forall i :: 0 <= i < |before| ==> after[i] == before[i].(active := false)
  }

  lemma EvidenceIsTold(post: Post, said: Status, command: CommandId, now: int)
    requires RowInv(post) && said in {Sent, Status.Delivered, Status.Failed}
    ensures ApplyEvidence(post, said, command, now) == Told(post, said, command, now)
  {
  }

  lemma FeedbackCommits(post: Post, enabled: bool, externalId: string, request: string, word: string, now: int)
    requires RowInv(post) && Heard(post, enabled, externalId, request)
    ensures Execute(post, Callback(enabled, externalId, request, word, now)) ==
            CallbackBody(post, enabled, externalId, request, word, now)
  {
    var body := CallbackBody(post, enabled, externalId, request, word, now);
    assert !Logged(post, CallbackRequest(externalId, request));
    if body.Ok? && body.value.history != post.history {
      AppendedOnce(post, body.value);
    }
  }

  // A callback takes the message where its word says and keeps its receipt.
  lemma FeedbackLeaves(
    post: Post, enabled: bool, externalId: string, request: string, word: string, said: Status, now: int)
    requires RowInv(post) && Heard(post, enabled, externalId, request)
    requires Reports(post.provider, word, said)
    ensures var r := Execute(post, Callback(enabled, externalId, request, word, now));
            && r.Ok?
            && r.value == Told(post, said, CallbackRequest(externalId, request), now).(
                          preferences := r.value.preferences,
                          callbackReceipts := post.callbackReceipts + {(externalId, request)})
            && (if Suppresses(post.provider, word) then Suppressed(post.preferences, r.value.preferences, now)
                else r.value.preferences == post.preferences)
  {
    ReportsAreTheTables(post.provider, word);
    EvidenceIsTold(post, said, CallbackRequest(externalId, request), now);
    FeedbackCommits(post, enabled, externalId, request, word, now);
  }

  // A callback commits exactly when it is let in and repeats a request already
  // heard or brings a known word about this message; a repetition changes nothing.
  lemma FeedbackIsHeardExactly(
    post: Post, enabled: bool, externalId: string, request: string, word: string, now: int)
    requires RowInv(post)
    ensures var r := Execute(post, Callback(enabled, externalId, request, word, now));
            var before := (externalId, request) in post.callbackReceipts;
            && (r.Ok? <==>
                  && enabled && externalId != ""
                  && (before || (post.attempt.externalId == externalId
                                 && exists said :: Reports(post.provider, word, said))))
            && (r.Ok? && before ==> r.value == post)
  {
    ReportsAreTheTables(post.provider, word);
    var mapped := MapDeliveryStatus(post.provider, word);
    if Heard(post, enabled, externalId, request) && mapped.Some? {
      assert Reports(post.provider, word, mapped.value);
      FeedbackLeaves(post, enabled, externalId, request, word, mapped.value, now);
    }
  }

  // The address that bounced cannot be written to: whatever the other tables
  // say, nobody can create a message to it until consent is given again.
  lemma SuppressedAddressIsRefused(
    preferences: seq<Preference>, provider: Provider, taken: set<string>, member: bool, world: World, key: string,
    now: int)
    requires OneInForce(preferences) && preferences != [] && preferences[|preferences| - 1].active
    requires !preferences[|preferences| - 1].allowed
    ensures Create(provider, preferences, taken, member, world, key, now).Err?
  {
    CreatedExactly(provider, preferences, taken, member, world, key, now);
    var last := |preferences| - 1;
    forall p | 0 <= p < |preferences|
      ensures !Permits(preferences, p, now)
    {
      assert preferences[last].active;
    }
  }

  // --- consent ---

  // A decision switches the one in force off and becomes the one in force.
  lemma DecisionLeaves(post: Post, manager: bool, allowed: bool, now: int)
    requires RowInv(post)
    ensures var r := Execute(post, RecordPreference(manager, allowed, now));
            && (r.Ok? <==> manager)
            && (r.Ok? ==>
                  && r.value == post.(preferences := r.value.preferences)
                  && |r.value.preferences| == |post.preferences| + 1
                  && r.value.preferences[|post.preferences|] == Preference(allowed, now, true)
                  && forall i :: 0 <= i < |post.preferences| ==>
                       r.value.preferences[i] == post.preferences[i].(active := false))
  {
  }

  // --- refusals ---

  // What the named error says is wrong with the step.
  ghost predicate Explains(post: Post, step: Step, error: MessagingError) {
    match error
    case PermissionDenied => (step.Cancel? || step.Reconcile? || step.RecordPreference?) && !step.manager
    case VersionConflict => (step.Cancel? || step.Reconcile?) && step.version != post.message.version
    case CallbackRejected => step.Callback? && step.externalId == ""
    case UnknownDeliveryStatus =>
      (step.Callback? || step.Reconcile?) && forall said :: !Reports(post.provider, step.word, said)
    case OrganizationMismatch => step.Callback? && post.attempt.externalId != step.externalId
    case RowMissing => step.Prepare? && step.world.contactOwner != post.message.customer
    case InvalidMessage => (step.Cancel? || step.Reconcile? || step.RecordPreference?) ==> step.manager
    case IntegrityViolation =>
      || (Body(post, step).Ok? && !HistoryUnique(Body(post, step).value.history))
      || (step.TakeId? && step.externalId == post.attempt.externalId)
  }

  // A refusal names something that is wrong.
  lemma RefusalIsTruthful(post: Post, step: Step)
    requires RowInv(post) && Execute(post, step).Err?
    ensures Explains(post, step, Execute(post, step).error)
  {
    if step.Callback? || step.Reconcile? {
      ReportsAreTheTables(post.provider, step.word);
    }
  }
}

// One outbound message with its single delivery attempt, its status history and
// the consent records of its contact, channel and purpose.
//
// Each service function is one transaction.  Execute gives its meaning: the
// function's own checks and writes (the Body functions), then the database
// constraints (Commit), which roll the whole step back.
module Messaging {
  import opened Common

  datatype Status = Pending | Queued | Sending | Sent | Delivered | Failed | Cancelled | Uncertain

  datatype AttemptStatus = Requested | Sending | Accepted | Delivered | Failed | Cancelled | Uncertain

  datatype Provider = Evolution | WhatsAppCloud | Ses

  // customer .. evidence are the snapshot taken when the message was created;
  // evidence is the consent record that permitted it.
  datatype Message = Message(
    status: Status,
    version: nat,
    customer: nat,
    sourceVersion: nat,
    destination: string,
    templateVersion: nat,
    evidence: nat,
    sentAt: Option<int>,
    deliveredAt: Option<int>,
    failedAt: Option<int>,
    cancelledAt: Option<int>)

  datatype Attempt = Attempt(
    status: AttemptStatus,
    token: Option<nat>,
    leaseExpires: Option<int>,
    availableAt: Option<int>,
    dispatches: nat,
    externalId: string,
    version: nat)

  // The command_id column.  SendingMark, ReleaseMark and LostMark carry no
  // counter in the program, so each can be written once per attempt.
  datatype CommandId =
    | Client(key: string)
    | Dispatch(number: nat)
    | SendingMark
    | ReleaseMark
    | LostMark
    | OutboxEvent(event: nat)
    | CallbackRequest(externalId: string, request: string)

  datatype Entry = Entry(before: Option<Status>, after: Status, command: CommandId)

  datatype Preference = Preference(allowed: bool, effectiveAt: int, active: bool)

  datatype Post = Post(
    provider: Provider,
    message: Message,
    attempt: Attempt,
    history: seq<Entry>,
    preferences: seq<Preference>,
    takenIds: set<string>,
    callbackReceipts: set<(string, string)>,
    nextToken: nat)

  // What the other tables say at the moment a transaction reads them under lock.
  datatype World = World(
    sourceFits: bool,
    sourceCustomer: nat,
    sourceVersion: nat,
    customerActive: bool,
    customerMerged: bool,
    contactOwner: nat,
    contactValue: string,
    contactActive: bool,
    contactFits: bool,
    templateVersion: nat,
    templateUsable: bool,
    channelUsable: bool,
    renderable: bool)

  datatype MessagingError =
    | PermissionDenied
    | InvalidMessage
    | OrganizationMismatch
    | VersionConflict
    | UnknownDeliveryStatus
    | CallbackRejected
    | RowMissing
    | IntegrityViolation

  // The exceptions a dispatch worker catches as refusals; the others escape it.
  predicate DomainError(error: MessagingError) {
    !error.RowMissing? && !error.IntegrityViolation?
  }

  type Outcome = Result<Post, MessagingError>

  datatype Step =
    | Claim(now: int)
    | Release(token: nat, failed: bool, now: int)
    | Prepare(token: nat, world: World, now: int)
    | Accept(token: nat, externalId: string, event: nat, now: int)
    | MarkUncertain(token: nat, event: nat)
    | MarkFailed(token: nat, event: nat, now: int)
    | Cancel(manager: bool, version: nat, key: string, now: int)
    | Callback(enabled: bool, externalId: string, request: string, word: string, now: int)
    | Reconcile(manager: bool, version: nat, word: string, key: string, now: int)
    | RecordPreference(manager: bool, allowed: bool, now: int)
    | HardFeedbackElsewhere(now: int)
    | TakeId(externalId: string)

  const LEASE_SECONDS := 90

  // --- consent ---

  function Deactivated(preferences: seq<Preference>): (r: seq<Preference>)
    ensures |r| == |preferences|
    ensures forall i :: 0 <= i < |r| ==> !r[i].active
  {
    seq(|preferences|, i requires 0 <= i < |preferences| => preferences[i].(active := false))
  }

  // A new decision replaces whatever was in force.
  function Recorded(preferences: seq<Preference>, allowed: bool, now: int): seq<Preference> {
    Deactivated(preferences) + [Preference(allowed, now, true)]
  }

  // Latest effective first, then latest created.
  function InForce(preferences: seq<Preference>): (found: Option<nat>)
    ensures found.None? ==> forall i :: 0 <= i < |preferences| ==> !preferences[i].active
    ensures found.Some? ==>
              && found.value < |preferences|
              && preferences[found.value].active
              && (forall i :: 0 <= i < |preferences| && preferences[i].active ==>
                    preferences[i].effectiveAt <= preferences[found.value].effectiveAt)
              && (forall i :: found.value < i < |preferences| && preferences[i].active ==>
                    preferences[i].effectiveAt < preferences[found.value].effectiveAt)
  {
    if preferences == [] then None
    else
      var last := |preferences| - 1;
      var earlier := InForce(preferences[..last]);
      if !preferences[last].active then earlier
      else if earlier.Some? && preferences[last].effectiveAt < preferences[earlier.value].effectiveAt then earlier
      else Some(last)
  }

  function ResolvePermission(
    customer: nat, world: World, preferences: seq<Preference>, now: int): Result<nat, MessagingError> {
    if !world.customerActive || world.customerMerged then Err(InvalidMessage)
    else if world.contactOwner != customer then Err(OrganizationMismatch)
    else if !world.contactActive || !world.contactFits then Err(InvalidMessage)
    else
      match InForce(preferences)
      case None => Err(InvalidMessage)
      case Some(p) =>
        if !preferences[p].allowed then Err(InvalidMessage)
        else if now < preferences[p].effectiveAt then Err(InvalidMessage)
        else Ok(p)
  }

  // Everything that may have changed since the message was created, checked
  // again immediately before the provider is called.
  function Revalidate(
    message: Message, world: World, preferences: seq<Preference>, now: int): Result<(), MessagingError> {
    if !world.sourceFits then Err(InvalidMessage)
    else if world.sourceCustomer != message.customer then Err(InvalidMessage)
    else if world.sourceVersion != message.sourceVersion then Err(InvalidMessage)
    else if !world.customerActive || world.customerMerged then Err(InvalidMessage)
    else if world.contactOwner != message.customer then Err(OrganizationMismatch)
    else if world.contactValue != message.destination then Err(InvalidMessage)
    else
      match ResolvePermission(message.customer, world, preferences, now)
      case Err(error) => Err(error)
      case Ok(permission) =>
        if permission != message.evidence then Err(InvalidMessage)
        else if world.templateVersion != message.templateVersion || !world.templateUsable then Err(InvalidMessage)
        else if !world.channelUsable then Err(InvalidMessage)
        else if !world.renderable then Err(InvalidMessage)
        else Ok(())
  }

  // --- creation ---

  function Create(
    provider: Provider, preferences: seq<Preference>, taken: set<string>, member: bool, world: World, key: string,
    now: int): Outcome {
    if !member then Err(PermissionDenied)
    else if !world.sourceFits then Err(InvalidMessage)
    else
      match ResolvePermission(world.sourceCustomer, world, preferences, now)
      case Err(error) => Err(error)
      case Ok(permission) =>
        if !world.templateUsable || !world.channelUsable || !world.renderable then Err(InvalidMessage)
        else
          Ok(Post(
               provider,
               Message(Pending, 1, world.sourceCustomer, world.sourceVersion, world.contactValue, world.templateVersion,
                       permission, None, None, None, None),
               Attempt(Requested, None, None, None, 0, "", 1),
               [Entry(None, Pending, Client(key))],
               preferences, taken, {}, 0))
  }

  // --- database constraints ---

  predicate MessageRowValid(m: Message) {
    && 1 <= m.version
    && (m.status == Sent ==> m.sentAt.Some?)
    && (m.status == Status.Delivered ==> m.deliveredAt.Some?)
    && (m.status == Status.Failed ==> m.failedAt.Some?)
    && (m.status == Status.Cancelled ==> m.cancelledAt.Some?)
  }

  predicate AttemptRowValid(a: Attempt, takenIds: set<string>) {
    && 1 <= a.version
    && (a.token.Some? <==> a.leaseExpires.Some?)
    && (a.externalId == "" || a.externalId !in takenIds)
  }

  predicate HistoryUnique(history: seq<Entry>) {
    forall i, j :: 0 <= i < j < |history| ==> history[i].command != history[j].command
  }

  predicate Constraints(post: Post) {
    && MessageRowValid(post.message)
    && AttemptRowValid(post.attempt, post.takenIds)
    && HistoryUnique(post.history)
  }

  // An acceptance whose identifier is already taken is reported as a domain error.
  function Commit(step: Step, body: Outcome): Outcome {
    if body.Err? || Constraints(body.value) then body
    else if step.Accept? && !AttemptRowValid(body.value.attempt, body.value.takenIds) then Err(InvalidMessage)
    else Err(IntegrityViolation)
  }

  // --- the service functions ---

  function Unleased(attempt: Attempt, availableAt: Option<int>): Attempt {
    attempt.(token := None, leaseExpires := None, availableAt := availableAt)
  }

  // A message changes status, its version and its history together.
  function Moved(post: Post, message: Message, attempt: Attempt, before: Status, command: CommandId): Post {
    post.(
    message := message.(version := message.version + 1),
    attempt := attempt,
    history := post.history + [Entry(Some(before), message.status, command)])
  }

  // A send that started and whose lease ran out is never handed out again.
  function ClaimBody(post: Post, now: int): Outcome {
    var message := post.message;
    var attempt := post.attempt;
    if attempt.status != Requested && attempt.status != AttemptStatus.Sending then Err(InvalidMessage)
    else if Waiting(attempt.availableAt, now) || Waiting(attempt.leaseExpires, now) then Err(InvalidMessage)
    else if attempt.status == AttemptStatus.Sending then
      Ok(Moved(post, message.(status := Status.Uncertain),
               Unleased(attempt, None).(status := AttemptStatus.Uncertain, version := attempt.version + 1),
               message.status, LostMark))
    else if message.status != Pending && message.status != Queued then Err(InvalidMessage)
    else
      var attempt' := attempt.(
                      token := Some(post.nextToken), leaseExpires := Some(now + LEASE_SECONDS),
                      dispatches := attempt.dispatches + 1, availableAt := None);
      Ok(Moved(post, message.(status := Queued), attempt', Pending,
               Dispatch(attempt'.dispatches)).(nextToken := post.nextToken + 1))
  }

  function ReleaseBody(post: Post, token: nat, failed: bool, now: int): Outcome {
    if post.attempt.token != Some(token) then Ok(post)
    else
      var message := post.message;
      var sending := post.attempt.status == AttemptStatus.Sending;
      var attempt := Unleased(post.attempt, if failed then Some(now + Backoff(post.attempt.dispatches)) else None).(
                     status := if sending then Requested else post.attempt.status,
                     version := if sending then post.attempt.version + 1 else post.attempt.version);
      if message.status == Queued || message.status == Status.Sending then
        Ok(Moved(post, message.(status := Pending), attempt, message.status, ReleaseMark))
      else Ok(post.(attempt := attempt))
  }

  function PrepareBody(post: Post, token: nat, world: World, now: int): Outcome {
    if post.attempt.token != Some(token) then Err(InvalidMessage)
    else if post.message.status != Queued || post.attempt.status != Requested then Err(InvalidMessage)
    else if world.contactOwner != post.message.customer then Err(RowMissing)
    else
      var checked := Revalidate(post.message, world, post.preferences, now);
      if checked.Err? then Err(checked.error)
      else
        Ok(Moved(post, post.message.(status := Status.Sending),
                 post.attempt.(status := AttemptStatus.Sending, version := post.attempt.version + 1),
                 Queued, SendingMark))
  }

  function AcceptBody(post: Post, token: nat, externalId: string, event: nat, now: int): Outcome {
    if externalId == "" then Err(InvalidMessage)
    else if post.attempt.token != Some(token) then Err(InvalidMessage)
    else if post.message.status != Status.Sending then Err(InvalidMessage)
    else
      Ok(Moved(post, post.message.(status := Sent, sentAt := Some(now)),
               Unleased(post.attempt, None).(
               externalId := externalId, status := Accepted, version := post.attempt.version + 1),
               Status.Sending, OutboxEvent(event)))
  }

  function MarkUncertainBody(post: Post, token: nat, event: nat): Outcome {
    if post.attempt.token != Some(token) then Err(InvalidMessage)
    else
      Ok(Moved(post, post.message.(status := Status.Uncertain),
               Unleased(post.attempt, None).(status := AttemptStatus.Uncertain, version := post.attempt.version + 1),
               post.message.status, OutboxEvent(event)))
  }

  function MarkFailedBody(post: Post, token: nat, event: nat, now: int): Outcome {
    if post.attempt.token != Some(token) then Err(InvalidMessage)
    else
      Ok(Moved(post, post.message.(status := Status.Failed, failedAt := Some(now)),
               Unleased(post.attempt, None).(status := AttemptStatus.Failed, version := post.attempt.version + 1),
               post.message.status, OutboxEvent(event)))
  }

  function CancelBody(post: Post, manager: bool, version: nat, key: string, now: int): Outcome {
    if !manager then Err(PermissionDenied)
    else if post.message.version != version then Err(VersionConflict)
    else if post.message.status != Pending && post.message.status != Queued then Err(InvalidMessage)
    else
      var attempt :=
        if post.attempt.status != Requested then post.attempt
        else Unleased(post.attempt, None).(status := AttemptStatus.Cancelled, version := post.attempt.version + 1);
      Ok(Moved(post, post.message.(status := Status.Cancelled, cancelledAt := Some(now)), attempt, post.message.status,
               Client(key)))
  }

  // --- provider evidence ---

  const CHAT_STATUSES: map<string, Status> := map[
    "sent" := Sent, "delivered" := Status.Delivered, "read" := Status.Delivered, "failed" := Status.Failed]

  const EMAIL_STATUSES: map<string, Status> := map[
    "delivered" := Status.Delivered, "bounce" := Status.Failed, "complaint" := Status.Failed, "reject" := Status.Failed]

  const HARD_FEEDBACK: set<string> := {"bounce", "complaint", "reject"}

  function MapDeliveryStatus(provider: Provider, word: string): (target: Option<Status>)
    ensures target.Some? ==> target.value in {Sent, Status.Delivered, Status.Failed}
  {
    var table := if provider == Ses then EMAIL_STATUSES else CHAT_STATUSES;
    if word in table then Some(table[word]) else None
  }

  predicate Final(status: Status) {
    status == Status.Delivered || status == Status.Failed || status == Status.Cancelled
  }

  function Evidenced(status: AttemptStatus, target: Status): AttemptStatus {
    match target
    case Sent => Accepted
    case Delivered => AttemptStatus.Delivered
    case Failed => AttemptStatus.Failed
    case _ => status
  }

  function ApplyEvidence(post: Post, target: Status, command: CommandId, now: int): Post {
    var message := post.message;
    if Final(message.status) || target == message.status then post
    else
      var message' := message.(
                      status := target,
                      deliveredAt := if target == Status.Delivered then Some(now) else message.deliveredAt,
                      failedAt := if target == Status.Failed then Some(now) else message.failedAt);
      Moved(post, message',
            post.attempt.(status := Evidenced(post.attempt.status, target), version := post.attempt.version + 1),
            message.status, command)
  }

  function CallbackBody(
    post: Post, enabled: bool, externalId: string, request: string, word: string, now: int): Outcome {
    if externalId == "" then Err(CallbackRejected)
    else if !enabled then Err(InvalidMessage)
    else if (externalId, request) in post.callbackReceipts then Ok(post)
    else
      match MapDeliveryStatus(post.provider, word)
      case None => Err(UnknownDeliveryStatus)
      case Some(target) =>
        if post.attempt.externalId != externalId then Err(OrganizationMismatch)
        else
          var heard := ApplyEvidence(post, target, CallbackRequest(externalId, request), now);
          var preferences :=
            if target == Status.Failed && word in HARD_FEEDBACK then Recorded(heard.preferences, false, now)
            else heard.preferences;
          Ok(heard.(preferences := preferences, callbackReceipts := heard.callbackReceipts + {(externalId, request)}))
  }

  function ReconcileBody(post: Post, manager: bool, version: nat, word: string, key: string, now: int): Outcome {
    if !manager then Err(PermissionDenied)
    else if post.message.status != Status.Uncertain then Err(InvalidMessage)
    else if post.attempt.externalId == "" then Err(InvalidMessage)
    else
      match MapDeliveryStatus(post.provider, word)
      case None => Err(UnknownDeliveryStatus)
      case Some(target) =>
        if post.message.version != version then Err(VersionConflict)
        else Ok(ApplyEvidence(post, target, Client(key), now))
  }

  function RecordPreferenceBody(post: Post, manager: bool, allowed: bool, now: int): Outcome {
    if !manager then Err(PermissionDenied)
    else Ok(post.(preferences := Recorded(post.preferences, allowed, now)))
  }

  function Body(post: Post, step: Step): Outcome {
    match step
    case Claim(now) => ClaimBody(post, now)
    case Release(token, failed, now) => ReleaseBody(post, token, failed, now)
    case Prepare(token, world, now) => PrepareBody(post, token, world, now)
    case Accept(token, externalId, event, now) => AcceptBody(post, token, externalId, event, now)
    case MarkUncertain(token, event) => MarkUncertainBody(post, token, event)
    case MarkFailed(token, event, now) => MarkFailedBody(post, token, event, now)
    case Cancel(manager, version, key, now) => CancelBody(post, manager, version, key, now)
    case Callback(enabled, externalId, request, word, now) => CallbackBody(post, enabled, externalId, request, word,
                                                                           now)
    case Reconcile(manager, version, word, key, now) => ReconcileBody(post, manager, version, word, key, now)
    case RecordPreference(manager, allowed, now) => RecordPreferenceBody(post, manager, allowed, now)
    // Another message to the same contact bounced.
    case HardFeedbackElsewhere(now) => Ok(post.(preferences := Recorded(post.preferences, false, now)))
    // Another message on the channel recorded a provider identifier.
    case TakeId(externalId) => Ok(post.(takenIds := post.takenIds + {externalId}))
  }

  function Execute(post: Post, step: Step): Outcome {
    Commit(step, Body(post, step))
  }

  // A refused step changes nothing.
  function Next(post: Post, step: Step): Post {
    var r := Execute(post, step);
    if r.Ok? then r.value else post
  }
}

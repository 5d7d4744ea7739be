// What every transaction keeps about one message: the message and its attempt
// move in lockstep, the outcome is final, and the send can be authorised once.
module MessageRow {
  import opened Common
  import opened Messaging

  // The attempt status that goes with a message status.
  function Mirror(status: Status): AttemptStatus {
    match status
    case Pending => Requested
    case Queued => Requested
    case Sending => AttemptStatus.Sending
    case Sent => Accepted
    case Delivered => AttemptStatus.Delivered
    case Failed => AttemptStatus.Failed
    case Cancelled => AttemptStatus.Cancelled
    case Uncertain => AttemptStatus.Uncertain
  }

  predicate Logged(post: Post, command: CommandId) {
    exists i :: 0 <= i < |post.history| && post.history[i].command == command
  }

  predicate Lockstep(post: Post) {
    var message := post.message;
    var attempt := post.attempt;
    && attempt.status == Mirror(message.status)
    && (attempt.token.Some? <==> message.status == Queued || message.status == Status.Sending)
    && (attempt.token.Some? ==> attempt.token.value < post.nextToken)
    && (message.status == Sent || message.status == Status.Delivered ==> attempt.externalId != "")
    && (attempt.externalId != "" ==>
          message.status == Sent || message.status == Status.Delivered || message.status == Status.Failed)
  }

  predicate OneInForce(preferences: seq<Preference>) {
    forall i, j :: 0 <= i < j < |preferences| ==> !(preferences[i].active && preferences[j].active)
  }

  // The history ends where the message is, and remembers that a send began.
  predicate Chronicled(post: Post) {
    && post.history != []
    && post.history[|post.history| - 1].after == post.message.status
    && (post.message.status in {Status.Sending, Sent, Status.Delivered} ==> Logged(post, SendingMark))
  }

  // Whatever a callback logged has its receipt.
  predicate Receipted(post: Post) {
    forall k :: 0 <= k < |post.history| && post.history[k].command.CallbackRequest? ==>
      (post.history[k].command.externalId, post.history[k].command.request) in post.callbackReceipts
  }

  predicate RowInv(post: Post) {
    && Constraints(post)
    && Lockstep(post)
    && Chronicled(post)
    && Receipted(post)
    && OneInForce(post.preferences)
    && post.message.evidence < |post.preferences|
  }

  // --- consent ---

  // Whatever decisions were recorded, at most one of them is in force.
  function Decisions(decisions: seq<(bool, int)>): seq<Preference> {
    if decisions == [] then []
    else
      var last := decisions[|decisions| - 1];
      Recorded(Decisions(decisions[..|decisions| - 1]), last.0, last.1)
  }

  lemma {:induction false} AtMostOneInForce(decisions: seq<(bool, int)>)
    ensures OneInForce(Decisions(decisions))
    ensures decisions != [] ==>
              InForce(Decisions(decisions)) == Some(|decisions| - 1) && |Decisions(decisions)| == |decisions|
  {
    if decisions != [] {
      var earlier := decisions[..|decisions| - 1];
      AtMostOneInForce(earlier);
      var p := Decisions(decisions);
      assert p[..|p| - 1] == Deactivated(Decisions(earlier));
    }
  }

  // --- creation ---

  lemma CreatedRowIsSound(
    provider: Provider, preferences: seq<Preference>, taken: set<string>, member: bool, world: World, key: string,
    now: int)
    requires OneInForce(preferences)
    requires Create(provider, preferences, taken, member, world, key, now).Ok?
    ensures var post := Create(provider, preferences, taken, member, world, key, now).value;
            RowInv(post) && post.message.status == Pending && !Logged(post, SendingMark)
            && InForce(post.preferences) == Some(post.message.evidence) && preferences[post.message.evidence].allowed
  {
  }

  // --- each transaction ---

  lemma AppendedLog(post: Post, post': Post, entry: Entry, command: CommandId)
    requires post'.history == post.history + [entry]
    ensures Logged(post', command) <==> Logged(post, command) || entry.command == command
  {
    if Logged(post, command) {
      var i :| 0 <= i < |post.history| && post.history[i].command == command;
      assert post'.history[i].command == command;
    }
    if entry.command == command {
      assert post'.history[|post.history|].command == command;
    }
  }

  // Every step leaves message and history alone, or appends exactly one entry
  // that starts and ends where the message did and raises its version by one.
  // The one entry that misstates its start is a claim of an already queued
  // message, which logs PENDING.
  lemma OneEntryPerChange(post: Post, step: Step)
    requires Execute(post, step).Ok?
    requires Lockstep(post)
    ensures var post' := Execute(post, step).value;
            var n := |post.history|;
            || (post'.history == post.history && post'.message == post.message)
            || (&& |post'.history| == n + 1
                && post'.history[..n] == post.history
                && post'.history[n].before == Some(if step.Claim? && post.message.status == Queued then Pending
                                                   else post.message.status)
                && post'.history[n].after == post'.message.status
                && post'.message.version == post.message.version + 1)
  {
  }

  lemma WorkerStepKeepsRow(post: Post, step: Step)
    requires RowInv(post) && Execute(post, step).Ok?
    requires step.Claim? || step.Release? || step.Prepare? || step.Accept? || step.MarkUncertain? || step.MarkFailed?
    ensures RowInv(Execute(post, step).value)
  {
    var post' := Execute(post, step).value;
    if post'.history != post.history {
      var entry := post'.history[|post.history|];
      assert post'.history == post.history + [entry];
      AppendedLog(post, post', entry, SendingMark);
    }
  }

  lemma OtherStepKeepsRow(post: Post, step: Step)
    requires RowInv(post) && Execute(post, step).Ok?
    requires !(step.Claim? || step.Release? || step.Prepare? || step.Accept? || step.MarkUncertain? || step.MarkFailed?)
    ensures RowInv(Execute(post, step).value)
  {
    var post' := Execute(post, step).value;
    if post'.history != post.history {
      var entry := post'.history[|post.history|];
      assert post'.history == post.history + [entry];
      AppendedLog(post, post', entry, SendingMark);
    }
  }

  lemma StepKeepsRow(post: Post, step: Step)
    requires RowInv(post)
    ensures RowInv(Next(post, step))
  {
    if Execute(post, step).Ok? {
      if step.Claim? || step.Release? || step.Prepare? || step.Accept? || step.MarkUncertain? || step.MarkFailed? {
        WorkerStepKeepsRow(post, step);
      } else {
        OtherStepKeepsRow(post, step);
      }
    }
  }

  // --- what single steps can and cannot do ---

  lemma FinalIsAbsorbing(post: Post, step: Step)
    requires Lockstep(post) && Final(post.message.status)
    ensures Next(post, step).message == post.message
    ensures Next(post, step).attempt == post.attempt
    ensures Next(post, step).history == post.history
  {
  }

  // The source is still the one the message was written about.
  predicate SourceStands(message: Message, world: World) {
    && world.sourceFits
    && world.sourceCustomer == message.customer
    && world.sourceVersion == message.sourceVersion
  }

  // The destination is still the customer's own, and both may be written to.
  predicate DestinationStands(message: Message, world: World) {
    && world.customerActive && !world.customerMerged
    && world.contactOwner == message.customer
    && world.contactValue == message.destination
    && world.contactActive && world.contactFits
  }

  predicate FormStands(message: Message, world: World) {
    && world.templateVersion == message.templateVersion
    && world.templateUsable && world.channelUsable && world.renderable
  }

  // Record p is the one in force, it allows, and it has taken effect.
  predicate Permits(preferences: seq<Preference>, p: nat, now: int) {
    && p < |preferences|
    && preferences[p].active
    && preferences[p].allowed
    && preferences[p].effectiveAt <= now
    && forall i :: 0 <= i < |preferences| && i != p ==> !preferences[i].active
  }

  predicate Eligible(post: Post, world: World, now: int) {
    && SourceStands(post.message, world)
    && DestinationStands(post.message, world)
    && Permits(post.preferences, post.message.evidence, now)
    && FormStands(post.message, world)
  }

  lemma InForceIsTheActiveOne(preferences: seq<Preference>, p: nat)
    requires OneInForce(preferences) && p < |preferences|
    ensures InForce(preferences) == Some(p) <==> preferences[p].active
  {
    var found := InForce(preferences);
    if found.Some? && preferences[p].active {
      assert found.value == p;
    }
  }

  lemma EligibleIsRevalidated(post: Post, world: World, now: int)
    requires RowInv(post)
    ensures Revalidate(post.message, world, post.preferences, now).Ok? <==> Eligible(post, world, now)
  {
    var p := post.message.evidence;
    InForceIsTheActiveOne(post.preferences, p);
    if post.preferences[p].active {
      forall i | 0 <= i < |post.preferences| && i != p
        ensures !post.preferences[i].active
      {
        assert !(post.preferences[Min(i, p)].active && post.preferences[Max(i, p)].active);
      }
    }
  }

  // A send is authorised exactly when the caller holds the lease of a queued
  // message, nothing it was created on has changed, and no send was ever
  // authorised before.
  lemma AuthorisedExactly(post: Post, token: nat, world: World, now: int)
    requires RowInv(post)
    ensures Execute(post, Prepare(token, world, now)).Ok? <==>
            && post.attempt.token == Some(token)
            && post.message.status == Queued
            && Eligible(post, world, now)
            && !Logged(post, SendingMark)
  {
    EligibleIsRevalidated(post, world, now);
    var body := PrepareBody(post, token, world, now);
    if body.Ok? {
      SendingIsLoggedOnce(post, body.value);
    }
  }

  lemma SendingIsLoggedOnce(post: Post, after: Post)
    requires RowInv(post) && |after.history| == |post.history| + 1 && after.history[..|post.history|] == post.history
    requires after.history[|post.history|].command == SendingMark
    ensures HistoryUnique(after.history) <==> !Logged(post, SendingMark)
  {
    assert forall k :: 0 <= k < |post.history| ==> after.history[k] == post.history[k];
    if Logged(post, SendingMark) {
      var i :| 0 <= i < |post.history| && post.history[i].command == SendingMark;
      assert after.history[i].command == after.history[|post.history|].command;
    }
  }

  // What an authorisation leaves behind.
  lemma AuthorisationLeaves(post: Post, token: nat, world: World, now: int)
    requires RowInv(post) && Execute(post, Prepare(token, world, now)).Ok?
    ensures Execute(post, Prepare(token, world, now)) ==
            Ok(post.(
               message := post.message.(status := Status.Sending, version := post.message.version + 1),
               attempt := post.attempt.(status := AttemptStatus.Sending, version := post.attempt.version + 1),
               history := post.history + [Entry(Some(Queued), Status.Sending, SendingMark)]))
  {
  }

  // The refusals that end the worker instead of failing the message: a contact
  // that went to another customer, and a send that was authorised before.
  lemma RefusalEscapesExactly(post: Post, token: nat, world: World, now: int)
    requires RowInv(post) && post.attempt.token == Some(token) && post.message.status == Queued
    ensures var r := Execute(post, Prepare(token, world, now));
            && (r == Err(RowMissing) <==> world.contactOwner != post.message.customer)
            && (r == Err(IntegrityViolation) <==> Eligible(post, world, now) && Logged(post, SendingMark))
  {
    EligibleIsRevalidated(post, world, now);
    AuthorisedExactly(post, token, world, now);
  }

  // A message is created exactly for a source that fits, on the consent in
  // force, in a form that can be sent; it takes its snapshot from what it found.
  lemma CreatedExactly(
    provider: Provider, preferences: seq<Preference>, taken: set<string>, member: bool, world: World, key: string,
    now: int)
    requires OneInForce(preferences)
    ensures var r := Create(provider, preferences, taken, member, world, key, now);
            && (r.Ok? <==>
                  && member
                  && world.sourceFits
                  && world.customerActive && !world.customerMerged
                  && world.contactOwner == world.sourceCustomer
                  && world.contactActive && world.contactFits
                  && world.templateUsable && world.channelUsable && world.renderable
                  && exists p :: 0 <= p < |preferences| && Permits(preferences, p, now))
            && (r.Ok? ==>
                  && SourceStands(r.value.message, world)
                  && DestinationStands(r.value.message, world)
                  && FormStands(r.value.message, world)
                  && Permits(preferences, r.value.message.evidence, now)
                  && r.value == Post(
                                provider, r.value.message,
                                Attempt(Requested, None, None, None, 0, "", 1),
                                [Entry(None, Pending, Client(key))], preferences, taken, {}, 0)
                  && r.value.message.status == Pending && r.value.message.version == 1
                  && r.value.message.sentAt.None? && r.value.message.deliveredAt.None?
                  && r.value.message.failedAt.None? && r.value.message.cancelledAt.None?)
  {
    var found := InForce(preferences);
    if found.Some? {
      forall i | 0 <= i < |preferences| && i != found.value
        ensures !preferences[i].active
      {
        assert !(preferences[Min(i, found.value)].active && preferences[Max(i, found.value)].active);
      }
      assert preferences[found.value].allowed && preferences[found.value].effectiveAt <= now
             <==> Permits(preferences, found.value, now);
    }
    if p :| 0 <= p < |preferences| && Permits(preferences, p, now) {
      InForceIsTheActiveOne(preferences, p);
    }
  }

  // The evidence a message was created on stays dead once it is dead: later
  // decisions are new records, so none of them can authorise this message.
  lemma WithdrawnConsentNeverReturns(post: Post, step: Step)
    requires post.message.evidence < |post.preferences|
    requires !post.preferences[post.message.evidence].active
    ensures var post' := Next(post, step);
            && post'.message.evidence == post.message.evidence < |post'.preferences|
            && !post'.preferences[post'.message.evidence].active
    ensures step.Prepare? ==> Execute(post, step).Err?
  {
  }

  // Consent in force at authorisation is the very record the message cites.
  lemma AuthorisedOnConsentInForce(post: Post, token: nat, world: World, now: int)
    requires RowInv(post)
    requires Execute(post, Prepare(token, world, now)).Ok?
    ensures var evidence := post.message.evidence;
            && InForce(post.preferences) == Some(evidence)
            && post.preferences[evidence].allowed
            && post.preferences[evidence].effectiveAt <= now
            && forall i :: 0 <= i < |post.preferences| && i != evidence ==> !post.preferences[i].active
  {
    var evidence := post.message.evidence;
    assert InForce(post.preferences) == Some(evidence);
    forall i | 0 <= i < |post.preferences| && i != evidence
      ensures !post.preferences[i].active
    {
      assert post.preferences[evidence].active;
    }
  }

  // The code can never reconcile: a message becomes uncertain only before it
  // has a provider identifier, and reconciliation insists on one.
  lemma UncertainCannotBeReconciled(post: Post, manager: bool, version: nat, word: string, key: string, now: int)
    requires RowInv(post)
    ensures Execute(post, Reconcile(manager, version, word, key, now)).Err?
  {
  }

  // A release is written under one fixed command id, so only the first one of
  // a message commits.
  lemma SecondReleaseAborts(post: Post, token: nat, failed: bool, now: int)
    requires RowInv(post) && post.attempt.token == Some(token) && Logged(post, ReleaseMark)
    ensures Execute(post, Release(token, failed, now)) == Err(IntegrityViolation)
  {
    var body := ReleaseBody(post, token, failed, now);
    var i :| 0 <= i < |post.history| && post.history[i].command == ReleaseMark;
    assert body.value.history[|post.history|].command == ReleaseMark;
    assert body.value.history[i].command == ReleaseMark;
    assert !HistoryUnique(body.value.history);
  }
}

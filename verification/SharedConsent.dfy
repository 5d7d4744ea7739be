// All messages to one contact over one channel for one purpose.  They share the
// consent records, so what the provider says about one decides about the others.
module SharedConsent {
  import opened Common
  import opened Messaging
  import opened MessageRow
  import opened MessageCommands

  datatype Contact = Contact(posts: seq<Post>, preferences: seq<Preference>)

  datatype Event =
    | Writes(provider: Provider, taken: set<string>, member: bool, world: World, key: string, now: int)
    | Decides(manager: bool, allowed: bool, now: int)
    | Steps(message: nat, step: Step)

  // A step of the message itself; decisions are events of the contact, and
  // feedback about another message is that other message's callback.
  predicate Own(step: Step) {
    !step.RecordPreference? && !step.HardFeedbackElsewhere?
  }

  // Every message reads the same consent records.
  function Sharing(posts: seq<Post>, preferences: seq<Preference>): (r: seq<Post>)
    ensures |r| == |posts|
    ensures forall i :: 0 <= i < |r| ==> r[i] == posts[i].(preferences := preferences)
  {
    seq(|posts|, i requires 0 <= i < |posts| => posts[i].(preferences := preferences))
  }

  function React(contact: Contact, event: Event): Contact {
    match event
    case Writes(provider, taken, member, world, key, now) =>
      var r := Create(provider, contact.preferences, taken, member, world, key, now);
      if r.Ok? then contact.(posts := contact.posts + [r.value]) else contact
    case Decides(manager, allowed, now) =>
      if !manager then contact
      else
        var preferences := Recorded(contact.preferences, allowed, now);
        Contact(Sharing(contact.posts, preferences), preferences)
    case Steps(m, step) =>
      if |contact.posts| <= m || !Own(step) then contact
      else
        var after := Next(contact.posts[m], step);
        Contact(Sharing(contact.posts[m := after], after.preferences), after.preferences)
  }

  const NewContact := Contact([], [])

  function Run(events: seq<Event>): Contact
    decreases |events|
  {
    if events == [] then NewContact else React(Run(events[..|events| - 1]), events[|events| - 1])
  }

  function At(events: seq<Event>, k: nat): Contact
    requires k <= |events|
  {
    Run(events[..k])
  }

  lemma AtNext(events: seq<Event>, k: nat)
    requires k < |events|
    ensures At(events, k + 1) == React(At(events, k), events[k])
  {
    assert events[..k + 1][..k] == events[..k];
  }

  predicate Inv(contact: Contact) {
    && OneInForce(contact.preferences)
    && forall i :: 0 <= i < |contact.posts| ==>
         RowInv(contact.posts[i]) && contact.posts[i].preferences == contact.preferences
  }

  // The consent stands, or one more decision is in force and the others are off.
  ghost predicate Grows(before: seq<Preference>, after: seq<Preference>) {
    || after == before
    || (&& |after| == |before| + 1
        && after[|before|].active
        && forall i :: 0 <= i < |before| ==> after[i] == before[i].(active := false))
  }

  lemma StepGrows(post: Post, step: Step)
    ensures Grows(post.preferences, Next(post, step).preferences)
  {
  }

  lemma EventGrows(contact: Contact, event: Event)
    requires Inv(contact)
    ensures Grows(contact.preferences, React(contact, event).preferences)
  {
    if event.Steps? && event.message < |contact.posts| {
      StepGrows(contact.posts[event.message], event.step);
    }
  }

  // To each of the other messages an event is at most one of the two foreign
  // steps that change its consent: the model of a single message leaves out
  // nothing that the others can do to it.
  lemma OthersSeeOneForeignStep(contact: Contact, event: Event, i: nat)
    requires Inv(contact) && i < |contact.posts| && !(event.Steps? && event.message == i)
    ensures i < |React(contact, event).posts|
    ensures var after := React(contact, event).posts[i];
            || after == contact.posts[i]
            || (event.Steps? && event.step.Callback?
                && after == Next(contact.posts[i], HardFeedbackElsewhere(event.step.now)))
            || (event.Decides? && after == Next(contact.posts[i], RecordPreference(true, event.allowed, event.now)))
  {
    if event.Steps? && event.message < |contact.posts| && Own(event.step) {
      if event.step.Callback? {
        CallbackKeepsOrRefuses(contact.posts[event.message], event.step);
        RefusalIsHeardElsewhere(contact.posts[i], event.step.now);
      } else {
        OtherStepsKeepConsent(contact.posts[event.message], event.step);
      }
    }
  }

  lemma CallbackKeepsOrRefuses(post: Post, step: Step)
    requires step.Callback?
    ensures var after := Next(post, step).preferences;
            after == post.preferences || after == Recorded(post.preferences, false, step.now)
  {
  }

  lemma RefusalIsHeardElsewhere(post: Post, now: int)
    requires RowInv(post)
    ensures Next(post, HardFeedbackElsewhere(now)) == post.(preferences := Recorded(post.preferences, false, now))
  {
  }

  lemma OtherStepsKeepConsent(post: Post, step: Step)
    requires Own(step) && !step.Callback?
    ensures Next(post, step).preferences == post.preferences
  {
  }

  // --- every run ---

  lemma ReactKeepsInv(contact: Contact, event: Event)
    requires Inv(contact)
    ensures Inv(React(contact, event))
  {
    var after := React(contact, event);
    EventGrows(contact, event);
    match event
    case Writes(provider, taken, member, world, key, now) =>
      if Create(provider, contact.preferences, taken, member, world, key, now).Ok? {
        CreatedRowIsSound(provider, contact.preferences, taken, member, world, key, now);
      }
    case Decides(_, _, _) =>
      forall i | 0 <= i < |contact.posts|
        ensures RowInv(after.posts[i])
      {
        OthersSeeOneForeignStep(contact, event, i);
        if after.posts[i] != contact.posts[i] {
          StepKeepsRow(contact.posts[i], RecordPreference(true, event.allowed, event.now));
        }
      }
    case Steps(m, step) =>
      forall i | 0 <= i < |contact.posts|
        ensures RowInv(after.posts[i])
      {
        if i == m {
          StepKeepsRow(contact.posts[i], step);
        } else {
          OthersSeeOneForeignStep(contact, event, i);
          if after.posts[i] != contact.posts[i] {
            StepKeepsRow(contact.posts[i], HardFeedbackElsewhere(step.now));
          }
        }
      }
  }

  lemma {:induction false} RunInv(events: seq<Event>)
    ensures Inv(Run(events))
    decreases |events|
  {
    if events != [] {
      RunInv(events[..|events| - 1]);
      ReactKeepsInv(Run(events[..|events| - 1]), events[|events| - 1]);
    }
  }

  // --- what a bounce ends ---

  // The first n messages all cite one of the first c consent records, and none
  // of those is in force.
  ghost predicate Silenced(contact: Contact, n: nat, c: nat) {
    && n <= |contact.posts|
    && c <= |contact.preferences|
    && (forall p :: 0 <= p < c ==> !contact.preferences[p].active)
    && (forall i :: 0 <= i < n ==> contact.posts[i].message.evidence < c)
  }

  lemma EvidenceStands(contact: Contact, event: Event, i: nat)
    requires Inv(contact) && i < |contact.posts|
    ensures i < |React(contact, event).posts|
    ensures React(contact, event).posts[i].message.evidence == contact.posts[i].message.evidence
  {
  }

  lemma SilencedStays(contact: Contact, event: Event, n: nat, c: nat)
    requires Inv(contact) && Silenced(contact, n, c)
    ensures Silenced(React(contact, event), n, c)
  {
    EventGrows(contact, event);
    forall i | 0 <= i < n
      ensures i < |React(contact, event).posts|
      ensures React(contact, event).posts[i].message.evidence < c
    {
      EvidenceStands(contact, event, i);
    }
  }

  lemma SilencedNext(events: seq<Event>, j: nat, n: nat, c: nat)
    requires j < |events| && Silenced(At(events, j), n, c)
    ensures Silenced(At(events, j + 1), n, c)
  {
    RunInv(events[..j]);
    AtNext(events, j);
    SilencedStays(At(events, j), events[j], n, c);
  }

  lemma {:induction false} SilencedForEver(events: seq<Event>, k: nat, j: nat, n: nat, c: nat)
    requires k <= j <= |events| && Silenced(At(events, k), n, c)
    ensures Silenced(At(events, j), n, c)
    decreases j
  {
    if k < j {
      SilencedForEver(events, k, j - 1, n, c);
      SilencedNext(events, j - 1, n, c);
    }
  }

  // Event k is feedback that suppresses the address, heard for the first time,
  // about one of its messages.
  predicate BouncesAt(events: seq<Event>, k: nat)
    requires k < |events|
  {
    var contact, event := At(events, k), events[k];
    && event.Steps? && event.step.Callback?
    && event.message < |contact.posts|
    && Heard(contact.posts[event.message], event.step.enabled, event.step.externalId, event.step.request)
    && Suppresses(contact.posts[event.message].provider, event.step.word)
  }

  lemma BounceReplacesConsent(events: seq<Event>, k: nat)
    requires k < |events| && BouncesAt(events, k)
    ensures Suppressed(At(events, k).preferences, At(events, k + 1).preferences, events[k].step.now)
    ensures Silenced(At(events, k + 1), |At(events, k).posts|, |At(events, k).preferences|)
  {
    var contact := At(events, k);
    var m, step := events[k].message, events[k].step;
    RunInv(events[..k]);
    AtNext(events, k);
    FeedbackLeaves(contact.posts[m], step.enabled, step.externalId, step.request, step.word, Status.Failed, step.now);
    var after := At(events, k + 1);
    assert |contact.posts| <= |after.posts|;
    forall i | 0 <= i < |contact.posts|
      ensures after.posts[i].message.evidence < |contact.preferences|
    {
      EvidenceStands(contact, events[k], i);
    }
  }

  // Once the mail provider reported a bounce, a complaint or a rejection about
  // any message to the contact, no message written before is ever authorised,
  // whatever consent is recorded later.
  lemma BouncedContactIsNotWrittenTo(
    events: seq<Event>, k: nat, j: nat, i: nat, token: nat, world: World, now: int)
    requires k < j <= |events| && BouncesAt(events, k) && i < |At(events, k).posts|
    ensures i < |At(events, j).posts|
    ensures Execute(At(events, j).posts[i], Prepare(token, world, now)).Err?
  {
    BounceReplacesConsent(events, k);
    SilencedForEver(events, k + 1, j, |At(events, k).posts|, |At(events, k).preferences|);
    RunInv(events[..j]);
    AuthorisedExactly(At(events, j).posts[i], token, world, now);
  }

  // The last word on the contact was a refusal.
  predicate LastRefused(preferences: seq<Preference>) {
    preferences != [] && preferences[|preferences| - 1].active && !preferences[|preferences| - 1].allowed
  }

  predicate Allows(event: Event) {
    event.Decides? && event.manager && event.allowed
  }

  lemma RefusalStays(contact: Contact, event: Event)
    requires Inv(contact) && LastRefused(contact.preferences) && !Allows(event)
    ensures LastRefused(React(contact, event).preferences)
  {
    if event.Steps? && event.message < |contact.posts| && Own(event.step) && !event.step.Callback? {
      OtherStepsKeepConsent(contact.posts[event.message], event.step);
    }
  }

  lemma RefusalNext(events: seq<Event>, j: nat)
    requires j < |events| && LastRefused(At(events, j).preferences) && !Allows(events[j])
    ensures LastRefused(At(events, j + 1).preferences)
  {
    RunInv(events[..j]);
    AtNext(events, j);
    RefusalStays(At(events, j), events[j]);
  }

  lemma {:induction false} RefusalStaysInRun(events: seq<Event>, k: nat, j: nat)
    requires k <= j <= |events| && LastRefused(At(events, k).preferences)
    requires forall l :: k <= l < j ==> !Allows(events[l])
    ensures LastRefused(At(events, j).preferences)
    decreases j
  {
    if k < j {
      RefusalStaysInRun(events, k, j - 1);
      RefusalNext(events, j - 1);
    }
  }

  // And until somebody records an allowance again, no message to the contact
  // can be written either.
  lemma NothingIsWrittenAfterABounce(
    events: seq<Event>, k: nat, j: nat, provider: Provider, taken: set<string>, member: bool, world: World, key: string,
    now: int)
    requires k < j <= |events| && BouncesAt(events, k)
    requires forall l :: k < l < j ==> !Allows(events[l])
    ensures Create(provider, At(events, j).preferences, taken, member, world, key, now).Err?
  {
    BounceReplacesConsent(events, k);
    RefusalStaysInRun(events, k + 1, j);
    RunInv(events[..j]);
    SuppressedAddressIsRefused(At(events, j).preferences, provider, taken, member, world, key, now);
  }

  // --- such a run ---

  const FITTING := World(true, 0, 1, true, false, 0, "to", true, true, 1, true, true, true)

  lemma SentMessage(preferences: seq<Preference>) returns (post: Post)
    requires preferences == [Preference(true, 0, true)]
    ensures Create(Ses, preferences, {}, true, FITTING, "k", 1).Ok?
    ensures post == Next(Next(Next(Create(Ses, preferences, {}, true, FITTING, "k", 1).value, Claim(2)),
                              Prepare(0, FITTING, 3)), Accept(0, "id", 0, 4))
    ensures post.attempt.externalId == "id" && post.callbackReceipts == {} && post.provider == Ses
    ensures post.preferences == preferences
  {
    assert Permits(preferences, 0, 1);
    CreatedExactly(Ses, preferences, {}, true, FITTING, "k", 1);
    CreatedRowIsSound(Ses, preferences, {}, true, FITTING, "k", 1);
    var created := Create(Ses, preferences, {}, true, FITTING, "k", 1).value;
    assert created.message.evidence == 0;
    ClaimedExactly(created, 2);
    ClaimLeaves(created, 2);
    StepKeepsRow(created, Claim(2));
    var claimed := Next(created, Claim(2));
    AuthorisedExactly(claimed, 0, FITTING, 3);
    AuthorisationLeaves(claimed, 0, FITTING, 3);
    StepKeepsRow(claimed, Prepare(0, FITTING, 3));
    var sending := Next(claimed, Prepare(0, FITTING, 3));
    AcceptedExactly(sending, 0, "id", 0, 4);
    post := Next(sending, Accept(0, "id", 0, 4));
  }

  // A contact with one message goes where its message goes.
  lemma AloneNext(events: seq<Event>, k: nat, post: Post, after: Post, step: Step)
    requires k < |events| && events[k] == Steps(0, step) && Own(step)
    requires At(events, k) == Contact([post], post.preferences) && after == Next(post, step)
    ensures At(events, k + 1) == Contact([after], after.preferences)
  {
    AtNext(events, k);
    assert Sharing([post][0 := after], after.preferences) == [after];
  }

  lemma FirstDecision(events: seq<Event>)
    requires events != [] && events[0] == Decides(true, true, 0)
    ensures At(events, 1) == Contact([], [Preference(true, 0, true)])
  {
    AtNext(events, 0);
    assert events[..0] == [];
    assert Recorded([], true, 0) == [Preference(true, 0, true)];
  }

  lemma FirstMessage(events: seq<Event>, consent: seq<Preference>)
    requires 1 < |events| && events[1] == Writes(Ses, {}, true, FITTING, "k", 1)
    requires At(events, 1) == Contact([], consent)
    requires Create(Ses, consent, {}, true, FITTING, "k", 1).Ok?
    ensures At(events, 2) == Contact([Create(Ses, consent, {}, true, FITTING, "k", 1).value], consent)
  {
    AtNext(events, 1);
  }

  lemma FirstDispatch(events: seq<Event>, consent: seq<Preference>) returns (post: Post)
    requires 4 < |events| && consent == [Preference(true, 0, true)]
    requires Create(Ses, consent, {}, true, FITTING, "k", 1).Ok?
    requires At(events, 2) == Contact([Create(Ses, consent, {}, true, FITTING, "k", 1).value], consent)
    requires events[2] == Steps(0, Claim(2)) && events[3] == Steps(0, Prepare(0, FITTING, 3))
    requires events[4] == Steps(0, Accept(0, "id", 0, 4))
    ensures At(events, 5) == Contact([post], post.preferences)
    ensures post.attempt.externalId == "id" && post.callbackReceipts == {} && post.provider == Ses
  {
    var created := Create(Ses, consent, {}, true, FITTING, "k", 1).value;
    assert created.preferences == consent;
    post := SentMessage(consent);
    AloneNext(events, 2, created, Next(created, Claim(2)), Claim(2));
    var claimed := Next(created, Claim(2));
    AloneNext(events, 3, claimed, Next(claimed, Prepare(0, FITTING, 3)), Prepare(0, FITTING, 3));
    var sending := Next(claimed, Prepare(0, FITTING, 3));
    AloneNext(events, 4, sending, Next(sending, Accept(0, "id", 0, 4)), Accept(0, "id", 0, 4));
  }

  // Consent, one message, its dispatch, and the bounce.
  lemma BounceFollows(events: seq<Event>)
    requires |events| == 6
    requires events[0] == Decides(true, true, 0) && events[1] == Writes(Ses, {}, true, FITTING, "k", 1)
    requires events[2] == Steps(0, Claim(2)) && events[3] == Steps(0, Prepare(0, FITTING, 3))
    requires events[4] == Steps(0, Accept(0, "id", 0, 4))
    requires events[5] == Steps(0, Callback(true, "id", "r", "bounce", 5))
    ensures BouncesAt(events, 5)
  {
    var consent := [Preference(true, 0, true)];
    var sent := SentMessage(consent);
    FirstDecision(events);
    FirstMessage(events, consent);
    var post := FirstDispatch(events, consent);
  }

  lemma BounceHappens()
    ensures exists events :: 5 < |events| && BouncesAt(events, 5)
  {
    BounceFollows([
      Decides(true, true, 0), Writes(Ses, {}, true, FITTING, "k", 1), Steps(0, Claim(2)),
      Steps(0, Prepare(0, FITTING, 3)), Steps(0, Accept(0, "id", 0, 4)),
      Steps(0, Callback(true, "id", "r", "bounce", 5))]);
  }
}

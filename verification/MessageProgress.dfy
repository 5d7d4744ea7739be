// What each turn of a dispatch worker achieves, and that an undisturbed worker
// gets an eligible message sent.
module MessageProgress {
  import opened Common
  import opened Messaging
  import opened MessageRow
  import opened MessageCommands
  import opened MessageDispatch

  // A worker takes the lease of a message it can claim; a send it finds lost is
  // given up, and it keeps nothing.
  lemma ClaimingEndsExactly(system: System, w: nat, now: int)
    requires Inv(system) && PhaseOf(system, w).Idle?
    ensures var after := React(system, Claims(w, now));
            var claimed := Execute(system.post, Claim(now));
            && after.post == (if claimed.Ok? then claimed.value else system.post)
            && after.sends == system.sends
            && PhaseOf(after, w) ==
               if claimed.Ok? && system.post.message.status != Status.Sending
               then Holding(system.post.nextToken) else Idle
  {
    if Execute(system.post, Claim(now)).Ok? {
      ClaimEffect(system.post, now);
      StepKeepsRow(system.post, Claim(now));
    }
  }

  // The adapter is called once, and only what it did not refuse outright counts.
  lemma SendingEndsExactly(system: System, w: nat, answer: Answer)
    requires PhaseOf(system, w).Authorised?
    ensures var after := React(system, Sends(w, answer));
            && after.post == system.post
            && PhaseOf(after, w) == Answered(PhaseOf(system, w).token, answer)
            && after.sends == system.sends + (if answer.Blocked? then 0 else 1)
  {
  }

  // Worker w is done, and the message is where it left it.
  ghost predicate Finishes(system: System, w: nat, event: nat, now: int, status: Status) {
    var after := React(system, Settles(w, event, now));
    && PhaseOf(after, w).Idle?
    && after.post.message.status == status
    && after.post.attempt.token.None?
    && after.sends == system.sends
  }

  // Worker w could not record the answer and will record that it does not know.
  ghost predicate FallsBack(system: System, w: nat, event: nat, now: int)
    requires PhaseOf(system, w).Answered?
  {
    React(system, Settles(w, event, now)) == SetPhase(system, w, Answered(PhaseOf(system, w).token, Lost))
  }

  // The lease holder records where it got to: a refusal or a rejection fails
  // the message, an acceptance under a usable identifier sends it, any other
  // answer is recorded as unknown, at once or in a second transaction.
  lemma SettlingEndsExactly(system: System, w: nat, event: nat, now: int)
    requires Inv(system)
    requires PhaseOf(system, w).Refused? || PhaseOf(system, w).Answered?
    requires system.post.attempt.token == Some(PhaseOf(system, w).token)
    requires !Logged(system.post, OutboxEvent(event))
    ensures match PhaseOf(system, w)
            case Refused(_) => Finishes(system, w, event, now, Status.Failed)
            case Answered(_, Rejected) => Finishes(system, w, event, now, Status.Failed)
            case Answered(_, Lost) => Finishes(system, w, event, now, Status.Uncertain)
            case Answered(_, Accepted(id)) =>
              if id != "" && id !in system.post.takenIds && system.post.message.status == Status.Sending
              then Finishes(system, w, event, now, Sent)
                   && React(system, Settles(w, event, now)).post.attempt.externalId == id
              else FallsBack(system, w, event, now)
            case _ => true
  {
    var token := PhaseOf(system, w).token;
    FailedExactly(system.post, token, event, now);
    UncertainExactly(system.post, token, event);
    if PhaseOf(system, w).Answered? && PhaseOf(system, w).answer.Accepted? {
      AcceptedExactly(system.post, token, PhaseOf(system, w).answer.externalId, event, now);
    }
  }

  // An adapter that does not fit, or that is not allowed to send, puts the
  // message back for the back-off, once; a second time the release aborts.
  lemma BackingOffEndsExactly(system: System, w: nat, event: nat, now: int)
    requires Inv(system)
    requires PhaseOf(system, w).Mismatched? || (PhaseOf(system, w).Answered? && PhaseOf(system, w).answer.Blocked?)
    requires system.post.attempt.token == Some(PhaseOf(system, w).token)
    ensures var after := React(system, Settles(w, event, now));
            && PhaseOf(after, w).Idle?
            && after.sends == system.sends
            && (if Logged(system.post, ReleaseMark) then after.post == system.post
                else
                  && after.post.message.status == Pending
                  && after.post.attempt.token.None?
                  && after.post.attempt.availableAt == Some(now + Backoff(system.post.attempt.dispatches)))
  {
    ReleasedExactly(system.post, PhaseOf(system, w).token, true, now);
  }

  // --- one dispatch nobody disturbs ---

  lemma FreshHoldsNoLease(system: System)
    requires Fresh(system)
    ensures system.post.attempt.token.None? && system.post.attempt.leaseExpires.None?
  {
  }

  // Whoever dispatches a fresh message to the end, while all it was created on
  // stands, gets it to the provider, exactly once, and recorded.
  lemma UndisturbedDispatchSends(system: System, world: World, id: string, event: nat, now: int)
    requires Fresh(system) && system.post.attempt.availableAt.None? && Eligible(system.post, world, now)
    requires !Logged(system.post, Dispatch(system.post.attempt.dispatches + 1))
    requires !Logged(system.post, OutboxEvent(event)) && id != "" && id !in system.post.takenIds
    ensures var after := Run(system, [Claims(0, now), Authorises(0, world, now), Sends(0, Answer.Accepted(id)),
                                      Settles(0, event, now)]);
            && after.sends == 1
            && after.post.message.status == Sent
            && after.post.attempt.externalId == id
            && PhaseOf(after, 0).Idle?
  {
    FourUnfold(system, [Claims(0, now), Authorises(0, world, now), Sends(0, Answer.Accepted(id)),
                        Settles(0, event, now)]);
    var claimed := ClaimedFresh(system, now);
    var authorised := AuthorisedNext(claimed, world, now);
    SentNext(authorised, id, event, now);
  }

  lemma FourUnfold(system: System, events: seq<Event>)
    requires |events| == 4
    ensures Run(system, events)
            == React(React(React(React(system, events[0]), events[1]), events[2]), events[3])
  {
    assert events[..0] == [] && events[..4] == events;
    AtNext(system, events, 0);
    AtNext(system, events, 1);
    AtNext(system, events, 2);
    AtNext(system, events, 3);
  }

  lemma ClaimedFresh(system: System, now: int) returns (claimed: System)
    requires Fresh(system) && system.post.attempt.availableAt.None?
    requires !Logged(system.post, Dispatch(system.post.attempt.dispatches + 1))
    ensures claimed == React(system, Claims(0, now)) && Inv(claimed) && claimed.sends == 0
    ensures PhaseOf(claimed, 0).Holding? && claimed.post.attempt.token == Some(PhaseOf(claimed, 0).token)
    ensures claimed.post.message.status == Queued && !Logged(claimed.post, SendingMark)
    ensures claimed.post.takenIds == system.post.takenIds && claimed.post.preferences == system.post.preferences
    ensures claimed.post.message == system.post.message.(status := Queued, version := system.post.message.version + 1)
    ensures forall event :: Logged(claimed.post, OutboxEvent(event)) <==> Logged(system.post, OutboxEvent(event))
  {
    FreshInv(system);
    FreshHoldsNoLease(system);
    ClaimedExactly(system.post, now);
    ClaimLeaves(system.post, now);
    ClaimingEndsExactly(system, 0, now);
    ReactKeepsInv(system, Claims(0, now));
    claimed := React(system, Claims(0, now));
    var entry := Entry(Some(Pending), Queued, Dispatch(system.post.attempt.dispatches + 1));
    AppendedLog(system.post, claimed.post, entry, SendingMark);
    forall event
      ensures Logged(claimed.post, OutboxEvent(event)) <==> Logged(system.post, OutboxEvent(event))
    {
      AppendedLog(system.post, claimed.post, entry, OutboxEvent(event));
    }
  }

  lemma AuthorisedNext(claimed: System, world: World, now: int) returns (authorised: System)
    requires Inv(claimed) && PhaseOf(claimed, 0).Holding? && claimed.sends == 0
    requires claimed.post.attempt.token == Some(PhaseOf(claimed, 0).token) && claimed.post.message.status == Queued
    requires Eligible(claimed.post, world, now) && !Logged(claimed.post, SendingMark)
    ensures authorised == React(claimed, Authorises(0, world, now)) && Inv(authorised) && authorised.sends == 0
    ensures PhaseOf(authorised, 0) == Authorised(PhaseOf(claimed, 0).token)
    ensures authorised.post.message.status == Status.Sending
    ensures authorised.post.attempt.token == claimed.post.attempt.token
    ensures authorised.post.takenIds == claimed.post.takenIds
    ensures forall event :: Logged(authorised.post, OutboxEvent(event)) <==> Logged(claimed.post, OutboxEvent(event))
  {
    var token := PhaseOf(claimed, 0).token;
    AskingEndsExactly(claimed, 0, world, now);
    AuthorisedExactly(claimed.post, token, world, now);
    AuthorisationLeaves(claimed.post, token, world, now);
    ReactKeepsInv(claimed, Authorises(0, world, now));
    authorised := React(claimed, Authorises(0, world, now));
    forall event
      ensures Logged(authorised.post, OutboxEvent(event)) <==> Logged(claimed.post, OutboxEvent(event))
    {
      AppendedLog(claimed.post, authorised.post, Entry(Some(Queued), Status.Sending, SendingMark), OutboxEvent(event));
    }
  }

  lemma SentNext(authorised: System, id: string, event: nat, now: int)
    requires Inv(authorised) && PhaseOf(authorised, 0).Authorised? && authorised.sends == 0
    requires authorised.post.attempt.token == Some(PhaseOf(authorised, 0).token)
    requires authorised.post.message.status == Status.Sending
    requires !Logged(authorised.post, OutboxEvent(event)) && id != "" && id !in authorised.post.takenIds
    ensures var after := React(React(authorised, Sends(0, Answer.Accepted(id))), Settles(0, event, now));
            && after.sends == 1 && after.post.message.status == Sent && after.post.attempt.externalId == id
            && PhaseOf(after, 0).Idle?
  {
    SendingEndsExactly(authorised, 0, Answer.Accepted(id));
    ReactKeepsInv(authorised, Sends(0, Answer.Accepted(id)));
    SettlingEndsExactly(React(authorised, Sends(0, Answer.Accepted(id))), 0, event, now);
  }
}

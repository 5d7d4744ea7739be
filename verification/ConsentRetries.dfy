// The receipts around consent decisions.  A replayed decision is answered with
// the preference in force that carries it, so it can raise.
module ConsentRetries {
  import opened Common
  import opened Messaging
  import opened MessageRow
  import R = Receipts

  // The payload is the decision; the input says whether the actor may decide,
  // and when.  Free decisions are those that hard feedback records.
  type Call = R.Command<bool, (bool, int)>

  type Consent = R.Service<seq<Preference>, bool, (bool, int), (bool, int), (), nat, MessagingError>

  type Books = R.Store<seq<Preference>, bool, ()>

  type Trace = seq<R.Event<bool, (bool, int), (bool, int)>>

  // The active preference with the decision, latest effective first.
  function Carrying(preferences: seq<Preference>, allowed: bool): (found: Option<nat>)
    ensures found.Some? ==>
              found.value < |preferences| && preferences[found.value].active
                && preferences[found.value].allowed == allowed
    ensures found.None? ==>
              forall i :: 0 <= i < |preferences| && preferences[i].active ==> preferences[i].allowed != allowed
  {
    if preferences == [] then None
    else
      var last := |preferences| - 1;
      var earlier := Carrying(preferences[..last], allowed);
      if !preferences[last].active || preferences[last].allowed != allowed then earlier
      else if earlier.Some? && preferences[last].effectiveAt < preferences[earlier.value].effectiveAt then earlier
      else Some(last)
  }

  function Decide(preferences: seq<Preference>, call: Call): Result<(seq<Preference>, (), nat), MessagingError> {
    Ok((Recorded(preferences, call.payload, call.input.1), (), |preferences|))
  }

  const Front: Consent :=
    R.Service(
      (p: seq<Preference>, call: Call) => if call.input.0 then None else Some(PermissionDenied),
      (p: seq<Preference>, call: Call) => Decide(p, call),
      (p: seq<Preference>, allowed: bool, stored: ()) => Carrying(p, allowed),
      (p: seq<Preference>, decision: (bool, int)) => Recorded(p, decision.0, decision.1))

  const Opening: Books := R.Store([], map[])

  lemma RecordedIsLast(preferences: seq<Preference>, allowed: bool, at: int)
    ensures OneInForce(Recorded(preferences, allowed, at))
    ensures Carrying(Recorded(preferences, allowed, at), allowed) == Some(|preferences|)
  {
    var after := Recorded(preferences, allowed, at);
    assert after[..|preferences|] == Deactivated(preferences);
  }

  // Whoever decides, at most one preference is in force.
  lemma {:induction false} RunKeepsOneInForce(store: Books, trace: Trace)
    requires OneInForce(store.state)
    ensures OneInForce(R.Run(Front, store, trace).state)
    decreases |trace|
  {
    if trace != [] {
      var before, last := trace[..|trace| - 1], trace[|trace| - 1];
      RunKeepsOneInForce(store, before);
      var now := R.Run(Front, store, before).state;
      if last.Free? {
        RecordedIsLast(now, last.action.0, last.action.1);
      } else {
        RecordedIsLast(now, last.command.payload, last.command.input.1);
      }
    }
  }

  // Under a single preference in force, a decision is carried exactly by that one.
  lemma CarriedIsInForce(preferences: seq<Preference>, allowed: bool)
    requires OneInForce(preferences)
    ensures Carrying(preferences, allowed).Some?
            <==> InForce(preferences).Some? && preferences[InForce(preferences).value].allowed == allowed
    ensures Carrying(preferences, allowed).Some? ==> Carrying(preferences, allowed) == InForce(preferences)
  {
    var found, force := Carrying(preferences, allowed), InForce(preferences);
    forall i, j | 0 <= i < |preferences| && 0 <= j < |preferences| && preferences[i].active && preferences[j].active
      ensures i == j
    {
    }
  }

  // A replayed decision is answered with the preference in force if that says
  // the same, and raises a conflict if the opposite was decided since, or the
  // contact was suppressed.  It has no effect either way.
  lemma ReplayedDecisionExactly(before: Trace, call: Call, between: Trace, again: Call)
    requires R.Execute(Front, R.Run(Front, Opening, before), call).Ok?
    requires R.IdOf(again) == R.IdOf(call) && again.payload == call.payload && again.input.0
    ensures var later := R.Run(Front, R.Execute(Front, R.Run(Front, Opening, before), call).value.0, between);
            var force := InForce(later.state);
            && R.Next(Front, later, R.Protected(again)) == later
            && R.Execute(Front, later, again) ==
               (if force.Some? && later.state[force.value].allowed == again.payload then Ok((later, force.value))
                else Err(R.IdempotencyConflict))
  {
    var first := R.Run(Front, Opening, before);
    var later := R.Run(Front, R.Execute(Front, first, call).value.0, between);
    R.RunCompletes(Front, Opening, before);
    R.RetryLooksAgain(Front, first, call, between, again);
    DecidedOnce(before, call, between);
    CarriedIsInForce(later.state, again.payload);
  }

  lemma DecidedOnce(before: Trace, call: Call, between: Trace)
    requires R.Execute(Front, R.Run(Front, Opening, before), call).Ok?
    ensures OneInForce(R.Run(Front, R.Execute(Front, R.Run(Front, Opening, before), call).value.0, between).state)
  {
    var first := R.Run(Front, Opening, before);
    RunKeepsOneInForce(Opening, before);
    RecordedIsLast(first.state, call.payload, call.input.1);
    RunKeepsOneInForce(R.Execute(Front, first, call).value.0, between);
  }

  lemma KeysOfTheExample()
    ensures R.Strip("a") == "a" && R.Strip("b") == "b"
  {
    assert R.StripLeft("a") == "a" && R.StripLeft("b") == "b";
  }

  function Request(key: string, allowed: bool, at: int): Call {
    R.Command(0, "record_preference", key, allowed, (true, at))
  }

  // Allowed under one key, suppressed under another, then the first request
  // again: it raises, and the contact stays suppressed.
  lemma OppositeDecisionIsNotAnswered(early: int, late: int)
    ensures var first := R.Next(Front, Opening, R.Protected(Request("a", true, early)));
            var second := R.Next(Front, first, R.Protected(Request("b", false, late)));
            && R.Execute(Front, Opening, Request("a", true, early)).Ok?
            && R.Execute(Front, second, Request("a", true, early)) == Err(R.IdempotencyConflict)
  {
    KeysOfTheExample();
    var first := R.Next(Front, Opening, R.Protected(Request("a", true, early)));
    assert first.state == Recorded([], true, early);
    assert first.receipts == map[R.Id(0, "record_preference", "a") := R.Completed(true, ())];
    var second := R.Next(Front, first, R.Protected(Request("b", false, late)));
    assert second.state == Recorded(first.state, false, late);
    RecordedIsLast(first.state, false, late);
    CarriedIsInForce(second.state, true);
    assert InForce(second.state).Some? ==> !second.state[InForce(second.state).value].allowed;
  }
}

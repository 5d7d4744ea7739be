// Which database constraint can reject which payment step: for each constraint
// the exact condition, and the state invariant those conditions rest on.
module PaymentGuards {
  import opened Common
  import opened Payments
  import opened PaymentSafety
  import Orders

  // --- the invariant of the aggregate ---

  // The history is a connected walk that ends in the current status.
  ghost predicate Walk(history: seq<Entry>, intent: Option<Intent>) {
    && (intent.None? ==> history == [])
    && (intent.Some? ==>
          && history != []
          && history[0].before == None
          && history[|history| - 1].after == intent.value.status)
    && forall k :: 0 < k < |history| ==> history[k].before == Some(history[k - 1].after)
  }

  ghost predicate Tokens(ledger: Ledger) {
    && (forall i :: 0 <= i < |ledger.attempts| && ledger.attempts[i].leaseToken.Some? ==>
          ledger.attempts[i].leaseToken.value < ledger.nextToken)
    && (forall i, j :: 0 <= i < j < |ledger.attempts| && ledger.attempts[i].leaseToken.Some? ==>
          ledger.attempts[i].leaseToken != ledger.attempts[j].leaseToken)
  }

  // An id and the link it belongs to are recorded together.
  ghost predicate Linked(attempts: seq<Attempt>) {
    forall i :: 0 <= i < |attempts| ==> (attempts[i].externalId == "" <==> attempts[i].hostedUrl == "")
  }

  ghost predicate Receipted(ledger: Ledger) {
    forall k :: 0 <= k < |ledger.history| && ledger.history[k].command.CallbackRequest? ==>
      (ledger.history[k].command.account, ledger.history[k].command.resource, ledger.history[k].command.request)
      in ledger.callbackReceipts
  }

  ghost predicate Inv(ledger: Ledger) {
    && Constraints(ledger)
    && (ledger.attempts != [] ==> ledger.intent.Some?)
    && Walk(ledger.history, ledger.intent)
    && Tokens(ledger)
    && Linked(ledger.attempts)
    && Receipted(ledger)
  }

  // --- one open attempt ---

  // The services keep a single open attempt by their own checks, with one
  // exception: a late result on a locally closed attempt while a newer attempt
  // is open.  There, and only there, the unique constraint rejects the step.
  lemma OneOpenFiresExactly(order: Orders.Order, ledger: Ledger, step: Step)
    requires Inv(ledger) && Body(order, ledger, step).Ok?
    ensures OneOpen(Body(order, ledger, step).value.attempts)
            <==> !(LateAt(ledger, step, Focus(ledger, step)) && OpenAttempt(ledger.attempts).Some?)
  {
    var after := Body(order, ledger, step).value;
    var a := Focus(ledger, step);
    OnlyTheFocusMoves(order, ledger, step);
    if a < |ledger.attempts| {
      FocusMoves(order, ledger, step);
      assert forall i :: 0 <= i < |ledger.attempts| && i != a ==> after.attempts[i] == ledger.attempts[i];
      if LateAt(ledger, step, a) {
        assert after.attempts[a].status == Active;
        if OpenAttempt(ledger.attempts).Some? {
          var b := OpenAttempt(ledger.attempts).value;
          assert Open(after.attempts[b].status) && b != a;
          assert !OneOpen(after.attempts) by {
            assert Open(after.attempts[Min(a, b)].status) && Open(after.attempts[Max(a, b)].status);
          }
        }
      }
    }
  }

  // --- identifiers ---

  ghost predicate Taken(ledger: Ledger, account: nat, id: string) {
    || (account, id) in ledger.foreignIds
    || (exists i ::
          && 0 <= i < |ledger.attempts|
          && ledger.attempts[i].account == account
          && ledger.attempts[i].externalId == id)
  }

  lemma ActivationIds(order: Orders.Order, ledger: Ledger, step: Step)
    requires Inv(ledger) && step.Activate? && Body(order, ledger, step).Ok?
    ensures var after := Body(order, ledger, step).value;
            IdsUnique(after.attempts, after.foreignIds)
            <==> !Taken(ledger, ledger.attempts[step.attempt].account, step.checkout.id)
  {
    var after := Body(order, ledger, step).value;
    var a, id := step.attempt, step.checkout.id;
    var account := ledger.attempts[a].account;
    assert after.attempts[a].externalId == id && after.attempts[a].account == account && id != "";
    assert ledger.attempts[a].externalId == "";
    assert forall i :: 0 <= i < |ledger.attempts| && i != a ==> after.attempts[i] == ledger.attempts[i];
    if Taken(ledger, account, id) && (account, id) !in ledger.foreignIds {
      var i :| 0 <= i < |ledger.attempts| && ledger.attempts[i].account == account
        && ledger.attempts[i].externalId == id;
      var low, high := Min(a, i), Max(a, i);
      assert after.attempts[low].externalId == after.attempts[high].externalId;
      assert after.attempts[low].account == after.attempts[high].account;
    }
  }

  lemma IdsKept(ledger: Ledger, after: Ledger)
    requires IdsUnique(ledger.attempts, ledger.foreignIds) && after.foreignIds == ledger.foreignIds
    requires |ledger.attempts| <= |after.attempts|
    requires forall i :: 0 <= i < |ledger.attempts| ==>
               after.attempts[i].account == ledger.attempts[i].account
                 && after.attempts[i].externalId == ledger.attempts[i].externalId
    requires forall i :: |ledger.attempts| <= i < |after.attempts| ==> after.attempts[i].externalId == ""
    ensures IdsUnique(after.attempts, after.foreignIds)
  {
  }

  lemma OtherStepIds(order: Orders.Order, ledger: Ledger, step: Step)
    requires Inv(ledger) && !step.Activate? && !step.ForeignResource? && Body(order, ledger, step).Ok?
    ensures var after := Body(order, ledger, step).value;
            IdsUnique(after.attempts, after.foreignIds)
  {
    OnlyTheFocusMoves(order, ledger, step);
    if Focus(ledger, step) < |ledger.attempts| {
      FocusMoves(order, ledger, step);
    }
    IdsKept(ledger, Body(order, ledger, step).value);
  }

  // A provider identifier is recorded unless its account already has it; no
  // other step of this aggregate can break the uniqueness of identifiers.
  lemma IdsFireExactly(order: Orders.Order, ledger: Ledger, step: Step)
    requires Inv(ledger) && Body(order, ledger, step).Ok?
    ensures var after := Body(order, ledger, step).value;
            IdsUnique(after.attempts, after.foreignIds)
            <==> match step
                 case Activate(a, checkout, _, _) => !Taken(ledger, ledger.attempts[a].account, checkout.id)
                 case ForeignResource(account, id) => id == "" || AttemptFor(ledger.attempts, account, id).None?
                 case _ => true
  {
    var after := Body(order, ledger, step).value;
    if step.Activate? {
      ActivationIds(order, ledger, step);
    } else if step.ForeignResource? {
      var found := AttemptFor(ledger.attempts, step.account, step.id);
      if step.id != "" && found.Some? {
        assert after.attempts[found.value] == ledger.attempts[found.value];
      }
    } else {
      OtherStepIds(order, ledger, step);
    }
  }

  ghost predicate KeyUsed(attempts: seq<Attempt>, key: string) {
    exists i :: 0 <= i < |attempts| && attempts[i].providerKey == key
  }

  lemma KeysFireExactly(order: Orders.Order, ledger: Ledger, step: Step)
    requires Inv(ledger) && Body(order, ledger, step).Ok?
    ensures KeysUnique(Body(order, ledger, step).value.attempts)
            <==> !(step.RequestCheckout? && KeyUsed(ledger.attempts, step.key))
  {
    var after := Body(order, ledger, step).value;
    var a := Focus(ledger, step);
    OnlyTheFocusMoves(order, ledger, step);
    if a < |ledger.attempts| {
      FocusMoves(order, ledger, step);
    }
    assert forall i :: 0 <= i < |ledger.attempts| ==> after.attempts[i].providerKey == ledger.attempts[i].providerKey;
    if step.RequestCheckout? && KeyUsed(ledger.attempts, step.key) {
      var i :| 0 <= i < |ledger.attempts| && ledger.attempts[i].providerKey == step.key;
      assert after.attempts[i].providerKey == after.attempts[|ledger.attempts|].providerKey;
    }
  }

  // --- attempt rows ---

  ghost function SourceOf(step: Step): Source {
    match step
    case Callback(_, _, _, _) => FromCallback
    case Reconcile(_, _, _, _, _) => FromReconciliation
    case _ => FromCancellationWorker
  }

  // What the evidence of a step would do to the attempt it finds.
  ghost function VerdictOf(order: Orders.Order, ledger: Ledger, step: Step): Verdict
    requires Evidence(step) && ledger.intent.Some? && Focus(ledger, step) < |ledger.attempts|
  {
    var attempt := ledger.attempts[Focus(ledger, step)];
    if attempt.account !in ledger.accounts then Unknown
    else
      Judge(ledger.intent.value, attempt, ledger.accounts[attempt.account].provider, step.resource, SourceOf(step),
            if step.ApplyCancellation? then Some(order.status) else None)
  }

  // Evidence for an attempt that has no provider identifier asks for its link
  // to become active.
  ghost predicate BlankActivation(order: Orders.Order, ledger: Ledger, step: Step) {
    && Evidence(step)
    && ledger.intent.Some?
    && Focus(ledger, step) < |ledger.attempts|
    && ledger.attempts[Focus(ledger, step)].externalId == ""
    && VerdictOf(order, ledger, step).Shift?
    && VerdictOf(order, ledger, step).target == MoveTo(AwaitingPayment)
  }

  // A resource leaves a valid row behind unless it activates a blank attempt.
  lemma ShiftedRow(attempt: Attempt, target: Target, reason: Option<Reason>)
    requires AttemptRowValid(attempt) && Linked([attempt]) && target != MoveTo(Pending)
    ensures AttemptRowValid(attempt.(status := ShiftAttempt(attempt.status, target, reason),
                                     version := attempt.version + 1))
            <==> !(attempt.externalId == "" && target == MoveTo(AwaitingPayment))
  {
    assert [attempt][0] == attempt;
  }

  lemma ResourceRow(
    ledger: Ledger, a: nat, resource: Resource, command: CommandId, source: Source,
    order: Option<Orders.OrderStatus>, now: int)
    requires Inv(ledger) && ledger.intent.Some? && a < |ledger.attempts|
    requires ApplyResource(ledger, a, resource, command, source, order, now).Ok?
    ensures var attempt := ledger.attempts[a];
            var after := ApplyResource(ledger, a, resource, command, source, order, now).value;
            && a < |after.attempts|
            && attempt.account in ledger.accounts
            && var verdict := Judge(ledger.intent.value, attempt, ledger.accounts[attempt.account].provider, resource,
                                    source, order);
               AttemptRowValid(after.attempts[a])
               <==> !(attempt.externalId == "" && verdict.Shift? && verdict.target == MoveTo(AwaitingPayment))
  {
    var attempt := ledger.attempts[a];
    assert AttemptRowValid(attempt);
    var verdict := Judge(ledger.intent.value, attempt, ledger.accounts[attempt.account].provider, resource, source,
                         order);
    if verdict.Shift? {
      VerdictNeverPending(ledger.intent.value, attempt, ledger.accounts[attempt.account].provider, resource, source,
                          order);
      ShiftedRow(attempt, verdict.target, verdict.reason);
    }
  }

  lemma EvidenceRows(order: Orders.Order, ledger: Ledger, step: Step)
    requires Inv(ledger) && Evidence(step) && Body(order, ledger, step).Ok? && Focus(ledger, step) < |ledger.attempts|
    ensures var a := Focus(ledger, step);
            && a < |Body(order, ledger, step).value.attempts|
            && (AttemptRowValid(Body(order, ledger, step).value.attempts[a]) <==> !BlankActivation(order, ledger, step))
  {
    var a := Focus(ledger, step);
    assert AttemptRowValid(ledger.attempts[a]);
    match step
    case Callback(account, resource, request, now) =>
      if (account, resource.id, request) !in ledger.callbackReceipts {
        ResourceRow(ledger, a, resource, CallbackRequest(account, resource.id, request), FromCallback, None, now);
      }
    case Reconcile(_, _, resource, key, now) =>
      ResourceRow(ledger, a, resource, Client(key), FromReconciliation, None, now);
    case ApplyCancellation(_, resource, _, event, now) =>
      ResourceRow(ledger, a, resource, OutboxEvent(event), FromCancellationWorker, Some(order.status), now);
  }

  // The row constraints of an attempt reject nothing but a blank activation.
  lemma RowsFireExactly(order: Orders.Order, ledger: Ledger, step: Step)
    requires Inv(ledger) && Body(order, ledger, step).Ok?
    ensures AttemptRowsValid(Body(order, ledger, step).value.attempts) <==> !BlankActivation(order, ledger, step)
  {
    var after := Body(order, ledger, step).value;
    var a := Focus(ledger, step);
    OnlyTheFocusMoves(order, ledger, step);
    if a < |ledger.attempts| {
      assert AttemptRowValid(ledger.attempts[a]);
      if Evidence(step) {
        EvidenceRows(order, ledger, step);
      } else if step.ClaimCheckout? || step.ReleaseLease? || step.Activate? {
        DispatchMoves(order, ledger, step, a);
      } else {
        CancellationMoves(order, ledger, step, a);
      }
    }
  }

  // --- history ---

  ghost predicate Logged(history: seq<Entry>, command: CommandId) {
    exists k :: 0 <= k < |history| && history[k].command == command
  }

  lemma AppendingUnique(history: seq<Entry>, longer: seq<Entry>)
    requires HistoryUnique(history)
    requires |longer| == |history| + 1 && longer[..|history|] == history
    ensures HistoryUnique(longer) <==> !Logged(history, longer[|history|].command)
  {
    assert forall k :: 0 <= k < |history| ==> longer[k] == history[k];
  }

  // The history refuses exactly a second entry under a command id it already has.
  lemma HistoryFiresExactly(order: Orders.Order, ledger: Ledger, step: Step)
    requires Inv(ledger) && Body(order, ledger, step).Ok?
    ensures var after := Body(order, ledger, step).value;
            HistoryUnique(after.history)
            <==> after.history == ledger.history
                 || (|after.history| == |ledger.history| + 1
                     && !Logged(ledger.history, after.history[|ledger.history|].command))
  {
    StepKeepsIntentSound(order, ledger, step);
    if Body(order, ledger, step).value.history != ledger.history {
      AppendingUnique(ledger.history, Body(order, ledger, step).value.history);
    }
  }

  // A callback that changes the intent is logged under its own request, so the
  // replay receipt already guards the history: it never refuses a callback.
  lemma HistoryNeverRefusesACallback(order: Orders.Order, ledger: Ledger, step: Step)
    requires Inv(ledger) && step.Callback? && Body(order, ledger, step).Ok?
    ensures HistoryUnique(Body(order, ledger, step).value.history)
    ensures Receipted(Body(order, ledger, step).value)
  {
    var after := Body(order, ledger, step).value;
    StepKeepsIntentSound(order, ledger, step);
    var n := |ledger.history|;
    if after.history != ledger.history {
      assert after.history[n].command == CallbackRequest(step.account, step.resource.id, step.request);
      assert !Logged(ledger.history, after.history[n].command);
      AppendingUnique(ledger.history, after.history);
    }
    forall k | 0 <= k < |after.history| && after.history[k].command.CallbackRequest?
      ensures (after.history[k].command.account, after.history[k].command.resource, after.history[k].command.request)
              in after.callbackReceipts
    {
      if k < n {
        assert after.history[k] == ledger.history[k];
      }
    }
  }

  // --- the invariant is kept ---

  lemma LogsKeepWalk(ledger: Ledger, after: Ledger)
    requires Walk(ledger.history, ledger.intent) && Logs(ledger, after)
    requires ledger.intent.Some? ==> after.intent.Some?
    ensures Walk(after.history, after.intent)
  {
    var n := |ledger.history|;
    if after.history != ledger.history {
      assert forall k :: 0 <= k < n ==> after.history[k] == ledger.history[k];
    }
  }

  // What a step may do to the lease of the attempt in focus.
  ghost predicate LeaseMoves(ledger: Ledger, after: Ledger, a: nat)
    requires a < |ledger.attempts| && a < |after.attempts|
  {
    var b, c := ledger.attempts[a].leaseToken, after.attempts[a].leaseToken;
    || ((c == b || c == None) && after.nextToken == ledger.nextToken)
    || (c == Some(ledger.nextToken) && after.nextToken == ledger.nextToken + 1)
  }

  lemma FocusLeaseMoves(order: Orders.Order, ledger: Ledger, step: Step)
    requires Body(order, ledger, step).Ok? && Focus(ledger, step) < |ledger.attempts|
    ensures Focus(ledger, step) < |Body(order, ledger, step).value.attempts|
    ensures LeaseMoves(ledger, Body(order, ledger, step).value, Focus(ledger, step))
  {
    OnlyTheFocusMoves(order, ledger, step);
    if Evidence(step) {
      EvidenceLeaseMoves(order, ledger, step);
    }
  }

  lemma EvidenceLeaseMoves(order: Orders.Order, ledger: Ledger, step: Step)
    requires Evidence(step) && Body(order, ledger, step).Ok? && Focus(ledger, step) < |ledger.attempts|
    ensures Focus(ledger, step) < |Body(order, ledger, step).value.attempts|
    ensures LeaseMoves(ledger, Body(order, ledger, step).value, Focus(ledger, step))
  {
    EvidenceLeavesOthers(order, ledger, step);
  }

  lemma UnfocusedStepKeepsTokens(order: Orders.Order, ledger: Ledger, step: Step)
    requires Body(order, ledger, step).Ok? && |ledger.attempts| <= Focus(ledger, step)
    ensures Body(order, ledger, step).value.nextToken == ledger.nextToken
  {
  }

  lemma StepKeepsTokens(order: Orders.Order, ledger: Ledger, step: Step)
    requires Inv(ledger) && Body(order, ledger, step).Ok?
    ensures Tokens(Body(order, ledger, step).value)
  {
    OnlyTheFocusMoves(order, ledger, step);
    if Focus(ledger, step) < |ledger.attempts| {
      FocusLeaseMoves(order, ledger, step);
    } else {
      UnfocusedStepKeepsTokens(order, ledger, step);
    }
  }

  lemma StepKeepsLinked(order: Orders.Order, ledger: Ledger, step: Step)
    requires Inv(ledger) && Body(order, ledger, step).Ok?
    ensures Linked(Body(order, ledger, step).value.attempts)
  {
    OnlyTheFocusMoves(order, ledger, step);
    if Focus(ledger, step) < |ledger.attempts| {
      FocusMoves(order, ledger, step);
    }
  }

  lemma OtherStepsLogNoCallback(order: Orders.Order, ledger: Ledger, step: Step)
    requires !step.Callback? && Body(order, ledger, step).Ok?
    ensures var after := Body(order, ledger, step).value;
            && after.callbackReceipts == ledger.callbackReceipts
            && (after.history == ledger.history
                || (after.history != [] && !after.history[|after.history| - 1].command.CallbackRequest?))
  {
  }

  lemma OtherStepsKeepReceipted(order: Orders.Order, ledger: Ledger, step: Step)
    requires Inv(ledger) && !step.Callback? && Body(order, ledger, step).Ok?
    ensures Receipted(Body(order, ledger, step).value)
  {
    var after := Body(order, ledger, step).value;
    StepKeepsIntentSound(order, ledger, step);
    OtherStepsLogNoCallback(order, ledger, step);
    ReceiptedAfter(ledger, after);
  }

  lemma ReceiptedAfter(ledger: Ledger, after: Ledger)
    requires Receipted(ledger) && Logs(ledger, after) && after.callbackReceipts == ledger.callbackReceipts
    requires after.history == ledger.history || !after.history[|after.history| - 1].command.CallbackRequest?
    ensures Receipted(after)
  {
    if after.history != ledger.history {
      assert forall k :: 0 <= k < |ledger.history| ==> after.history[k] == ledger.history[k];
    }
  }

  // Everything the database can object to in a step whose own checks passed.
  ghost predicate Objection(order: Orders.Order, ledger: Ledger, step: Step)
    requires Body(order, ledger, step).Ok?
  {
    var after := Body(order, ledger, step).value;
    || (LateAt(ledger, step, Focus(ledger, step)) && OpenAttempt(ledger.attempts).Some?)
    || (step.Activate? && Taken(ledger, ledger.attempts[step.attempt].account, step.checkout.id))
    || (step.ForeignResource? && step.id != "" && AttemptFor(ledger.attempts, step.account, step.id).Some?)
    || (step.RequestCheckout? && KeyUsed(ledger.attempts, step.key))
    || BlankActivation(order, ledger, step)
    || (|after.history| > |ledger.history| && Logged(ledger.history, after.history[|ledger.history|].command))
  }

  // A step commits exactly when its own checks pass and none of these six
  // objections stands.
  lemma CommitsExactly(order: Orders.Order, ledger: Ledger, step: Step)
    requires Inv(ledger) && Body(order, ledger, step).Ok?
    ensures Execute(order, ledger, step).Ok? <==> !Objection(order, ledger, step)
  {
    StepKeepsIntentSound(order, ledger, step);
    OneOpenFiresExactly(order, ledger, step);
    IdsFireExactly(order, ledger, step);
    KeysFireExactly(order, ledger, step);
    RowsFireExactly(order, ledger, step);
    HistoryFiresExactly(order, ledger, step);
    CommitNeedsEach(order, ledger, step);
  }

  lemma CommitNeedsEach(order: Orders.Order, ledger: Ledger, step: Step)
    requires Body(order, ledger, step).Ok?
    ensures var after := Body(order, ledger, step).value;
            Execute(order, ledger, step).Ok? <==>
            && (after.intent.Some? ==> IntentRowValid(after.intent.value))
            && AttemptRowsValid(after.attempts) && OneOpen(after.attempts) && KeysUnique(after.attempts)
            && IdsUnique(after.attempts, after.foreignIds) && HistoryUnique(after.history)
  {
  }

  lemma NewLedgerInv()
    ensures Inv(NewLedger)
  {
  }

  // Every step, accepted or refused, whatever the order it finds, keeps the invariant.
  lemma StepKeepsInv(order: Orders.Order, ledger: Ledger, step: Step)
    requires Inv(ledger)
    ensures Inv(Next(order, ledger, step))
  {
    if Execute(order, ledger, step).Ok? {
      var after := Body(order, ledger, step).value;
      StepKeepsIntentSound(order, ledger, step);
      LogsKeepWalk(ledger, after);
      StepKeepsTokens(order, ledger, step);
      StepKeepsLinked(order, ledger, step);
      OnlyTheFocusMoves(order, ledger, step);
      if step.Callback? {
        HistoryNeverRefusesACallback(order, ledger, step);
      } else {
        OtherStepsKeepReceipted(order, ledger, step);
      }
    }
  }
}

// What every payment step keeps, and exactly when a database constraint has to
// step in because the service's own checks do not suffice.
module PaymentSafety {
  import opened Common
  import opened Payments
  import Orders

  // --- what one step may do to an attempt ---

  // late: this step records a provider result on an attempt that was closed
  // locally while its request was in flight.
  ghost predicate Moves(b: Attempt, c: Attempt, activates: bool, late: bool) {
    && c.account == b.account
    && c.providerKey == b.providerKey
    && b.version <= c.version
    && (b.status.Paid? || b.status.Failed? || b.status.Expired? ==> c.status == b.status)
    && (b.status.Cancelled? ==> c.status == b.status || (late && c.status == Active))
    && (Open(c.status) ==> Open(b.status) || late)
    && (c.status == Requested ==> b.status == Requested)
    && ((c.externalId, c.hostedUrl) == (b.externalId, b.hostedUrl)
        || (activates && b.externalId == "" && c.externalId != "" && c.hostedUrl != ""))
    && (late ==> activates && LateResult(b))
  }

  ghost predicate Evidence(step: Step) {
    step.Callback? || step.Reconcile? || step.ApplyCancellation?
  }

  ghost predicate ActivatesAt(step: Step, i: nat) {
    step.Activate? && step.attempt == i
  }

  ghost predicate LateAt(ledger: Ledger, step: Step, i: nat) {
    ActivatesAt(step, i) && i < |ledger.attempts| && LateResult(ledger.attempts[i])
  }

  // The index of the attempt that a step works on; the number of attempts when
  // it works on none of the existing ones.
  ghost function Focus(ledger: Ledger, step: Step): nat {
    var none := |ledger.attempts|;
    match step
    case ClaimCheckout(a, _) => a
    case ReleaseLease(a, _, _, _) => a
    case Activate(a, _, _, _) => a
    case Callback(account, resource, _, _) => IndexOr(AttemptFor(ledger.attempts, account, resource.id), none)
    case Reconcile(_, _, resource, _, _) => IndexOr(AttemptWithId(ledger.attempts, resource.id), none)
    case RequestCancellation(_, _) => IndexOr(OpenAttempt(ledger.attempts), none)
    case ClaimCancellation(a, _) => a
    case CompleteCancellation(a, _, _) => a
    case ApplyCancellation(a, _, _, _, _) => a
    case ConsumeOrderCancelled(_, _) => IndexOr(OpenAttempt(ledger.attempts), none)
    case _ => none
  }

  ghost function IndexOr(found: Option<nat>, none: nat): nat {
    if found.Some? then found.value else none
  }

  ghost predicate Undispatched(attempt: Attempt) {
    attempt.status == Requested && attempt.externalId == "" && attempt.hostedUrl == "" && attempt.leaseToken.None?
  }

  // Attempts are never removed, all but the one in focus stand, and one that is
  // added has not been dispatched.
  ghost predicate OthersStand(ledger: Ledger, after: Ledger, focus: nat) {
    && |ledger.attempts| <= |after.attempts| <= |ledger.attempts| + 1
    && (forall i :: 0 <= i < |ledger.attempts| && i != focus ==> after.attempts[i] == ledger.attempts[i])
    && (|ledger.attempts| < |after.attempts| ==> Undispatched(after.attempts[|ledger.attempts|]))
  }

  lemma OnlyTheFocusMoves(order: Orders.Order, ledger: Ledger, step: Step)
    requires Body(order, ledger, step).Ok?
    ensures var after := Body(order, ledger, step).value;
            && OthersStand(ledger, after, Focus(ledger, step))
            && (|ledger.attempts| < |after.attempts| ==> step.RequestCheckout?)
            && (step.ForeignResource? || after.foreignIds == ledger.foreignIds)
  {
    if Evidence(step) {
      EvidenceLeavesOthers(order, ledger, step);
    } else {
      CommandLeavesOthers(order, ledger, step);
    }
  }

  lemma EvidenceLeavesOthers(order: Orders.Order, ledger: Ledger, step: Step)
    requires Evidence(step) && Body(order, ledger, step).Ok?
    ensures var after := Body(order, ledger, step).value;
            && OthersStand(ledger, after, Focus(ledger, step))
            && |after.attempts| == |ledger.attempts|
            && after.foreignIds == ledger.foreignIds
  {
  }

  lemma CommandLeavesOthers(order: Orders.Order, ledger: Ledger, step: Step)
    requires !Evidence(step) && Body(order, ledger, step).Ok?
    ensures var after := Body(order, ledger, step).value;
            && OthersStand(ledger, after, Focus(ledger, step))
            && (|ledger.attempts| < |after.attempts| ==> step.RequestCheckout?)
            && (step.ForeignResource? || after.foreignIds == ledger.foreignIds)
  {
  }

  // Evidence never takes an attempt out of a recorded outcome, and never back
  // to the state before dispatch.
  lemma EvidenceKeepsOutcome(
    intent: Intent, attempt: Attempt, provider: Provider, resource: Resource, source: Source,
    order: Option<Orders.OrderStatus>)
    requires Judge(intent, attempt, provider, resource, source, order).Shift?
    ensures var verdict := Judge(intent, attempt, provider, resource, source, order);
            var status := ShiftAttempt(attempt.status, verdict.target, verdict.reason);
            && verdict.target != MoveTo(Pending)
            && status != Requested
            && (Open(attempt.status) || status == attempt.status)
  {
    var mapped := MapProviderStatus(provider, resource.status);
    var (target, reason) := Claimed(intent, attempt, mapped, resource, order);
    assert target != MoveTo(Pending);
  }

  lemma ResourceMoves(
    ledger: Ledger, a: nat, resource: Resource, command: CommandId, source: Source,
    order: Option<Orders.OrderStatus>, now: int)
    requires ledger.intent.Some? && a < |ledger.attempts|
    requires ApplyResource(ledger, a, resource, command, source, order, now).Ok?
    ensures var after := ApplyResource(ledger, a, resource, command, source, order, now).value;
            && |after.attempts| == |ledger.attempts|
            && Moves(ledger.attempts[a], after.attempts[a], false, false)
            && after.attempts[a].leaseToken == ledger.attempts[a].leaseToken
            && after.attempts[a].leaseExpires == ledger.attempts[a].leaseExpires
            && forall i :: 0 <= i < |ledger.attempts| && i != a ==> after.attempts[i] == ledger.attempts[i]
  {
    var provider := ledger.accounts[ledger.attempts[a].account].provider;
    if Judge(ledger.intent.value, ledger.attempts[a], provider, resource, source, order).Shift? {
      EvidenceKeepsOutcome(ledger.intent.value, ledger.attempts[a], provider, resource, source, order);
    }
  }

  lemma DispatchMoves(order: Orders.Order, ledger: Ledger, step: Step, a: nat)
    requires step.ClaimCheckout? || step.ReleaseLease? || step.Activate?
    requires Body(order, ledger, step).Ok? && a == Focus(ledger, step) < |ledger.attempts|
    requires AttemptRowValid(ledger.attempts[a])
    ensures a < |Body(order, ledger, step).value.attempts|
    ensures Moves(ledger.attempts[a], Body(order, ledger, step).value.attempts[a], ActivatesAt(step, a),
                  LateAt(ledger, step, a))
    ensures AttemptRowValid(Body(order, ledger, step).value.attempts[a])
  {
  }

  lemma CancellationMoves(order: Orders.Order, ledger: Ledger, step: Step, a: nat)
    requires step.RequestCancellation? || step.ClaimCancellation? || step.CompleteCancellation?
             || step.ConsumeOrderCancelled?
    requires Body(order, ledger, step).Ok? && a == Focus(ledger, step) < |ledger.attempts|
    requires AttemptRowValid(ledger.attempts[a])
    ensures a < |Body(order, ledger, step).value.attempts|
    ensures Moves(ledger.attempts[a], Body(order, ledger, step).value.attempts[a], false, false)
    ensures AttemptRowValid(Body(order, ledger, step).value.attempts[a])
  {
  }

  lemma EvidenceMoves(order: Orders.Order, ledger: Ledger, step: Step, a: nat)
    requires step.Callback? || step.Reconcile? || step.ApplyCancellation?
    requires Body(order, ledger, step).Ok? && a == Focus(ledger, step) < |ledger.attempts|
    ensures a < |Body(order, ledger, step).value.attempts|
    ensures Moves(ledger.attempts[a], Body(order, ledger, step).value.attempts[a], false, false)
  {
    match step
    case Callback(account, resource, request, now) =>
      if (account, resource.id, request) !in ledger.callbackReceipts {
        ResourceMoves(ledger, a, resource, CallbackRequest(account, resource.id, request), FromCallback, None, now);
      }
    case Reconcile(_, _, resource, key, now) =>
      ResourceMoves(ledger, a, resource, Client(key), FromReconciliation, None, now);
    case ApplyCancellation(_, resource, _, event, now) =>
      ResourceMoves(ledger, a, resource, OutboxEvent(event), FromCancellationWorker, Some(order.status), now);
  }

  // The outcome rules of one step, for the attempt in focus.
  lemma FocusMoves(order: Orders.Order, ledger: Ledger, step: Step)
    requires AttemptRowsValid(ledger.attempts)
    requires Body(order, ledger, step).Ok? && Focus(ledger, step) < |ledger.attempts|
    ensures var a := Focus(ledger, step);
            && a < |Body(order, ledger, step).value.attempts|
            && Moves(ledger.attempts[a], Body(order, ledger, step).value.attempts[a], ActivatesAt(step, a),
                     LateAt(ledger, step, a))
  {
    var a := Focus(ledger, step);
    if step.ClaimCheckout? || step.ReleaseLease? || step.Activate? {
      DispatchMoves(order, ledger, step, a);
    } else if step.Callback? || step.Reconcile? || step.ApplyCancellation? {
      EvidenceMoves(order, ledger, step, a);
    } else {
      CancellationMoves(order, ledger, step, a);
    }
  }

  // --- what one step may do to the intent and its history ---

  ghost function StatusOf(intent: Option<Intent>): Option<IntentStatus> {
    if intent.Some? then Some(intent.value.status) else None
  }

  // Either nothing is logged and the status stands, or one entry leads from the
  // old status to the new one.
  ghost predicate Logs(ledger: Ledger, after: Ledger) {
    || (after.history == ledger.history && StatusOf(after.intent) == StatusOf(ledger.intent))
    || (|after.history| == |ledger.history| + 1
        && after.history[..|ledger.history|] == ledger.history
        && after.history[|ledger.history|].before == StatusOf(ledger.intent)
        && Some(after.history[|ledger.history|].after) == StatusOf(after.intent))
  }

  // Snapshots are immutable, the version never falls and rises with every
  // change of status.
  ghost predicate IntentAdvances(b: Intent, c: Intent) {
    && c.amount == b.amount
    && c.currency == b.currency
    && b.version <= c.version
    && (c.status != b.status ==> b.version < c.version)
  }

  // The intent row stays valid, and the history keeps pace with the status.
  ghost predicate IntentSound(ledger: Ledger, after: Ledger) {
    && Logs(ledger, after)
    && (ledger.intent.Some? ==> after.intent.Some? && IntentAdvances(ledger.intent.value, after.intent.value))
    && (after.intent.Some? ==> IntentRowValid(after.intent.value))
  }

  ghost predicate IntentValid(ledger: Ledger) {
    ledger.intent.Some? ==> IntentRowValid(ledger.intent.value)
  }

  lemma ResourceKeepsIntentSound(
    ledger: Ledger, a: nat, resource: Resource, command: CommandId, source: Source,
    order: Option<Orders.OrderStatus>, now: int)
    requires ledger.intent.Some? && IntentValid(ledger) && a < |ledger.attempts|
    requires ApplyResource(ledger, a, resource, command, source, order, now).Ok?
    ensures IntentSound(ledger, ApplyResource(ledger, a, resource, command, source, order, now).value)
  {
  }

  lemma EvidenceKeepsIntentSound(order: Orders.Order, ledger: Ledger, step: Step)
    requires Evidence(step) && IntentValid(ledger) && Body(order, ledger, step).Ok?
    ensures IntentSound(ledger, Body(order, ledger, step).value)
  {
    match step
    case Callback(account, resource, request, now) =>
      if (account, resource.id, request) !in ledger.callbackReceipts {
        var a := AttemptFor(ledger.attempts, account, resource.id).value;
        ResourceKeepsIntentSound(ledger, a, resource, CallbackRequest(account, resource.id, request), FromCallback,
                                 None, now);
      }
    case Reconcile(_, _, resource, key, now) =>
      var a := AttemptWithId(ledger.attempts, resource.id).value;
      ResourceKeepsIntentSound(ledger, a, resource, Client(key), FromReconciliation, None, now);
    case ApplyCancellation(a, resource, _, event, now) =>
      ResourceKeepsIntentSound(ledger, a, resource, OutboxEvent(event), FromCancellationWorker, Some(order.status),
                               now);
  }

  lemma DispatchKeepsIntentSound(order: Orders.Order, ledger: Ledger, step: Step)
    requires step.ClaimCheckout? || step.Activate?
    requires IntentValid(ledger) && Body(order, ledger, step).Ok?
    ensures IntentSound(ledger, Body(order, ledger, step).value)
  {
  }

  lemma OpeningKeepsIntentSound(order: Orders.Order, ledger: Ledger, step: Step)
    requires step.CreateIntent? || step.Reopen?
    requires IntentValid(ledger) && Body(order, ledger, step).Ok?
    ensures IntentSound(ledger, Body(order, ledger, step).value)
  {
  }

  lemma ConcludingKeepsIntentSound(ledger: Ledger, status: IntentStatus, reason: Reason, event: nat, now: int)
    requires ledger.intent.Some? && IntentValid(ledger)
    requires status == RequiresAttention || status == IntentStatus.Cancelled
    ensures IntentSound(ledger, Conclude(ledger, status, reason, event, now))
  {
  }

  lemma ConsumptionKeepsIntentSound(order: Orders.Order, ledger: Ledger, event: nat, now: int)
    requires IntentValid(ledger) && ConsumeOrderCancelledBody(order, ledger, event, now).Ok?
    ensures IntentSound(ledger, ConsumeOrderCancelledBody(order, ledger, event, now).value)
  {
    ConcludingKeepsIntentSound(ledger, RequiresAttention, OrderCancelledWithOpenOrPaidPayment, event, now);
    ConcludingKeepsIntentSound(ledger, IntentStatus.Cancelled, OrderCancelled, event, now);
  }

  lemma OtherStepKeepsIntentSound(order: Orders.Order, ledger: Ledger, step: Step)
    requires !(Evidence(step) || step.ClaimCheckout? || step.Activate?)
    requires !(step.CreateIntent? || step.Reopen? || step.ConsumeOrderCancelled?)
    requires IntentValid(ledger) && Body(order, ledger, step).Ok?
    ensures IntentSound(ledger, Body(order, ledger, step).value)
  {
  }

  // The timestamps and the attention code are the services' own doing: the row
  // constraints of the intent never reject a step.  Amount and currency never
  // change, and every change of status is logged and raises the version.
  lemma StepKeepsIntentSound(order: Orders.Order, ledger: Ledger, step: Step)
    requires IntentValid(ledger) && Body(order, ledger, step).Ok?
    ensures IntentSound(ledger, Body(order, ledger, step).value)
  {
    if Evidence(step) {
      EvidenceKeepsIntentSound(order, ledger, step);
    } else if step.ClaimCheckout? || step.Activate? {
      DispatchKeepsIntentSound(order, ledger, step);
    } else if step.CreateIntent? || step.Reopen? {
      OpeningKeepsIntentSound(order, ledger, step);
    } else if step.ConsumeOrderCancelled? {
      ConsumptionKeepsIntentSound(order, ledger, step.event, step.now);
    } else {
      OtherStepKeepsIntentSound(order, ledger, step);
    }
  }
}

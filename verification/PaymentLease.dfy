// Who may speak for an attempt while its request is at the provider.
module PaymentLease {
  import opened Common
  import opened Payments
  import opened PaymentSafety
  import opened PaymentGuards
  import Orders

  // The ways a lease can end: its holder finishes or releases, or another claim
  // is made after it expired.
  ghost predicate EndsLease(step: Step, i: nat, token: nat, expires: int) {
    match step
    case ReleaseLease(a, t, _, _) => a == i && t == token
    case Activate(a, _, lease, _) => a == i && lease == Some(token)
    case ApplyCancellation(a, _, t, _, _) => a == i && t == token
    case ClaimCheckout(a, now) => a == i && expires <= now
    case ClaimCancellation(a, now) => a == i && expires <= now
    case _ => false
  }

  lemma LeaseEndsOnlyByItsHolderOrExpiry(order: Orders.Order, ledger: Ledger, step: Step, i: nat)
    requires Inv(ledger) && Body(order, ledger, step).Ok?
    requires i < |ledger.attempts| && ledger.attempts[i].leaseToken.Some?
    ensures var token, expires := ledger.attempts[i].leaseToken, ledger.attempts[i].leaseExpires;
            && expires.Some?
            && i < |Body(order, ledger, step).value.attempts|
            && (|| (Body(order, ledger, step).value.attempts[i].leaseToken == token
                    && Body(order, ledger, step).value.attempts[i].leaseExpires == expires)
                || EndsLease(step, i, token.value, expires.value))
  {
    assert AttemptRowValid(ledger.attempts[i]);
    OnlyTheFocusMoves(order, ledger, step);
    if Evidence(step) && Focus(ledger, step) == i {
      EvidenceLease(order, ledger, step);
    }
  }

  lemma EvidenceLease(order: Orders.Order, ledger: Ledger, step: Step)
    requires Evidence(step) && Body(order, ledger, step).Ok? && Focus(ledger, step) < |ledger.attempts|
    ensures var a := Focus(ledger, step);
            && a < |Body(order, ledger, step).value.attempts|
            && (|| (Body(order, ledger, step).value.attempts[a].leaseToken == ledger.attempts[a].leaseToken
                    && Body(order, ledger, step).value.attempts[a].leaseExpires == ledger.attempts[a].leaseExpires)
                || (step.ApplyCancellation? && ledger.attempts[a].leaseToken == Some(step.token)))
  {
  }

  // Neither the cancel command nor the order's cancellation closes an attempt
  // whose request may be in flight.
  lemma NoLocalCloseUnderLease(order: Orders.Order, ledger: Ledger, step: Step, i: nat)
    requires step.RequestCancellation? || step.ConsumeOrderCancelled?
    requires Inv(ledger) && Body(order, ledger, step).Ok?
    requires i < |ledger.attempts| && ledger.attempts[i].status == Requested && ledger.attempts[i].leaseToken.Some?
    ensures i < |Body(order, ledger, step).value.attempts|
    ensures var b, c := ledger.attempts[i], Body(order, ledger, step).value.attempts[i];
            c == b.(cancelEvent := c.cancelEvent, cancelDone := c.cancelDone)
  {
    OnlyTheFocusMoves(order, ledger, step);
  }

  // A provider answer that is worth recording at all.
  ghost predicate Usable(checkout: Checkout) {
    checkout.secure && checkout.url != "" && checkout.id != ""
  }

  ghost predicate Awaited(attempt: Attempt, lease: Option<nat>) {
    && (attempt.status == Requested || LateResult(attempt))
    && (attempt.leaseToken.None? || attempt.leaseToken == lease)
  }

  // A worker's answer is recorded exactly when the attempt still awaits one
  // under that lease (or under none: a worker superseded by one that released
  // is still heard) and no unique constraint stands against it.
  lemma ActivationAcceptedExactly(
    order: Orders.Order, ledger: Ledger, a: nat, checkout: Checkout, lease: Option<nat>, event: nat)
    requires Inv(ledger) && a < |ledger.attempts|
    ensures Execute(order, ledger, Activate(a, checkout, lease, event)).Ok?
            <==> && Usable(checkout)
                 && Awaited(ledger.attempts[a], lease)
                 && !Taken(ledger, ledger.attempts[a].account, checkout.id)
                 && !(LateResult(ledger.attempts[a]) && OpenAttempt(ledger.attempts).Some?)
                 && !Logged(ledger.history, OutboxEvent(event))
  {
    var step := Activate(a, checkout, lease, event);
    if Body(order, ledger, step).Ok? {
      IntentSoundAfterActivation(order, ledger, step);
      OneOpenFiresExactly(order, ledger, step);
      IdsFireExactly(order, ledger, step);
      KeysFireExactly(order, ledger, step);
      RowsFireExactly(order, ledger, step);
      HistoryFiresExactly(order, ledger, step);
    }
  }

  lemma IntentSoundAfterActivation(order: Orders.Order, ledger: Ledger, step: Step)
    requires Inv(ledger) && step.Activate? && Body(order, ledger, step).Ok?
    ensures var after := Body(order, ledger, step).value;
            && after.intent.Some? && IntentRowValid(after.intent.value)
            && |after.history| == |ledger.history| + 1
            && after.history[|ledger.history|].command == OutboxEvent(step.event)
  {
    StepKeepsIntentSound(order, ledger, step);
  }

  // The token holder of an attempt that is still requested, or was closed
  // locally meanwhile, gets its answer recorded unless a unique constraint
  // stands against it; the intent then asks for attention exactly when the
  // order, the intent or the account changed under it.
  lemma HolderIsRecorded(order: Orders.Order, ledger: Ledger, a: nat, checkout: Checkout, token: nat, event: nat)
    requires Inv(ledger) && a < |ledger.attempts| && ledger.attempts[a].leaseToken == Some(token)
    requires ledger.attempts[a].status == Requested
             || (ledger.attempts[a].status == AttemptStatus.Cancelled && ledger.attempts[a].externalId == "")
    requires Usable(checkout) && !Taken(ledger, ledger.attempts[a].account, checkout.id)
    requires !Logged(ledger.history, OutboxEvent(event))
    ensures var r := Execute(order, ledger, Activate(a, checkout, Some(token), event));
            && (r.Ok? <==> ledger.attempts[a].status == Requested || OpenAttempt(ledger.attempts).None?)
            && (r.Ok? ==>
                  && r.value.attempts[a].status == Active
                  && (r.value.attempts[a].externalId, r.value.attempts[a].hostedUrl) == (checkout.id, checkout.url)
                  && r.value.attempts[a].leaseToken == None
                  && r.value.intent.Some?
                  && (r.value.intent.value.status == RequiresAttention
                      <==> ContextChanged(order, ledger, ledger.attempts[a]))
                  && (r.value.intent.value.status == AwaitingPayment
                      <==> !ContextChanged(order, ledger, ledger.attempts[a])))
  {
    ActivationAcceptedExactly(order, ledger, a, checkout, Some(token), event);
  }
}

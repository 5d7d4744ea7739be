// Money that was taken is watched while the intent is PAID or asks for
// attention.  This is exactly how it stops being watched.
module PaymentAttention {
  import opened Common
  import opened Payments
  import opened PaymentSafety
  import opened PaymentGuards
  import Orders

  predicate Watched(ledger: Ledger) {
    && ledger.intent.Some?
    && (ledger.intent.value.status == IntentStatus.Paid || ledger.intent.value.status == RequiresAttention)
  }

  predicate MoneyTaken(ledger: Ledger) {
    exists i :: 0 <= i < |ledger.attempts| && ledger.attempts[i].status == AttemptStatus.Paid
  }

  predicate Alarmed(ledger: Ledger) {
    ledger.intent.Some? && ledger.intent.value.status == RequiresAttention
  }

  // The resource says, in full, something other than paid or refunded, and the
  // attempt's own record does not contradict it.
  predicate Clears(ledger: Ledger, a: nat, resource: Resource) {
    && ledger.intent.Some? && a < |ledger.attempts|
    && ledger.attempts[a].account in ledger.accounts
    && Exact(ledger.intent.value, resource)
    && var attempt := ledger.attempts[a];
       var word := MapProviderStatus(ledger.accounts[attempt.account].provider, resource.status);
       && word.Some?
       && word.value != MoveTo(IntentStatus.Paid) && word.value != MoveTo(RequiresAttention)
       && (TerminalTarget(attempt.status).None? || TerminalTarget(attempt.status) == word)
  }

  // A checkout was requested and nobody holds its lease.
  predicate CheckoutWaits(ledger: Ledger) {
    exists i :: 0 <= i < |ledger.attempts| && ledger.attempts[i].status == Requested
      && ledger.attempts[i].leaseToken.None?
  }

  // The steps that end the watch: a person or the cancellation worker brings
  // evidence about another outcome, a worker finds the order no longer
  // confirmed, or the order's cancellation meets an undispatched checkout.
  predicate EndsWatch(order: Orders.Order, ledger: Ledger, step: Step) {
    match step
    case Reconcile(_, _, resource, _, _) =>
      var found := AttemptWithId(ledger.attempts, resource.id);
      Alarmed(ledger) && found.Some? && Clears(ledger, found.value, resource)
    case ApplyCancellation(a, resource, _, _, _) => Alarmed(ledger) && Clears(ledger, a, resource)
    case ClaimCheckout(_, _) => Alarmed(ledger) && order.status != Orders.Confirmed
    case ConsumeOrderCancelled(_, _) => CheckoutWaits(ledger)
    case _ => false
  }

  // What one resource does to a watched intent.
  lemma EvidenceEndsWatch(
    ledger: Ledger, a: nat, resource: Resource, command: CommandId, source: Source,
    order: Option<Orders.OrderStatus>, now: int)
    requires Watched(ledger) && a < |ledger.attempts|
    requires ApplyResource(ledger, a, resource, command, source, order, now).Ok?
    ensures Watched(ApplyResource(ledger, a, resource, command, source, order, now).value)
            <==> !(Alarmed(ledger) && (source == FromReconciliation || source == FromCancellationWorker)
                   && Clears(ledger, a, resource))
  {
    var attempt := ledger.attempts[a];
    VerdictNeverPending(ledger.intent.value, attempt, ledger.accounts[attempt.account].provider, resource, source,
                        order);
  }

  lemma OpenAttemptIsTheOne(attempts: seq<Attempt>, i: nat)
    requires OneOpen(attempts) && i < |attempts| && Open(attempts[i].status)
    ensures OpenAttempt(attempts) == Some(i)
  {
    forall j | 0 <= j < |attempts| && Open(attempts[j].status)
      ensures j == i
    {
    }
  }

  lemma WaitingIsTheOpenOne(ledger: Ledger)
    requires OneOpen(ledger.attempts)
    ensures var found := OpenAttempt(ledger.attempts);
            CheckoutWaits(ledger) <==>
            && found.Some?
            && ledger.attempts[found.value].status == Requested
            && ledger.attempts[found.value].leaseToken.None?
  {
    if CheckoutWaits(ledger) {
      var i: nat :| && i < |ledger.attempts|
                    && ledger.attempts[i].status == Requested
                    && ledger.attempts[i].leaseToken.None?;
      OpenAttemptIsTheOne(ledger.attempts, i);
    }
  }

  // Where the consumption of the order's cancellation leaves any intent.  It
  // ends cancelled without anybody being asked when a requested checkout waits
  // unleased, or when nothing is open and the intent was still undecided,
  // even if money was taken before.
  lemma ConsumptionExactly(order: Orders.Order, ledger: Ledger, event: nat, now: int)
    requires Inv(ledger)
    requires Execute(order, ledger, ConsumeOrderCancelled(event, now)).Ok?
    ensures ledger.intent.Some? && Execute(order, ledger, ConsumeOrderCancelled(event, now)).value.intent.Some?
    ensures var before := ledger.intent.value.status;
            var after := Execute(order, ledger, ConsumeOrderCancelled(event, now)).value.intent.value.status;
            var open := OpenAttempt(ledger.attempts).Some?;
            && (after == IntentStatus.Cancelled <==>
                  || CheckoutWaits(ledger)
                  || (!open && (before == Pending || before == AwaitingPayment || before == IntentStatus.Cancelled)))
            && (after == RequiresAttention <==>
                  && !CheckoutWaits(ledger)
                  && (open || before == IntentStatus.Paid || before == IntentStatus.Processing
                      || before == RequiresAttention))
            && (after == IntentStatus.Expired <==> !open && before == IntentStatus.Expired)
  {
    WaitingIsTheOpenOne(ledger);
  }

  lemma CallbackKeepsWatch(order: Orders.Order, ledger: Ledger, step: Step)
    requires Inv(ledger) && Watched(ledger) && step.Callback? && Body(order, ledger, step).Ok?
    ensures Watched(Body(order, ledger, step).value)
  {
    if (step.account, step.resource.id, step.request) !in ledger.callbackReceipts {
      var a := AttemptFor(ledger.attempts, step.account, step.resource.id).value;
      EvidenceEndsWatch(
        ledger, a, step.resource, CallbackRequest(step.account, step.resource.id, step.request), FromCallback, None,
          step.now);
    }
  }

  lemma LookupEndsWatch(order: Orders.Order, ledger: Ledger, step: Step)
    requires Inv(ledger) && Watched(ledger) && (step.Reconcile? || step.ApplyCancellation?)
             && Body(order, ledger, step).Ok?
    ensures Watched(Body(order, ledger, step).value) <==> !EndsWatch(order, ledger, step)
  {
    match step
    case Reconcile(_, _, resource, key, now) =>
      var a := AttemptWithId(ledger.attempts, resource.id).value;
      EvidenceEndsWatch(ledger, a, resource, Client(key), FromReconciliation, None, now);
    case ApplyCancellation(a, resource, _, event, now) =>
      EvidenceEndsWatch(ledger, a, resource, OutboxEvent(event), FromCancellationWorker, Some(order.status), now);
  }

  lemma OtherStepEndsWatch(order: Orders.Order, ledger: Ledger, step: Step)
    requires Inv(ledger) && Watched(ledger) && !Evidence(step) && !step.ConsumeOrderCancelled?
    requires Body(order, ledger, step).Ok?
    ensures Watched(Body(order, ledger, step).value) <==> !EndsWatch(order, ledger, step)
  {
  }

  // Among all steps that commit, these and only these end the watch.
  lemma WatchEndsExactly(order: Orders.Order, ledger: Ledger, step: Step)
    requires Inv(ledger) && Watched(ledger) && Execute(order, ledger, step).Ok?
    ensures !Watched(Execute(order, ledger, step).value) <==> EndsWatch(order, ledger, step)
  {
    if step.Callback? {
      CallbackKeepsWatch(order, ledger, step);
    } else if step.Reconcile? || step.ApplyCancellation? {
      LookupEndsWatch(order, ledger, step);
    } else if step.ConsumeOrderCancelled? {
      ConsumptionExactly(order, ledger, step.event, step.now);
    } else {
      OtherStepEndsWatch(order, ledger, step);
    }
  }

  // --- how money gets taken ---

  lemma EvidenceTakes(
    ledger: Ledger, a: nat, resource: Resource, command: CommandId, source: Source,
    order: Option<Orders.OrderStatus>, now: int)
    requires ledger.intent.Some? && a < |ledger.attempts| && ledger.attempts[a].status != AttemptStatus.Paid
    requires ApplyResource(ledger, a, resource, command, source, order, now).Ok?
    ensures var after := ApplyResource(ledger, a, resource, command, source, order, now).value;
            after.attempts[a].status == AttemptStatus.Paid ==> Watched(after)
  {
    var attempt := ledger.attempts[a];
    VerdictNeverPending(ledger.intent.value, attempt, ledger.accounts[attempt.account].provider, resource, source,
                        order);
  }

  lemma EvidenceTakesWatched(order: Orders.Order, ledger: Ledger, step: Step)
    requires Evidence(step) && ledger.intent.Some? && Body(order, ledger, step).Ok?
    requires Focus(ledger, step) < |ledger.attempts|
             && ledger.attempts[Focus(ledger, step)].status != AttemptStatus.Paid
    ensures var after := Body(order, ledger, step).value;
            && Focus(ledger, step) < |after.attempts|
            && (after.attempts[Focus(ledger, step)].status == AttemptStatus.Paid ==> Watched(after))
  {
    var a := Focus(ledger, step);
    match step
    case Callback(account, resource, request, now) =>
      if (account, resource.id, request) !in ledger.callbackReceipts {
        EvidenceTakes(ledger, a, resource, CallbackRequest(account, resource.id, request), FromCallback, None, now);
      }
    case Reconcile(_, _, resource, key, now) =>
      EvidenceTakes(ledger, a, resource, Client(key), FromReconciliation, None, now);
    case ApplyCancellation(_, resource, _, event, now) =>
      EvidenceTakes(ledger, a, resource, OutboxEvent(event), FromCancellationWorker, Some(order.status), now);
  }

  lemma OnlyEvidenceTakes(order: Orders.Order, ledger: Ledger, step: Step, i: nat)
    requires !Evidence(step) && Body(order, ledger, step).Ok?
    requires i < |Body(order, ledger, step).value.attempts|
    ensures Body(order, ledger, step).value.attempts[i].status == AttemptStatus.Paid ==>
              i < |ledger.attempts| && ledger.attempts[i].status == AttemptStatus.Paid
  {
  }

  // The step that takes money leaves it watched.
  lemma TakenMoneyIsWatched(order: Orders.Order, ledger: Ledger, step: Step)
    requires Inv(ledger) && !MoneyTaken(ledger) && Execute(order, ledger, step).Ok?
    requires MoneyTaken(Execute(order, ledger, step).value)
    ensures Watched(Execute(order, ledger, step).value)
  {
    var after := Body(order, ledger, step).value;
    var i :| 0 <= i < |after.attempts| && after.attempts[i].status == AttemptStatus.Paid;
    OnlyTheFocusMoves(order, ledger, step);
    if Evidence(step) {
      EvidenceTakesWatched(order, ledger, step);
    } else {
      OnlyEvidenceTakes(order, ledger, step, i);
    }
  }
}

// Exactly when each payment command commits, and everything it leaves behind.
module PaymentCommands {
  import opened Common
  import opened Payments
  import opened PaymentSafety
  import opened PaymentGuards
  import opened PaymentLease
  import opened PaymentAttention
  import Orders

  predicate NothingOpen(attempts: seq<Attempt>) {
    forall i :: 0 <= i < |attempts| ==> attempts[i].status in {Failed, AttemptStatus.Paid, AttemptStatus.Cancelled,
                                                               AttemptStatus.Expired}
  }

  lemma NothingOpenIsFound(attempts: seq<Attempt>)
    ensures NothingOpen(attempts) <==> OpenAttempt(attempts).None?
  {
  }

  predicate AccountServes(ledger: Ledger, account: nat) {
    account in ledger.accounts && ledger.accounts[account].active
  }

  // The intent is one version further, whatever else happened to it.
  function Touched(intent: Intent): Intent {
    intent.(version := intent.version + 1)
  }

  // --- opening ---

  // An intent is opened for a confirmed order with something to pay, once, and
  // asks for exactly the order's total.
  lemma OpensExactly(order: Orders.Order, ledger: Ledger, manager: bool, key: string)
    requires Inv(ledger)
    ensures var r := Execute(order, ledger, CreateIntent(manager, key));
            && (r.Ok? <==> manager && order.status == Orders.Confirmed && 0 < order.totals.total && ledger.intent.None?)
            && (r.Ok? ==>
                  r.value == ledger.(
                  intent := Some(Intent(Pending, order.totals.total, "BRL", 1, None, None, None, None)),
                  history := [Entry(None, Pending, Client(key), FromCommand, None)]))
  {
    var step := CreateIntent(manager, key);
    if Body(order, ledger, step).Ok? {
      CommitsExactly(order, ledger, step);
    }
  }

  // A checkout is requested for a pending intent at the version the caller saw,
  // from a serving account, while no attempt is open.
  lemma RequestsExactly(order: Orders.Order, ledger: Ledger, manager: bool, account: nat, version: nat, key: string)
    requires Inv(ledger)
    ensures var r := Execute(order, ledger, RequestCheckout(manager, account, version, key));
            && (r.Ok? <==>
                  && manager
                  && order.status == Orders.Confirmed
                  && ledger.intent.Some?
                  && ledger.intent.value.version == version
                  && ledger.intent.value.status == Pending
                  && AccountServes(ledger, account)
                  && NothingOpen(ledger.attempts)
                  && !KeyUsed(ledger.attempts, key))
            && (r.Ok? ==>
                  exists attempt ::
                    && Undispatched(attempt) && attempt.account == account && attempt.providerKey == key
                    && attempt.dispatches == 0 && attempt.availableAt.None? && attempt.leaseExpires.None?
                    && attempt.cancelEvent.None? && attempt.cancelDone.None? && attempt.version == 1
                    && r.value == ledger.(attempts := ledger.attempts + [attempt],
                                          intent := Some(Touched(ledger.intent.value))))
  {
    var step := RequestCheckout(manager, account, version, key);
    NothingOpenIsFound(ledger.attempts);
    if Body(order, ledger, step).Ok? {
      CommitsExactly(order, ledger, step);
      var attempt := Body(order, ledger, step).value.attempts[|ledger.attempts|];
      assert Undispatched(attempt);
    }
  }

  // --- the checkout worker ---

  // Neither a back-off nor somebody's lease stands in the way.
  predicate Due(attempt: Attempt, now: int) {
    && (attempt.availableAt.Some? ==> attempt.availableAt.value <= now)
    && (attempt.leaseExpires.Some? ==> attempt.leaseExpires.value <= now)
  }

  // The order still wants this payment, by this account.
  predicate Eligible(order: Orders.Order, ledger: Ledger, a: nat)
    requires a < |ledger.attempts|
  {
    && order.status == Orders.Confirmed
    && ledger.intent.Some?
    && ledger.intent.value.status == Pending
    && AccountServes(ledger, ledger.attempts[a].account)
  }

  function WithLease(ledger: Ledger, a: nat, now: int): Ledger
    requires a < |ledger.attempts|
  {
    var attempt := ledger.attempts[a].(
                   leaseToken := Some(ledger.nextToken), leaseExpires := Some(now + 90), availableAt := None,
                   dispatches := ledger.attempts[a].dispatches + 1);
    ledger.(attempts := ledger.attempts[a := attempt], nextToken := ledger.nextToken + 1)
  }

  function Ended(ledger: Ledger, a: nat, status: AttemptStatus): Ledger
    requires a < |ledger.attempts|
  {
    ledger.(attempts := ledger.attempts[a := ledger.attempts[a].(status := status,
                                                                 version := ledger.attempts[a].version + 1)])
  }

  // A claim leases an eligible request for ninety seconds under a fresh token.
  // It ends a request whose context changed: as failed when only the account
  // stopped serving, else as cancelled, and with it an intent that is still
  // undecided when the order itself is gone.
  lemma ClaimsExactly(order: Orders.Order, ledger: Ledger, a: nat, now: int)
    requires Inv(ledger) && a < |ledger.attempts|
    ensures var r := Execute(order, ledger, ClaimCheckout(a, now));
            var gone := order.status != Orders.Confirmed;
            && ledger.intent.Some?
            && var intent := ledger.intent.value;
               var decided := intent.status in {IntentStatus.Paid, IntentStatus.Cancelled, IntentStatus.Expired};
               && (r.Ok? <==>
                     && ledger.attempts[a].status == Requested
                     && Due(ledger.attempts[a], now)
                     && (!gone || decided || !Logged(ledger.history, Ineligible(a))))
               && (r.Ok? ==>
                     r.value ==
                     if Eligible(order, ledger, a) then WithLease(ledger, a, now)
                     else if gone && !decided then
                       Ended(ledger, a, AttemptStatus.Cancelled).(
                         intent := Some(Touched(intent).(status := IntentStatus.Cancelled, attention := None,
                                                         cancelledAt := Some(now))),
                         history := ledger.history + [Entry(Some(intent.status), IntentStatus.Cancelled, Ineligible(a),
                                                            FromWorker, Some(OrderNotConfirmed))])
                     else if gone || intent.status != Pending then Ended(ledger, a, AttemptStatus.Cancelled)
                     else Ended(ledger, a, Failed).(intent := Some(Touched(intent))))
  {
    var step := ClaimCheckout(a, now);
    if Body(order, ledger, step).Ok? {
      CommitsExactly(order, ledger, step);
    }
  }

  // Only the holder gives a lease back; anybody else's release changes nothing.
  lemma ReleasesExactly(order: Orders.Order, ledger: Ledger, a: nat, token: nat, failed: bool, now: int)
    requires Inv(ledger)
    ensures Execute(order, ledger, ReleaseLease(a, token, failed, now)) ==
            Ok(if a < |ledger.attempts| && ledger.attempts[a].leaseToken == Some(token) then
                 ledger.(attempts := ledger.attempts[a := ledger.attempts[a].(
                         leaseToken := None, leaseExpires := None,
                         availableAt := if failed then Some(now + Backoff(ledger.attempts[a].dispatches)) else None)])
               else ledger)
  {
    var step := ReleaseLease(a, token, failed, now);
    if Body(order, ledger, step).Ok? {
      CommitsExactly(order, ledger, step);
    }
  }

  // Everything a recorded checkout leaves behind.
  lemma ActivationLeaves(
    order: Orders.Order, ledger: Ledger, a: nat, checkout: Checkout, lease: Option<nat>, event: nat)
    requires Inv(ledger) && a < |ledger.attempts|
    requires Execute(order, ledger, Activate(a, checkout, lease, event)).Ok?
    ensures ledger.intent.Some?
    ensures var before := ledger.attempts[a];
            var intact := && order.status == Orders.Confirmed && ledger.intent.value.status == Pending
                          && AccountServes(ledger, before.account);
            var status := if intact then AwaitingPayment else RequiresAttention;
            var reason := if intact then None else Some(DispatchContextChanged);
            Execute(order, ledger, Activate(a, checkout, lease, event)) ==
            Ok(ledger.(
               attempts := ledger.attempts[a := before.(
                 status := Active, externalId := checkout.id, hostedUrl := checkout.url,
                 expiresAt := checkout.expiresAt, leaseToken := None, leaseExpires := None, availableAt := None,
                 version := before.version + 1)],
               intent := Some(Touched(ledger.intent.value).(status := status, attention := reason)),
               history := ledger.history
                 + [Entry(Some(ledger.intent.value.status), status, OutboxEvent(event), FromWorker, reason)]))
  {
  }

  // --- cancelling ---

  // The one open attempt that a cancellation is about.
  ghost predicate OpenAt(ledger: Ledger, a: nat) {
    && a < |ledger.attempts|
    && ledger.attempts[a].status in {Requested, Active, AttemptStatus.Processing}
  }

  // A manager cancels the open attempt: here and at once when nobody may be
  // talking to the provider about it, else by asking the worker, once at a time.
  lemma CancelsExactly(order: Orders.Order, ledger: Ledger, manager: bool, version: nat)
    requires Inv(ledger)
    ensures var r := Execute(order, ledger, RequestCancellation(manager, version));
            && (r.Ok? <==>
                  && manager
                  && ledger.intent.Some?
                  && ledger.intent.value.version == version
                  && exists a: nat :: OpenAt(ledger, a)
                                 && (ledger.attempts[a].cancelEvent.Some? ==> ledger.attempts[a].cancelDone.Some?))
            && (r.Ok? ==>
                  forall a: nat :: OpenAt(ledger, a) ==>
                    var attempt := ledger.attempts[a];
                    r.value ==
                    if attempt.status == Requested && attempt.leaseToken.None? then
                      ledger.(
                      intent := Some(Touched(ledger.intent.value)),
                      attempts := ledger.attempts[a := attempt.(
                        status := AttemptStatus.Cancelled, version := attempt.version + 1, leaseExpires := None,
                        availableAt := None)])
                    else
                      ledger.(
                      intent := Some(Touched(ledger.intent.value)),
                      attempts := ledger.attempts[a := attempt.(cancelEvent := Some(ledger.nextEvent),
                                                                cancelDone := None)],
                      nextEvent := ledger.nextEvent + 1))
  {
    var step := RequestCancellation(manager, version);
    forall a: nat | OpenAt(ledger, a)
      ensures OpenAttempt(ledger.attempts) == Some(a)
    {
      OpenAttemptIsTheOne(ledger.attempts, a);
    }
    if OpenAttempt(ledger.attempts).Some? {
      assert OpenAt(ledger, OpenAttempt(ledger.attempts).value);
    }
    if Body(order, ledger, step).Ok? {
      CommitsExactly(order, ledger, step);
    }
  }

  // The cancellation worker leases an attempt the provider knows.
  lemma CancellationIsClaimedExactly(order: Orders.Order, ledger: Ledger, a: nat, now: int)
    requires Inv(ledger)
    ensures var r := Execute(order, ledger, ClaimCancellation(a, now));
            && (r.Ok? <==>
                  && a < |ledger.attempts|
                  && ledger.attempts[a].status in {Active, AttemptStatus.Processing}
                  && ledger.attempts[a].externalId != ""
                  && Due(ledger.attempts[a], now))
            && (r.Ok? ==> r.value == WithLease(ledger, a, now))
  {
    var step := ClaimCancellation(a, now);
    if Body(order, ledger, step).Ok? {
      CommitsExactly(order, ledger, step);
    }
  }

  // An event whose attempt ended meanwhile is ticked off, nothing else.
  lemma CompletesExactly(order: Orders.Order, ledger: Ledger, a: nat, event: nat, now: int)
    requires Inv(ledger)
    ensures Execute(order, ledger, CompleteCancellation(a, event, now)) ==
            Ok(if a < |ledger.attempts| && !OpenAt(ledger, a) && ledger.attempts[a].cancelEvent == Some(event)
                  && ledger.attempts[a].cancelDone.None?
               then ledger.(attempts := ledger.attempts[a := ledger.attempts[a].(cancelDone := Some(now))])
               else ledger)
  {
    var step := CompleteCancellation(a, event, now);
    CommitsExactly(order, ledger, step);
  }

  // --- reopening ---

  // A payment is reopened when its last attempt ended without money and the
  // intent was not taken further.
  lemma ReopensExactly(order: Orders.Order, ledger: Ledger, manager: bool, version: nat, key: string)
    requires Inv(ledger)
    ensures Execute(order, ledger, Reopen(manager, version, key)).Ok? <==>
            && manager
            && order.status == Orders.Confirmed
            && ledger.intent.Some?
            && ledger.intent.value.version == version
            && ledger.intent.value.status in {Pending, IntentStatus.Cancelled, IntentStatus.Expired}
            && NothingOpen(ledger.attempts)
            && ledger.attempts != []
            && ledger.attempts[|ledger.attempts| - 1].status != AttemptStatus.Paid
            && (ledger.intent.value.status == Pending || !Logged(ledger.history, Client(key)))
  {
    var step := Reopen(manager, version, key);
    NothingOpenIsFound(ledger.attempts);
    if Body(order, ledger, step).Ok? {
      CommitsExactly(order, ledger, step);
    }
  }

  // It is pending again, without its attention, cancellation and expiry; one
  // that was still pending is logged nothing.
  lemma ReopeningLeaves(order: Orders.Order, ledger: Ledger, manager: bool, version: nat, key: string)
    requires Execute(order, ledger, Reopen(manager, version, key)).Ok?
    ensures ledger.intent.Some?
    ensures var intent := ledger.intent.value;
            Execute(order, ledger, Reopen(manager, version, key)) ==
            Ok(ledger.(
               intent := Some(Intent(Pending, intent.amount, intent.currency, version + 1, None, intent.paidAt, None,
                                     None)),
               history := if intent.status == Pending then ledger.history
               else ledger.history
                    + [Entry(Some(intent.status), Pending, Client(key), FromCommand, Some(VerifiedAttemptClosed))]))
  {
  }

  // --- the order's cancellation ---

  // The intent after the consumer decided it.
  function Closed(ledger: Ledger, status: IntentStatus, reason: Reason, event: nat, now: int): Ledger
    requires ledger.intent.Some?
  {
    var intent := ledger.intent.value;
    ledger.(
    intent := Some(Touched(intent).(
      status := status,
      attention := if status == RequiresAttention then Some(reason) else None,
      cancelledAt := if status == IntentStatus.Cancelled then Some(now) else intent.cancelledAt)),
    history := ledger.history + [Entry(Some(intent.status), status, OrderEvent(event), FromOrderEvent, Some(reason))])
  }

  lemma ConsumptionCommits(order: Orders.Order, ledger: Ledger, event: nat, now: int)
    requires Inv(ledger) && !Logged(ledger.history, OrderEvent(event))
    ensures Execute(order, ledger, ConsumeOrderCancelled(event, now)) ==
            ConsumeOrderCancelledBody(order, ledger, event, now)
  {
    var step := ConsumeOrderCancelled(event, now);
    if Body(order, ledger, step).Ok? {
      CommitsExactly(order, ledger, step);
    }
  }

  // A requested checkout that waits unleased is cancelled with its intent.
  lemma WaitingCheckoutIsWithdrawn(order: Orders.Order, ledger: Ledger, a: nat, event: nat, now: int)
    requires Inv(ledger) && ledger.intent.Some? && order.status == Orders.Cancelled
    requires !Logged(ledger.history, OrderEvent(event))
    requires OpenAt(ledger, a) && ledger.attempts[a].status == Requested && ledger.attempts[a].leaseToken.None?
    ensures Execute(order, ledger, ConsumeOrderCancelled(event, now)) ==
            Ok(Closed(Ended(ledger, a, AttemptStatus.Cancelled), IntentStatus.Cancelled, OrderCancelled, event, now))
  {
    OpenAttemptIsTheOne(ledger.attempts, a);
    ConsumptionCommits(order, ledger, event, now);
  }

  // Otherwise what the provider may know of asks for attention, an untouched
  // intent is cancelled, and one already withdrawn or alarmed is left alone.
  lemma ConsumptionLeaves(order: Orders.Order, ledger: Ledger, event: nat, now: int)
    requires Inv(ledger) && ledger.intent.Some? && order.status == Orders.Cancelled
    requires !Logged(ledger.history, OrderEvent(event)) && !CheckoutWaits(ledger)
    ensures var status := ledger.intent.value.status;
            Execute(order, ledger, ConsumeOrderCancelled(event, now)) ==
            Ok(if !NothingOpen(ledger.attempts) || status in {IntentStatus.Paid, IntentStatus.Processing} then
                 Closed(ledger, RequiresAttention, OrderCancelledWithOpenOrPaidPayment, event, now)
               else if status in {Pending, AwaitingPayment} then
                 Closed(ledger, IntentStatus.Cancelled, OrderCancelled, event, now)
               else ledger)
  {
    WaitingIsTheOpenOne(ledger);
    NothingOpenIsFound(ledger.attempts);
    ConsumptionCommits(order, ledger, event, now);
  }

  lemma ConsumptionIsRefused(order: Orders.Order, ledger: Ledger, event: nat, now: int)
    requires Inv(ledger)
    requires order.status != Orders.Cancelled || ledger.intent.None?
    ensures Execute(order, ledger, ConsumeOrderCancelled(event, now)) == Err(InvalidPayment)
  {
  }

  // --- accounts ---

  // An account keeps its provider, and only Mercado Pago accounts take callbacks.
  lemma AccountsAreSetExactly(
    order: Orders.Order, ledger: Ledger, account: nat, provider: Provider, active: bool, callbacks: bool)
    requires Inv(ledger)
    ensures var r := Execute(order, ledger, SetAccount(account, provider, active, callbacks));
            && (r.Ok? <==>
                  && (account in ledger.accounts ==> ledger.accounts[account].provider == provider)
                  && (callbacks ==> provider == MercadoPago))
            && (r.Ok? ==>
                  r.value == ledger.(accounts := ledger.accounts[account := Account(provider, active, callbacks)]))
  {
    var step := SetAccount(account, provider, active, callbacks);
    if Body(order, ledger, step).Ok? {
      CommitsExactly(order, ledger, step);
    }
  }

  // An objection to a checkout result is the worker's to handle when it is about
  // the attempt row, and a defect when it is about the history; objections to
  // any other step are always defects.
  lemma ObjectionRaisesExactly(order: Orders.Order, ledger: Ledger, step: Step)
    requires Inv(ledger) && Body(order, ledger, step).Ok? && Objection(order, ledger, step)
    ensures Execute(order, ledger, step) ==
            Err(if step.Activate?
                   && (|| Taken(ledger, ledger.attempts[step.attempt].account, step.checkout.id)
                       || (LateResult(ledger.attempts[step.attempt]) && !NothingOpen(ledger.attempts)))
                then InvalidPayment else IntegrityViolation)
  {
    NothingOpenIsFound(ledger.attempts);
    CommitsExactly(order, ledger, step);
    OneOpenFiresExactly(order, ledger, step);
    IdsFireExactly(order, ledger, step);
    KeysFireExactly(order, ledger, step);
    RowsFireExactly(order, ledger, step);
  }

  // --- refusals ---

  predicate NeedsManager(step: Step) {
    step.CreateIntent? || step.RequestCheckout? || step.Reconcile? || step.RequestCancellation? || step.Reopen?
  }

  predicate ChecksVersion(step: Step) {
    step.RequestCheckout? || step.Reconcile? || step.RequestCancellation? || step.Reopen?
  }

  // No attempt of this payment is the one the provider talks about.
  predicate NobodysResource(ledger: Ledger, resource: Resource) {
    forall i :: 0 <= i < |ledger.attempts| ==> ledger.attempts[i].externalId != resource.id
  }

  // What the named error says is wrong with the step.
  ghost predicate Explains(order: Orders.Order, ledger: Ledger, step: Step, error: PaymentError) {
    match error
    case PermissionDenied => NeedsManager(step) && !step.manager
    case VersionConflict =>
      ChecksVersion(step) && ledger.intent.Some? && ledger.intent.value.version != step.version
    case OrganizationMismatch =>
      || ledger.intent.None?
      || (step.RequestCheckout? && !AccountServes(ledger, step.account))
      || (step.Activate? && |ledger.attempts| <= step.attempt)
      || (step.Callback? && forall i :: 0 <= i < |ledger.attempts| ==>
            ledger.attempts[i].account != step.account || ledger.attempts[i].externalId != step.resource.id)
      || (step.Reconcile? && NobodysResource(ledger, step.resource))
      || (step.ApplyCancellation? && step.attempt < |ledger.attempts|
          && ledger.attempts[step.attempt].externalId != step.resource.id)
      || (Evidence(step) && exists i :: 0 <= i < |ledger.attempts| && ledger.attempts[i].account !in ledger.accounts)
    case InvalidPayment => NeedsManager(step) ==> step.manager
    case IntegrityViolation =>
      (step.SetAccount? && step.callbacks) || (Body(order, ledger, step).Ok? && Objection(order, ledger, step))
  }

  // A refusal names something that is wrong.
  lemma RefusalIsTruthful(order: Orders.Order, ledger: Ledger, step: Step)
    requires Inv(ledger) && Execute(order, ledger, step).Err?
    ensures Explains(order, ledger, step, Execute(order, ledger, step).error)
  {
    if Body(order, ledger, step).Ok? {
      CommitsExactly(order, ledger, step);
    } else {
      OwnRefusalIsTruthful(order, ledger, step);
    }
  }

  lemma OwnRefusalIsTruthful(order: Orders.Order, ledger: Ledger, step: Step)
    requires Inv(ledger) && Body(order, ledger, step).Err?
    ensures Explains(order, ledger, step, Body(order, ledger, step).error)
  {
    if Evidence(step) {
      EvidenceRefusalIsTruthful(order, ledger, step);
    } else {
      CommandRefusalIsTruthful(order, ledger, step);
    }
  }

  lemma EvidenceRefusalIsTruthful(order: Orders.Order, ledger: Ledger, step: Step)
    requires Inv(ledger) && Evidence(step) && Body(order, ledger, step).Err?
    ensures Explains(order, ledger, step, Body(order, ledger, step).error)
  {
  }

  lemma CommandRefusalIsTruthful(order: Orders.Order, ledger: Ledger, step: Step)
    requires !Evidence(step) && Body(order, ledger, step).Err?
    ensures Explains(order, ledger, step, Body(order, ledger, step).error)
  {
  }
}

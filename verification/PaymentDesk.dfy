// The payment service in the form the program has: fields reassigned step by
// step inside a transaction that the database may still reject.  Every method
// answers exactly as Payments.Execute says.
module PaymentService {
  import opened Common
  import opened Payments
  import Orders

  // A service call either leaves exactly the ledger the specification commits,
  // or raises the specified error and leaves every field as it was.
  ghost predicate Answers(before: Ledger, after: Ledger, r: Result<(), PaymentError>, spec: Outcome) {
    match spec
    case Ok(ledger) => r == Ok(()) && after == ledger
    case Err(error) => r == Err(error) && after == before
  }

  class PaymentDesk {
    var intent: Option<Intent>
    var attempts: seq<Attempt>
    var history: seq<Entry>
    var accounts: map<nat, Account>
    var foreignIds: set<(nat, string)>
    var callbackReceipts: set<(nat, string, string)>
    var nextToken: nat
    var nextEvent: nat

    function Snapshot(): Ledger
      reads this
    {
      Ledger(intent, attempts, history, accounts, foreignIds, callbackReceipts, nextToken, nextEvent)
    }

    constructor ()
      ensures Snapshot() == NewLedger
    {
      intent, attempts, history, accounts := None, [], [], map[];
      foreignIds, callbackReceipts, nextToken, nextEvent := {}, {}, 0, 0;
    }

    // --- the transaction boundary ---

    method RollBack(savepoint: Ledger)
      modifies this
      ensures Snapshot() == savepoint
    {
      intent, attempts, history := savepoint.intent, savepoint.attempts, savepoint.history;
      accounts, foreignIds, callbackReceipts := savepoint.accounts, savepoint.foreignIds, savepoint.callbackReceipts;
      nextToken, nextEvent := savepoint.nextToken, savepoint.nextEvent;
    }

    method Save(savepoint: Ledger) returns (r: Result<(), PaymentError>)
      modifies this
      ensures if Constraints(old(Snapshot())) then r == Ok(()) && Snapshot() == old(Snapshot())
              else r == Err(IntegrityViolation) && Snapshot() == savepoint
    {
      if Constraints(Snapshot()) {
        return Ok(());
      }
      RollBack(savepoint);
      r := Err(IntegrityViolation);
    }

    method Log(before: Option<IntentStatus>, command: CommandId, source: Source, reason: Option<Reason>)
      requires intent.Some?
      modifies this`history
      ensures history == old(history) + [Entry(before, intent.value.status, command, source, reason)]
    {
      history := history + [Entry(before, intent.value.status, command, source, reason)];
    }

    // --- provider evidence ---

    // The new status of one attempt and of its intent.
    static method Retarget(status: AttemptStatus, target: Target, reason: Option<Reason>)
      returns (attemptStatus: AttemptStatus, intentStatus: IntentStatus)
      requires target != MoveTo(Pending)
      ensures attemptStatus == ShiftAttempt(status, target, reason)
      ensures intentStatus == if target == FailAttempt then Pending else target.status
    {
      attemptStatus := status;
      if target == FailAttempt {
        return Failed, Pending;
      }
      intentStatus := target.status;
      if intentStatus == RequiresAttention {
        if reason == Some(OrderCancelledWithPaidPayment) {
          attemptStatus := AttemptStatus.Paid;
        } else if status !in {AttemptStatus.Paid, Failed, AttemptStatus.Cancelled, AttemptStatus.Expired} {
          attemptStatus := AttemptStatus.Processing;
        }
      } else if intentStatus == AwaitingPayment {
        attemptStatus := Active;
      } else if intentStatus == IntentStatus.Processing {
        attemptStatus := AttemptStatus.Processing;
      } else if intentStatus == IntentStatus.Paid {
        attemptStatus := AttemptStatus.Paid;
      } else if intentStatus == IntentStatus.Cancelled {
        attemptStatus := AttemptStatus.Cancelled;
      } else {
        attemptStatus := AttemptStatus.Expired;
      }
    }

    // Move the intent and one attempt to the target, stamping and logging.
    method CanonicalTransition(
      a: nat, target: Target, command: CommandId, source: Source, reason: Option<Reason>, now: int)
      requires intent.Some? && a < |attempts|
      requires target != MoveTo(Pending)
      modifies this`intent, this`attempts, this`history
      ensures Snapshot() == ShiftLedger(old(Snapshot()), a, target, reason, command, source, now)
    {
      var payment := intent.value;
      var attempt := attempts[a];
      var from := payment.status;
      var attemptStatus, intentStatus := Retarget(attempt.status, target, reason);
      attempt := attempt.(status := attemptStatus);
      payment := payment.(status := intentStatus, attention := None);
      if payment.status == RequiresAttention {
        payment := payment.(attention := if reason.Some? then reason else Some(ProviderInconsistency));
      } else if payment.status == IntentStatus.Paid {
        payment := payment.(paidAt := Some(now));
      } else if payment.status == IntentStatus.Cancelled {
        payment := payment.(cancelledAt := Some(now));
      } else if payment.status == IntentStatus.Expired {
        payment := payment.(expiredAt := Some(now));
      }
      payment := payment.(version := payment.version + 1);
      attempt := attempt.(version := attempt.version + 1);
      intent := Some(payment);
      attempts := attempts[a := attempt];
      Log(Some(from), command, source, reason);
    }

    // The target and its reason are overwritten check by check; the last
    // objection raised is the one recorded.
    static method Decide(
      payment: Intent, attempt: Attempt, provider: Provider, resource: Resource, source: Source,
      order: Option<Orders.OrderStatus>) returns (verdict: Verdict)
      ensures verdict == Judge(payment, attempt, provider, resource, source, order)
    {
      var target := MoveTo(RequiresAttention);
      var reason := None;
      var mapped := MapProviderStatus(provider, resource.status);
      if mapped.Some? {
        target := mapped.value;
      } else if source != FromCancellationWorker {
        return Unknown;
      } else {
        reason := Some(UnknownProviderStatus);
      }
      if resource.currency != payment.currency || resource.amountMinor != payment.amount {
        target := MoveTo(RequiresAttention);
        reason := Some(AmountOrCurrencyMismatch);
      } else if order == Some(Orders.Cancelled) && target == MoveTo(IntentStatus.Paid) {
        target := MoveTo(RequiresAttention);
        reason := Some(OrderCancelledWithPaidPayment);
      }
      var recorded := TerminalTarget(attempt.status);
      if recorded.Some? && target != recorded.value {
        target := MoveTo(RequiresAttention);
        reason := Some(NonMonotonicProviderEvent);
      }
      assert (target, reason) == Claimed(payment, attempt, mapped, resource, order);
      if payment.status == RequiresAttention && source !in {FromReconciliation, FromCancellationWorker} {
        return Locked;
      }
      var leavesSettled := Settled(payment.status) && target != MoveTo(payment.status);
      var goesBack :=
        !Settled(payment.status) && payment.status != RequiresAttention && target != MoveTo(payment.status)
        && target != FailAttempt && !Monotonic(payment.status, target.status);
      if leavesSettled || goesBack {
        target := MoveTo(RequiresAttention);
        reason := Some(NonMonotonicProviderEvent);
      }
      var changed :=
        if target == FailAttempt then attempt.status != Failed || payment.status != Pending
        else target != MoveTo(payment.status);
      verdict := if changed then Shift(target, reason) else Stay;
    }

    method Apply(
      a: nat, resource: Resource, command: CommandId, source: Source, order: Option<Orders.OrderStatus>, now: int)
      returns (r: Result<(), PaymentError>)
      requires intent.Some? && a < |attempts|
      modifies this`intent, this`attempts, this`history
      ensures Answers(old(Snapshot()), Snapshot(), r,
                      ApplyResource(old(Snapshot()), a, resource, command, source, order, now))
    {
      var account := attempts[a].account;
      if account !in accounts {
        return Err(OrganizationMismatch);
      }
      var verdict := Decide(intent.value, attempts[a], accounts[account].provider, resource, source, order);
      if verdict.Unknown? {
        return Err(InvalidPayment);
      }
      if verdict.Shift? {
        VerdictNeverPending(intent.value, attempts[a], accounts[account].provider, resource, source, order);
        CanonicalTransition(a, verdict.target, command, source, verdict.reason, now);
      }
      r := Ok(());
    }

    // --- commands ---

    method OpenIntent(order: Orders.Order, manager: bool, key: string) returns (r: Result<(), PaymentError>)
      modifies this
      ensures Answers(old(Snapshot()), Snapshot(), r, Execute(order, old(Snapshot()), CreateIntent(manager, key)))
    {
      if !manager {
        return Err(PermissionDenied);
      }
      if order.status != Orders.Confirmed || order.totals.total <= 0 || intent.Some? {
        return Err(InvalidPayment);
      }
      var savepoint := Snapshot();
      intent := Some(Intent(Pending, order.totals.total, CURRENCY, 1, None, None, None, None));
      Log(None, Client(key), FromCommand, None);
      r := Save(savepoint);
    }

    method AskForCheckout(order: Orders.Order, manager: bool, account: nat, version: nat, key: string)
      returns (r: Result<(), PaymentError>)
      modifies this
      ensures Answers(old(Snapshot()), Snapshot(), r,
                      Execute(order, old(Snapshot()), RequestCheckout(manager, account, version, key)))
    {
      if !manager {
        return Err(PermissionDenied);
      }
      if intent.None? {
        return Err(OrganizationMismatch);
      }
      if intent.value.version != version {
        return Err(VersionConflict);
      }
      if order.status != Orders.Confirmed || intent.value.status != Pending {
        return Err(InvalidPayment);
      }
      if !AccountActive(accounts, account) {
        return Err(OrganizationMismatch);
      }
      if OpenAttempt(attempts).Some? {
        return Err(InvalidPayment);
      }
      var savepoint := Snapshot();
      attempts := attempts + [Attempt(account, Requested, key, "", "", None, None, None, 0, None, None, 1, None)];
      intent := Some(intent.value.(version := intent.value.version + 1));
      r := Save(savepoint);
    }

    // --- the checkout worker ---

    method Claim(order: Orders.Order, a: nat, now: int) returns (r: Result<(), PaymentError>)
      modifies this
      ensures Answers(old(Snapshot()), Snapshot(), r, Execute(order, old(Snapshot()), ClaimCheckout(a, now)))
    {
      if |attempts| <= a {
        return Err(InvalidPayment);
      }
      if intent.None? {
        return Err(OrganizationMismatch);
      }
      var payment, attempt := intent.value, attempts[a];
      if attempt.status != Requested || Waiting(attempt.availableAt, now) || Waiting(attempt.leaseExpires, now) {
        return Err(InvalidPayment);
      }
      var savepoint := Snapshot();
      var ineligible := true;
      if order.status != Orders.Confirmed || payment.status != Pending {
        attempt := attempt.(status := AttemptStatus.Cancelled);
      } else if !AccountActive(accounts, attempt.account) {
        attempt := attempt.(status := Failed);
      } else {
        ineligible := false;
      }
      if ineligible {
        attempt := attempt.(version := attempt.version + 1);
        attempts := attempts[a := attempt];
        if order.status != Orders.Confirmed {
          if !Settled(payment.status) {
            var from := payment.status;
            payment := payment.(status := IntentStatus.Cancelled, attention := None, cancelledAt := Some(now));
            intent := Some(payment.(version := payment.version + 1));
            Log(Some(from), Ineligible(a), FromWorker, Some(OrderNotConfirmed));
          }
        } else if payment.status == Pending {
          intent := Some(payment.(version := payment.version + 1));
        }
      } else {
        attempts := attempts[a := Leased(attempt, nextToken, now)];
        nextToken := nextToken + 1;
      }
      assert ClaimCheckoutBody(order, savepoint, a, now) == Ok(Snapshot());
      r := Save(savepoint);
    }

    method Release(
      order: Orders.Order, a: nat, token: nat, failed: bool, now: int) returns (r: Result<(), PaymentError>)
      modifies this
      ensures Answers(old(Snapshot()), Snapshot(), r,
                      Execute(order, old(Snapshot()), ReleaseLease(a, token, failed, now)))
    {
      var savepoint := Snapshot();
      if a < |attempts| && attempts[a].leaseToken == Some(token) {
        if intent.None? {
          return Err(OrganizationMismatch);
        }
        var attempt := attempts[a].(leaseToken := None, leaseExpires := None);
        attempt := attempt.(availableAt := None);
        if failed {
          attempt := attempt.(availableAt := Some(now + Backoff(attempt.dispatches)));
        }
        attempts := attempts[a := attempt];
      }
      r := Save(savepoint);
    }

    method NoteActivation(changed: bool, event: nat)
      requires intent.Some?
      modifies this`intent, this`history
      ensures var status := if changed then RequiresAttention else AwaitingPayment;
              var reason := if changed then Some(DispatchContextChanged) else None;
              && intent == Some(old(intent.value).(status := status, attention := reason,
                                                   version := old(intent.value.version) + 1))
              && history == old(history) + [Entry(Some(old(intent.value.status)), status, OutboxEvent(event),
                                                  FromWorker, reason)]
    {
      var payment := intent.value;
      var from := payment.status;
      var reason := None;
      payment := payment.(status := AwaitingPayment);
      if changed {
        payment := payment.(status := RequiresAttention);
        reason := Some(DispatchContextChanged);
      }
      intent := Some(payment.(attention := reason, version := payment.version + 1));
      Log(Some(from), OutboxEvent(event), FromWorker, reason);
    }

    method RecordCheckout(order: Orders.Order, a: nat, checkout: Checkout, lease: Option<nat>, event: nat)
      returns (r: Result<(), PaymentError>)
      modifies this
      ensures Answers(old(Snapshot()), Snapshot(), r,
                      Execute(order, old(Snapshot()), Activate(a, checkout, lease, event)))
    {
      if !checkout.secure || checkout.url == "" || checkout.id == "" {
        return Err(InvalidPayment);
      }
      if intent.None? || |attempts| <= a {
        return Err(OrganizationMismatch);
      }
      var payment, attempt := intent.value, attempts[a];
      if attempt.status != Requested && !LateResult(attempt) {
        return Err(InvalidPayment);
      }
      if attempt.leaseToken.Some? && attempt.leaseToken != lease {
        return Err(InvalidPayment);
      }
      var savepoint := Snapshot();
      var changed := ContextChanged(order, savepoint, attempt);
      attempt := attempt.(externalId := checkout.id, hostedUrl := checkout.url);
      attempt := attempt.(expiresAt := checkout.expiresAt, status := Active);
      attempt := attempt.(leaseToken := None, leaseExpires := None, availableAt := None,
                          version := attempt.version + 1);
      attempts := attempts[a := attempt];
      ghost var body := ActivateBody(order, savepoint, a, checkout, lease, event);
      assert body.Ok? && attempts == body.value.attempts;
      if !AttemptsValid(attempts, foreignIds) {
        RollBack(savepoint);
        return Err(InvalidPayment);
      }
      NoteActivation(changed, event);
      assert body == Ok(Snapshot());
      r := Save(savepoint);
    }

    // --- evidence arriving ---

    method Hear(order: Orders.Order, account: nat, resource: Resource, request: string, now: int)
      returns (r: Result<(), PaymentError>)
      modifies this
      ensures Answers(old(Snapshot()), Snapshot(), r,
                      Execute(order, old(Snapshot()), Callback(account, resource, request, now)))
    {
      if resource.id == "" || !AccountActive(accounts, account) {
        return Err(InvalidPayment);
      }
      if !accounts[account].callbacks || accounts[account].provider != MercadoPago {
        return Err(InvalidPayment);
      }
      var savepoint := Snapshot();
      if (account, resource.id, request) !in callbackReceipts {
        var found := AttemptFor(attempts, account, resource.id);
        if found.None? || intent.None? {
          return Err(OrganizationMismatch);
        }
        r := Apply(found.value, resource, CallbackRequest(account, resource.id, request), FromCallback, None, now);
        if r.Err? {
          return;
        }
        callbackReceipts := callbackReceipts + {(account, resource.id, request)};
      }
      r := Save(savepoint);
    }

    method ReconcileResource(
      order: Orders.Order, manager: bool, version: nat, resource: Resource, key: string, now: int)
      returns (r: Result<(), PaymentError>)
      modifies this
      ensures Answers(old(Snapshot()), Snapshot(), r,
                      Execute(order, old(Snapshot()), Reconcile(manager, version, resource, key, now)))
    {
      if !manager {
        return Err(PermissionDenied);
      }
      if intent.None? {
        return Err(OrganizationMismatch);
      }
      if intent.value.version != version {
        return Err(VersionConflict);
      }
      var found := AttemptWithId(attempts, resource.id);
      if found.None? {
        return Err(OrganizationMismatch);
      }
      var savepoint := Snapshot();
      r := Apply(found.value, resource, Client(key), FromReconciliation, None, now);
      if r.Ok? {
        r := Save(savepoint);
      }
    }

    // --- cancelling and reopening ---

    method AskForCancellation(order: Orders.Order, manager: bool, version: nat) returns (r: Result<(), PaymentError>)
      modifies this
      ensures Answers(old(Snapshot()), Snapshot(), r,
                      Execute(order, old(Snapshot()), RequestCancellation(manager, version)))
    {
      if !manager {
        return Err(PermissionDenied);
      }
      if intent.None? {
        return Err(OrganizationMismatch);
      }
      if intent.value.version != version {
        return Err(VersionConflict);
      }
      var found := OpenAttempt(attempts);
      if found.None? {
        return Err(InvalidPayment);
      }
      var a := found.value;
      var attempt := attempts[a];
      if attempt.cancelEvent.Some? && attempt.cancelDone.None? {
        return Err(InvalidPayment);
      }
      var savepoint := Snapshot();
      if attempt.status == Requested && attempt.leaseToken.None? {
        attempt := attempt.(status := AttemptStatus.Cancelled, leaseToken := None, leaseExpires := None,
                            availableAt := None);
        attempt := attempt.(version := attempt.version + 1);
      } else {
        attempt := attempt.(cancelEvent := Some(nextEvent), cancelDone := None);
        nextEvent := nextEvent + 1;
      }
      attempts := attempts[a := attempt];
      intent := Some(intent.value.(version := intent.value.version + 1));
      r := Save(savepoint);
    }

    method ClaimForCancellation(order: Orders.Order, a: nat, now: int) returns (r: Result<(), PaymentError>)
      modifies this
      ensures Answers(old(Snapshot()), Snapshot(), r, Execute(order, old(Snapshot()), ClaimCancellation(a, now)))
    {
      if |attempts| <= a {
        return Err(InvalidPayment);
      }
      if intent.None? {
        return Err(OrganizationMismatch);
      }
      var attempt := attempts[a];
      if attempt.status !in {Active, AttemptStatus.Processing} || attempt.externalId == "" {
        return Err(InvalidPayment);
      }
      if Waiting(attempt.availableAt, now) || Waiting(attempt.leaseExpires, now) {
        return Err(InvalidPayment);
      }
      var savepoint := Snapshot();
      attempts := attempts[a := Leased(attempt, nextToken, now)];
      nextToken := nextToken + 1;
      r := Save(savepoint);
    }

    method CloseCancellationEvent(
      order: Orders.Order, a: nat, event: nat, now: int) returns (r: Result<(), PaymentError>)
      modifies this
      ensures Answers(old(Snapshot()), Snapshot(), r,
                      Execute(order, old(Snapshot()), CompleteCancellation(a, event, now)))
    {
      var savepoint := Snapshot();
      if a < |attempts| && attempts[a].cancelEvent == Some(event) {
        if attempts[a].cancelDone.None? && !Open(attempts[a].status) {
          attempts := attempts[a := attempts[a].(cancelDone := Some(now))];
        }
      }
      r := Save(savepoint);
    }

    // The cancellation is over once the intent left the waiting states;
    // otherwise the worker backs off and asks again.
    method FinishCancellation(a: nat, now: int)
      requires intent.Some? && a < |attempts|
      modifies this`attempts
      ensures attempts == old(attempts)[a := CancellationRecorded(old(attempts[a]), intent.value.status, now)]
    {
      var attempt := attempts[a].(leaseToken := None, leaseExpires := None);
      if intent.value.status !in {AwaitingPayment, IntentStatus.Processing} {
        attempt := attempt.(availableAt := None, cancelDone := Some(now));
      } else {
        attempt := attempt.(availableAt := Some(now + Backoff(attempt.dispatches)), cancelDone := None);
      }
      attempts := attempts[a := attempt];
    }

    method RecordCancellation(order: Orders.Order, a: nat, resource: Resource, token: nat, event: nat, now: int)
      returns (r: Result<(), PaymentError>)
      modifies this
      ensures Answers(old(Snapshot()), Snapshot(), r,
                      Execute(order, old(Snapshot()), ApplyCancellation(a, resource, token, event, now)))
    {
      if intent.None? {
        return Err(OrganizationMismatch);
      }
      if |attempts| <= a || attempts[a].leaseToken != Some(token) {
        return Err(InvalidPayment);
      }
      if resource.id != attempts[a].externalId {
        return Err(OrganizationMismatch);
      }
      var savepoint := Snapshot();
      r := Apply(a, resource, OutboxEvent(event), FromCancellationWorker, Some(order.status), now);
      if r.Err? {
        return;
      }
      FinishCancellation(a, now);
      r := Save(savepoint);
    }

    method ReopenPayment(
      order: Orders.Order, manager: bool, version: nat, key: string) returns (r: Result<(), PaymentError>)
      modifies this
      ensures Answers(old(Snapshot()), Snapshot(), r, Execute(order, old(Snapshot()), Reopen(manager, version, key)))
    {
      if !manager {
        return Err(PermissionDenied);
      }
      if intent.None? {
        return Err(OrganizationMismatch);
      }
      var payment := intent.value;
      if payment.version != version {
        return Err(VersionConflict);
      }
      if order.status != Orders.Confirmed || OpenAttempt(attempts).Some? || attempts == [] {
        return Err(InvalidPayment);
      }
      if attempts[|attempts| - 1].status !in {Failed, AttemptStatus.Cancelled, AttemptStatus.Expired} {
        return Err(InvalidPayment);
      }
      if payment.status !in {Pending, IntentStatus.Cancelled, IntentStatus.Expired} {
        return Err(InvalidPayment);
      }
      var savepoint := Snapshot();
      var from := payment.status;
      payment := payment.(status := Pending, attention := None, cancelledAt := None, expiredAt := None);
      intent := Some(payment.(version := payment.version + 1));
      if from != Pending {
        Log(Some(from), Client(key), FromCommand, Some(VerifiedAttemptClosed));
      }
      r := Save(savepoint);
    }

    method Close(target: IntentStatus, reason: Reason, event: nat, now: int)
      requires intent.Some? && target in {RequiresAttention, IntentStatus.Cancelled}
      modifies this`intent, this`history
      ensures Snapshot() == Conclude(old(Snapshot()), target, reason, event, now)
    {
      var payment := intent.value;
      var from := payment.status;
      payment := payment.(status := target, attention := None);
      if target == RequiresAttention {
        payment := payment.(attention := Some(reason));
      } else {
        payment := payment.(cancelledAt := Some(now));
      }
      intent := Some(payment.(version := payment.version + 1));
      Log(Some(from), OrderEvent(event), FromOrderEvent, Some(reason));
    }

    // The order was cancelled: close what provably has no request in flight,
    // ask a person about the rest.
    method Consume(order: Orders.Order, event: nat, now: int) returns (r: Result<(), PaymentError>)
      modifies this
      ensures Answers(old(Snapshot()), Snapshot(), r,
                      Execute(order, old(Snapshot()), ConsumeOrderCancelled(event, now)))
    {
      if order.status != Orders.Cancelled || intent.None? {
        return Err(InvalidPayment);
      }
      var savepoint := Snapshot();
      var payment := intent.value;
      var found := OpenAttempt(attempts);
      var target := payment.status;
      var reason := OrderCancelled;
      if found.Some? && attempts[found.value].status == Requested && attempts[found.value].leaseToken.None? {
        var attempt := attempts[found.value].(status := AttemptStatus.Cancelled);
        attempts := attempts[found.value := attempt.(version := attempt.version + 1)];
        target := IntentStatus.Cancelled;
      } else if payment.status in {IntentStatus.Paid, IntentStatus.Processing} || found.Some? {
        target := RequiresAttention;
        reason := OrderCancelledWithOpenOrPaidPayment;
      } else if payment.status in {Pending, AwaitingPayment} {
        target := IntentStatus.Cancelled;
      } else {
        r := Save(savepoint);
        return;
      }
      Close(target, reason, event, now);
      r := Save(savepoint);
    }
  }
}

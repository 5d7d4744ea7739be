// The payment aggregate of one order: a single intent, its attempts in creation
// order, the status history and the rows the guards read.
//
// Each service function is one transaction.  Execute gives its meaning:
// the function's own checks and writes (the Body functions), followed by the
// database constraints (Commit), which roll the whole step back.
module Payments {
  import opened Common
  import Orders

  datatype IntentStatus = Pending | AwaitingPayment | Processing | Paid | Cancelled | Expired | RequiresAttention

  datatype AttemptStatus = Requested | Active | Processing | Paid | Failed | Cancelled | Expired

  datatype Provider = MercadoPago | Pagarme

  datatype Account = Account(provider: Provider, active: bool, callbacks: bool)

  datatype Reason =
    | OrderNotConfirmed
    | DispatchContextChanged
    | ProviderInconsistency
    | UnknownProviderStatus
    | AmountOrCurrencyMismatch
    | OrderCancelledWithPaidPayment
    | NonMonotonicProviderEvent
    | VerifiedAttemptClosed
    | OrderCancelled
    | OrderCancelledWithOpenOrPaidPayment

  // Amounts are in cents.  attention is the attention code; None is the empty string.
  datatype Intent = Intent(
    status: IntentStatus,
    amount: int,
    currency: string,
    version: nat,
    attention: Option<Reason>,
    paidAt: Option<int>,
    cancelledAt: Option<int>,
    expiredAt: Option<int>)

  datatype Attempt = Attempt(
    account: nat,
    status: AttemptStatus,
    providerKey: string,
    externalId: string,
    hostedUrl: string,
    leaseToken: Option<nat>,
    leaseExpires: Option<int>,
    availableAt: Option<int>,
    dispatches: nat,
    cancelEvent: Option<nat>,
    cancelDone: Option<int>,
    version: nat,
    expiresAt: Option<int>)

  // The command_id column of the history.  Digests are modelled by what they digest.
  datatype CommandId =
    | Client(key: string)
    | CallbackRequest(account: nat, resource: string, request: string)
    | Ineligible(attempt: nat)
    | OutboxEvent(event: nat)
    | OrderEvent(event: nat)

  datatype Source =
    | FromCommand
    | FromWorker
    | FromCallback
    | FromReconciliation
    | FromCancellationWorker
    | FromOrderEvent

  // before is None for the empty from_status of the first entry.
  datatype Entry = Entry(before: Option<IntentStatus>, after: IntentStatus, command: CommandId, source: Source,
                         reason: Option<Reason>)

  datatype Ledger = Ledger(
    intent: Option<Intent>,
    attempts: seq<Attempt>,
    history: seq<Entry>,
    accounts: map<nat, Account>,
    foreignIds: set<(nat, string)>,
    callbackReceipts: set<(nat, string, string)>,
    nextToken: nat,
    nextEvent: nat)

  // What an authenticated provider lookup returns.
  datatype Resource = Resource(id: string, status: string, amountMinor: int, currency: string)

  // secure: the hosted URL is https with a host.
  datatype Checkout = Checkout(id: string, url: string, secure: bool, expiresAt: Option<int>)

  datatype PaymentError =
    | PermissionDenied
    | InvalidPayment
    | OrganizationMismatch
    | VersionConflict
    | IntegrityViolation

  type Outcome = Result<Ledger, PaymentError>

  datatype Step =
    | CreateIntent(manager: bool, key: string)
    | RequestCheckout(manager: bool, account: nat, version: nat, key: string)
    | ClaimCheckout(attempt: nat, now: int)
    | ReleaseLease(attempt: nat, token: nat, failed: bool, now: int)
    | Activate(attempt: nat, checkout: Checkout, lease: Option<nat>, event: nat)
    | Callback(account: nat, resource: Resource, request: string, now: int)
    | Reconcile(manager: bool, version: nat, resource: Resource, key: string, now: int)
    | RequestCancellation(manager: bool, version: nat)
    | ClaimCancellation(attempt: nat, now: int)
    | CompleteCancellation(attempt: nat, event: nat, now: int)
    | ApplyCancellation(attempt: nat, resource: Resource, token: nat, event: nat, now: int)
    | Reopen(manager: bool, version: nat, key: string)
    | ConsumeOrderCancelled(event: nat, now: int)
    | SetAccount(account: nat, provider: Provider, active: bool, callbacks: bool)
    | ForeignResource(account: nat, id: string)

  const CURRENCY := "BRL"
  const LEASE_SECONDS := 90

  const NewLedger := Ledger(None, [], [], map[], {}, {}, 0, 0)

  predicate Open(status: AttemptStatus) {
    status == Requested || status == Active || status == AttemptStatus.Processing
  }

  predicate Settled(status: IntentStatus) {
    status == IntentStatus.Paid || status == IntentStatus.Cancelled || status == IntentStatus.Expired
  }

  predicate AccountActive(accounts: map<nat, Account>, account: nat) {
    account in accounts && accounts[account].active
  }

  // --- lookups ---

  // The unique constraint leaves at most one open attempt, so every query that
  // picks one, in whatever order, picks this one.
  function OpenAttempt(attempts: seq<Attempt>): (found: Option<nat>)
    ensures found.Some? ==> found.value < |attempts| && Open(attempts[found.value].status)
    ensures found.None? ==> forall i :: 0 <= i < |attempts| ==> !Open(attempts[i].status)
  {
    if attempts == [] then None
    else
      var last := |attempts| - 1;
      if Open(attempts[last].status) then Some(last) else OpenAttempt(attempts[..last])
  }

  function AttemptFor(attempts: seq<Attempt>, account: nat, id: string): (found: Option<nat>)
    ensures found.Some? ==>
              && found.value < |attempts|
              && attempts[found.value].account == account
              && attempts[found.value].externalId == id
    ensures found.None? ==>
              forall i :: 0 <= i < |attempts| ==> attempts[i].account != account || attempts[i].externalId != id
  {
    if attempts == [] then None
    else
      var last := |attempts| - 1;
      var earlier := AttemptFor(attempts[..last], account, id);
      if earlier.Some? then earlier
      else if attempts[last].account == account && attempts[last].externalId == id then Some(last)
      else None
  }

  // Reconciliation looks the resource up by id alone, oldest attempt first.
  function AttemptWithId(attempts: seq<Attempt>, id: string): (found: Option<nat>)
    ensures found.Some? ==> found.value < |attempts| && attempts[found.value].externalId == id
    ensures found.None? ==> forall i :: 0 <= i < |attempts| ==> attempts[i].externalId != id
  {
    if attempts == [] then None
    else
      var last := |attempts| - 1;
      var earlier := AttemptWithId(attempts[..last], id);
      if earlier.Some? then earlier
      else if attempts[last].externalId == id then Some(last)
      else None
  }

  // --- database constraints ---

  predicate AttemptRowValid(a: Attempt) {
    && 1 <= a.version
    && (a.leaseToken.Some? <==> a.leaseExpires.Some?)
    && (a.status == Requested ==> a.externalId == "" && a.hostedUrl == "")
    && (a.status == Active ==> a.externalId != "" && a.hostedUrl != "")
  }

  predicate AttemptRowsValid(attempts: seq<Attempt>) {
    forall i :: 0 <= i < |attempts| ==> AttemptRowValid(attempts[i])
  }

  predicate OneOpen(attempts: seq<Attempt>) {
    forall i, j :: 0 <= i < j < |attempts| ==> !(Open(attempts[i].status) && Open(attempts[j].status))
  }

  predicate KeysUnique(attempts: seq<Attempt>) {
    forall i, j :: 0 <= i < j < |attempts| ==> attempts[i].providerKey != attempts[j].providerKey
  }

  predicate IdsUnique(attempts: seq<Attempt>, foreignIds: set<(nat, string)>) {
    && (forall i :: 0 <= i < |attempts| ==>
          attempts[i].externalId == "" || (attempts[i].account, attempts[i].externalId) !in foreignIds)
    && (forall i, j :: 0 <= i < j < |attempts| ==>
          attempts[i].externalId == "" || attempts[i].account != attempts[j].account
          || attempts[i].externalId != attempts[j].externalId)
  }

  predicate IntentRowValid(intent: Intent) {
    && intent.currency == CURRENCY
    && 0 < intent.amount
    && 1 <= intent.version
    && (intent.status.Paid? ==> intent.paidAt.Some?)
    && (intent.status.Cancelled? ==> intent.cancelledAt.Some?)
    && (intent.status.Expired? ==> intent.expiredAt.Some?)
    && (intent.status.RequiresAttention? <==> intent.attention.Some?)
  }

  predicate HistoryUnique(history: seq<Entry>) {
    forall i, j :: 0 <= i < j < |history| ==> history[i].command != history[j].command
  }

  predicate AttemptsValid(attempts: seq<Attempt>, foreignIds: set<(nat, string)>) {
    && AttemptRowsValid(attempts)
    && OneOpen(attempts)
    && KeysUnique(attempts)
    && IdsUnique(attempts, foreignIds)
  }

  predicate Constraints(ledger: Ledger) {
    && (ledger.intent.Some? ==> IntentRowValid(ledger.intent.value))
    && AttemptsValid(ledger.attempts, ledger.foreignIds)
    && HistoryUnique(ledger.history)
  }

  // Activation turns a rejected attempt row into a domain error of its own.
  function Commit(step: Step, body: Outcome): Outcome {
    if body.Err? || Constraints(body.value) then body
    else if step.Activate? && !AttemptsValid(body.value.attempts, body.value.foreignIds) then Err(InvalidPayment)
    else Err(IntegrityViolation)
  }

  // --- provider evidence ---

  // FailAttempt is the canonical word "failed", which is not an intent status.
  datatype Target = FailAttempt | MoveTo(status: IntentStatus)

  const MERCADO_PAGO_STATUSES: map<string, Target> := map[
    "pending" := MoveTo(AwaitingPayment),
    "in_process" := MoveTo(IntentStatus.Processing),
    "approved" := MoveTo(IntentStatus.Paid),
    "cancelled" := MoveTo(IntentStatus.Cancelled),
    "rejected" := FailAttempt,
    "refunded" := MoveTo(RequiresAttention),
    "charged_back" := MoveTo(RequiresAttention)]

  const PAGARME_STATUSES: map<string, Target> := map[
    "pending" := MoveTo(AwaitingPayment),
    "processing" := MoveTo(IntentStatus.Processing),
    "paid" := MoveTo(IntentStatus.Paid),
    "canceled" := MoveTo(IntentStatus.Cancelled),
    "failed" := FailAttempt,
    "expired" := MoveTo(IntentStatus.Expired)]

  function MapProviderStatus(provider: Provider, status: string): (target: Option<Target>)
    ensures target.Some? ==> target.value != MoveTo(Pending)
  {
    var table := if provider == MercadoPago then MERCADO_PAGO_STATUSES else PAGARME_STATUSES;
    if status in table then Some(table[status]) else None
  }

  function TerminalTarget(status: AttemptStatus): Option<Target> {
    match status
    case Paid => Some(MoveTo(IntentStatus.Paid))
    case Failed => Some(FailAttempt)
    case Cancelled => Some(MoveTo(IntentStatus.Cancelled))
    case Expired => Some(MoveTo(IntentStatus.Expired))
    case _ => None
  }

  predicate Monotonic(from: IntentStatus, to: IntentStatus) {
    match from
    case Pending => to != Pending
    case AwaitingPayment => to != Pending && to != AwaitingPayment
    case Processing => to.Paid? || to.Cancelled? || to.Expired? || to.RequiresAttention?
    case _ => false
  }

  // Unknown: the provider's word is not in the table and the caller raises.
  // Locked: only reconciliation and the cancellation worker may leave REQUIRES_ATTENTION.
  datatype Verdict = Unknown | Locked | Stay | Shift(target: Target, reason: Option<Reason>)

  // The resource proves the mapped status for exactly this intent.
  predicate Exact(intent: Intent, resource: Resource) {
    resource.currency == intent.currency && resource.amountMinor == intent.amount
  }

  // What the resource claims, before the current states are consulted.
  function Claimed(
    intent: Intent, attempt: Attempt, mapped: Option<Target>, resource: Resource, order: Option<Orders.OrderStatus>)
    : (Target, Option<Reason>)
  {
    var word :=
      if !Exact(intent, resource) then (MoveTo(RequiresAttention), Some(AmountOrCurrencyMismatch))
      else if mapped.None? then (MoveTo(RequiresAttention), Some(UnknownProviderStatus))
      else if order == Some(Orders.Cancelled) && mapped.value == MoveTo(IntentStatus.Paid) then
        (MoveTo(RequiresAttention), Some(OrderCancelledWithPaidPayment))
      else (mapped.value, None);
    var recorded := TerminalTarget(attempt.status);
    if recorded.Some? && word.0 != recorded.value then (MoveTo(RequiresAttention), Some(NonMonotonicProviderEvent))
    else word
  }

  // mapped is what the provider's table makes of the resource's word.
  function Weigh(
    intent: Intent, attempt: Attempt, mapped: Option<Target>, resource: Resource, source: Source,
    order: Option<Orders.OrderStatus>): Verdict
  {
    if mapped.None? && source != FromCancellationWorker then Unknown
    else if intent.status == RequiresAttention && source != FromReconciliation
      && source != FromCancellationWorker then Locked
    else
      var (target, reason) := Claimed(intent, attempt, mapped, resource, order);
      var backwards :=
        target != MoveTo(intent.status)
        && (Settled(intent.status)
            || (intent.status != RequiresAttention && target != FailAttempt
                && !Monotonic(intent.status, target.status)));
      var (target', reason') :=
        if backwards then (MoveTo(RequiresAttention), Some(NonMonotonicProviderEvent)) else (target, reason);
      var changes :=
        if target' == FailAttempt then attempt.status != Failed || intent.status != Pending
        else target' != MoveTo(intent.status);
      if changes then Shift(target', reason') else Stay
  }

  function Judge(
    intent: Intent, attempt: Attempt, provider: Provider, resource: Resource, source: Source,
    order: Option<Orders.OrderStatus>): Verdict
  {
    Weigh(intent, attempt, MapProviderStatus(provider, resource.status), resource, source, order)
  }

  // No provider word means PENDING.
  lemma VerdictNeverPending(
    intent: Intent, attempt: Attempt, provider: Provider, resource: Resource, source: Source,
      order: Option<Orders.OrderStatus>)
    ensures var verdict := Judge(intent, attempt, provider, resource, source, order);
            verdict.Shift? ==> verdict.target != MoveTo(Pending)
  {
  }

  function ShiftAttempt(status: AttemptStatus, target: Target, reason: Option<Reason>): AttemptStatus {
    match target
    case FailAttempt => Failed
    case MoveTo(AwaitingPayment) => Active
    case MoveTo(Processing) => AttemptStatus.Processing
    case MoveTo(Paid) => AttemptStatus.Paid
    case MoveTo(Cancelled) => AttemptStatus.Cancelled
    case MoveTo(Expired) => AttemptStatus.Expired
    case MoveTo(RequiresAttention) =>
      if reason == Some(OrderCancelledWithPaidPayment) then AttemptStatus.Paid
      else if Open(status) then AttemptStatus.Processing
      else status
    case MoveTo(Pending) => status
  }

  function ShiftIntent(intent: Intent, target: Target, reason: Option<Reason>, now: int): Intent {
    var status := if target == FailAttempt then Pending else target.status;
    intent.(
    status := status,
    attention := if status != RequiresAttention then None
    else if reason.Some? then reason else Some(ProviderInconsistency),
    paidAt := if status == IntentStatus.Paid then Some(now) else intent.paidAt,
    cancelledAt := if status == IntentStatus.Cancelled then Some(now) else intent.cancelledAt,
    expiredAt := if status == IntentStatus.Expired then Some(now) else intent.expiredAt,
    version := intent.version + 1)
  }

  function ShiftLedger(
    ledger: Ledger, a: nat, target: Target, reason: Option<Reason>, command: CommandId, source: Source, now: int)
    : Ledger
    requires ledger.intent.Some? && a < |ledger.attempts|
  {
    var intent := ledger.intent.value;
    var attempt := ledger.attempts[a];
    var intent' := ShiftIntent(intent, target, reason, now);
    var attempt' := attempt.(status := ShiftAttempt(attempt.status, target, reason), version := attempt.version + 1);
    ledger.(
    intent := Some(intent'),
    attempts := ledger.attempts[a := attempt'],
    history := ledger.history + [Entry(Some(intent.status), intent'.status, command, source, reason)])
  }

  // One locked attempt meets one resource.
  function ApplyResource(
    ledger: Ledger, a: nat, resource: Resource, command: CommandId, source: Source,
    order: Option<Orders.OrderStatus>, now: int): Outcome
    requires ledger.intent.Some? && a < |ledger.attempts|
  {
    var account := ledger.attempts[a].account;
    if account !in ledger.accounts then Err(OrganizationMismatch)
    else
      match Judge(ledger.intent.value, ledger.attempts[a], ledger.accounts[account].provider, resource, source, order)
      case Unknown => Err(InvalidPayment)
      case Locked => Ok(ledger)
      case Stay => Ok(ledger)
      case Shift(target, reason) => Ok(ShiftLedger(ledger, a, target, reason, command, source, now))
  }

  // --- the service functions ---

  function CreateIntentBody(order: Orders.Order, ledger: Ledger, manager: bool, key: string): Outcome {
    if !manager then Err(PermissionDenied)
    else if order.status != Orders.Confirmed then Err(InvalidPayment)
    else if order.totals.total <= 0 then Err(InvalidPayment)
    else if ledger.intent.Some? then Err(InvalidPayment)
    else
      Ok(ledger.(
         intent := Some(Intent(Pending, order.totals.total, CURRENCY, 1, None, None, None, None)),
         history := ledger.history + [Entry(None, Pending, Client(key), FromCommand, None)]))
  }

  function RequestCheckoutBody(
    order: Orders.Order, ledger: Ledger, manager: bool, account: nat, version: nat, key: string): Outcome {
    if !manager then Err(PermissionDenied)
    else if ledger.intent.None? then Err(OrganizationMismatch)
    else
      var intent := ledger.intent.value;
      if intent.version != version then Err(VersionConflict)
      else if order.status != Orders.Confirmed || intent.status != Pending then Err(InvalidPayment)
      else if !AccountActive(ledger.accounts, account) then Err(OrganizationMismatch)
      else if OpenAttempt(ledger.attempts).Some? then Err(InvalidPayment)
      else
        var attempt := Attempt(account, Requested, key, "", "", None, None, None, 0, None, None, 1, None);
        Ok(ledger.(attempts := ledger.attempts + [attempt], intent := Some(intent.(version := intent.version + 1))))
  }

  function Leased(attempt: Attempt, token: nat, now: int): Attempt {
    attempt.(
    leaseToken := Some(token),
    leaseExpires := Some(now + LEASE_SECONDS),
    dispatches := attempt.dispatches + 1,
    availableAt := None)
  }

  // A checkout closed here, without the provider.
  function ClosedLocally(attempt: Attempt): Attempt {
    attempt.(status := AttemptStatus.Cancelled, version := attempt.version + 1)
  }

  // The worker's claim.  An attempt whose context became ineligible is closed
  // instead of leased; a lease that expired meanwhile stays on the closed row.
  function ClaimCheckoutBody(order: Orders.Order, ledger: Ledger, a: nat, now: int): Outcome {
    if |ledger.attempts| <= a then Err(InvalidPayment)
    else if ledger.intent.None? then Err(OrganizationMismatch)
    else
      var intent := ledger.intent.value;
      var attempt := ledger.attempts[a];
      if attempt.status != Requested then Err(InvalidPayment)
      else if Waiting(attempt.availableAt, now) || Waiting(attempt.leaseExpires, now) then Err(InvalidPayment)
      else if order.status != Orders.Confirmed then
        var closed := ledger.(attempts := ledger.attempts[a := ClosedLocally(attempt)]);
        if Settled(intent.status) then Ok(closed)
        else
          Ok(closed.(
             intent := Some(intent.(status := IntentStatus.Cancelled, attention := None, cancelledAt := Some(now),
                                    version := intent.version + 1)),
             history := ledger.history
             + [Entry(Some(intent.status), IntentStatus.Cancelled, Ineligible(a), FromWorker,
                      Some(OrderNotConfirmed))]))
      else if intent.status != Pending then
        Ok(ledger.(attempts := ledger.attempts[a := ClosedLocally(attempt)]))
      else if !AccountActive(ledger.accounts, attempt.account) then
        Ok(ledger.(
           attempts := ledger.attempts[a := attempt.(status := Failed, version := attempt.version + 1)],
           intent := Some(intent.(version := intent.version + 1))))
      else
        Ok(ledger.(attempts := ledger.attempts[a := Leased(attempt, ledger.nextToken, now)],
                   nextToken := ledger.nextToken + 1))
  }

  function Unleased(attempt: Attempt, availableAt: Option<int>): Attempt {
    attempt.(leaseToken := None, leaseExpires := None, availableAt := availableAt)
  }

  function ReleaseLeaseBody(ledger: Ledger, a: nat, token: nat, failed: bool, now: int): Outcome {
    if |ledger.attempts| <= a || ledger.attempts[a].leaseToken != Some(token) then Ok(ledger)
    else if ledger.intent.None? then Err(OrganizationMismatch)
    else
      var attempt := ledger.attempts[a];
      Ok(ledger.(
         attempts := ledger.attempts[a := Unleased(attempt, if failed then Some(now + Backoff(attempt.dispatches))
                                                   else None)]))
  }

  // The provider's answer reaches an attempt that was closed locally meanwhile.
  predicate LateResult(attempt: Attempt) {
    attempt.status == AttemptStatus.Cancelled && attempt.leaseToken.Some? && attempt.externalId == ""
  }

  predicate ContextChanged(order: Orders.Order, ledger: Ledger, attempt: Attempt) {
    || order.status != Orders.Confirmed
    || (ledger.intent.Some? && ledger.intent.value.status != Pending)
    || !AccountActive(ledger.accounts, attempt.account)
  }

  function ActivateBody(
    order: Orders.Order, ledger: Ledger, a: nat, checkout: Checkout, lease: Option<nat>, event: nat): Outcome {
    if !checkout.secure || checkout.url == "" || checkout.id == "" then Err(InvalidPayment)
    else if ledger.intent.None? || |ledger.attempts| <= a then Err(OrganizationMismatch)
    else
      var intent := ledger.intent.value;
      var attempt := ledger.attempts[a];
      if attempt.status != Requested && !LateResult(attempt) then Err(InvalidPayment)
      else if attempt.leaseToken.Some? && attempt.leaseToken != lease then Err(InvalidPayment)
      else
        var changed := ContextChanged(order, ledger, attempt);
        var reason := if changed then Some(DispatchContextChanged) else None;
        var status := if changed then RequiresAttention else AwaitingPayment;
        var attempt' := Unleased(attempt, None).(
                        externalId := checkout.id, hostedUrl := checkout.url, expiresAt := checkout.expiresAt,
                        status := Active, version := attempt.version + 1);
        Ok(ledger.(
           attempts := ledger.attempts[a := attempt'],
           intent := Some(intent.(status := status, attention := reason, version := intent.version + 1)),
           history := ledger.history + [Entry(Some(intent.status), status, OutboxEvent(event), FromWorker, reason)]))
  }

  function CallbackBody(ledger: Ledger, account: nat, resource: Resource, request: string, now: int): Outcome {
    if resource.id == "" then Err(InvalidPayment)
    else if !AccountActive(ledger.accounts, account) then Err(InvalidPayment)
    else if !ledger.accounts[account].callbacks
      || ledger.accounts[account].provider != MercadoPago then Err(InvalidPayment)
    else if (account, resource.id, request) in ledger.callbackReceipts then Ok(ledger)
    else
      match AttemptFor(ledger.attempts, account, resource.id)
      case None => Err(OrganizationMismatch)
      case Some(a) =>
        if ledger.intent.None? then Err(OrganizationMismatch)
        else
          match ApplyResource(ledger, a, resource, CallbackRequest(account, resource.id, request), FromCallback, None,
                              now)
          case Err(error) => Err(error)
          case Ok(after) => Ok(after.(callbackReceipts := after.callbackReceipts + {(account, resource.id, request)}))
  }

  function ReconcileBody(
    ledger: Ledger, manager: bool, version: nat, resource: Resource, key: string, now: int): Outcome {
    if !manager then Err(PermissionDenied)
    else if ledger.intent.None? then Err(OrganizationMismatch)
    else if ledger.intent.value.version != version then Err(VersionConflict)
    else
      match AttemptWithId(ledger.attempts, resource.id)
      case None => Err(OrganizationMismatch)
      case Some(a) => ApplyResource(ledger, a, resource, Client(key), FromReconciliation, None, now)
  }

  function RequestCancellationBody(ledger: Ledger, manager: bool, version: nat): Outcome {
    if !manager then Err(PermissionDenied)
    else if ledger.intent.None? then Err(OrganizationMismatch)
    else
      var intent := ledger.intent.value;
      if intent.version != version then Err(VersionConflict)
      else
        match OpenAttempt(ledger.attempts)
        case None => Err(InvalidPayment)
        case Some(a) =>
          var attempt := ledger.attempts[a];
          if attempt.cancelEvent.Some? && attempt.cancelDone.None? then Err(InvalidPayment)
          else if attempt.status == Requested && attempt.leaseToken.None? then
            Ok(ledger.(
               attempts := ledger.attempts[a := ClosedLocally(Unleased(attempt, None))],
               intent := Some(intent.(version := intent.version + 1))))
          else
            Ok(ledger.(
               attempts := ledger.attempts[a := attempt.(cancelEvent := Some(ledger.nextEvent), cancelDone := None)],
               nextEvent := ledger.nextEvent + 1,
               intent := Some(intent.(version := intent.version + 1))))
  }

  function ClaimCancellationBody(ledger: Ledger, a: nat, now: int): Outcome {
    if |ledger.attempts| <= a then Err(InvalidPayment)
    else if ledger.intent.None? then Err(OrganizationMismatch)
    else
      var attempt := ledger.attempts[a];
      if attempt.status != Active && attempt.status != AttemptStatus.Processing then Err(InvalidPayment)
      else if attempt.externalId == "" then Err(InvalidPayment)
      else if Waiting(attempt.availableAt, now) || Waiting(attempt.leaseExpires, now) then Err(InvalidPayment)
      else
        Ok(ledger.(attempts := ledger.attempts[a := Leased(attempt, ledger.nextToken, now)],
                   nextToken := ledger.nextToken + 1))
  }

  // A cancellation event whose attempt already ended needs no provider call.
  function CompleteCancellationBody(ledger: Ledger, a: nat, event: nat, now: int): Outcome {
    if |ledger.attempts| <= a || ledger.attempts[a].cancelEvent != Some(event) then Ok(ledger)
    else if ledger.attempts[a].cancelDone.Some? || Open(ledger.attempts[a].status) then Ok(ledger)
    else Ok(ledger.(attempts := ledger.attempts[a := ledger.attempts[a].(cancelDone := Some(now))]))
  }

  // The worker's own bookkeeping after the provider answered.
  function CancellationRecorded(attempt: Attempt, status: IntentStatus, now: int): Attempt {
    var complete := status != AwaitingPayment && status != IntentStatus.Processing;
    Unleased(attempt, if complete then None else Some(now + Backoff(attempt.dispatches))).(
    cancelDone := if complete then Some(now) else None)
  }

  function ApplyCancellationBody(
    order: Orders.Order, ledger: Ledger, a: nat, resource: Resource, token: nat, event: nat, now: int): Outcome {
    if ledger.intent.None? then Err(OrganizationMismatch)
    else if |ledger.attempts| <= a || ledger.attempts[a].leaseToken != Some(token) then Err(InvalidPayment)
    else if resource.id != ledger.attempts[a].externalId then Err(OrganizationMismatch)
    else
      match ApplyResource(ledger, a, resource, OutboxEvent(event), FromCancellationWorker, Some(order.status), now)
      case Err(error) => Err(error)
      case Ok(after) =>
        var recorded := CancellationRecorded(after.attempts[a], after.intent.value.status, now);
        Ok(after.(attempts := after.attempts[a := recorded]))
  }

  function ReopenBody(order: Orders.Order, ledger: Ledger, manager: bool, version: nat, key: string): Outcome {
    if !manager then Err(PermissionDenied)
    else if ledger.intent.None? then Err(OrganizationMismatch)
    else
      var intent := ledger.intent.value;
      if intent.version != version then Err(VersionConflict)
      else if order.status != Orders.Confirmed then Err(InvalidPayment)
      else if OpenAttempt(ledger.attempts).Some? then Err(InvalidPayment)
      else if ledger.attempts == [] then Err(InvalidPayment)
      else if ledger.attempts[|ledger.attempts| - 1].status.Paid? then Err(InvalidPayment)
      else if intent.status != Pending && intent.status != IntentStatus.Cancelled
        && intent.status != IntentStatus.Expired then Err(InvalidPayment)
      else
        Ok(ledger.(
           intent := Some(intent.(status := Pending, attention := None, cancelledAt := None, expiredAt := None,
                                  version := intent.version + 1)),
           history := if intent.status == Pending then ledger.history
           else ledger.history + [Entry(Some(intent.status), Pending, Client(key), FromCommand,
                                        Some(VerifiedAttemptClosed))]))
  }

  function ConsumeOrderCancelledBody(order: Orders.Order, ledger: Ledger, event: nat, now: int): Outcome {
    if order.status != Orders.Cancelled then Err(InvalidPayment)
    else if ledger.intent.None? then Err(InvalidPayment)
    else
      var intent := ledger.intent.value;
      var found := OpenAttempt(ledger.attempts);
      if found.Some? && ledger.attempts[found.value].status == Requested
         && ledger.attempts[found.value].leaseToken.None? then
        var a := found.value;
        var attempt := ledger.attempts[a];
        Ok(Conclude(ledger.(attempts := ledger.attempts[a := ClosedLocally(attempt)]),
                    IntentStatus.Cancelled, OrderCancelled, event, now))
      else if intent.status == IntentStatus.Paid || intent.status == IntentStatus.Processing || found.Some? then
        Ok(Conclude(ledger, RequiresAttention, OrderCancelledWithOpenOrPaidPayment, event, now))
      else if intent.status == Pending || intent.status == AwaitingPayment then
        Ok(Conclude(ledger, IntentStatus.Cancelled, OrderCancelled, event, now))
      else Ok(ledger)
  }

  function Conclude(ledger: Ledger, status: IntentStatus, reason: Reason, event: nat, now: int): Ledger
    requires ledger.intent.Some?
  {
    var intent := ledger.intent.value;
    ledger.(
    intent := Some(intent.(
      status := status,
      attention := if status == RequiresAttention then Some(reason) else None,
      cancelledAt := if status == IntentStatus.Cancelled then Some(now) else intent.cancelledAt,
      version := intent.version + 1)),
    history := ledger.history + [Entry(Some(intent.status), status, OrderEvent(event), FromOrderEvent, Some(reason))])
  }

  function SetAccountBody(ledger: Ledger, account: nat, provider: Provider, active: bool, callbacks: bool): Outcome {
    if account in ledger.accounts && ledger.accounts[account].provider != provider then Err(InvalidPayment)
    else if provider != MercadoPago && callbacks then Err(IntegrityViolation)
    else Ok(ledger.(accounts := ledger.accounts[account := Account(provider, active, callbacks)]))
  }

  // Another intent's attempt records a provider identifier.
  function ForeignResourceBody(ledger: Ledger, account: nat, id: string): Outcome {
    Ok(ledger.(foreignIds := ledger.foreignIds + {(account, id)}))
  }

  function Body(order: Orders.Order, ledger: Ledger, step: Step): Outcome {
    match step
    case CreateIntent(manager, key) => CreateIntentBody(order, ledger, manager, key)
    case RequestCheckout(manager, account, version, key) => RequestCheckoutBody(order, ledger, manager, account,
        version, key)
    case ClaimCheckout(a, now) => ClaimCheckoutBody(order, ledger, a, now)
    case ReleaseLease(a, token, failed, now) => ReleaseLeaseBody(ledger, a, token, failed, now)
    case Activate(a, checkout, lease, event) => ActivateBody(order, ledger, a, checkout, lease, event)
    case Callback(account, resource, request, now) => CallbackBody(ledger, account, resource, request, now)
    case Reconcile(manager, version, resource, key, now) => ReconcileBody(ledger, manager, version, resource, key, now)
    case RequestCancellation(manager, version) => RequestCancellationBody(ledger, manager, version)
    case ClaimCancellation(a, now) => ClaimCancellationBody(ledger, a, now)
    case CompleteCancellation(a, event, now) => CompleteCancellationBody(ledger, a, event, now)
    case ApplyCancellation(a, resource, token, event, now) => ApplyCancellationBody(order, ledger, a, resource, token,
        event, now)
    case Reopen(manager, version, key) => ReopenBody(order, ledger, manager, version, key)
    case ConsumeOrderCancelled(event, now) => ConsumeOrderCancelledBody(order, ledger, event, now)
    case SetAccount(account, provider, active, callbacks) => SetAccountBody(ledger, account, provider, active,
                                                                            callbacks)
    case ForeignResource(account, id) => ForeignResourceBody(ledger, account, id)
  }

  function Execute(order: Orders.Order, ledger: Ledger, step: Step): Outcome {
    Commit(step, Body(order, ledger, step))
  }

  // A refused step changes nothing.
  function Next(order: Orders.Order, ledger: Ledger, step: Step): Ledger {
    var r := Execute(order, ledger, step);
    if r.Ok? then r.value else ledger
  }
}

// What a provider's answer does to a payment, word by word, whoever brings it:
// a callback, a reconciliation or the cancellation worker.
module PaymentEvidence {
  import opened Common
  import opened Payments
  import opened PaymentSafety
  import opened PaymentGuards
  import Orders

  // --- the providers' words ---

  predicate Says(provider: Provider, word: string, status: IntentStatus) {
    match status
    case Pending => false
    case AwaitingPayment => word == "pending"
    case Processing => word == if provider == MercadoPago then "in_process" else "processing"
    case Paid => word == if provider == MercadoPago then "approved" else "paid"
    case Cancelled => word == if provider == MercadoPago then "cancelled" else "canceled"
    case Expired => provider == Pagarme && word == "expired"
    case RequiresAttention => provider == MercadoPago && (word == "refunded" || word == "charged_back")
  }

  predicate SaysFailed(provider: Provider, word: string) {
    word == if provider == MercadoPago then "rejected" else "failed"
  }

  predicate Understood(provider: Provider, word: string) {
    SaysFailed(provider, word) || exists status :: Says(provider, word, status)
  }

  // meaning is what the word stands for, None when it stands for nothing.
  ghost predicate Conveys(provider: Provider, word: string, meaning: Option<Target>) {
    && (forall status :: Says(provider, word, status) <==> meaning == Some(MoveTo(status)))
    && (SaysFailed(provider, word) <==> meaning == Some(FailAttempt))
  }

  // The tables say what the words say, and nothing more.
  lemma WordsAreTheTables(provider: Provider, word: string)
    ensures Conveys(provider, word, MapProviderStatus(provider, word))
    ensures Understood(provider, word) <==> MapProviderStatus(provider, word).Some?
  {
    var mapped := MapProviderStatus(provider, word);
    if mapped.Some? && mapped.value.MoveTo? {
      assert Says(provider, word, mapped.value.status);
    }
  }

  lemma Meaning(provider: Provider, word: string) returns (meaning: Option<Target>)
    ensures meaning == MapProviderStatus(provider, word) && Conveys(provider, word, meaning)
    ensures Understood(provider, word) <==> meaning.Some?
  {
    WordsAreTheTables(provider, word);
    meaning := MapProviderStatus(provider, word);
  }

  // --- how far a payment has come ---

  function Rank(status: IntentStatus): nat {
    match status
    case Pending => 0
    case AwaitingPayment => 1
    case Processing => 2
    case Paid => 3
    case Cancelled => 3
    case Expired => 3
    case RequiresAttention => 4
  }

  const DECIDED := 3

  function Matching(status: IntentStatus): AttemptStatus {
    match status
    case Pending => Requested
    case AwaitingPayment => Active
    case Processing => AttemptStatus.Processing
    case Paid => AttemptStatus.Paid
    case Cancelled => AttemptStatus.Cancelled
    case Expired => AttemptStatus.Expired
    case RequiresAttention => AttemptStatus.Processing
  }

  // An attempt that is over can only be told its own outcome again.
  predicate Confirms(status: AttemptStatus, provider: Provider, word: string) {
    match status
    case Requested => true
    case Active => true
    case Processing => true
    case Paid => Says(provider, word, IntentStatus.Paid)
    case Failed => SaysFailed(provider, word)
    case Cancelled => Says(provider, word, IntentStatus.Cancelled)
    case Expired => Says(provider, word, IntentStatus.Expired)
  }

  predicate InFull(intent: Intent, resource: Resource) {
    resource.currency == intent.currency && resource.amountMinor == intent.amount
  }

  // --- who brings it ---

  ghost function CommandOf(step: Step): CommandId
    requires Evidence(step)
  {
    match step
    case Callback(account, resource, request, _) => CallbackRequest(account, resource.id, request)
    case Reconcile(_, _, _, key, _) => Client(key)
    case ApplyCancellation(_, _, _, event, _) => OutboxEvent(event)
  }

  // Only the cancellation worker looks at the order.
  ghost predicate OrderGone(order: Orders.Order, step: Step) {
    step.ApplyCancellation? && order.status == Orders.Cancelled
  }

  // The step is let in and concerns attempt a, and its command id is new.
  ghost predicate Admitted(ledger: Ledger, step: Step, a: nat) {
    && Evidence(step)
    && ledger.intent.Some?
    && a < |ledger.attempts|
    && ledger.attempts[a].account in ledger.accounts
    && ledger.attempts[a].externalId == step.resource.id != ""
    && match step
       case Callback(account, resource, request, _) =>
         && ledger.attempts[a].account == account
         && ledger.accounts[account] == Account(MercadoPago, true, true)
         && (account, resource.id, request) !in ledger.callbackReceipts
       case Reconcile(manager, version, resource, key, _) =>
         && manager
         && version == ledger.intent.value.version
         && (forall i :: 0 <= i < a ==> ledger.attempts[i].externalId != resource.id)
         && !Logged(ledger.history, Client(key))
       case ApplyCancellation(attempt, _, token, event, _) =>
         && attempt == a
         && ledger.attempts[a].leaseToken == Some(token)
         && !Logged(ledger.history, OutboxEvent(event))
  }

  ghost function ProviderAt(ledger: Ledger, a: nat): Provider
    requires a < |ledger.attempts| && ledger.attempts[a].account in ledger.accounts
  {
    ledger.accounts[ledger.attempts[a].account].provider
  }

  // The word is about this payment in full and nothing else speaks against it.
  ghost predicate Credible(order: Orders.Order, ledger: Ledger, step: Step, a: nat)
    requires Admitted(ledger, step, a)
  {
    var provider, word := ProviderAt(ledger, a), step.resource.status;
    && InFull(ledger.intent.value, step.resource)
    && Understood(provider, word)
    && Confirms(ledger.attempts[a].status, provider, word)
    && !(OrderGone(order, step) && Says(provider, word, IntentStatus.Paid))
  }

  // --- what it leaves behind ---

  // Intent, attempt and history after the payment moved; every other row stands.
  ghost function Told(
    ledger: Ledger, step: Step, a: nat, status: IntentStatus, attempt: AttemptStatus, reason: Option<Reason>): Ledger
    requires Admitted(ledger, step, a)
  {
    var intent := ledger.intent.value;
    var stamp := Some(step.now);
    var attention :=
      if status != RequiresAttention then None
      else if reason.None? then Some(ProviderInconsistency) else reason;
    Ledger(
      Some(Intent(status, intent.amount, intent.currency, intent.version + 1, attention,
                  if status == IntentStatus.Paid then stamp else intent.paidAt,
                  if status == IntentStatus.Cancelled then stamp else intent.cancelledAt,
                  if status == IntentStatus.Expired then stamp else intent.expiredAt)),
      ledger.attempts[a := ledger.attempts[a].(status := attempt, version := ledger.attempts[a].version + 1)],
      ledger.history + [Entry(Some(intent.status), status, CommandOf(step), SourceOf(step), reason)],
      ledger.accounts, ledger.foreignIds, ledger.callbackReceipts, ledger.nextToken, ledger.nextEvent)
  }

  // The bookkeeping of whoever brought the answer.  The cancellation is done
  // once the intent no longer waits for the provider; until then the worker
  // asks again later.
  ghost function Answered(ledger: Ledger, step: Step, a: nat): Ledger
    requires Evidence(step) && ledger.intent.Some? && a < |ledger.attempts|
  {
    match step
    case Callback(account, resource, request, _) =>
      ledger.(callbackReceipts := ledger.callbackReceipts + {(account, resource.id, request)})
    case Reconcile(_, _, _, _, _) => ledger
    case ApplyCancellation(_, _, _, _, now) =>
      var waits := Rank(ledger.intent.value.status) == 1 || Rank(ledger.intent.value.status) == 2;
      var attempt := ledger.attempts[a].(
                     leaseToken := None,
                     leaseExpires := None,
                     availableAt := if waits then Some(now + Backoff(ledger.attempts[a].dispatches)) else None,
                     cancelDone := if waits then None else Some(now));
      ledger.(attempts := ledger.attempts[a := attempt])
  }

  ghost predicate Turns(
    order: Orders.Order, ledger: Ledger, step: Step, a: nat, status: IntentStatus, attempt: AttemptStatus,
    reason: Option<Reason>)
    requires Admitted(ledger, step, a)
  {
    Execute(order, ledger, step) == Ok(Answered(Told(ledger, step, a, status, attempt, reason), step, a))
  }

  // Nothing changes but that bookkeeping.
  ghost predicate Stands(order: Orders.Order, ledger: Ledger, step: Step, a: nat)
    requires Admitted(ledger, step, a)
  {
    Execute(order, ledger, step) == Ok(Answered(ledger, step, a))
  }

  // An attempt that is over keeps its status under the alarm.
  ghost predicate Alarms(order: Orders.Order, ledger: Ledger, step: Step, a: nat, reason: Reason)
    requires Admitted(ledger, step, a)
  {
    var status := ledger.attempts[a].status;
    Turns(order, ledger, step, a, RequiresAttention, if Open(status) then AttemptStatus.Processing else status,
          Some(reason))
  }

  // --- from the verdict to the commit ---

  ghost function Judged(order: Orders.Order, ledger: Ledger, step: Step, a: nat): Verdict
    requires Admitted(ledger, step, a)
  {
    Judge(ledger.intent.value, ledger.attempts[a], ProviderAt(ledger, a), step.resource, SourceOf(step),
          if step.ApplyCancellation? then Some(order.status) else None)
  }

  predicate Repeats(status: AttemptStatus, meaning: Option<Target>) {
    match status
    case Paid => meaning == Some(MoveTo(IntentStatus.Paid))
    case Failed => meaning == Some(FailAttempt)
    case Cancelled => meaning == Some(MoveTo(IntentStatus.Cancelled))
    case Expired => meaning == Some(MoveTo(IntentStatus.Expired))
    case _ => true
  }

  // The verdict by rank.
  function Ruling(
    status: IntentStatus, attempt: AttemptStatus, inFull: bool, meaning: Option<Target>, gone: bool, source: Source)
    : Verdict
    requires meaning != Some(MoveTo(Pending))
  {
    var taken := gone && meaning == Some(MoveTo(IntentStatus.Paid));
    var credible := inFull && meaning.Some? && Repeats(attempt, meaning) && !taken;
    var backwards := Shift(MoveTo(RequiresAttention), Some(NonMonotonicProviderEvent));
    if meaning.None? && source != FromCancellationWorker then Unknown
    else if Rank(status) < DECIDED then
      if !credible then
        if !Open(attempt) then backwards
        else Shift(MoveTo(RequiresAttention),
                   Some(if !inFull then AmountOrCurrencyMismatch
                        else if meaning.None? then UnknownProviderStatus else OrderCancelledWithPaidPayment))
      else if meaning.value.FailAttempt? then
        if attempt == Failed && status == Pending then Stay else Shift(FailAttempt, None)
      else if Rank(meaning.value.status) < Rank(status) then backwards
      else if meaning.value.status == status then Stay
      else Shift(meaning.value, None)
    else if Rank(status) == DECIDED then
      if credible && meaning == Some(MoveTo(status)) then Stay else backwards
    else if source == FromCallback then Locked
    else if !credible || meaning == Some(MoveTo(RequiresAttention)) then Stay
    else Shift(meaning.value, None)
  }

  lemma WeighedByRank(
    intent: Intent, attempt: Attempt, meaning: Option<Target>, resource: Resource, source: Source,
    order: Option<Orders.OrderStatus>)
    requires source == FromCallback || source == FromReconciliation || source == FromCancellationWorker
    requires meaning != Some(MoveTo(Pending))
    ensures Weigh(intent, attempt, meaning, resource, source, order) ==
            Ruling(intent.status, attempt.status, InFull(intent, resource), meaning,
                   order == Some(Orders.Cancelled), source)
  {
  }

  lemma {:induction false} OldestWithId(attempts: seq<Attempt>, id: string, a: nat)
    requires a < |attempts| && attempts[a].externalId == id
    requires forall i :: 0 <= i < a ==> attempts[i].externalId != id
    ensures AttemptWithId(attempts, id) == Some(a)
  {
    var last := |attempts| - 1;
    if a < last {
      OldestWithId(attempts[..last], id, a);
    }
  }

  lemma AttemptIsFound(ledger: Ledger, step: Step, a: nat)
    requires Inv(ledger) && Admitted(ledger, step, a)
    ensures Focus(ledger, step) == a
  {
    match step
    case Callback(account, resource, _, _) =>
      var found := AttemptFor(ledger.attempts, account, resource.id).value;
      assert found == a by {
        assert IdsUnique(ledger.attempts, ledger.foreignIds);
      }
    case Reconcile(_, _, resource, _, _) => OldestWithId(ledger.attempts, resource.id, a);
    case ApplyCancellation(_, _, _, _, _) =>
  }

  ghost function Met(order: Orders.Order, ledger: Ledger, step: Step, a: nat): Outcome
    requires Admitted(ledger, step, a)
  {
    ApplyResource(ledger, a, step.resource, CommandOf(step), SourceOf(step),
                  if step.ApplyCancellation? then Some(order.status) else None, step.now)
  }

  // The intent and attempt statuses that a shift leads to.
  function ToldStatus(target: Target): IntentStatus {
    if target == FailAttempt then Pending else target.status
  }

  function ToldAttempt(status: AttemptStatus, target: Target, reason: Option<Reason>): AttemptStatus {
    if target == FailAttempt then Failed
    else if target.status != RequiresAttention then Matching(target.status)
    else if reason == Some(OrderCancelledWithPaidPayment) then AttemptStatus.Paid
    else if Open(status) then AttemptStatus.Processing
    else status
  }

  lemma ResourceIsMet(order: Orders.Order, ledger: Ledger, step: Step, a: nat)
    requires Admitted(ledger, step, a)
    ensures match Judged(order, ledger, step, a)
            case Unknown => Met(order, ledger, step, a) == Err(InvalidPayment)
            case Locked => Met(order, ledger, step, a) == Ok(ledger)
            case Stay => Met(order, ledger, step, a) == Ok(ledger)
            case Shift(target, reason) =>
              target != MoveTo(Pending) &&
              Met(order, ledger, step, a) ==
              Ok(Told(ledger, step, a, ToldStatus(target), ToldAttempt(ledger.attempts[a].status, target, reason),
                      reason))
  {
    VerdictNeverPending(ledger.intent.value, ledger.attempts[a], ProviderAt(ledger, a), step.resource, SourceOf(step),
                        if step.ApplyCancellation? then Some(order.status) else None);
  }

  // What Met leaves is what the step leaves, but for the caller's bookkeeping.
  ghost predicate Carries(order: Orders.Order, ledger: Ledger, step: Step, a: nat, met: Outcome)
    requires Evidence(step)
  {
    && (met.Err? ==> Body(order, ledger, step) == met)
    && (met.Ok? ==>
          && met.value.intent.Some? && a < |met.value.attempts|
          && Body(order, ledger, step) == Ok(Answered(met.value, step, a)))
  }

  lemma CallbackMeetsItsAttempt(order: Orders.Order, ledger: Ledger, step: Step, a: nat)
    requires Inv(ledger) && Admitted(ledger, step, a) && step.Callback?
    ensures Carries(order, ledger, step, a, Met(order, ledger, step, a))
  {
    AttemptIsFound(ledger, step, a);
    ResourceIsMet(order, ledger, step, a);
  }

  lemma ReconcileMeetsItsAttempt(order: Orders.Order, ledger: Ledger, step: Step, a: nat)
    requires Inv(ledger) && Admitted(ledger, step, a) && step.Reconcile?
    ensures Carries(order, ledger, step, a, Met(order, ledger, step, a))
  {
    AttemptIsFound(ledger, step, a);
    ResourceIsMet(order, ledger, step, a);
  }

  lemma WorkerKeepsBooks(ledger: Ledger, step: Step, a: nat)
    requires step.ApplyCancellation? && ledger.intent.Some? && a < |ledger.attempts|
    ensures Answered(ledger, step, a) ==
            ledger.(attempts := ledger.attempts[a := CancellationRecorded(ledger.attempts[a],
                                                                          ledger.intent.value.status, step.now)])
  {
  }

  lemma CancellationMeetsItsAttempt(order: Orders.Order, ledger: Ledger, step: Step, a: nat)
    requires Inv(ledger) && Admitted(ledger, step, a) && step.ApplyCancellation?
    ensures Carries(order, ledger, step, a, Met(order, ledger, step, a))
  {
    var met := Met(order, ledger, step, a);
    assert met == ApplyResource(ledger, a, step.resource, OutboxEvent(step.event), FromCancellationWorker,
                                Some(order.status), step.now);
    if met.Ok? {
      assert met.value.intent.Some? && a < |met.value.attempts|;
      WorkerKeepsBooks(met.value, step, a);
    }
    assert Body(order, ledger, step) ==
           ApplyCancellationBody(order, ledger, a, step.resource, step.token, step.event, step.now);
  }

  lemma MeetsItsAttempt(order: Orders.Order, ledger: Ledger, step: Step, a: nat)
    requires Inv(ledger) && Admitted(ledger, step, a)
    ensures Carries(order, ledger, step, a, Met(order, ledger, step, a))
  {
    match step
    case Callback(_, _, _, _) => CallbackMeetsItsAttempt(order, ledger, step, a);
    case Reconcile(_, _, _, _, _) => ReconcileMeetsItsAttempt(order, ledger, step, a);
    case ApplyCancellation(_, _, _, _, _) => CancellationMeetsItsAttempt(order, ledger, step, a);
  }

  lemma Commits(order: Orders.Order, ledger: Ledger, step: Step, a: nat)
    requires Inv(ledger) && Admitted(ledger, step, a)
    ensures Execute(order, ledger, step) == Body(order, ledger, step)
  {
    AttemptIsFound(ledger, step, a);
    MeetsItsAttempt(order, ledger, step, a);
    if Body(order, ledger, step).Ok? {
      CommitsExactly(order, ledger, step);
      if step.Callback? {
        HistoryNeverRefusesACallback(order, ledger, step);
        HistoryFiresExactly(order, ledger, step);
      }
    }
  }

  lemma VerdictIsCommitted(order: Orders.Order, ledger: Ledger, step: Step, a: nat, verdict: Verdict)
    requires Inv(ledger) && Admitted(ledger, step, a) && Judged(order, ledger, step, a) == verdict
    ensures match verdict
            case Unknown => Execute(order, ledger, step) == Err(InvalidPayment)
            case Locked => Stands(order, ledger, step, a)
            case Stay => Stands(order, ledger, step, a)
            case Shift(target, reason) =>
              Turns(order, ledger, step, a, ToldStatus(target),
                    ToldAttempt(ledger.attempts[a].status, target, reason), reason)
  {
    ResourceIsMet(order, ledger, step, a);
    MeetsItsAttempt(order, ledger, step, a);
    Commits(order, ledger, step, a);
  }

  // The step leaves what the ruling on its word says.
  lemma RulingIsCommitted(order: Orders.Order, ledger: Ledger, step: Step, a: nat) returns (meaning: Option<Target>)
    requires Inv(ledger) && Admitted(ledger, step, a)
    ensures Conveys(ProviderAt(ledger, a), step.resource.status, meaning)
    ensures Understood(ProviderAt(ledger, a), step.resource.status) <==> meaning.Some?
    ensures meaning != Some(MoveTo(Pending))
    ensures match Ruling(ledger.intent.value.status, ledger.attempts[a].status,
                         InFull(ledger.intent.value, step.resource), meaning, OrderGone(order, step), SourceOf(step))
            case Unknown => Execute(order, ledger, step) == Err(InvalidPayment)
            case Locked => Stands(order, ledger, step, a)
            case Stay => Stands(order, ledger, step, a)
            case Shift(target, reason) =>
              Turns(order, ledger, step, a, ToldStatus(target),
                    ToldAttempt(ledger.attempts[a].status, target, reason), reason)
  {
    meaning := Meaning(ProviderAt(ledger, a), step.resource.status);
    WeighedByRank(ledger.intent.value, ledger.attempts[a], meaning, step.resource, SourceOf(step),
                  if step.ApplyCancellation? then Some(order.status) else None);
    VerdictIsCommitted(order, ledger, step, a, Judged(order, ledger, step, a));
  }

  // --- a payment nobody decided yet ---

  lemma AdvanceIsRuled(
    status: IntentStatus, attempt: AttemptStatus, said: IntentStatus, gone: bool, source: Source)
    requires Rank(status) < DECIDED && Rank(status) < Rank(said)
    requires Repeats(attempt, Some(MoveTo(said))) && !(gone && said == IntentStatus.Paid)
    ensures Ruling(status, attempt, true, Some(MoveTo(said)), gone, source) == Shift(MoveTo(said), None)
    ensures ToldStatus(MoveTo(said)) == said && ToldAttempt(attempt, MoveTo(said), None) == Matching(said)
  {
  }

  // A word for a later status moves the payment there and the attempt with it.
  lemma HigherWordAdvances(order: Orders.Order, ledger: Ledger, step: Step, a: nat, said: IntentStatus)
    requires Inv(ledger) && Admitted(ledger, step, a) && Credible(order, ledger, step, a)
    requires Says(ProviderAt(ledger, a), step.resource.status, said)
    requires Rank(ledger.intent.value.status) < DECIDED && Rank(ledger.intent.value.status) < Rank(said)
    ensures Turns(order, ledger, step, a, said, Matching(said), None)
  {
    var meaning := RulingIsCommitted(order, ledger, step, a);
    assert meaning == Some(MoveTo(said));
    AdvanceIsRuled(ledger.intent.value.status, ledger.attempts[a].status, said, OrderGone(order, step), SourceOf(step));
  }

  // The word for the status it has changes nothing.
  lemma SameWordChangesNothing(order: Orders.Order, ledger: Ledger, step: Step, a: nat)
    requires Inv(ledger) && Admitted(ledger, step, a) && Credible(order, ledger, step, a)
    requires Says(ProviderAt(ledger, a), step.resource.status, ledger.intent.value.status)
    ensures Stands(order, ledger, step, a)
  {
    var meaning := RulingIsCommitted(order, ledger, step, a);
  }

  // A word for an earlier status raises the alarm.
  lemma LowerWordAlarms(order: Orders.Order, ledger: Ledger, step: Step, a: nat, said: IntentStatus)
    requires Inv(ledger) && Admitted(ledger, step, a) && Credible(order, ledger, step, a)
    requires Says(ProviderAt(ledger, a), step.resource.status, said)
    requires Rank(said) < Rank(ledger.intent.value.status) < DECIDED
    ensures Alarms(order, ledger, step, a, NonMonotonicProviderEvent)
  {
    var meaning := RulingIsCommitted(order, ledger, step, a);
  }

  // A failure ends the attempt and leaves the payment free for another one.
  lemma FailureFreesThePayment(order: Orders.Order, ledger: Ledger, step: Step, a: nat)
    requires Inv(ledger) && Admitted(ledger, step, a) && Credible(order, ledger, step, a)
    requires SaysFailed(ProviderAt(ledger, a), step.resource.status)
    requires Rank(ledger.intent.value.status) < DECIDED
    ensures if ledger.attempts[a].status == Failed && ledger.intent.value.status == Pending
            then Stands(order, ledger, step, a)
            else Turns(order, ledger, step, a, Pending, Failed, None)
  {
    var meaning := RulingIsCommitted(order, ledger, step, a);
  }

  // An attempt that is over and is told anything else raises the alarm.
  lemma ContradictionAlarms(order: Orders.Order, ledger: Ledger, step: Step, a: nat)
    requires Inv(ledger) && Admitted(ledger, step, a) && !Credible(order, ledger, step, a)
    requires step.ApplyCancellation? || Understood(ProviderAt(ledger, a), step.resource.status)
    requires Rank(ledger.intent.value.status) < DECIDED && !Open(ledger.attempts[a].status)
    ensures Alarms(order, ledger, step, a, NonMonotonicProviderEvent)
  {
    var meaning := RulingIsCommitted(order, ledger, step, a);
  }

  // For an open attempt the alarm names what was wrong: first the amount or the
  // currency, then a word the worker does not know, and money taken for an
  // order that was cancelled, which the attempt records as paid.
  lemma DoubtfulWordAlarms(order: Orders.Order, ledger: Ledger, step: Step, a: nat)
    requires Inv(ledger) && Admitted(ledger, step, a)
    requires step.ApplyCancellation? || Understood(ProviderAt(ledger, a), step.resource.status)
    requires Rank(ledger.intent.value.status) < DECIDED && Open(ledger.attempts[a].status)
    ensures var provider, word := ProviderAt(ledger, a), step.resource.status;
            if !InFull(ledger.intent.value, step.resource) then
              Alarms(order, ledger, step, a, AmountOrCurrencyMismatch)
            else if !Understood(provider, word) then
              Alarms(order, ledger, step, a, UnknownProviderStatus)
            else if OrderGone(order, step) && Says(provider, word, IntentStatus.Paid) then
              Turns(order, ledger, step, a, RequiresAttention, AttemptStatus.Paid, Some(OrderCancelledWithPaidPayment))
            else Credible(order, ledger, step, a)
  {
    var meaning := RulingIsCommitted(order, ledger, step, a);
  }

  // --- a payment already decided, or already alarmed ---

  // PAID, CANCELLED and EXPIRED are only ever confirmed or put in doubt.
  lemma DecidedPaymentIsConfirmedOrAlarmed(order: Orders.Order, ledger: Ledger, step: Step, a: nat)
    requires Inv(ledger) && Admitted(ledger, step, a)
    requires step.ApplyCancellation? || Understood(ProviderAt(ledger, a), step.resource.status)
    requires Rank(ledger.intent.value.status) == DECIDED
    ensures if Credible(order, ledger, step, a)
               && Says(ProviderAt(ledger, a), step.resource.status, ledger.intent.value.status)
            then Stands(order, ledger, step, a)
            else Alarms(order, ledger, step, a, NonMonotonicProviderEvent)
  {
    var meaning := RulingIsCommitted(order, ledger, step, a);
  }

  // Under an alarm a callback changes nothing; a person or the cancellation
  // worker may bring any credible status.
  lemma AlarmIsLiftedByCredibleWords(order: Orders.Order, ledger: Ledger, step: Step, a: nat)
    requires Inv(ledger) && Admitted(ledger, step, a)
    requires step.ApplyCancellation? || Understood(ProviderAt(ledger, a), step.resource.status)
    requires ledger.intent.value.status == RequiresAttention
    ensures step.Callback? || !Credible(order, ledger, step, a) ==> Stands(order, ledger, step, a)
    ensures !step.Callback? && Credible(order, ledger, step, a) ==>
              var provider, word := ProviderAt(ledger, a), step.resource.status;
              && (SaysFailed(provider, word) ==> Turns(order, ledger, step, a, Pending, Failed, None))
              && (forall said :: Says(provider, word, said) ==>
                    if said == RequiresAttention then Stands(order, ledger, step, a)
                    else Turns(order, ledger, step, a, said, Matching(said), None))
  {
    var meaning := RulingIsCommitted(order, ledger, step, a);
  }

  // A word not in the provider's table is refused, except from the worker.
  lemma UnknownWordIsRefused(order: Orders.Order, ledger: Ledger, step: Step, a: nat)
    requires Inv(ledger) && Admitted(ledger, step, a) && !step.ApplyCancellation?
    requires !Understood(ProviderAt(ledger, a), step.resource.status)
    ensures Execute(order, ledger, step) == Err(InvalidPayment)
  {
    var meaning := RulingIsCommitted(order, ledger, step, a);
  }

  // --- who is let in ---

  // A callback commits exactly when its account is an active Mercado Pago
  // account with callbacks, and it repeats a request already heard or brings a
  // known word for an attempt of the account.  A repetition changes nothing.
  lemma CallbackIsHeardExactly(
    order: Orders.Order, ledger: Ledger, account: nat, resource: Resource, request: string, now: int)
    requires Inv(ledger)
    ensures var r := Execute(order, ledger, Callback(account, resource, request, now));
            var heard := (account, resource.id, request) in ledger.callbackReceipts;
            && (r.Ok? <==>
                  && resource.id != ""
                  && account in ledger.accounts
                  && ledger.accounts[account] == Account(MercadoPago, true, true)
                  && (heard || (Understood(MercadoPago, resource.status)
                                && exists i :: 0 <= i < |ledger.attempts| && ledger.attempts[i].account == account
                                               && ledger.attempts[i].externalId == resource.id)))
            && (r.Ok? && heard ==> r.value == ledger)
  {
    var step := Callback(account, resource, request, now);
    var found := AttemptFor(ledger.attempts, account, resource.id);
    if found.Some? && account in ledger.accounts && Admitted(ledger, step, found.value) {
      WordsAreTheTables(MercadoPago, resource.status);
      MeetsItsAttempt(order, ledger, step, found.value);
      Commits(order, ledger, step, found.value);
    }
  }

  // A reconciliation is a manager's, against the version it read, and finds its
  // attempt by the resource's id; the worker's answer needs the lease and the
  // attempt's own resource.
  lemma OnlyTheEntitledAreHeard(order: Orders.Order, ledger: Ledger, step: Step)
    requires Inv(ledger) && (step.Reconcile? || step.ApplyCancellation?)
    requires Execute(order, ledger, step).Ok?
    ensures ledger.intent.Some?
    ensures step.Reconcile? ==>
              && step.manager
              && step.version == ledger.intent.value.version
              && exists i :: 0 <= i < |ledger.attempts| && ledger.attempts[i].externalId == step.resource.id
    ensures step.ApplyCancellation? ==>
              && step.attempt < |ledger.attempts|
              && ledger.attempts[step.attempt].leaseToken == Some(step.token)
              && ledger.attempts[step.attempt].externalId == step.resource.id
  {
  }
}

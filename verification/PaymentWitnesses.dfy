// Runs that reach the corners the general lemmas speak of, and the cancellation
// worker's dead end.
module PaymentWitnesses {
  import opened Common
  import opened Payments
  import opened PaymentSafety
  import opened PaymentGuards
  import opened PaymentAttention
  import PaymentConvergence
  import Orders
  import OrderSample
  import Commerce

  // --- a worker's event id is good for one change ---

  // The cancellation worker writes every change under the id of the same outbox
  // event, so its answer commits exactly when it holds the lease, brings the
  // attempt's own resource, and concludes nothing new or concludes it under an
  // event that never concluded anything before.
  lemma CancellationAnswerCommitsExactly(
    order: Orders.Order, ledger: Ledger, a: nat, resource: Resource, token: nat, event: nat, now: int)
    requires Inv(ledger) && ledger.intent.Some? && a < |ledger.attempts|
             && ledger.attempts[a].account in ledger.accounts
    ensures var attempt := ledger.attempts[a];
            var verdict := Judge(ledger.intent.value, attempt, ledger.accounts[attempt.account].provider, resource,
                                 FromCancellationWorker, Some(order.status));
            Execute(order, ledger, ApplyCancellation(a, resource, token, event, now)).Ok? <==>
            && attempt.leaseToken == Some(token)
            && resource.id == attempt.externalId
            && (verdict.Shift? ==>
                  && !Logged(ledger.history, OutboxEvent(event))
                  && !(attempt.externalId == "" && verdict.target == MoveTo(AwaitingPayment)))
  {
    var step := ApplyCancellation(a, resource, token, event, now);
    if Body(order, ledger, step).Ok? {
      WorkerLogsItsEvent(order, ledger, step);
      CommitsExactly(order, ledger, step);
    }
  }

  lemma WorkerLogsItsEvent(order: Orders.Order, ledger: Ledger, step: Step)
    requires step.ApplyCancellation? && Body(order, ledger, step).Ok?
    ensures var after := Body(order, ledger, step).value;
            && |ledger.history| <= |after.history|
            && (|| (after.history == ledger.history && after.intent == ledger.intent)
                || (|after.history| == |ledger.history| + 1
                    && after.history[|ledger.history|].command == OutboxEvent(step.event)))
  {
  }

  // After its first change under an event the worker never moves the intent
  // again under it.
  lemma CancellationWorkerMovesOnce(
    order: Orders.Order, ledger: Ledger, a: nat, resource: Resource, token: nat, event: nat, now: int)
    requires Inv(ledger) && Logged(ledger.history, OutboxEvent(event))
    requires Execute(order, ledger, ApplyCancellation(a, resource, token, event, now)).Ok?
    ensures Execute(order, ledger, ApplyCancellation(a, resource, token, event, now)).value.intent == ledger.intent
  {
    var step := ApplyCancellation(a, resource, token, event, now);
    WorkerLogsItsEvent(order, ledger, step);
    HistoryFiresExactly(order, ledger, step);
  }

  // --- building runs ---

  function Try(status: AttemptStatus, key: string, id: string, version: nat): Attempt {
    Attempt(0, status, key, id, id, None, None, None, 0, None, None, version, None)
  }

  // What matters of a ledger that uses one Mercado Pago account; commands
  // covers the command ids its history has used.
  ghost predicate Stands(
    ledger: Ledger, intent: Intent, attempts: seq<Attempt>, commands: set<CommandId>,
    receipts: set<(nat, string, string)>) {
    && Inv(ledger)
    && ledger.intent == Some(intent)
    && ledger.attempts == attempts
    && ledger.accounts == map[0 := Account(MercadoPago, true, true)]
    && ledger.foreignIds == {}
    && ledger.callbackReceipts == receipts
    && ledger.nextToken == 0 && ledger.nextEvent == 0
    && forall k :: 0 <= k < |ledger.history| ==> ledger.history[k].command in commands
  }

  lemma Opened() returns (ledger: Ledger)
    ensures Stands(ledger, Intent(Pending, 100, CURRENCY, 1, None, None, None, None), [], {Client("create")}, {})
    ensures Reached(ledger)
  {
    var order := OrderSample.PLACED;
    var s1, s2 := SetAccount(0, MercadoPago, true, true), CreateIntent(true, "create");
    NewLedgerInv();
    CommitsExactly(order, NewLedger, s1);
    var l1 := Next(order, NewLedger, s1);
    StepKeepsInv(order, NewLedger, s1);
    CommitsExactly(order, l1, s2);
    StepKeepsInv(order, l1, s2);
    ledger := Next(order, l1, s2);
    ReachedFirst();
    ReachedNext(NewLedger, s1);
    ReachedNext(l1, s2);
  }

  // Some run of the joint system leads here, over a confirmed order.
  ghost predicate Reached(ledger: Ledger) {
    exists es :: Arrives(es, ledger)
  }

  ghost predicate Arrives(es: seq<Commerce.Event>, ledger: Ledger) {
    Commerce.Run(es).order == OrderSample.PLACED && Commerce.Run(es).ledger == ledger
  }

  lemma RunOneMore(es: seq<Commerce.Event>, e: Commerce.Event)
    ensures Commerce.Run(es + [e]) == Commerce.React(Commerce.Run(es), e)
  {
    assert (es + [e])[..|es|] == es;
  }

  lemma ReachedFirst()
    ensures Reached(NewLedger)
  {
    var none: seq<Commerce.Event> := [];
    var add, confirm := Commerce.OnOrder(OrderSample.ADD), Commerce.OnOrder(OrderSample.CONFIRM);
    OrderSample.Adds();
    OrderSample.Confirms();
    RunOneMore(none, add);
    RunOneMore(none + [add], confirm);
    assert Arrives(none + [add] + [confirm], NewLedger);
  }

  lemma ReachedNext(ledger: Ledger, step: Step)
    requires Reached(ledger)
    ensures Reached(Next(OrderSample.PLACED, ledger, step))
  {
    var es :| Arrives(es, ledger);
    RunOneMore(es, Commerce.OnPayment(step));
    assert Arrives(es + [Commerce.OnPayment(step)], Next(OrderSample.PLACED, ledger, step));
  }

  lemma Requests(
    ledger: Ledger, intent: Intent, attempts: seq<Attempt>, commands: set<CommandId>,
    receipts: set<(nat, string, string)>, key: string)
    returns (next: Ledger)
    requires Stands(ledger, intent, attempts, commands, receipts) && Reached(ledger)
    requires intent.status == Pending && forall i :: 0 <= i < |attempts| ==>
             !Open(attempts[i].status) && attempts[i].providerKey != key
    ensures Stands(next, intent.(version := intent.version + 1), attempts + [Try(Requested, key, "", 1)], commands,
                   receipts)
    ensures Reached(next)
  {
    next := Commits(ledger, RequestCheckout(true, 0, intent.version, key));
  }

  lemma Activates(
    ledger: Ledger, intent: Intent, attempts: seq<Attempt>, commands: set<CommandId>,
    receipts: set<(nat, string, string)>,
                  a: nat, key: string, id: string, event: nat) returns (next: Ledger)
    requires Stands(ledger, intent, attempts, commands, receipts) && Reached(ledger) && a < |attempts|
    requires intent.status == Pending && attempts[a] == Try(Requested, key, "", 1) && id != ""
             && OutboxEvent(event) !in commands
    requires forall i :: 0 <= i < |attempts| ==> attempts[i].externalId != id
    ensures Stands(next, intent.(status := AwaitingPayment, attention := None, version := intent.version + 1),
                   attempts[a := Try(Active, key, id, 2)], commands + {OutboxEvent(event)}, receipts)
    ensures Reached(next)
  {
    next := Commits(ledger, Activate(a, Checkout(id, id, true, None), None, event));
  }

  function Said(id: string, status: string): Resource {
    Resource(id, status, 100, CURRENCY)
  }

  lemma Commits(ledger: Ledger, step: Step) returns (next: Ledger)
    requires Inv(ledger) && Reached(ledger)
    requires Body(OrderSample.PLACED, ledger, step).Ok? && !Objection(OrderSample.PLACED, ledger, step)
    ensures next == Body(OrderSample.PLACED, ledger, step).value
    ensures Inv(next) && Reached(next)
  {
    var order := OrderSample.PLACED;
    CommitsExactly(order, ledger, step);
    StepKeepsInv(order, ledger, step);
    ReachedNext(ledger, step);
    next := Next(order, ledger, step);
  }

  // The two ways evidence enters, on an attempt whose id only it has.
  ghost predicate Brings(ledger: Ledger, a: nat, step: Step, command: CommandId) {
    && ledger.intent.Some? && a < |ledger.attempts|
    && ledger.accounts == map[0 := Account(MercadoPago, true, true)]
    && ledger.attempts[a].account == 0 && ledger.attempts[a].externalId != ""
    && (forall i :: 0 <= i < |ledger.attempts| && i != a ==>
        ledger.attempts[i].externalId != ledger.attempts[a].externalId)
    && (|| (step.Callback? && step.account == 0 && (0, step.resource.id, step.request) !in ledger.callbackReceipts
            && command == CallbackRequest(0, step.resource.id, step.request))
        || (step.Reconcile? && step.manager && step.version == ledger.intent.value.version
            && command == Client(step.key)))
    && step.resource.id == ledger.attempts[a].externalId && step.now == 0
  }

  ghost function Brought(
    ledger: Ledger, a: nat, step: Step, command: CommandId, target: Target, reason: Option<Reason>): Ledger
    requires Brings(ledger, a, step, command)
  {
    var shifted := ShiftLedger(ledger, a, target, reason, command, SourceOf(step), 0);
    if step.Callback? then shifted.(callbackReceipts := ledger.callbackReceipts + {(0, step.resource.id, step.request)})
       else shifted
  }

  lemma EvidenceBody(ledger: Ledger, a: nat, step: Step, command: CommandId, target: Target, reason: Option<Reason>)
    requires Inv(ledger) && Brings(ledger, a, step, command)
    requires Judge(ledger.intent.value, ledger.attempts[a], MercadoPago, step.resource, SourceOf(step), None) ==
             Shift(target, reason)
    ensures Focus(ledger, step) == a
    ensures Body(OrderSample.PLACED, ledger, step) == Ok(Brought(ledger, a, step, command, target, reason))
  {
  }

  lemma BroughtStands(
    ledger: Ledger, intent: Intent, attempts: seq<Attempt>, commands: set<CommandId>,
    receipts: set<(nat, string, string)>,
                      a: nat, step: Step, command: CommandId, target: Target, reason: Option<Reason>)
    requires Stands(ledger, intent, attempts, commands, receipts) && Brings(ledger, a, step, command)
    requires Inv(Brought(ledger, a, step, command, target, reason))
    ensures Stands(Brought(ledger, a, step, command, target, reason), ShiftIntent(intent, target, reason, 0),
                   attempts[a := attempts[a].(status := ShiftAttempt(attempts[a].status, target, reason),
                                              version := attempts[a].version + 1)],
                   commands + {command},
                   if step.Callback? then receipts + {(0, step.resource.id, step.request)} else receipts)
  {
  }

  lemma Learns(
    ledger: Ledger, intent: Intent, attempts: seq<Attempt>, commands: set<CommandId>,
    receipts: set<(nat, string, string)>,
               a: nat, step: Step, command: CommandId, target: Target, reason: Option<Reason>) returns (next: Ledger)
    requires Stands(ledger, intent, attempts, commands, receipts) && Reached(ledger)
    requires Brings(ledger, a, step, command) && command !in commands
    requires Judge(intent, attempts[a], MercadoPago, step.resource, SourceOf(step), None) == Shift(target, reason)
    ensures Stands(next, ShiftIntent(intent, target, reason, 0),
                   attempts[a := attempts[a].(status := ShiftAttempt(attempts[a].status, target, reason),
                                              version := attempts[a].version + 1)],
                   commands + {command},
                   if step.Callback? then receipts + {(0, step.resource.id, step.request)} else receipts)
    ensures Reached(next)
  {
    EvidenceBody(ledger, a, step, command, target, reason);
    NoObjection(ledger, a, step, command, commands, target, reason);
    next := Commits(ledger, step);
    BroughtStands(ledger, intent, attempts, commands, receipts, a, step, command, target, reason);
  }

  lemma NoObjection(
    ledger: Ledger, a: nat, step: Step, command: CommandId, commands: set<CommandId>, target: Target,
    reason: Option<Reason>)
    requires Brings(ledger, a, step, command) && Focus(ledger, step) == a
    requires Body(OrderSample.PLACED, ledger, step) == Ok(Brought(ledger, a, step, command, target, reason))
    requires forall k :: 0 <= k < |ledger.history| ==> ledger.history[k].command in commands
    requires command !in commands
    ensures !Objection(OrderSample.PLACED, ledger, step)
  {
  }

  // --- the runs ---

  function Value(status: IntentStatus, version: nat): Intent {
    Intent(status, 100, CURRENCY, version, None, None, None, None)
  }

  lemma RejectionFails(version: nat, attempt: Attempt, source: Source)
    requires attempt.status == Active && (source == FromCallback || source == FromReconciliation)
    ensures Judge(Value(AwaitingPayment, version), attempt, MercadoPago, Said(attempt.externalId, "rejected"), source,
                  None)
            == Shift(FailAttempt, None)
  {
    assert MapProviderStatus(MercadoPago, "rejected") == Some(FailAttempt);
  }

  const BEGUN: set<CommandId> := {Client("create"), OutboxEvent(1)}
  const FIRST: set<CommandId> := BEGUN + {CallbackRequest(0, "r", "n")}

  lemma FirstCheckoutOpens() returns (ledger: Ledger)
    ensures Stands(ledger, Value(AwaitingPayment, 3), [Try(Active, "a", "r", 2)], BEGUN, {}) && Reached(ledger)
  {
    var l0 := Opened();
    var l1 := Requests(l0, Value(Pending, 1), [], {Client("create")}, {}, "a");
    var tries := [Try(Requested, "a", "", 1)];
    assert [] + tries == tries;
    ledger := Activates(l1, Value(Pending, 2), tries, {Client("create")}, {}, 0, "a", "r", 1);
    assert tries[0 := Try(Active, "a", "r", 2)] == [Try(Active, "a", "r", 2)];
    assert {Client("create")} + {OutboxEvent(1)} == BEGUN;
  }

  lemma FirstCheckoutFails() returns (ledger: Ledger)
    ensures Stands(ledger, Value(Pending, 4), [Try(Failed, "a", "r", 3)], FIRST, {(0, "r", "n")}) && Reached(ledger)
  {
    var before := FirstCheckoutOpens();
    var attempt := Try(Active, "a", "r", 2);
    RejectionFails(3, attempt, FromCallback);
    ledger := Learns(before, Value(AwaitingPayment, 3), [attempt], BEGUN, {}, 0,
                     Callback(0, Said("r", "rejected"), "n", 0), CallbackRequest(0, "r", "n"), FailAttempt, None);
    assert {} + {(0, "r", "n")} == {(0, "r", "n")};
    assert [attempt][0 := Try(Failed, "a", "r", 3)] == [Try(Failed, "a", "r", 3)];
  }

  // A second checkout is open while the first, rejected one can still be heard.
  lemma SecondCheckoutOpens() returns (ledger: Ledger)
    ensures Stands(ledger, Value(AwaitingPayment, 6), [Try(Failed, "a", "r", 3), Try(Active, "aa", "rr", 2)],
                   FIRST + {OutboxEvent(2)}, {(0, "r", "n")})
    ensures Reached(ledger)
  {
    var l0 := FirstCheckoutFails();
    var failed := Try(Failed, "a", "r", 3);
    var l1 := Requests(l0, Value(Pending, 4), [failed], FIRST, {(0, "r", "n")}, "aa");
    var tries := [failed, Try(Requested, "aa", "", 1)];
    assert [failed] + [Try(Requested, "aa", "", 1)] == tries;
    ledger := Activates(l1, Value(Pending, 5), tries, FIRST, {(0, "r", "n")}, 1, "aa", "rr", 2);
    assert tries[1 := Try(Active, "aa", "rr", 2)] == [failed, Try(Active, "aa", "rr", 2)];
  }

  // The state in which callbacks never settle is reached by an ordinary run.
  lemma CyclingIsReachable()
    ensures exists es :: PaymentConvergence.CanCycle(Commerce.Run(es).ledger)
  {
    var ledger := SecondCheckoutOpens();
    assert PaymentConvergence.Speaks(ledger, 0) && ledger.attempts[0].status == Failed;
    assert PaymentConvergence.Speaks(ledger, 1) && Open(ledger.attempts[1].status);
    var es :| Arrives(es, ledger);
    assert PaymentConvergence.CanCycle(Commerce.Run(es).ledger);
  }

  // --- the cancellation worker's dead end, reached ---

  // A ledger with a single attempt that workers lease in turn.
  ghost predicate Works(ledger: Ledger, intent: Intent, attempt: Attempt, tokens: nat, commands: set<CommandId>) {
    && Inv(ledger) && Reached(ledger)
    && ledger.intent == Some(intent)
    && ledger.attempts == [attempt]
    && ledger.accounts == map[0 := Account(MercadoPago, true, true)]
    && ledger.nextToken == tokens
    && forall k :: 0 <= k < |ledger.history| ==> ledger.history[k].command in commands
  }

  lemma CancellationIsRequested() returns (ledger: Ledger)
    ensures Works(ledger, Value(AwaitingPayment, 4), Try(Active, "a", "r", 2).(cancelEvent := Some(0)), 0, BEGUN)
  {
    var before := FirstCheckoutOpens();
    assert OpenAttempt(before.attempts) == Some(0);
    ledger := Commits(before, RequestCancellation(true, 3));
    assert before.attempts[0 := Try(Active, "a", "r", 2).(cancelEvent := Some(0))]
           == [Try(Active, "a", "r", 2).(cancelEvent := Some(0))];
  }

  lemma WorkerClaims(before: Ledger, intent: Intent, attempt: Attempt, tokens: nat, commands: set<CommandId>, now: int)
    returns (ledger: Ledger)
    requires Works(before, intent, attempt, tokens, commands)
    requires (attempt.status == Active || attempt.status == AttemptStatus.Processing) && attempt.externalId != ""
    requires !Waiting(attempt.availableAt, now) && !Waiting(attempt.leaseExpires, now)
    ensures Works(ledger, intent, Leased(attempt, tokens, now), tokens + 1, commands)
    ensures ledger.history == before.history
  {
    ledger := Commits(before, ClaimCancellation(0, now));
    assert [attempt][0 := Leased(attempt, tokens, now)] == [Leased(attempt, tokens, now)];
  }

  // The attempt after the worker recorded a conclusion about it.
  function Concluded(
    attempt: Attempt, intent: IntentStatus, target: Target, reason: Option<Reason>, now: int): Attempt {
    CancellationRecorded(
      attempt.(status := ShiftAttempt(attempt.status, target, reason), version := attempt.version + 1), intent, now)
  }

  lemma WorkerRecords(
    before: Ledger, intent: Intent, attempt: Attempt, tokens: nat, commands: set<CommandId>,
    resource: Resource, event: nat, now: int, target: Target, reason: Option<Reason>)
    returns (ledger: Ledger)
    requires Works(before, intent, attempt, tokens, commands) && OutboxEvent(event) !in commands
    requires attempt.account == 0 && attempt.leaseToken.Some? && attempt.externalId != ""
             && resource.id == attempt.externalId
    requires Judge(intent, attempt, MercadoPago, resource, FromCancellationWorker, Some(Orders.Confirmed)) ==
             Shift(target, reason)
    ensures var after := ShiftIntent(intent, target, reason, now);
            Works(ledger, after, Concluded(attempt, after.status, target, reason, now), tokens,
                  commands + {OutboxEvent(event)})
    ensures Logged(ledger.history, OutboxEvent(event))
  {
    var token := attempt.leaseToken.value;
    var after := ShiftIntent(intent, target, reason, now);
    CancellationAnswerCommitsExactly(OrderSample.PLACED, before, 0, resource, token, event, now);
    WorkerBody(before, resource, token, event, now, target, reason);
    ledger := Next(OrderSample.PLACED, before, ApplyCancellation(0, resource, token, event, now));
    ReachedNext(before, ApplyCancellation(0, resource, token, event, now));
    StepKeepsInv(OrderSample.PLACED, before, ApplyCancellation(0, resource, token, event, now));
    assert ledger.history[|before.history|].command == OutboxEvent(event);
    assert [attempt][0 := Concluded(attempt, after.status, target, reason, now)]
           == [Concluded(attempt, after.status, target, reason, now)];
  }

  lemma WorkerBody(
    before: Ledger, resource: Resource, token: nat, event: nat, now: int, target: Target, reason: Option<Reason>)
    requires before.intent.Some? && |before.attempts| == 1 && before.attempts[0].account in before.accounts
    requires before.attempts[0].leaseToken == Some(token) && resource.id == before.attempts[0].externalId
    requires Judge(before.intent.value, before.attempts[0], before.accounts[before.attempts[0].account].provider,
                   resource,
                   FromCancellationWorker, Some(Orders.Confirmed)) == Shift(target, reason)
    ensures var body := Body(OrderSample.PLACED, before, ApplyCancellation(0, resource, token, event, now));
            var after := ShiftIntent(before.intent.value, target, reason, now);
            && body.Ok?
            && body.value.intent == Some(after)
            && body.value.attempts == [Concluded(before.attempts[0], after.status, target, reason, now)]
            && body.value.accounts == before.accounts && body.value.nextToken == before.nextToken
            && body.value.history
               == before.history + [Entry(Some(before.intent.value.status), after.status, OutboxEvent(event),
                                          FromCancellationWorker, reason)]
  {
  }

  lemma ProcessingMoves(intent: Intent, attempt: Attempt, order: Option<Orders.OrderStatus>)
    requires intent.amount == 100 && intent.currency == CURRENCY && intent.status == AwaitingPayment
             && attempt.status == Active
    ensures Judge(intent, attempt, MercadoPago, Said(attempt.externalId, "in_process"), FromCancellationWorker, order)
            == Shift(MoveTo(IntentStatus.Processing), None)
  {
    assert MapProviderStatus(MercadoPago, "in_process") == Some(MoveTo(IntentStatus.Processing));
  }

  lemma CancelledMoves(intent: Intent, attempt: Attempt, order: Option<Orders.OrderStatus>)
    requires intent.amount == 100 && intent.currency == CURRENCY
    requires intent.status == IntentStatus.Processing && attempt.status == AttemptStatus.Processing
    ensures Judge(intent, attempt, MercadoPago, Said(attempt.externalId, "cancelled"), FromCancellationWorker, order)
            == Shift(MoveTo(IntentStatus.Cancelled), None)
  {
    assert MapProviderStatus(MercadoPago, "cancelled") == Some(MoveTo(IntentStatus.Cancelled));
  }

  const ASKED := Leased(Try(Active, "a", "r", 2).(cancelEvent := Some(0)), 0, 0)

  const TOLD := Concluded(ASKED, IntentStatus.Processing, MoveTo(IntentStatus.Processing), None, 0)

  lemma WorkerAsks() returns (ledger: Ledger)
    ensures Works(ledger, Value(AwaitingPayment, 4), ASKED, 1, BEGUN)
  {
    var before := CancellationIsRequested();
    ledger := WorkerClaims(before, Value(AwaitingPayment, 4), Try(Active, "a", "r", 2).(cancelEvent := Some(0)), 0,
                           BEGUN, 0);
  }

  lemma WorkerIsTold() returns (ledger: Ledger)
    ensures Works(ledger, Value(IntentStatus.Processing, 5), TOLD, 1, BEGUN + {OutboxEvent(0)})
    ensures Logged(ledger.history, OutboxEvent(0))
  {
    var before := WorkerAsks();
    ProcessingMoves(Value(AwaitingPayment, 4), ASKED, Some(Orders.Confirmed));
    ledger := WorkerRecords(before, Value(AwaitingPayment, 4), ASKED, 1, BEGUN, Said("r", "in_process"), 0, 0,
                            MoveTo(IntentStatus.Processing), None);
  }

  lemma WorkerAsksAgain() returns (ledger: Ledger)
    ensures Works(ledger, Value(IntentStatus.Processing, 5), Leased(TOLD, 1, 600), 2, BEGUN + {OutboxEvent(0)})
    ensures Logged(ledger.history, OutboxEvent(0))
  {
    var before := WorkerIsTold();
    ledger := WorkerClaims(before, Value(IntentStatus.Processing, 5), TOLD, 1, BEGUN + {OutboxEvent(0)}, 600);
  }

  // Asked to cancel, the provider first says "in process" and later
  // "cancelled".  The worker holds the lease and concludes that the payment is
  // cancelled, but cannot record it.
  lemma CancellationIsLost()
    ensures exists es, token: nat ::
              var s := Commerce.Run(es);
              var step := ApplyCancellation(0, Said("r", "cancelled"), token, 0, 600);
              && s.ledger.attempts != [] && s.ledger.attempts[0].leaseToken == Some(token)
              && s.ledger.attempts[0].cancelEvent == Some(0) && s.ledger.attempts[0].cancelDone == None
              && Body(s.order, s.ledger, step).Ok?
              && Body(s.order, s.ledger, step).value.intent.value.status == IntentStatus.Cancelled
              && Execute(s.order, s.ledger, step) == Err(IntegrityViolation)
  {
    var ledger := WorkerAsksAgain();
    var es :| Arrives(es, ledger);
    CancelledMoves(Value(IntentStatus.Processing, 5), ledger.attempts[0], Some(Orders.Confirmed));
    CancellationAnswerCommitsExactly(OrderSample.PLACED, ledger, 0, Said("r", "cancelled"), 1, 0, 600);
    assert Commerce.Run(es).ledger.attempts[0].leaseToken == Some(1);
  }

  // After the first payment the intent remembers when it was paid.
  function Charged(status: IntentStatus, version: nat, attention: Option<Reason>): Intent {
    Intent(status, 100, CURRENCY, version, attention, Some(0), None, None)
  }

  lemma ApprovalPays(intent: Intent, attempt: Attempt)
    requires intent.amount == 100 && intent.currency == CURRENCY
    requires (attempt.status == Active && intent.status == AwaitingPayment)
             || (attempt.status == AttemptStatus.Paid && intent.status == Pending)
    ensures Judge(intent, attempt, MercadoPago, Said(attempt.externalId, "approved"), FromCallback, None) ==
            Shift(MoveTo(IntentStatus.Paid), None)
  {
    assert MapProviderStatus(MercadoPago, "approved") == Some(MoveTo(IntentStatus.Paid));
  }

  lemma RefundAlarms(intent: Intent, attempt: Attempt)
    requires intent.amount == 100 && intent.currency == CURRENCY
    requires attempt.status == AttemptStatus.Paid && intent.status == IntentStatus.Paid
    ensures Judge(intent, attempt, MercadoPago, Said(attempt.externalId, "refunded"), FromCallback, None)
            == Shift(MoveTo(RequiresAttention), Some(NonMonotonicProviderEvent))
    ensures ShiftAttempt(attempt.status, MoveTo(RequiresAttention), Some(NonMonotonicProviderEvent)) ==
            AttemptStatus.Paid
    ensures ShiftIntent(intent, MoveTo(RequiresAttention), Some(NonMonotonicProviderEvent), 0)
            == intent.(status := RequiresAttention, attention := Some(NonMonotonicProviderEvent),
                       version := intent.version + 1)
  {
    assert MapProviderStatus(MercadoPago, "refunded") == Some(MoveTo(RequiresAttention));
  }

  lemma OldFailureClears(intent: Intent, attempt: Attempt)
    requires intent.amount == 100 && intent.currency == CURRENCY
    requires attempt.status == Failed && intent.status == RequiresAttention
    ensures Judge(intent, attempt, MercadoPago, Said(attempt.externalId, "rejected"), FromReconciliation, None) ==
            Shift(FailAttempt, None)
  {
    assert MapProviderStatus(MercadoPago, "rejected") == Some(FailAttempt);
  }

  lemma SecondCheckoutIsPaid(
    before: Ledger, commands: set<CommandId>, receipts: set<(nat, string, string)>) returns (ledger: Ledger)
    requires Stands(before, Value(AwaitingPayment, 6), [Try(Failed, "a", "r", 3), Try(Active, "aa", "rr", 2)], commands,
                    receipts)
    requires Reached(before) && CallbackRequest(0, "rr", "nn") !in commands && (0, "rr", "nn") !in receipts
    ensures Stands(ledger, Charged(IntentStatus.Paid, 7, None),
                   [Try(Failed, "a", "r", 3), Try(AttemptStatus.Paid, "aa", "rr", 3)],
                   commands + {CallbackRequest(0, "rr", "nn")}, receipts + {(0, "rr", "nn")})
    ensures Reached(ledger)
  {
    var tries := [Try(Failed, "a", "r", 3), Try(Active, "aa", "rr", 2)];
    ApprovalPays(Value(AwaitingPayment, 6), tries[1]);
    ledger := Learns(before, Value(AwaitingPayment, 6), tries, commands, receipts, 1,
                     Callback(0, Said("rr", "approved"), "nn", 0), CallbackRequest(0, "rr", "nn"),
                       MoveTo(IntentStatus.Paid), None);
    assert tries[1 := Try(AttemptStatus.Paid, "aa", "rr", 3)] ==
           [Try(Failed, "a", "r", 3), Try(AttemptStatus.Paid, "aa", "rr", 3)];
  }

  lemma RefundIsReported(
    before: Ledger, commands: set<CommandId>, receipts: set<(nat, string, string)>) returns (ledger: Ledger)
    requires Stands(before, Charged(IntentStatus.Paid, 7, None),
                    [Try(Failed, "a", "r", 3), Try(AttemptStatus.Paid, "aa", "rr", 3)], commands, receipts)
    requires Reached(before) && CallbackRequest(0, "rr", "nnn") !in commands && (0, "rr", "nnn") !in receipts
    ensures Stands(ledger, Charged(RequiresAttention, 8, Some(NonMonotonicProviderEvent)),
                   [Try(Failed, "a", "r", 3), Try(AttemptStatus.Paid, "aa", "rr", 4)],
                   commands + {CallbackRequest(0, "rr", "nnn")}, receipts + {(0, "rr", "nnn")})
    ensures Reached(ledger)
  {
    var tries := [Try(Failed, "a", "r", 3), Try(AttemptStatus.Paid, "aa", "rr", 3)];
    RefundAlarms(Charged(IntentStatus.Paid, 7, None), tries[1]);
    ledger := Learns(before, Charged(IntentStatus.Paid, 7, None), tries, commands, receipts, 1,
                     Callback(0, Said("rr", "refunded"), "nnn", 0), CallbackRequest(0, "rr", "nnn"),
                     MoveTo(RequiresAttention), Some(NonMonotonicProviderEvent));
    assert tries[1 := Try(AttemptStatus.Paid, "aa", "rr", 4)] ==
           [Try(Failed, "a", "r", 3), Try(AttemptStatus.Paid, "aa", "rr", 4)];
  }

  // Reconciling the old failed attempt takes the intent out of attention.
  lemma AlarmIsCleared(
    before: Ledger, commands: set<CommandId>, receipts: set<(nat, string, string)>) returns (ledger: Ledger)
    requires Stands(before, Charged(RequiresAttention, 8, Some(NonMonotonicProviderEvent)),
                    [Try(Failed, "a", "r", 3), Try(AttemptStatus.Paid, "aa", "rr", 4)], commands, receipts)
    requires Reached(before) && Client("q") !in commands
    ensures Stands(ledger, Charged(Pending, 9, None),
                   [Try(Failed, "a", "r", 4), Try(AttemptStatus.Paid, "aa", "rr", 4)],
                   commands + {Client("q")}, receipts)
    ensures Reached(ledger)
  {
    var tries := [Try(Failed, "a", "r", 3), Try(AttemptStatus.Paid, "aa", "rr", 4)];
    var intent := Charged(RequiresAttention, 8, Some(NonMonotonicProviderEvent));
    OldFailureClears(intent, tries[0]);
    ledger := Learns(before, intent, tries, commands, receipts, 0,
                     Reconcile(true, 8, Said("r", "rejected"), "q", 0), Client("q"), FailAttempt, None);
    assert tries[0 := Try(Failed, "a", "r", 4)] == [Try(Failed, "a", "r", 4), Try(AttemptStatus.Paid, "aa", "rr", 4)];
  }

  // A third checkout is requested ...
  lemma ThirdCheckoutIsRequested(
    before: Ledger, commands: set<CommandId>, receipts: set<(nat, string, string)>) returns (ledger: Ledger)
    requires Stands(before, Charged(Pending, 9, None),
                    [Try(Failed, "a", "r", 4), Try(AttemptStatus.Paid, "aa", "rr", 4)], commands, receipts)
    requires Reached(before)
    ensures Stands(ledger, Charged(Pending, 10, None),
                   [Try(Failed, "a", "r", 4), Try(AttemptStatus.Paid, "aa", "rr", 4), Try(Requested, "aaa", "", 1)],
                     commands, receipts)
    ensures Reached(ledger)
  {
    var closed := [Try(Failed, "a", "r", 4), Try(AttemptStatus.Paid, "aa", "rr", 4)];
    ledger := Requests(before, Charged(Pending, 9, None), closed, commands, receipts, "aaa");
    assert closed + [Try(Requested, "aaa", "", 1)]
           == [Try(Failed, "a", "r", 4), Try(AttemptStatus.Paid, "aa", "rr", 4), Try(Requested, "aaa", "", 1)];
  }

  // ... and the second one's approval is repeated.
  lemma ApprovalIsRepeated(
    before: Ledger, commands: set<CommandId>, receipts: set<(nat, string, string)>) returns (ledger: Ledger)
    requires Stands(before, Charged(Pending, 10, None),
                    [Try(Failed, "a", "r", 4), Try(AttemptStatus.Paid, "aa", "rr", 4), Try(Requested, "aaa", "", 1)],
                      commands, receipts)
    requires Reached(before) && CallbackRequest(0, "rr", "nnnn") !in commands && (0, "rr", "nnnn") !in receipts
    ensures Stands(ledger, Charged(IntentStatus.Paid, 11, None),
                   [Try(Failed, "a", "r", 4), Try(AttemptStatus.Paid, "aa", "rr", 5), Try(Requested, "aaa", "", 1)],
                   commands + {CallbackRequest(0, "rr", "nnnn")}, receipts + {(0, "rr", "nnnn")})
    ensures Reached(ledger)
  {
    var tries := [Try(Failed, "a", "r", 4), Try(AttemptStatus.Paid, "aa", "rr", 4), Try(Requested, "aaa", "", 1)];
    ApprovalPays(Charged(Pending, 10, None), tries[1]);
    ledger := Learns(before, Charged(Pending, 10, None), tries, commands, receipts, 1,
                     Callback(0, Said("rr", "approved"), "nnnn", 0), CallbackRequest(0, "rr", "nnnn"),
                       MoveTo(IntentStatus.Paid), None);
    assert tries[1 := Try(AttemptStatus.Paid, "aa", "rr", 5)]
           == [Try(Failed, "a", "r", 4), Try(AttemptStatus.Paid, "aa", "rr", 5), Try(Requested, "aaa", "", 1)];
  }

  // Nothing recorded so far stands in the way of the rest of the run.
  ghost predicate Clear(commands: set<CommandId>, receipts: set<(nat, string, string)>, last: string) {
    && (forall c :: c in commands && c.CallbackRequest? ==> |c.request| <= |last|)
    && (forall r :: r in receipts ==> |r.2| <= |last|)
    && (forall c :: c in commands ==> !c.OrderEvent? && c != Client("q"))
  }

  lemma UpToRefund() returns (ledger: Ledger, commands: set<CommandId>, receipts: set<(nat, string, string)>)
    ensures Stands(ledger, Charged(RequiresAttention, 8, Some(NonMonotonicProviderEvent)),
                   [Try(Failed, "a", "r", 3), Try(AttemptStatus.Paid, "aa", "rr", 4)], commands, receipts)
    ensures Reached(ledger) && Clear(commands, receipts, "nnn")
  {
    commands, receipts := FIRST + {OutboxEvent(2)}, {(0, "r", "n")};
    var l0 := SecondCheckoutOpens();
    assert Clear(commands, receipts, "n");
    var l1 := SecondCheckoutIsPaid(l0, commands, receipts);
    commands, receipts := commands + {CallbackRequest(0, "rr", "nn")}, receipts + {(0, "rr", "nn")};
    assert Clear(commands, receipts, "nn");
    ledger := RefundIsReported(l1, commands, receipts);
    commands, receipts := commands + {CallbackRequest(0, "rr", "nnn")}, receipts + {(0, "rr", "nnn")};
  }

  lemma PaidBesideRequested() returns (ledger: Ledger)
    ensures ledger.intent == Some(Charged(IntentStatus.Paid, 11, None)) && Inv(ledger) && Reached(ledger)
    ensures ledger.attempts == [Try(Failed, "a", "r", 4), Try(AttemptStatus.Paid, "aa", "rr", 5),
                                Try(Requested, "aaa", "", 1)]
    ensures forall k :: 0 <= k < |ledger.history| ==> !ledger.history[k].command.OrderEvent?
  {
    var l2, commands, receipts := UpToRefund();
    var l3 := AlarmIsCleared(l2, commands, receipts);
    commands := commands + {Client("q")};
    var l4 := ThirdCheckoutIsRequested(l3, commands, receipts);
    ledger := ApprovalIsRepeated(l4, commands, receipts);
    commands := commands + {CallbackRequest(0, "rr", "nnnn")};
    assert forall c :: c in commands ==> !c.OrderEvent?;
  }

  // --- what the order's cancellation does to taken money ---

  lemma OrderIsCancelled(es: seq<Commerce.Event>, ledger: Ledger) returns (more: seq<Commerce.Event>)
    requires Arrives(es, ledger) && Inv(ledger)
    requires Execute(OrderSample.DROPPED, ledger, ConsumeOrderCancelled(0, 0)).Ok?
    ensures Commerce.Run(es + more).order == OrderSample.DROPPED
    ensures Commerce.Run(es + more).ledger == Execute(OrderSample.DROPPED, ledger, ConsumeOrderCancelled(0, 0)).value
  {
    var cancel, consume := Commerce.OnOrder(OrderSample.CANCEL), Commerce.OnPayment(ConsumeOrderCancelled(0, 0));
    OrderSample.Cancels();
    RunOneMore(es, cancel);
    RunOneMore(es + [cancel], consume);
    more := [cancel] + [consume];
    assert es + more == es + [cancel] + [consume];
  }

  // The run takes money and ends with the order and the intent cancelled.
  ghost predicate CancelsSilently(es: seq<Commerce.Event>, more: seq<Commerce.Event>, status: IntentStatus) {
    var before, after := Commerce.Run(es), Commerce.Run(es + more);
    && before.ledger.intent.Some? && before.ledger.intent.value.status == status
    && MoneyTaken(before.ledger) && MoneyTaken(after.ledger)
    && after.order.status == Orders.Cancelled
    && after.ledger.intent.Some? && after.ledger.intent.value.status == IntentStatus.Cancelled
  }

  // A paid intent, with a requested checkout waiting beside it.
  lemma PaidCanBeCancelledSilently()
    ensures exists es, more :: CancelsSilently(es, more, IntentStatus.Paid)
  {
    var ledger := PaidBesideRequested();
    var es :| Arrives(es, ledger);
    assert ledger.attempts[1].status == AttemptStatus.Paid && ledger.attempts[2].status == Requested;
    ConsumptionCommits(ledger);
    var more := OrderIsCancelled(es, ledger);
    ConsumptionExactly(OrderSample.DROPPED, ledger, 0, 0);
    ConsumptionKeepsMoney(ledger, 1);
    assert CancelsSilently(es, more, IntentStatus.Paid);
  }

  // An intent back in PENDING after its alarm was cleared, with nothing open.
  lemma PendingCanBeCancelledSilently()
    ensures exists es, more :: CancelsSilently(es, more, Pending)
  {
    var before, commands, receipts := UpToRefund();
    var ledger := AlarmIsCleared(before, commands, receipts);
    var es :| Arrives(es, ledger);
    assert ledger.attempts[1].status == AttemptStatus.Paid;
    ConsumptionCommits(ledger);
    var more := OrderIsCancelled(es, ledger);
    ConsumptionExactly(OrderSample.DROPPED, ledger, 0, 0);
    ConsumptionKeepsMoney(ledger, 1);
    assert CancelsSilently(es, more, Pending);
  }

  lemma ConsumptionCommits(ledger: Ledger)
    requires Inv(ledger) && ledger.intent.Some?
    requires forall k :: 0 <= k < |ledger.history| ==> !ledger.history[k].command.OrderEvent?
    ensures Execute(OrderSample.DROPPED, ledger, ConsumeOrderCancelled(0, 0)).Ok?
  {
    CommitsExactly(OrderSample.DROPPED, ledger, ConsumeOrderCancelled(0, 0));
  }

  lemma ConsumptionKeepsMoney(ledger: Ledger, i: nat)
    requires i < |ledger.attempts| && ledger.attempts[i].status == AttemptStatus.Paid
    requires Execute(OrderSample.DROPPED, ledger, ConsumeOrderCancelled(0, 0)).Ok?
    ensures MoneyTaken(ledger)
    ensures MoneyTaken(Execute(OrderSample.DROPPED, ledger, ConsumeOrderCancelled(0, 0)).value)
  {
    var after := Execute(OrderSample.DROPPED, ledger, ConsumeOrderCancelled(0, 0)).value;
    assert after.attempts[i].status == AttemptStatus.Paid;
  }

  // Some run pays the order.
  lemma PaidIsReachable()
    ensures exists es :: Commerce.IsPaid(Commerce.Run(es).ledger)
  {
    var ledger := PaidBesideRequested();
    var es :| Arrives(es, ledger);
    assert Commerce.IsPaid(Commerce.Run(es).ledger);
  }
}

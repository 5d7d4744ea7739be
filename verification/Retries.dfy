// The receipts around the commands of the joint system: what a repeated request
// is answered, and when it is refused.
module Retries {
  import opened Common
  import Calculations
  import Orders
  import Fulfillment
  import Payments
  import PaymentGuards
  import Commerce
  import OrderSample
  import R = Receipts

  // What a receipt refers to.  The receipt of a consumed order event refers to
  // no row: its replay is answered with a count of zero.
  datatype Ref = OrderRow | ItemRow(id: nat) | BatchRow(batch: nat) | IntentRow | AttemptRow(attempt: nat) | NoRow

  datatype Answer = Row(ref: Ref) | Count(n: nat)

  datatype Refusal =
    | OfOrder(order: Orders.OrderError)
    | OfBatches(batches: Fulfillment.FulfillmentError)
    | OfPayment(payment: Payments.PaymentError)

  type Call<P> = R.Command<P, Commerce.Event>

  type Shop<!P> = R.Service<Commerce.System, P, Commerce.Event, Commerce.Event, Ref, Answer, Refusal>

  type Books<P> = R.Store<Commerce.System, P, Ref>

  type Trace<P> = seq<R.Event<P, Commerce.Event, Commerce.Event>>

  // --- what each service function checks before it claims its receipt ---

  function OrderGate(command: Orders.Command): Option<Orders.OrderError> {
    match command
    case ChangeCustomer(actor, _, usable) =>
      if !actor.manage then Some(Orders.PermissionDenied) else if !usable then Some(Orders.ConfirmationBlocked)
         else None
    case AddItem(actor, _, amounts, choice, named) => Orders.AddRefused(actor, amounts, choice, named)
    case UpdateItem(actor, _, _, _) => if !actor.manage then Some(Orders.PermissionDenied) else None
    case RemoveItem(actor, _, _) => if !actor.manage then Some(Orders.PermissionDenied) else None
    case Confirm(actor, _, _, _) => if !actor.confirm then Some(Orders.PermissionDenied) else None
    case Cancel(actor, _, reasoned) =>
      if !actor.cancel then Some(Orders.PermissionDenied) else if !reasoned then Some(Orders.ReasonRequired) else None
  }

  function RequestGate(operate: bool, requests: seq<Fulfillment.Request>): Option<Fulfillment.FulfillmentError> {
    if !operate then Some(Fulfillment.PermissionDenied)
    else
      match Fulfillment.CanonicalAllocations(requests)
      case Err(error) => Some(error)
      case Ok(_) => None
  }

  function BatchGate(command: Fulfillment.Command): Option<Fulfillment.FulfillmentError> {
    match command
    case Create(operate, _, requests, _) => RequestGate(operate, requests)
    case Replace(operate, _, requests, _) => RequestGate(operate, requests)
    case Transition(permitted, _, target, _, reasoned) =>
      if !permitted then Some(Fulfillment.PermissionDenied)
      else if target == Fulfillment.Cancelled && !reasoned then Some(Fulfillment.ReasonRequired)
      else if target != Fulfillment.Cancelled && reasoned then Some(Fulfillment.InvalidFulfillment)
      else None
    case CancelFromEvent(_, _) => None
    case ConsumeOrderCancelled(_) => None
  }

  function PaymentGate(step: Payments.Step): Option<Payments.PaymentError> {
    if (step.CreateIntent? || step.RequestCheckout? || step.Reconcile? || step.RequestCancellation? || step.Reopen?)
       && !step.manager
    then Some(Payments.PermissionDenied)
    else if step.Activate? && (!step.checkout.secure || step.checkout.url == "" || step.checkout.id == "")
    then Some(Payments.InvalidPayment)
    else None
  }

  function Gate(event: Commerce.Event): Option<Refusal> {
    match event
    case OnOrder(command) => if OrderGate(command).Some? then Some(OfOrder(OrderGate(command).value)) else None
    case OnBatches(command) => if BatchGate(command).Some? then Some(OfBatches(BatchGate(command).value)) else None
    case OnPayment(step) => if PaymentGate(step).Some? then Some(OfPayment(PaymentGate(step).value)) else None
  }

  // --- what it does after the claim, and what its receipt will refer to ---

  function OrderRef(order: Orders.Order, command: Orders.Command): Ref {
    match command
    case AddItem(_, _, _, _, _) => ItemRow(order.nextItem)
    case UpdateItem(_, _, item, _) => ItemRow(item)
    case _ => OrderRow
  }

  function BatchRef(depot: Fulfillment.Depot, command: Fulfillment.Command): Ref {
    match command
    case Create(_, _, _, _) => BatchRow(|depot.batches|)
    case Replace(_, b, _, _) => BatchRow(b)
    case Transition(_, b, _, _, _) => BatchRow(b)
    case CancelFromEvent(b, _) => BatchRow(b)
    case ConsumeOrderCancelled(_) => NoRow
  }

  function PaymentRef(ledger: Payments.Ledger, step: Payments.Step): Ref {
    match step
    case CreateIntent(_, _) => IntentRow
    case RequestCheckout(_, _, _, _) => AttemptRow(|ledger.attempts|)
    case Activate(a, _, _, _) => AttemptRow(a)
    case Reconcile(_, _, _, _, _) => IntentRow
    case RequestCancellation(_, _) =>
      var open := Payments.OpenAttempt(ledger.attempts);
      if open.Some? then AttemptRow(open.value) else OrderRow
    case Reopen(_, _, _) => IntentRow
    case ConsumeOrderCancelled(_, _) => IntentRow
    case _ => OrderRow
  }

  // The first consumption of an event reports how many batches it cancelled.
  function FirstAnswer(s: Commerce.System, ref: Ref, event: Commerce.Event): Answer {
    if ref.NoRow? && event.OnBatches? && event.request.ConsumeOrderCancelled?
       && event.request.event !in s.depot.consumed
    then Count(Fulfillment.Unfinished(s.depot.batches))
    else Again(ref)
  }

  function Again(ref: Ref): Answer {
    if ref.NoRow? then Count(0) else Row(ref)
  }

  function Perform(s: Commerce.System, event: Commerce.Event): Result<(Commerce.System, Ref, Answer), Refusal> {
    match event
    case OnOrder(command) =>
      (match Orders.Apply(s.order, command)
       case Err(error) => Err(OfOrder(error))
       case Ok(order) => Ok((s.(order := order), OrderRef(s.order, command), Row(OrderRef(s.order, command)))))
    case OnBatches(command) =>
      (match Fulfillment.Apply(s.order, s.depot, command)
       case Err(error) => Err(OfBatches(error))
       case Ok(depot) => Ok((s.(depot := depot), BatchRef(s.depot, command),
                             FirstAnswer(s, BatchRef(s.depot, command), event))))
    case OnPayment(step) =>
      (match Payments.Execute(s.order, s.ledger, step)
       case Err(error) => Err(OfPayment(error))
       case Ok(ledger) => Ok((s.(ledger := ledger), PaymentRef(s.ledger, step), Row(PaymentRef(s.ledger, step)))))
  }

  predicate Found(s: Commerce.System, ref: Ref) {
    match ref
    case OrderRow => true
    case ItemRow(id) => Orders.IndexOf(s.order.items, id).Some?
    case BatchRow(b) => b < |s.depot.batches|
    case IntentRow => s.ledger.intent.Some?
    case AttemptRow(a) => a < |s.ledger.attempts|
    case NoRow => true
  }

  // Any payload may stand for a request; unprotected events are those of the
  // joint system.
  function Front<P>(): Shop<P> {
    R.Service(
      (s: Commerce.System, call: Call<P>) => Gate(call.input),
      (s: Commerce.System, call: Call<P>) => Perform(s, call.input),
      (s: Commerce.System, payload: P, ref: Ref) => if Found(s, ref) then Some(Again(ref)) else None,
      (s: Commerce.System, event: Commerce.Event) => Commerce.React(s, event))
  }

  function Opening<P>(): Books<P> {
    R.Store(Commerce.Start, map[])
  }

  // --- receipts only ever withhold events ---

  // The checks before the claim are the ones the step makes first.
  lemma GateIsTheStepsOwn(s: Commerce.System, event: Commerce.Event)
    requires Gate(event).Some?
    ensures Perform(s, event) == Err(Gate(event).value)
  {
  }

  lemma PerformIsReact(s: Commerce.System, event: Commerce.Event)
    ensures Commerce.React(s, event) == if Perform(s, event).Ok? then Perform(s, event).value.0 else s
  {
  }

  function After(s: Commerce.System, events: seq<Commerce.Event>): Commerce.System
    decreases |events|
  {
    if events == [] then s else Commerce.React(After(s, events[..|events| - 1]), events[|events| - 1])
  }

  lemma {:induction false} RunIsAfter<P>(store: Books<P>, trace: Trace<P>) returns (events: seq<Commerce.Event>)
    ensures R.Run(Front(), store, trace).state == After(store.state, events)
    decreases |trace|
  {
    if trace == [] {
      events := [];
    } else {
      var before, last := trace[..|trace| - 1], trace[|trace| - 1];
      var earlier := RunIsAfter(store, before);
      var now := R.Run(Front(), store, before);
      var event := if last.Free? then last.action else last.command.input;
      PerformIsReact(now.state, event);
      if R.Next(Front(), now, last).state == now.state {
        events := earlier;
      } else {
        events := earlier + [event];
        assert events[..|events| - 1] == earlier;
      }
    }
  }

  lemma {:induction false} AfterStart(events: seq<Commerce.Event>)
    ensures After(Commerce.Start, events) == Commerce.Run(events)
  {
    if events != [] {
      AfterStart(events[..|events| - 1]);
    }
  }

  // Every run under receipts is a run of the joint system, so all that holds of
  // those holds here.
  lemma RunsAreRuns<P>(trace: Trace<P>)
    ensures exists events :: R.Run(Front(), Opening<P>(), trace).state == Commerce.Run(events)
    ensures Commerce.Inv(R.Run(Front(), Opening<P>(), trace).state)
  {
    var events := RunIsAfter(Opening<P>(), trace);
    AfterStart(events);
    Commerce.RunInv(events);
  }

  // --- what a replay is answered ---

  lemma BatchesStay(order: Orders.Order, depot: Fulfillment.Depot, command: Fulfillment.Command)
    requires Fulfillment.Inv(order, depot)
    ensures |depot.batches| <= |Fulfillment.Next(order, depot, command).batches|
  {
    if command.ConsumeOrderCancelled? {
      Fulfillment.DrainEffect(depot, 0, command.event);
    }
  }

  // Only an order line can disappear: attempts, batches and the intent stay.
  lemma FoundStays(s: Commerce.System, event: Commerce.Event, ref: Ref)
    requires Commerce.Inv(s) && Found(s, ref) && !ref.ItemRow?
    ensures Found(Commerce.React(s, event), ref)
  {
    match event
    case OnOrder(_) =>
    case OnBatches(command) => BatchesStay(s.order, s.depot, command);
    case OnPayment(step) =>
      Commerce.StepPreservesAttempts(s.order, s.ledger, step);
      Commerce.StepKeepsAmount(s.order, s.ledger, step);
  }

  lemma {:induction false} FoundForever(s: Commerce.System, events: seq<Commerce.Event>, ref: Ref)
    requires Commerce.Inv(s) && Found(s, ref) && !ref.ItemRow?
    ensures Commerce.Inv(After(s, events)) && Found(After(s, events), ref)
    decreases |events|
  {
    if events != [] {
      var before := events[..|events| - 1];
      FoundForever(s, before, ref);
      Commerce.ReactKeepsInv(After(s, before), events[|events| - 1]);
      FoundStays(After(s, before), events[|events| - 1], ref);
    }
  }

  // What a command leaves behind can be found right after it.
  lemma PerformedIsFound(s: Commerce.System, event: Commerce.Event)
    requires Commerce.Inv(s) && Perform(s, event).Ok? && !Perform(s, event).value.1.ItemRow?
    ensures Found(Perform(s, event).value.0, Perform(s, event).value.1)
  {
    match event
    case OnOrder(_) =>
    case OnBatches(command) => BatchIsFound(s.order, s.depot, command);
    case OnPayment(step) =>
      if step.CreateIntent? || step.Reconcile? || step.Reopen? || step.ConsumeOrderCancelled? {
        IntentIsFound(s.order, s.ledger, step);
      } else {
        AttemptIsFound(s.order, s.ledger, step);
      }
  }

  lemma BatchIsFound(order: Orders.Order, depot: Fulfillment.Depot, command: Fulfillment.Command)
    requires Fulfillment.Inv(order, depot) && Fulfillment.Apply(order, depot, command).Ok?
    ensures var ref := BatchRef(depot, command);
            ref.BatchRow? ==> ref.batch < |Fulfillment.Apply(order, depot, command).value.batches|
  {
    if command.CancelFromEvent? && (command.event, command.batch) in depot.cancelReceipts {
      assert Fulfillment.ReceiptsEnded(depot);
    }
  }

  lemma IntentIsFound(order: Orders.Order, ledger: Payments.Ledger, step: Payments.Step)
    requires step.CreateIntent? || step.Reconcile? || step.Reopen? || step.ConsumeOrderCancelled?
    requires Payments.Execute(order, ledger, step).Ok?
    ensures Payments.Execute(order, ledger, step).value.intent.Some?
  {
  }

  lemma AttemptIsFound(order: Orders.Order, ledger: Payments.Ledger, step: Payments.Step)
    requires Payments.Execute(order, ledger, step).Ok?
    ensures var ref := PaymentRef(ledger, step);
            ref.AttemptRow? ==> ref.attempt < |Payments.Execute(order, ledger, step).value.attempts|
  {
  }

  // A replay of a command that added or changed a line is answered with that
  // line if and only if the line is still there, and raises a conflict
  // otherwise; a replay of any other command is always answered, a consumed
  // order event with zero.  None of them has an effect.
  lemma ReplayAnsweredExactly<P>(before: Trace<P>, call: Call<P>, between: Trace<P>, again: Call<P>)
    requires R.Execute(Front(), R.Run(Front(), Opening<P>(), before), call).Ok?
    requires R.IdOf(again) == R.IdOf(call) && again.payload == call.payload && Gate(again.input).None?
    ensures var first := R.Run(Front(), Opening<P>(), before);
            var later := R.Run(Front(), R.Execute(Front(), first, call).value.0, between);
            var ref := R.StoredBy(Front(), first, call);
            && ref.Some?
            && R.Next(Front(), later, R.Protected(again)) == later
            && R.Execute(Front(), later, again) ==
               (if ref.value.ItemRow? && Orders.IndexOf(later.state.order.items,
                                                        ref.value.id).None? then Err(R.IdempotencyConflict)
                else Ok((later, Again(ref.value))))
  {
    var first := R.Run(Front(), Opening<P>(), before);
    var done := R.Execute(Front(), first, call).value.0;
    var later := R.Run(Front(), done, between);
    RunsAreRuns(before);
    R.RunCompletes(Front(), Opening<P>(), before);
    R.RetryLooksAgain(Front(), first, call, between, again);
    var ref := R.StoredBy(Front(), first, call).value;
    if !ref.ItemRow? {
      DoneIsFound(first, call);
      var events := RunIsAfter(done, between);
      FoundForever(done.state, events, ref);
    }
  }

  lemma DoneIsFound<P>(first: Books<P>, call: Call<P>)
    requires Commerce.Inv(first.state) && R.AllCompleted(first) && R.Execute(Front(), first, call).Ok?
    ensures var done := R.Execute(Front(), first, call).value.0.state;
            var ref := R.StoredBy(Front(), first, call);
            Commerce.Inv(done) && (ref.Some? && !ref.value.ItemRow? ==> Found(done, ref.value))
  {
    R.SuccessWas(Front(), first, call);
    ReplayedOrPerformed(first.state, call, R.StoredBy(Front(), first, call).value,
                        R.Execute(Front(), first, call).value.0.state);
  }

  lemma ReplayedOrPerformed<P>(s: Commerce.System, call: Call<P>, ref: Ref, done: Commerce.System)
    requires Commerce.Inv(s)
    requires (done == s && Found(s, ref))
             || (Perform(s, call.input).Ok? && done == Perform(s, call.input).value.0
                 && ref == Perform(s, call.input).value.1)
    ensures Commerce.Inv(done) && (!ref.ItemRow? ==> Found(done, ref))
  {
    if Perform(s, call.input).Ok? {
      if !Perform(s, call.input).value.1.ItemRow? {
        PerformedIsFound(s, call.input);
      }
      PerformIsReact(s, call.input);
      Commerce.ReactKeepsInv(s, call.input);
    }
  }

  // --- the line that was removed in between ---

  // The two requests carry their own keys; payloads are numbered.
  const ADDING: Call<nat> := R.Command(0, "add_item", "a", 1, Commerce.OnOrder(OrderSample.ADD))

  const REMOVING: Call<nat> := R.Command(0, "remove_item", "b", 2, Commerce.OnOrder(OrderSample.REMOVE))

  const ONE_LINE := Commerce.Start.(order := OrderSample.DRAFTED)

  const NO_LINE := Commerce.Start.(order := OrderSample.EMPTIED)

  const ADDED: map<R.Id, R.Receipt<nat, Ref>> := map[R.Id(0, "add_item", "a") := R.Completed(1, ItemRow(0))]

  const REMOVED := ADDED[R.Id(0, "remove_item", "b") := R.Completed(2, OrderRow)]

  lemma KeysOfTheExample()
    ensures R.IdOf(ADDING) == R.Id(0, "add_item", "a") && R.IdOf(REMOVING) == R.Id(0, "remove_item", "b")
    ensures R.IdOf(ADDING) != R.IdOf(REMOVING)
    ensures R.GoodKey(R.IdOf(ADDING)) && R.GoodKey(R.IdOf(REMOVING))
  {
    assert R.StripLeft("a") == "a" && R.StripLeft("b") == "b";
  }

  lemma FirstAdds()
    ensures R.Execute(Front(), Opening<nat>(), ADDING) == Ok((R.Store(ONE_LINE, ADDED), Row(ItemRow(0))))
  {
    KeysOfTheExample();
    OrderSample.Adds();
    assert Perform(Commerce.Start, ADDING.input) == Ok((ONE_LINE, ItemRow(0), Row(ItemRow(0))));
    assert map[][R.Id(0, "add_item", "a") := R.Completed(1, ItemRow(0))] == ADDED;
  }

  lemma ThenRemoves()
    ensures R.Execute(Front(), R.Store(ONE_LINE, ADDED), REMOVING) == Ok((R.Store(NO_LINE, REMOVED), Row(OrderRow)))
  {
    KeysOfTheExample();
    OrderSample.Removes();
    assert Perform(ONE_LINE, REMOVING.input) == Ok((NO_LINE, OrderRow, Row(OrderRow)));
  }

  lemma AddsAgain(books: Books<nat>)
    requires R.Claim(books.receipts, R.IdOf(ADDING), 1) == Ok(Some(ItemRow(0))) && Gate(ADDING.input) == None
    ensures R.Execute(Front(), books, ADDING) ==
            if Found(books.state, ItemRow(0)) then Ok((books, Row(ItemRow(0)))) else Err(R.IdempotencyConflict)
  {
    assert R.Replay(Front(), books, 1, ItemRow(0)) ==
           if Found(books.state, ItemRow(0)) then Ok((books, Row(ItemRow(0)))) else Err(R.IdempotencyConflict);
  }

  // The same add_item request again is answered with its line while that is
  // there, and refused with a conflict after another request removed it.
  lemma RemovedLineIsNotAnswered()
    ensures var adding: Trace<nat> := [R.Protected(ADDING)];
            var first := R.Run(Front(), Opening<nat>(), adding);
            var second := R.Run(Front(), Opening<nat>(), adding + [R.Protected(REMOVING)]);
            && R.Execute(Front(), first, ADDING) == Ok((first, Row(ItemRow(0))))
            && R.Execute(Front(), second, ADDING) == Err(R.IdempotencyConflict)
  {
    var adding: Trace<nat> := [R.Protected(ADDING)];
    FirstAdds();
    ThenRemoves();
    KeysOfTheExample();
    assert adding[..0] == [];
    R.RunSnoc(Front(), Opening<nat>(), adding, R.Protected(REMOVING));
    OrderSample.Passes();
    AddsAgain(R.Store(ONE_LINE, ADDED));
    AddsAgain(R.Store(NO_LINE, REMOVED));
  }
}

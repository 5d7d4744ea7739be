// Exactly when each fulfillment command is accepted, and what it allocates.
module FulfillmentCommands {
  import opened Common
  import opened Fulfillment
  import Orders
  import Calculations

  // --- the submitted list ---

  function Rounded(request: Request): int {
    Calculations.Quantity(request.quantity)
  }

  predicate Acceptable(requests: seq<Request>) {
    && requests != []
    && (forall k :: 0 <= k < |requests| ==> 0 < Rounded(requests[k]))
    && (forall j, k :: 0 <= j < k < |requests| ==> requests[j].item != requests[k].item)
  }

  // What the list asks of one item.
  function Requested(requests: seq<Request>, item: nat): int {
    if requests == [] then 0
    else
      var k := |requests| - 1;
      Requested(requests[..k], item) + (if requests[k].item == item then Rounded(requests[k]) else 0)
  }

  lemma {:induction false} CanonicalExactly(requests: seq<Request>)
    ensures Canonical(requests).Ok? <==> requests == [] || Acceptable(requests)
    ensures Canonical(requests).Ok? ==>
              && |Canonical(requests).value| == |requests|
              && forall k :: 0 <= k < |requests| ==>
                   Canonical(requests).value[k] == Allocation(requests[k].item, Rounded(requests[k]))
    ensures Canonical(requests).Err? ==> Canonical(requests).error == InvalidFulfillment
  {
    if requests != [] {
      var k := |requests| - 1;
      CanonicalExactly(requests[..k]);
      if Canonical(requests[..k]).Ok? {
        var rows := Canonical(requests[..k]).value;
        if Mentions(rows, requests[k].item) {
          var j :| 0 <= j < |rows| && rows[j].item == requests[k].item;
          assert requests[j].item == requests[k].item;
        } else {
          forall j | 0 <= j < k
            ensures requests[j].item != requests[k].item
          {
            assert rows[j].item == requests[j].item;
          }
        }
      }
    }
  }

  // A list is accepted exactly when it is not empty, names no item twice and
  // asks for a positive quantity of each; it becomes one row for every request
  // and no other, in the order of the items.
  lemma ListIsAcceptedExactly(requests: seq<Request>)
    ensures CanonicalAllocations(requests) == Err(InvalidFulfillment) <==> !Acceptable(requests)
    ensures CanonicalAllocations(requests).Ok? <==> Acceptable(requests)
    ensures Acceptable(requests) ==>
              var rows := CanonicalAllocations(requests).value;
              && |rows| == |requests|
              && Ascending(rows)
              && forall row :: row in rows <==>
                   exists k :: 0 <= k < |requests| && row == Allocation(requests[k].item, Rounded(requests[k]))
  {
    CanonicalExactly(requests);
    if Acceptable(requests) {
      CanonicalIsSound(requests);
      var rows := Canonical(requests).value;
      SortedKeeps(rows);
      forall row
        ensures row in Sorted(rows) <==>
                exists k :: 0 <= k < |requests| && row == Allocation(requests[k].item, Rounded(requests[k]))
      {
        assert row in Sorted(rows) <==> row in rows;
        if row in rows {
          var k :| 0 <= k < |rows| && rows[k] == row;
          assert row == Allocation(requests[k].item, Rounded(requests[k]));
        }
      }
    }
  }

  lemma {:induction false} RequestedOfNone(requests: seq<Request>, item: nat)
    requires forall k :: 0 <= k < |requests| ==> requests[k].item != item
    ensures Requested(requests, item) == 0
  {
    if requests != [] {
      RequestedOfNone(requests[..|requests| - 1], item);
    }
  }

  lemma {:induction false} RequestedOfOne(requests: seq<Request>, k: nat)
    requires Acceptable(requests) && k < |requests|
    ensures Requested(requests, requests[k].item) == Rounded(requests[k])
    decreases |requests|
  {
    var n := |requests| - 1;
    var item := requests[k].item;
    if k == n {
      RequestedOfNone(requests[..n], item);
    } else {
      RequestedOfOne(requests[..n], k);
    }
  }

  // The stored rows hold of every item what was asked of it.
  lemma RowsHoldTheRequest(requests: seq<Request>, item: nat)
    requires CanonicalAllocations(requests).Ok?
    ensures QuantityIn(CanonicalAllocations(requests).value, item) == Requested(requests, item)
  {
    ListIsAcceptedExactly(requests);
    AcceptedAllocationsAreSound(requests);
    var rows := CanonicalAllocations(requests).value;
    QuantityInSoundRows(rows, item);
    if k :| 0 <= k < |requests| && requests[k].item == item {
      RequestedOfOne(requests, k);
      var row := Allocation(item, Rounded(requests[k]));
      assert row in rows;
      var i :| 0 <= i < |rows| && rows[i] == row;
    } else {
      RequestedOfNone(requests, item);
      forall i | 0 <= i < |rows|
        ensures rows[i].item != item
      {
        assert rows[i] in rows;
      }
    }
  }

  // --- creating and replacing ---

  // Every item asked for is a line of the order.
  predicate OnOrder(order: Orders.Order, requests: seq<Request>) {
    forall k :: 0 <= k < |requests| ==>
      exists i :: 0 <= i < |order.items| && order.items[i].id == requests[k].item
  }

  // What the live batches hold of an item, leaving one out if asked to.
  ghost function Held(depot: Depot, except: Option<nat>, item: nat): int {
    if except.Some? && except.value < |depot.batches|
    then Allocated(depot.batches, item) - QuantityIn(depot.batches[except.value].allocations, item)
    else Allocated(depot.batches, item)
  }

  // Beside what is held already, the quantity of every line covers the request.
  ghost predicate Covered(order: Orders.Order, depot: Depot, except: Option<nat>, requests: seq<Request>) {
    forall i :: 0 <= i < |order.items| ==>
      Held(depot, except, order.items[i].id) + Requested(requests, order.items[i].id) <= order.items[i].line.quantity
  }

  lemma OrderedIsTheLines(order: Orders.Order, i: nat)
    requires Orders.WellFormed(order) && i < |order.items|
    ensures OrderedQuantity(order, order.items[i].id) == order.items[i].line.quantity
  {
    var k := Orders.IndexOf(order.items, order.items[i].id).value;
    assert order.items[k].id == order.items[i].id;
  }

  lemma KnownExactly(order: Orders.Order, requests: seq<Request>)
    requires CanonicalAllocations(requests).Ok?
    ensures Unknown(order, CanonicalAllocations(requests).value) <==> !OnOrder(order, requests)
  {
    ListIsAcceptedExactly(requests);
    var rows := CanonicalAllocations(requests).value;
    if Unknown(order, rows) {
      var i :| 0 <= i < |rows| && Orders.IndexOf(order.items, rows[i].item).None?;
      assert rows[i] in rows;
      var k :| 0 <= k < |requests| && rows[i] == Allocation(requests[k].item, Rounded(requests[k]));
    } else {
      forall k | 0 <= k < |requests|
        ensures exists i :: 0 <= i < |order.items| && order.items[i].id == requests[k].item
      {
        assert Allocation(requests[k].item, Rounded(requests[k])) in rows;
        var j :| 0 <= j < |rows| && rows[j] == Allocation(requests[k].item, Rounded(requests[k]));
        var i := Orders.IndexOf(order.items, rows[j].item).value;
        assert order.items[i].id == requests[k].item;
      }
    }
  }

  // The live rows add up to what is held, and never exceed the order.
  lemma HeldIsLive(order: Orders.Order, depot: Depot, except: Option<nat>, item: nat)
    requires Inv(order, depot)
    requires except.Some? ==> except.value < |depot.batches| && depot.batches[except.value].status != Cancelled
    ensures Held(depot, except, item) == QuantityIn(LiveRows(depot.batches, except), item)
    ensures Held(depot, except, item) <= OrderedQuantity(order, item)
  {
    if except.Some? {
      AllocatedSplits(depot.batches, except.value, item);
      ShareIsNonNegative(depot.batches[except.value], item);
    }
  }

  lemma CoveredExactly(order: Orders.Order, depot: Depot, except: Option<nat>, requests: seq<Request>)
    requires CanonicalAllocations(requests).Ok? && Orders.WellFormed(order) && OnOrder(order, requests)
    requires Inv(order, depot)
    requires except.Some? ==> except.value < |depot.batches| && depot.batches[except.value].status != Cancelled
    ensures !Exceeds(order, LiveRows(depot.batches, except), CanonicalAllocations(requests).value)
            <==> Covered(order, depot, except, requests)
  {
    ListIsAcceptedExactly(requests);
    AcceptedAllocationsAreSound(requests);
    var live, rows := LiveRows(depot.batches, except), CanonicalAllocations(requests).value;
    forall item: nat
      ensures Held(depot, except, item) == QuantityIn(live, item) <= OrderedQuantity(order, item)
      ensures QuantityIn(rows, item) == Requested(requests, item)
    {
      HeldIsLive(order, depot, except, item);
      RowsHoldTheRequest(requests, item);
    }
    CheckIsExact(order, live, rows);
    CoveredIsByLine(order, depot, except, requests);
  }

  lemma CoveredIsByLine(order: Orders.Order, depot: Depot, except: Option<nat>, requests: seq<Request>)
    requires Orders.WellFormed(order) && OnOrder(order, requests)
    requires forall item: nat :: Held(depot, except, item) <= OrderedQuantity(order, item)
    ensures Covered(order, depot, except, requests) <==>
            forall item: nat :: Held(depot, except, item) + Requested(requests, item) <= OrderedQuantity(order, item)
  {
    forall i | 0 <= i < |order.items|
      ensures OrderedQuantity(order, order.items[i].id) == order.items[i].line.quantity
    {
      OrderedIsTheLines(order, i);
    }
    if Covered(order, depot, except, requests) {
      forall item: nat
        ensures Held(depot, except, item) + Requested(requests, item) <= OrderedQuantity(order, item)
      {
        if i :| 0 <= i < |order.items| && order.items[i].id == item {
          assert Held(depot, except, order.items[i].id) + Requested(requests, order.items[i].id)
                 <= order.items[i].line.quantity;
        } else {
          RequestedOfNone(requests, item);
        }
      }
    }
  }

  // A batch is created exactly by who may, from an acceptable list of items of
  // a confirmed order, while the order covers it beside every other live batch
  // and its destination is usable.
  lemma CreatedExactly(
    order: Orders.Order, depot: Depot, operate: bool, mode: Method, requests: seq<Request>, usable: bool)
    requires Orders.WellFormed(order) && Inv(order, depot)
    ensures ApplyCreate(order, depot, operate, mode, requests, usable).Ok? <==>
            && operate
            && Acceptable(requests)
            && order.status == Orders.Confirmed
            && OnOrder(order, requests)
            && Covered(order, depot, None, requests)
            && usable
  {
    ListIsAcceptedExactly(requests);
    if Acceptable(requests) {
      KnownExactly(order, requests);
      if OnOrder(order, requests) {
        CoveredExactly(order, depot, None, requests);
      }
    }
  }

  // The new batch is a numbered draft, every other batch stands, and of every
  // item exactly the requested quantity is allocated in addition.
  lemma CreationAllocates(
    order: Orders.Order, depot: Depot, operate: bool, mode: Method, requests: seq<Request>, usable: bool, item: nat)
    requires Inv(order, depot) && ApplyCreate(order, depot, operate, mode, requests, usable).Ok?
    ensures var after := ApplyCreate(order, depot, operate, mode, requests, usable).value;
            var n := |depot.batches|;
            && |after.batches| == n + 1
            && after == depot.(batches := depot.batches + [after.batches[n]])
            && after.batches[n] == Batch(after.batches[n].sequence, mode, Draft, after.batches[n].allocations, 1, false)
            && (forall b :: 0 <= b < n ==> depot.batches[b].sequence < after.batches[n].sequence)
            && Allocated(after.batches, item) == Allocated(depot.batches, item) + Requested(requests, item)
  {
    var after := ApplyCreate(order, depot, operate, mode, requests, usable).value;
    ListIsAcceptedExactly(requests);
    RowsHoldTheRequest(requests, item);
    assert after.batches[..|depot.batches|] == depot.batches;
    QuantityInConcat(LiveRows(depot.batches, None), CanonicalAllocations(requests).value, item);
  }

  // A draft's allocations are replaced exactly when the order covers the new
  // list beside the other batches; its own old rows do not count.
  lemma ReplacedExactly(
    order: Orders.Order, depot: Depot, operate: bool, b: nat, requests: seq<Request>, version: nat)
    requires Orders.WellFormed(order) && Inv(order, depot)
    ensures ApplyReplace(order, depot, operate, b, requests, version).Ok? <==>
            && operate
            && Acceptable(requests)
            && order.status == Orders.Confirmed
            && b < |depot.batches|
            && depot.batches[b].status == Draft
            && depot.batches[b].version == version
            && OnOrder(order, requests)
            && Covered(order, depot, Some(b), requests)
  {
    ListIsAcceptedExactly(requests);
    if Acceptable(requests) && b < |depot.batches| && depot.batches[b].status == Draft {
      KnownExactly(order, requests);
      if OnOrder(order, requests) {
        CoveredExactly(order, depot, Some(b), requests);
      }
    }
  }

  // Of every item the allocation changes by what is requested now less what the
  // batch held; nothing else of the batch changes but its version.
  lemma ReplacementReallocates(
    order: Orders.Order, depot: Depot, operate: bool, b: nat, requests: seq<Request>, version: nat, item: nat)
    requires Inv(order, depot) && ApplyReplace(order, depot, operate, b, requests, version).Ok?
    ensures b < |depot.batches|
    ensures var after := ApplyReplace(order, depot, operate, b, requests, version).value;
            && |after.batches| == |depot.batches|
            && after == depot.(batches := depot.batches[b := depot.batches[b].(
                                 allocations := after.batches[b].allocations, version := version + 1)])
            && Allocated(after.batches, item) == Allocated(depot.batches, item)
                                                 - QuantityIn(depot.batches[b].allocations, item)
                                                 + Requested(requests, item)
  {
    var after := ApplyReplace(order, depot, operate, b, requests, version).value;
    ListIsAcceptedExactly(requests);
    RowsHoldTheRequest(requests, item);
    AllocatedAfterUpdate(depot.batches, b, after.batches[b], item);
  }

  // --- moving along ---

  // The steps of a batch's life, by how it reaches the customer.
  predicate Leads(mode: Method, before: BatchStatus, after: BatchStatus) {
    match (before, after)
    case (Draft, Preparing) => true
    case (Preparing, Ready) => true
    case (Ready, InTransit) => mode == Delivery
    case (Ready, Completed) => mode == Pickup
    case (InTransit, Completed) => mode == Delivery
    case (Draft, Cancelled) => true
    case (Preparing, Cancelled) => true
    case (Ready, Cancelled) => true
    case (InTransit, Cancelled) => true
    case _ => false
  }

  // A batch moves exactly to the status asked for, one step of its life ahead,
  // under a confirmed order and with a reason for a cancellation only.
  lemma MovedExactly(
    order: Orders.Order, depot: Depot, permitted: bool, b: nat, target: BatchStatus, version: nat, reasoned: bool)
    requires Inv(order, depot)
    ensures var r := ApplyTransition(order, depot, permitted, b, target, version, reasoned);
            && (r.Ok? <==>
                  && permitted
                  && order.status == Orders.Confirmed
                  && b < |depot.batches|
                  && depot.batches[b].version == version
                  && Leads(depot.batches[b].mode, depot.batches[b].status, target)
                  && reasoned == (target == Cancelled))
            && (r.Ok? ==>
                  r.value == depot.(batches := depot.batches[b := depot.batches[b].(status := target,
                                                                                    version := version + 1)]))
  {
  }

  // --- the order's cancellation ---

  // For one batch an order event is handled once: it cancels a batch that has
  // not ended, which only the cancellation of the order may do.
  lemma EventCancelsExactly(order: Orders.Order, depot: Depot, b: nat, event: nat)
    requires Inv(order, depot)
    ensures var r := ApplyCancelFromEvent(order, depot, b, event);
            var handled := (event, b) in depot.cancelReceipts;
            var over := b < |depot.batches| && depot.batches[b].status in {Completed, Cancelled};
            && (r.Ok? <==> handled || over || (b < |depot.batches| && order.status == Orders.Cancelled))
            && (r.Ok? ==>
                  r.value ==
                  if handled then depot
                  else
                    Depot(if over then depot.batches
                          else depot.batches[b := depot.batches[b].(
                                 status := Cancelled, version := depot.batches[b].version + 1,
                                 systemCancelled := true)],
                          depot.cancelReceipts + {(event, b)}, depot.consumed))
  {
  }

  // The consumer runs once per event, and only over a cancelled order.
  lemma ConsumedExactly(order: Orders.Order, depot: Depot, event: nat)
    requires Inv(order, depot)
    ensures var r := ApplyConsume(order, depot, event);
            && (r.Ok? <==> event in depot.consumed || order.status == Orders.Cancelled)
            && (r.Ok? && event in depot.consumed ==> r.value == depot)
            && (r.Ok? && event !in depot.consumed ==>
                  && r.value.consumed == depot.consumed + {event}
                  && |r.value.batches| == |depot.batches|
                  && (forall b :: 0 <= b < |depot.batches| ==>
                        r.value.batches[b] ==
                        if depot.batches[b].status in {Completed, Cancelled} then depot.batches[b]
                        else depot.batches[b].(status := Cancelled, version := depot.batches[b].version + 1,
                                               systemCancelled := true))
                  && (forall r' :: r' in r.value.cancelReceipts <==>
                        r' in depot.cancelReceipts || (r'.0 == event && r'.1 < |depot.batches|)))
  {
    if event !in depot.consumed {
      DrainEffect(depot, 0, event);
    }
  }

  // --- refusals ---

  predicate Unaddressed(depot: Depot, command: Command) {
    !command.Create? && !command.ConsumeOrderCancelled? && |depot.batches| <= command.batch
  }

  // What the named error says is wrong with the command.
  ghost predicate Explains(order: Orders.Order, depot: Depot, command: Command, error: FulfillmentError) {
    match error
    case PermissionDenied =>
      if command.Transition? then !command.permitted
      else (command.Create? || command.Replace?) && !command.operate
    case VersionConflict =>
      (command.Replace? || command.Transition?) && command.batch < |depot.batches|
      && depot.batches[command.batch].version != command.version
    case ReasonRequired => command.Transition? && command.target == Cancelled && !command.reasoned
    case InvalidTransition =>
      command.Transition? && command.batch < |depot.batches|
      && !Leads(depot.batches[command.batch].mode, depot.batches[command.batch].status, command.target)
    case OrganizationMismatch =>
      || Unaddressed(depot, command)
      || ((command.Create? || command.Replace?) && !OnOrder(order, command.requests))
      || (command.Create? && command.mode == Pickup && !command.destinationUsable)
    case InvalidFulfillment =>
      match command
      case Create(_, mode, requests, usable) =>
        || !Acceptable(requests)
        || order.status != Orders.Confirmed
        || !Covered(order, depot, None, requests)
        || (mode == Delivery && !usable)
      case Replace(_, b, requests, _) =>
        || !Acceptable(requests)
        || order.status != Orders.Confirmed
        || b >= |depot.batches|
        || depot.batches[b].status != Draft
        || !Covered(order, depot, Some(b), requests)
      case Transition(_, _, target, _, reasoned) =>
        order.status != Orders.Confirmed || (target != Cancelled && reasoned)
      case CancelFromEvent(_, _) => order.status != Orders.Cancelled
      case ConsumeOrderCancelled(_) => order.status != Orders.Cancelled
  }

  lemma CreateRefusalIsTruthful(order: Orders.Order, depot: Depot, command: Command)
    requires Orders.WellFormed(order) && Inv(order, depot) && command.Create? && Apply(order, depot, command).Err?
    ensures Explains(order, depot, command, Apply(order, depot, command).error)
  {
    ListIsAcceptedExactly(command.requests);
    if Acceptable(command.requests) {
      KnownExactly(order, command.requests);
      if OnOrder(order, command.requests) {
        CoveredExactly(order, depot, None, command.requests);
      }
    }
  }

  lemma ReplaceRefusalIsTruthful(order: Orders.Order, depot: Depot, command: Command)
    requires Orders.WellFormed(order) && Inv(order, depot) && command.Replace? && Apply(order, depot, command).Err?
    ensures Explains(order, depot, command, Apply(order, depot, command).error)
  {
    ReplacedExactly(order, depot, command.operate, command.batch, command.requests, command.version);
    ListIsAcceptedExactly(command.requests);
    if Acceptable(command.requests) {
      KnownExactly(order, command.requests);
    }
  }

  // A refusal names something that is wrong.
  lemma RefusalIsTruthful(order: Orders.Order, depot: Depot, command: Command)
    requires Orders.WellFormed(order) && Inv(order, depot) && Apply(order, depot, command).Err?
    ensures Explains(order, depot, command, Apply(order, depot, command).error)
  {
    match command
    case Create(_, _, _, _) => CreateRefusalIsTruthful(order, depot, command);
    case Replace(_, _, _, _) => ReplaceRefusalIsTruthful(order, depot, command);
    case Transition(_, _, _, _, _) =>
    case CancelFromEvent(_, _) =>
    case ConsumeOrderCancelled(_) =>
  }
}

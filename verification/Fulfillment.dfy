// Fulfillment batches of one order: each batch allocates quantities of order
// items, moves through its lifecycle and may be cancelled by hand or by the
// order's cancellation event.
module Fulfillment {
  import opened Common
  import Orders
  import Calculations

  datatype Method = Delivery | Pickup

  datatype BatchStatus = Draft | Preparing | Ready | InTransit | Completed | Cancelled

  // One row of the allocation table; quantity in thousandths.
  datatype Allocation = Allocation(item: nat, quantity: int)

  datatype Batch = Batch(
    sequence: nat,
    mode: Method,
    status: BatchStatus,
    allocations: seq<Allocation>,
    version: nat,
    systemCancelled: bool)

  // cancelReceipts: batches already handled for an order event; consumed: order
  // events already consumed.
  datatype Depot = Depot(batches: seq<Batch>, cancelReceipts: set<(nat, nat)>, consumed: set<nat>)

  datatype FulfillmentError =
    | PermissionDenied
    | InvalidFulfillment
    | OrganizationMismatch
    | VersionConflict
    | ReasonRequired
    | InvalidTransition

  // A submitted allocation, before rounding.
  datatype Request = Request(item: nat, quantity: real)

  datatype Command =
    | Create(operate: bool, mode: Method, requests: seq<Request>, destinationUsable: bool)
    | Replace(operate: bool, batch: nat, requests: seq<Request>, version: nat)
    | Transition(permitted: bool, batch: nat, target: BatchStatus, version: nat, reasoned: bool)
    | CancelFromEvent(batch: nat, event: nat)
    | ConsumeOrderCancelled(event: nat)

  const NewDepot := Depot([], {}, {})

  type Outcome = Result<Depot, FulfillmentError>

  // --- allocation arithmetic ---

  function QuantityIn(rows: seq<Allocation>, item: nat): int {
    if rows == [] then 0
    else
      var last := rows[|rows| - 1];
      QuantityIn(rows[..|rows| - 1], item) + (if last.item == item then last.quantity else 0)
  }

  predicate Mentions(rows: seq<Allocation>, item: nat) {
    exists i :: 0 <= i < |rows| && rows[i].item == item
  }

  // The allocation rows of all batches that are not cancelled, except one.
  function LiveRows(batches: seq<Batch>, except: Option<nat>): seq<Allocation> {
    if batches == [] then []
    else
      var k := |batches| - 1;
      LiveRows(batches[..k], except)
      + (if batches[k].status == Cancelled || except == Some(k) then [] else batches[k].allocations)
  }

  function Allocated(batches: seq<Batch>, item: nat): int {
    QuantityIn(LiveRows(batches, None), item)
  }

  function OrderedQuantity(order: Orders.Order, item: nat): int {
    match Orders.IndexOf(order.items, item)
    case Some(k) => order.items[k].line.quantity
    case None => 0
  }

  // Duplicates, non-positive quantities and empty lists are refused; the rest
  // is rounded to thousandths.
  function Canonical(requests: seq<Request>): Result<seq<Allocation>, FulfillmentError> {
    if requests == [] then Ok([])
    else
      var k := |requests| - 1;
      match Canonical(requests[..k])
      case Err(error) => Err(error)
      case Ok(rows) =>
        if Mentions(rows, requests[k].item) then Err(InvalidFulfillment)
        else if Calculations.Quantity(requests[k].quantity) <= 0 then Err(InvalidFulfillment)
        else Ok(rows + [Allocation(requests[k].item, Calculations.Quantity(requests[k].quantity))])
  }

  function CanonicalAllocations(requests: seq<Request>): Result<seq<Allocation>, FulfillmentError> {
    match Canonical(requests)
    case Err(error) => Err(error)
    case Ok(rows) => if rows == [] then Err(InvalidFulfillment) else Ok(Sorted(rows))
  }

  function Inserted(rows: seq<Allocation>, row: Allocation): seq<Allocation> {
    if rows == [] then [row]
    else
      var k := |rows| - 1;
      if row.item < rows[k].item then Inserted(rows[..k], row) + [rows[k]] else rows + [row]
  }

  // By item, as rows are locked and stored.
  function Sorted(rows: seq<Allocation>): seq<Allocation> {
    if rows == [] then [] else Inserted(Sorted(rows[..|rows| - 1]), rows[|rows| - 1])
  }

  predicate Unknown(order: Orders.Order, rows: seq<Allocation>) {
    exists i :: 0 <= i < |rows| && Orders.IndexOf(order.items, rows[i].item).None?
  }

  predicate Exceeds(order: Orders.Order, live: seq<Allocation>, rows: seq<Allocation>) {
    exists i :: 0 <= i < |rows| && OrderedQuantity(order, rows[i].item) < QuantityIn(live, rows[i].item)
      + rows[i].quantity
  }

  function CheckAllocations(
    order: Orders.Order, batches: seq<Batch>, rows: seq<Allocation>, except: Option<nat>): Option<FulfillmentError> {
    if Unknown(order, rows) then Some(OrganizationMismatch)
    else if Exceeds(order, LiveRows(batches, except), rows) then Some(InvalidFulfillment)
    else None
  }

  // --- lifecycle ---

  predicate Allowed(from: BatchStatus, to: BatchStatus) {
    match from
    case Draft => to == Preparing || to == Cancelled
    case Preparing => to == Ready || to == Cancelled
    case Ready => to == InTransit || to == Completed || to == Cancelled
    case InTransit => to == Completed || to == Cancelled
    case _ => false
  }

  // A pickup is never in transit, and a delivery is dispatched before it completes.
  predicate MayMove(batch: Batch, to: BatchStatus) {
    && Allowed(batch.status, to)
    && !(batch.mode == Pickup && to == InTransit)
    && !(batch.mode == Delivery && batch.status == Ready && to == Completed)
  }

  predicate Ended(status: BatchStatus) {
    status == Completed || status == Cancelled
  }

  function LastSequence(batches: seq<Batch>): (n: nat)
    ensures forall i :: 0 <= i < |batches| ==> batches[i].sequence <= n
  {
    if batches == [] then 0 else Max(LastSequence(batches[..|batches| - 1]), batches[|batches| - 1].sequence)
  }

  // --- the service functions ---

  function ApplyCreate(
    order: Orders.Order, depot: Depot, operate: bool, mode: Method, requests: seq<Request>, destinationUsable: bool)
    : Outcome {
    if !operate then Err(PermissionDenied)
    else match CanonicalAllocations(requests)
      case Err(error) => Err(error)
      case Ok(rows) =>
        if order.status != Orders.Confirmed then Err(InvalidFulfillment)
        else match CheckAllocations(order, depot.batches, rows, None)
          case Some(error) => Err(error)
          case None =>
            if !destinationUsable then Err(if mode == Delivery then InvalidFulfillment else OrganizationMismatch)
            else Ok(depot.(batches := depot.batches
                           + [Batch(LastSequence(depot.batches) + 1, mode, Draft, rows, 1, false)]))
  }

  function ApplyReplace(
    order: Orders.Order, depot: Depot, operate: bool, b: nat, requests: seq<Request>, version: nat): Outcome {
    if !operate then Err(PermissionDenied)
    else match CanonicalAllocations(requests)
      case Err(error) => Err(error)
      case Ok(rows) =>
        if |depot.batches| <= b then Err(OrganizationMismatch)
        else if order.status != Orders.Confirmed then Err(InvalidFulfillment)
        else if depot.batches[b].status != Draft then Err(InvalidFulfillment)
        else if depot.batches[b].version != version then Err(VersionConflict)
        else match CheckAllocations(order, depot.batches, rows, Some(b))
          case Some(error) => Err(error)
          case None =>
            Ok(depot.(batches := depot.batches[b := depot.batches[b].(allocations := rows, version := version + 1)]))
  }

  function ApplyTransition(
    order: Orders.Order, depot: Depot, permitted: bool, b: nat, target: BatchStatus, version: nat, reasoned: bool)
    : Outcome {
    if !permitted then Err(PermissionDenied)
    else if target == Cancelled && !reasoned then Err(ReasonRequired)
    else if target != Cancelled && reasoned then Err(InvalidFulfillment)
    else if |depot.batches| <= b then Err(OrganizationMismatch)
    else if order.status != Orders.Confirmed then Err(InvalidFulfillment)
    else if depot.batches[b].version != version then Err(VersionConflict)
    else if !MayMove(depot.batches[b], target) then Err(InvalidTransition)
    else Ok(depot.(batches := depot.batches[b := depot.batches[b].(status := target, version := version + 1)]))
  }

  function SystemCancelled(batch: Batch): Batch {
    batch.(status := Cancelled, version := batch.version + 1, systemCancelled := true)
  }

  function ApplyCancelFromEvent(order: Orders.Order, depot: Depot, b: nat, event: nat): Outcome {
    if (event, b) in depot.cancelReceipts then Ok(depot)
    else if |depot.batches| <= b then Err(OrganizationMismatch)
    else if Ended(depot.batches[b].status) then Ok(depot.(cancelReceipts := depot.cancelReceipts + {(event, b)}))
    else if order.status != Orders.Cancelled then Err(InvalidFulfillment)
    else
      Ok(depot.(
         batches := depot.batches[b := SystemCancelled(depot.batches[b])],
         cancelReceipts := depot.cancelReceipts + {(event, b)}))
  }

  // Batches first, first + 1, ... in turn, as the consumer visits them.
  function Drain(depot: Depot, first: nat, event: nat): Depot
    requires first <= |depot.batches|
    decreases |depot.batches| - first
  {
    if first == |depot.batches| then depot
    else
      var handled :=
        if (event, first) in depot.cancelReceipts then depot
        else
          depot.(
          batches := if Ended(depot.batches[first].status) then depot.batches
          else depot.batches[first := SystemCancelled(depot.batches[first])],
          cancelReceipts := depot.cancelReceipts + {(event, first)});
      Drain(handled, first + 1, event)
  }

  function ApplyConsume(order: Orders.Order, depot: Depot, event: nat): Outcome {
    if event in depot.consumed then Ok(depot)
    else if order.status != Orders.Cancelled then Err(InvalidFulfillment)
    else
      var drained := Drain(depot, 0, event);
      Ok(drained.(consumed := drained.consumed + {event}))
  }

  function Apply(order: Orders.Order, depot: Depot, command: Command): Outcome {
    match command
    case Create(operate, mode, requests, usable) => ApplyCreate(order, depot, operate, mode, requests, usable)
    case Replace(operate, b, requests, version) => ApplyReplace(order, depot, operate, b, requests, version)
    case Transition(permitted, b, target, version, reasoned) => ApplyTransition(order, depot, permitted, b, target,
        version, reasoned)
    case CancelFromEvent(b, event) => ApplyCancelFromEvent(order, depot, b, event)
    case ConsumeOrderCancelled(event) => ApplyConsume(order, depot, event)
  }

  function Next(order: Orders.Order, depot: Depot, command: Command): Depot {
    var r := Apply(order, depot, command);
    if r.Ok? then r.value else depot
  }

  // --- invariants ---

  // Rows of one batch name distinct items and carry positive quantities.
  ghost predicate SoundRows(rows: seq<Allocation>) {
    && (forall i :: 0 <= i < |rows| ==> 0 < rows[i].quantity)
    && (forall i, j :: 0 <= i < j < |rows| ==> rows[i].item != rows[j].item)
  }

  // No item of the order is allocated beyond its quantity; what is not an item
  // of the order is not allocated at all.
  ghost predicate Conserved(order: Orders.Order, batches: seq<Batch>) {
    forall item: nat :: Allocated(batches, item) <= OrderedQuantity(order, item)
  }

  ghost predicate ReceiptsEnded(depot: Depot) {
    forall r :: r in depot.cancelReceipts ==> r.1 < |depot.batches| && Ended(depot.batches[r.1].status)
  }

  ghost predicate Inv(order: Orders.Order, depot: Depot) {
    && (depot.batches != [] ==> order.status != Orders.Draft)
    && (forall b :: 0 <= b < |depot.batches| ==>
          SoundRows(depot.batches[b].allocations) && depot.batches[b].allocations != [])
    && (forall b, c :: 0 <= b < c < |depot.batches| ==> depot.batches[b].sequence != depot.batches[c].sequence)
    && (forall b :: 0 <= b < |depot.batches| && depot.batches[b].mode == Pickup ==>
          depot.batches[b].status != InTransit)
    && ReceiptsEnded(depot)
    && Conserved(order, depot.batches)
  }

  ghost predicate Ascending(rows: seq<Allocation>) {
    forall i, j :: 0 <= i < j < |rows| ==> rows[i].item < rows[j].item
  }

  // The same rows, in whatever order.
  ghost predicate SameRows(some: seq<Allocation>, others: seq<Allocation>) {
    |some| == |others| && forall row :: row in some <==> row in others
  }

  lemma {:induction false} InsertedKeeps(rows: seq<Allocation>, row: Allocation)
    requires Ascending(rows) && !Mentions(rows, row.item)
    ensures Ascending(Inserted(rows, row)) && SameRows(Inserted(rows, row), rows + [row])
  {
    if rows != [] {
      var k := |rows| - 1;
      if row.item < rows[k].item {
        var before := rows[..k];
        assert !Mentions(before, row.item);
        InsertedKeeps(before, row);
        var front := Inserted(before, row);
        forall i | 0 <= i < |front|
          ensures front[i].item < rows[k].item
        {
          assert front[i] in before + [row];
        }
        assert rows == before + [rows[k]];
      }
    }
  }

  lemma {:induction false} SortedKeeps(rows: seq<Allocation>)
    requires SoundRows(rows)
    ensures Ascending(Sorted(rows)) && SameRows(Sorted(rows), rows)
  {
    if rows != [] {
      var k := |rows| - 1;
      var before := Sorted(rows[..k]);
      SortedKeeps(rows[..k]);
      forall i | 0 <= i < |before|
        ensures before[i].item != rows[k].item
      {
        assert before[i] in rows[..k];
      }
      InsertedKeeps(before, rows[k]);
      assert rows == rows[..k] + [rows[k]];
    }
  }

  lemma {:induction false} CanonicalIsSound(requests: seq<Request>)
    requires Canonical(requests).Ok?
    ensures SoundRows(Canonical(requests).value)
  {
    if requests != [] {
      CanonicalIsSound(requests[..|requests| - 1]);
    }
  }

  // An accepted list is the submitted one, rounded and sorted by item: positive
  // quantities of distinct items.
  lemma AcceptedAllocationsAreSound(requests: seq<Request>)
    requires CanonicalAllocations(requests).Ok?
    ensures var rows := CanonicalAllocations(requests).value;
            SoundRows(rows) && Ascending(rows) && rows != [] && SameRows(rows, Canonical(requests).value)
  {
    CanonicalIsSound(requests);
    SortedKeeps(Canonical(requests).value);
    var rows := Sorted(Canonical(requests).value);
    forall i | 0 <= i < |rows|
      ensures 0 < rows[i].quantity
    {
      assert rows[i] in Canonical(requests).value;
    }
  }

  lemma {:induction false} QuantityInConcat(a: seq<Allocation>, b: seq<Allocation>, item: nat)
    ensures QuantityIn(a + b, item) == QuantityIn(a, item) + QuantityIn(b, item)
  {
    if b == [] {
      assert a + b == a;
    } else {
      var k := |b| - 1;
      assert (a + b)[..|a + b| - 1] == a + b[..k];
      QuantityInConcat(a, b[..k], item);
    }
  }

  // A row names its item once, so it carries the item's whole quantity in the batch.
  lemma {:induction false} QuantityInSoundRows(rows: seq<Allocation>, item: nat)
    requires SoundRows(rows)
    ensures forall i :: 0 <= i < |rows| && rows[i].item == item ==> QuantityIn(rows, item) == rows[i].quantity
    ensures !Mentions(rows, item) ==> QuantityIn(rows, item) == 0
  {
    if rows != [] {
      var k := |rows| - 1;
      QuantityInSoundRows(rows[..k], item);
      forall i | 0 <= i < k && rows[i].item == item
        ensures QuantityIn(rows, item) == rows[i].quantity
      {
        assert rows[..k][i] == rows[i];
      }
      if Mentions(rows[..k], item) {
        var i :| 0 <= i < k && rows[..k][i].item == item;
        assert rows[i].item == item;
      }
    }
  }

  function Share(batch: Batch, item: nat): int {
    if batch.status == Cancelled then 0 else QuantityIn(batch.allocations, item)
  }

  // What a batch holds and what all the others hold make up the total.
  lemma {:induction false} AllocatedSplits(batches: seq<Batch>, b: nat, item: nat)
    requires b < |batches|
    ensures Allocated(batches, item) == QuantityIn(LiveRows(batches, Some(b)), item) + Share(batches[b], item)
  {
    var k := |batches| - 1;
    var rows := if batches[k].status == Cancelled then [] else batches[k].allocations;
    QuantityInConcat(LiveRows(batches[..k], None), rows, item);
    if b == k {
      OthersIgnoreLater(batches[..k], b);
      var others := LiveRows(batches[..k], None);
      assert LiveRows(batches, Some(b)) == others + [] == others;
      assert LiveRows(batches, None) == others + rows;
    } else {
      AllocatedSplits(batches[..k], b, item);
      QuantityInConcat(LiveRows(batches[..k], Some(b)), rows, item);
      assert batches[..k][b] == batches[b];
    }
  }

  lemma {:induction false} OthersIgnoreLater(batches: seq<Batch>, b: nat)
    requires |batches| <= b
    ensures LiveRows(batches, Some(b)) == LiveRows(batches, None)
  {
    if batches != [] {
      OthersIgnoreLater(batches[..|batches| - 1], b);
    }
  }

  lemma {:induction false} OthersUnaffected(batches: seq<Batch>, b: nat, batch: Batch)
    requires b < |batches|
    ensures LiveRows(batches[b := batch], Some(b)) == LiveRows(batches, Some(b))
  {
    var k := |batches| - 1;
    if b == k {
      assert batches[b := batch][..k] == batches[..k];
    } else {
      OthersUnaffected(batches[..k], b, batch);
      assert batches[b := batch][..k] == batches[..k][b := batch];
    }
  }

  // Replacing one batch changes every total by the change of that batch's share.
  lemma AllocatedAfterUpdate(batches: seq<Batch>, b: nat, batch: Batch, item: nat)
    requires b < |batches|
    ensures Allocated(batches[b := batch], item) == Allocated(batches, item) - Share(batches[b], item)
            + Share(batch, item)
  {
    AllocatedSplits(batches, b, item);
    AllocatedSplits(batches[b := batch], b, item);
    OthersUnaffected(batches, b, batch);
  }

  lemma ShareIsNonNegative(batch: Batch, item: nat)
    requires SoundRows(batch.allocations)
    ensures 0 <= Share(batch, item)
  {
    QuantityInSoundRows(batch.allocations, item);
  }

  // The allocation check is exactly what conservation needs: rows that pass it
  // fit beside the others, and rows that fail it for quantity do not.
  lemma CheckIsExact(order: Orders.Order, live: seq<Allocation>, rows: seq<Allocation>)
    requires SoundRows(rows)
    requires forall item: nat :: QuantityIn(live, item) <= OrderedQuantity(order, item)
    ensures !Exceeds(order, live, rows)
            <==> forall item: nat :: QuantityIn(live, item) + QuantityIn(rows, item) <= OrderedQuantity(order, item)
  {
    if Exceeds(order, live, rows) {
      var i :| 0 <= i < |rows| && OrderedQuantity(order, rows[i].item) < QuantityIn(live, rows[i].item)
        + rows[i].quantity;
      QuantityInSoundRows(rows, rows[i].item);
      assert OrderedQuantity(order, rows[i].item) < QuantityIn(live, rows[i].item) + QuantityIn(rows, rows[i].item);
    } else {
      forall item: nat
        ensures QuantityIn(live, item) + QuantityIn(rows, item) <= OrderedQuantity(order, item)
      {
        QuantityInSoundRows(rows, item);
      }
    }
  }

  // A batch is accepted for quantity if and only if the order's items cover it
  // together with every other live batch.
  lemma CreateConserves(
    order: Orders.Order, depot: Depot, operate: bool, mode: Method, requests: seq<Request>, usable: bool)
    requires Inv(order, depot) && ApplyCreate(order, depot, operate, mode, requests, usable).Ok?
    ensures Conserved(order, ApplyCreate(order, depot, operate, mode, requests, usable).value.batches)
  {
    var after := ApplyCreate(order, depot, operate, mode, requests, usable).value.batches;
    var rows := CanonicalAllocations(requests).value;
    AcceptedAllocationsAreSound(requests);
    var live := LiveRows(depot.batches, None);
    assert forall item: nat :: QuantityIn(live, item) == Allocated(depot.batches, item);
    CheckIsExact(order, live, rows);
    assert after[..|after| - 1] == depot.batches;
    forall item: nat ensures Allocated(after, item) <= OrderedQuantity(order, item) {
      QuantityInConcat(live, rows, item);
    }
  }

  lemma ReplaceConserves(order: Orders.Order, depot: Depot, operate: bool, b: nat, requests: seq<Request>, version: nat)
    requires Inv(order, depot) && ApplyReplace(order, depot, operate, b, requests, version).Ok?
    ensures Conserved(order, ApplyReplace(order, depot, operate, b, requests, version).value.batches)
  {
    var after := ApplyReplace(order, depot, operate, b, requests, version).value.batches;
    var rows := CanonicalAllocations(requests).value;
    AcceptedAllocationsAreSound(requests);
    var live := LiveRows(depot.batches, Some(b));
    forall item: nat ensures QuantityIn(live, item) <= OrderedQuantity(order, item) {
      AllocatedSplits(depot.batches, b, item);
      ShareIsNonNegative(depot.batches[b], item);
    }
    CheckIsExact(order, live, rows);
    forall item: nat ensures Allocated(after, item) <= OrderedQuantity(order, item) {
      AllocatedSplits(after, b, item);
      OthersUnaffected(depot.batches, b, after[b]);
    }
  }

  // Moving a batch along, or cancelling it, only ever releases quantity.
  lemma StatusChangeConserves(order: Orders.Order, batches: seq<Batch>, b: nat, batch: Batch)
    requires b < |batches| && Conserved(order, batches)
    requires SoundRows(batches[b].allocations) && batch.allocations == batches[b].allocations
    requires batches[b].status != Cancelled
    ensures Conserved(order, batches[b := batch])
    ensures forall item: nat :: Allocated(batches[b := batch], item) <= Allocated(batches, item)
  {
    forall item: nat ensures Allocated(batches[b := batch], item) <= Allocated(batches, item) {
      AllocatedAfterUpdate(batches, b, batch, item);
      ShareIsNonNegative(batches[b], item);
    }
  }

  // --- the order's cancellation ---

  // Batches that had ended are untouched, the rest are cancelled by the system.
  lemma {:induction false} DrainEffect(depot: Depot, first: nat, event: nat)
    requires first <= |depot.batches| && ReceiptsEnded(depot)
    ensures var after := Drain(depot, first, event);
            && |after.batches| == |depot.batches|
            && (forall b :: 0 <= b < |depot.batches| ==>
                  after.batches[b] ==
                  if b < first || Ended(depot.batches[b].status) then depot.batches[b]
                     else SystemCancelled(depot.batches[b]))
            && (forall r :: r in after.cancelReceipts <==>
                  r in depot.cancelReceipts || (r.0 == event && first <= r.1 < |depot.batches|))
            && after.consumed == depot.consumed
    decreases |depot.batches| - first
  {
    if first < |depot.batches| {
      var handled :=
        if (event, first) in depot.cancelReceipts then depot
        else
          depot.(
          batches := if Ended(depot.batches[first].status) then depot.batches
          else depot.batches[first := SystemCancelled(depot.batches[first])],
          cancelReceipts := depot.cancelReceipts + {(event, first)});
      assert Ended(handled.batches[first].status);
      DrainEffect(handled, first + 1, event);
    }
  }

  // Cancelling a set of batches at once conserves too.
  lemma {:induction false} CancellingReleases(before: seq<Batch>, after: seq<Batch>, item: nat)
    requires |after| == |before|
    requires forall b :: 0 <= b < |before| ==> SoundRows(before[b].allocations)
    requires forall b :: 0 <= b < |before| ==> after[b] == before[b] || after[b] == SystemCancelled(before[b])
    ensures Allocated(after, item) <= Allocated(before, item)
  {
    if before != [] {
      var k := |before| - 1;
      CancellingReleases(before[..k], after[..k], item);
      var rows := if before[k].status == Cancelled then [] else before[k].allocations;
      var rows' := if after[k].status == Cancelled then [] else after[k].allocations;
      QuantityInConcat(LiveRows(before[..k], None), rows, item);
      QuantityInConcat(LiveRows(after[..k], None), rows', item);
      QuantityInSoundRows(before[k].allocations, item);
    }
  }

  lemma ConsumeKeepsInv(order: Orders.Order, depot: Depot, event: nat)
    requires Inv(order, depot) && ApplyConsume(order, depot, event).Ok?
    ensures Inv(order, ApplyConsume(order, depot, event).value)
  {
    if event !in depot.consumed {
      DrainEffect(depot, 0, event);
      var after := Drain(depot, 0, event).batches;
      forall item: nat ensures Allocated(after, item) <= OrderedQuantity(order, item) {
        CancellingReleases(depot.batches, after, item);
      }
    }
  }

  lemma CancelFromEventKeepsInv(order: Orders.Order, depot: Depot, b: nat, event: nat)
    requires Inv(order, depot) && ApplyCancelFromEvent(order, depot, b, event).Ok?
    ensures Inv(order, ApplyCancelFromEvent(order, depot, b, event).value)
  {
    if (event, b) !in depot.cancelReceipts && !Ended(depot.batches[b].status) {
      StatusChangeConserves(order, depot.batches, b, SystemCancelled(depot.batches[b]));
    }
  }

  lemma TransitionKeepsInv(
    order: Orders.Order, depot: Depot, permitted: bool, b: nat, target: BatchStatus, version: nat, reasoned: bool)
    requires Inv(order, depot) && ApplyTransition(order, depot, permitted, b, target, version, reasoned).Ok?
    ensures Inv(order, ApplyTransition(order, depot, permitted, b, target, version, reasoned).value)
  {
    var after := ApplyTransition(order, depot, permitted, b, target, version, reasoned).value;
    StatusChangeConserves(order, depot.batches, b, after.batches[b]);
  }

  // Conservation and the rest of the invariant survive every command.
  lemma CommandKeepsInv(order: Orders.Order, depot: Depot, command: Command)
    requires Inv(order, depot)
    ensures Inv(order, Next(order, depot, command))
  {
    if Apply(order, depot, command).Ok? {
      match command
      case Create(operate, mode, requests, usable) =>
        AcceptedAllocationsAreSound(requests);
        CreateConserves(order, depot, operate, mode, requests, usable);
      case Replace(operate, b, requests, version) =>
        AcceptedAllocationsAreSound(requests);
        ReplaceConserves(order, depot, operate, b, requests, version);
      case Transition(permitted, b, target, version, reasoned) =>
        TransitionKeepsInv(order, depot, permitted, b, target, version, reasoned);
      case CancelFromEvent(b, event) =>
        CancelFromEventKeepsInv(order, depot, b, event);
      case ConsumeOrderCancelled(event) =>
        ConsumeKeepsInv(order, depot, event);
    }
  }

  lemma SameItemsSameInv(order: Orders.Order, after: Orders.Order, depot: Depot)
    requires Inv(order, depot) && after.items == order.items && after.status != Orders.Draft
    ensures Inv(after, depot)
  {
    forall item: nat ensures OrderedQuantity(after, item) == OrderedQuantity(order, item) {
    }
  }

  lemma NothingAllocated(order: Orders.Order, depot: Depot)
    requires depot.batches == [] && depot.cancelReceipts == {}
    requires forall item: nat :: 0 <= OrderedQuantity(order, item)
    ensures Inv(order, depot)
  {
  }

  // The order may move on beneath its batches: only drafts can be edited.
  lemma OrderStepKeepsInv(order: Orders.Order, depot: Depot, command: Orders.Command)
    requires Orders.WellFormed(order) && Inv(order, depot) && Orders.Apply(order, command).Ok?
    ensures Inv(Orders.Apply(order, command).value, depot)
  {
    var after := Orders.Apply(order, command).value;
    if order.status == Orders.Draft {
      assert depot.batches == [];
      assert depot.cancelReceipts == {};
      forall item: nat ensures 0 <= OrderedQuantity(after, item) {
        ItemQuantityIsNonNegative(order, command, item);
      }
      NothingAllocated(after, depot);
    } else {
      Orders.FrozenOnceConfirmed(order, command);
      SameItemsSameInv(order, after, depot);
    }
  }

  lemma ItemQuantityIsNonNegative(order: Orders.Order, command: Orders.Command, item: nat)
    requires Orders.WellFormed(order) && Orders.Apply(order, command).Ok?
    ensures 0 <= OrderedQuantity(Orders.Apply(order, command).value, item)
  {
    Orders.ApplyKeepsWellFormed(order, command);
    var after := Orders.Apply(order, command).value;
    var k := Orders.IndexOf(after.items, item);
    if k.Some? {
      assert Orders.SoundItem(after.items[k.value]);
    }
  }

  // The live batches of a consumed cancellation: none.  Completed batches keep
  // every field.
  lemma ConsumptionDrains(order: Orders.Order, depot: Depot, event: nat)
    requires Inv(order, depot) && event !in depot.consumed && ApplyConsume(order, depot, event).Ok?
    ensures var after := ApplyConsume(order, depot, event).value;
            && |after.batches| == |depot.batches|
            && (forall b :: 0 <= b < |depot.batches| ==> Ended(after.batches[b].status))
            && (forall b :: 0 <= b < |depot.batches| && Ended(depot.batches[b].status) ==>
                after.batches[b] == depot.batches[b])
            && (forall b :: 0 <= b < |depot.batches| && !Ended(depot.batches[b].status) ==>
                  after.batches[b].status == Cancelled && after.batches[b].systemCancelled
                  && after.batches[b].allocations == depot.batches[b].allocations)
            && Apply(order, after, ConsumeOrderCancelled(event)) == Ok(after)
  {
    DrainEffect(depot, 0, event);
  }

  // Once its order is cancelled no batch is added, edited or moved along; all
  // that can still happen to a batch is its own cancellation.
  lemma FrozenOnceOrderCancelled(order: Orders.Order, depot: Depot, command: Command)
    requires Inv(order, depot) && order.status == Orders.Cancelled
    ensures var after := Next(order, depot, command);
            && |after.batches| == |depot.batches|
            && forall b :: 0 <= b < |depot.batches| ==>
                 after.batches[b] == depot.batches[b]
                 || (!Ended(depot.batches[b].status) && after.batches[b] == SystemCancelled(depot.batches[b]))
  {
    if command.ConsumeOrderCancelled? {
      DrainEffect(depot, 0, command.event);
    }
  }

  // --- lifecycle ---

  function Stage(status: BatchStatus): nat {
    match status
    case Draft => 0
    case Preparing => 1
    case Ready => 2
    case InTransit => 3
    case Completed => 4
    case Cancelled => 4
  }

  // A batch never returns to a status, so the history's (batch, status)
  // uniqueness has nothing to reject; what has ended never changes again.
  lemma LifecycleAdvances(order: Orders.Order, depot: Depot, command: Command, b: nat)
    requires Inv(order, depot) && b < |depot.batches|
    ensures var after := Next(order, depot, command);
            && |depot.batches| <= |after.batches|
            && (after.batches[b].status == depot.batches[b].status
                || Stage(depot.batches[b].status) < Stage(after.batches[b].status))
            && (Ended(depot.batches[b].status) ==> after.batches[b] == depot.batches[b])
            && (after.batches[b].allocations != depot.batches[b].allocations ==> depot.batches[b].status == Draft)
            && after.batches[b].mode == depot.batches[b].mode
            && (after.batches[b].status == InTransit && depot.batches[b].status != InTransit ==>
                depot.batches[b].mode == Delivery)
            && (after.batches[b].status == Completed && depot.batches[b].status != Completed ==>
                  depot.batches[b].status == if depot.batches[b].mode == Delivery then InTransit else Ready)
  {
    if command.ConsumeOrderCancelled? {
      DrainEffect(depot, 0, command.event);
    }
  }

  // --- the stored batches ---

  ghost predicate Answers(before: Depot, after: Depot, r: Result<(), FulfillmentError>, specified: Outcome) {
    match specified
    case Ok(value) => r.Ok? && after == value
    case Err(error) => r == Err(error) && after == before
  }

  // How many batches have not ended.
  function Unfinished(batches: seq<Batch>): nat {
    if batches == [] then 0
    else Unfinished(batches[..|batches| - 1]) + (if Ended(batches[|batches| - 1].status) then 0 else 1)
  }

  class FulfillmentDesk {
    var batches: seq<Batch>
    var cancelReceipts: set<(nat, nat)>
    var consumed: set<nat>

    ghost function Snapshot(): Depot
      reads this
    {
      Depot(batches, cancelReceipts, consumed)
    }

    constructor ()
      ensures Snapshot() == NewDepot
    {
      batches, cancelReceipts, consumed := [], {}, {};
    }

    static method Canonicalize(requests: seq<Request>) returns (r: Result<seq<Allocation>, FulfillmentError>)
      ensures r == CanonicalAllocations(requests)
    {
      var canonical: seq<Allocation> := [];
      var seen: set<nat> := {};
      for i := 0 to |requests|
        invariant Canonical(requests[..i]) == Ok(canonical)
        invariant forall item: nat :: item in seen <==> Mentions(canonical, item)
      {
        assert requests[..i + 1][..i] == requests[..i];
        var rounded := Calculations.Quantity(requests[i].quantity);
        if requests[i].item in seen || rounded <= 0 {
          assert Canonical(requests[..i + 1]).Err?;
          RefusalSpreads(requests, i + 1);
          return Err(InvalidFulfillment);
        }
        seen := seen + {requests[i].item};
        MentionsAppended(canonical, Allocation(requests[i].item, rounded));
        canonical := canonical + [Allocation(requests[i].item, rounded)];
      }
      assert requests[..|requests|] == requests;
      if canonical == [] {
        return Err(InvalidFulfillment);
      }
      r := Ok(Sorted(canonical));
    }

    // Add up what the other live batches hold of each item, then compare.
    method CheckRows(
      order: Orders.Order, rows: seq<Allocation>, except: Option<nat>) returns (problem: Option<FulfillmentError>)
      ensures problem == CheckAllocations(order, batches, rows, except)
    {
      for i := 0 to |rows|
        invariant forall j :: 0 <= j < i ==> Orders.IndexOf(order.items, rows[j].item).Some?
      {
        if Orders.IndexOf(order.items, rows[i].item).None? {
          return Some(OrganizationMismatch);
        }
      }
      var existing := LiveRows(batches, except);
      var held: map<nat, int> := map[];
      for i := 0 to |existing|
        invariant forall item: nat :: (if item in held then held[item] else 0) == QuantityIn(existing[..i], item)
      {
        assert existing[..i + 1][..i] == existing[..i];
        var item := existing[i].item;
        var sofar := if item in held then held[item] else 0;
        held := held[item := sofar + existing[i].quantity];
      }
      assert existing[..|existing|] == existing;
      for i := 0 to |rows|
        invariant forall j :: 0 <= j < i ==>
          QuantityIn(existing, rows[j].item) + rows[j].quantity <= OrderedQuantity(order, rows[j].item)
      {
        var taken := if rows[i].item in held then held[rows[i].item] else 0;
        if OrderedQuantity(order, rows[i].item) < taken + rows[i].quantity {
          return Some(InvalidFulfillment);
        }
      }
      problem := None;
    }

    method Create(order: Orders.Order, operate: bool, mode: Method, requests: seq<Request>, destinationUsable: bool)
      returns (r: Result<(), FulfillmentError>)
      modifies this`batches
      ensures Answers(old(Snapshot()), Snapshot(), r,
                      ApplyCreate(order, old(Snapshot()), operate, mode, requests, destinationUsable))
    {
      if !operate {
        return Err(PermissionDenied);
      }
      var canonical := Canonicalize(requests);
      if canonical.Err? {
        return Err(canonical.error);
      }
      if order.status != Orders.Confirmed {
        return Err(InvalidFulfillment);
      }
      var problem := CheckRows(order, canonical.value, None);
      if problem.Some? {
        return Err(problem.value);
      }
      if !destinationUsable {
        return Err(if mode == Delivery then InvalidFulfillment else OrganizationMismatch);
      }
      batches := batches + [Batch(LastSequence(batches) + 1, mode, Draft, canonical.value, 1, false)];
      r := Ok(());
    }

    method Replace(order: Orders.Order, operate: bool, b: nat, requests: seq<Request>, version: nat)
      returns (r: Result<(), FulfillmentError>)
      modifies this`batches
      ensures Answers(old(Snapshot()), Snapshot(), r,
                      ApplyReplace(order, old(Snapshot()), operate, b, requests, version))
    {
      if !operate {
        return Err(PermissionDenied);
      }
      var canonical := Canonicalize(requests);
      if canonical.Err? {
        return Err(canonical.error);
      }
      if |batches| <= b {
        return Err(OrganizationMismatch);
      }
      if order.status != Orders.Confirmed || batches[b].status != Draft {
        return Err(InvalidFulfillment);
      }
      if batches[b].version != version {
        return Err(VersionConflict);
      }
      var problem := CheckRows(order, canonical.value, Some(b));
      if problem.Some? {
        return Err(problem.value);
      }
      var batch := batches[b].(allocations := []);
      batch := batch.(allocations := canonical.value);
      batch := batch.(version := batch.version + 1);
      batches := batches[b := batch];
      r := Ok(());
    }

    method Transition(order: Orders.Order, permitted: bool, b: nat, target: BatchStatus, version: nat, reasoned: bool)
      returns (r: Result<(), FulfillmentError>)
      modifies this`batches
      ensures Answers(old(Snapshot()), Snapshot(), r,
                      ApplyTransition(order, old(Snapshot()), permitted, b, target, version, reasoned))
    {
      if !permitted {
        return Err(PermissionDenied);
      }
      if target == Cancelled && !reasoned {
        return Err(ReasonRequired);
      }
      if target != Cancelled && reasoned {
        return Err(InvalidFulfillment);
      }
      if |batches| <= b {
        return Err(OrganizationMismatch);
      }
      if order.status != Orders.Confirmed {
        return Err(InvalidFulfillment);
      }
      var batch := batches[b];
      if batch.version != version {
        return Err(VersionConflict);
      }
      if !MayMove(batch, target) {
        return Err(InvalidTransition);
      }
      batch := batch.(status := target);
      batch := batch.(version := batch.version + 1);
      batches := batches[b := batch];
      r := Ok(());
    }

    method CancelFromOrderEvent(order: Orders.Order, b: nat, event: nat) returns (r: Result<(), FulfillmentError>)
      modifies this`batches, this`cancelReceipts
      ensures Answers(old(Snapshot()), Snapshot(), r, ApplyCancelFromEvent(order, old(Snapshot()), b, event))
    {
      if (event, b) in cancelReceipts {
        return Ok(());
      }
      if |batches| <= b {
        return Err(OrganizationMismatch);
      }
      var batch := batches[b];
      if Ended(batch.status) {
        cancelReceipts := cancelReceipts + {(event, b)};
        return Ok(());
      }
      if order.status != Orders.Cancelled {
        return Err(InvalidFulfillment);
      }
      batch := batch.(status := Cancelled);
      batch := batch.(version := batch.version + 1);
      batch := batch.(systemCancelled := true);
      batches := batches[b := batch];
      cancelReceipts := cancelReceipts + {(event, b)};
      r := Ok(());
    }

    // Visit every batch of the cancelled order; the count returned is the number
    // of batches that this event closed.
    method Consume(order: Orders.Order, event: nat) returns (r: Result<nat, FulfillmentError>)
      requires ReceiptsEnded(Snapshot())
      modifies this
      ensures match ApplyConsume(order, old(Snapshot()), event)
              case Ok(value) =>
                && Snapshot() == value
                && r == Ok(if event in old(consumed) then 0 else Unfinished(old(batches)))
              case Err(error) => r == Err(error) && Snapshot() == old(Snapshot())
    {
      if event in consumed {
        return Ok(0);
      }
      if order.status != Orders.Cancelled {
        return Err(InvalidFulfillment);
      }
      ghost var before := Snapshot();
      var cancelled: nat := 0;
      var b: nat := 0;
      while b < |batches|
        invariant b <= |batches| == |before.batches|
        invariant consumed == before.consumed
        invariant ReceiptsEnded(Snapshot())
        invariant Drain(Snapshot(), b, event) == Drain(before, 0, event)
        invariant forall c :: b <= c < |batches| ==> batches[c] == before.batches[c]
        invariant cancelled == Unfinished(before.batches[..b])
      {
        ghost var here := Snapshot();
        var previous := batches[b].status;
        var handled := CancelFromOrderEvent(order, b, event);
        if !Ended(previous) {
          cancelled := cancelled + 1;
        }
        assert before.batches[..b + 1][..b] == before.batches[..b];
        assert Drain(here, b, event) == Drain(Snapshot(), b + 1, event);
        b := b + 1;
      }
      assert before.batches[..b] == before.batches;
      consumed := consumed + {event};
      r := Ok(cancelled);
    }
  }

  lemma MentionsAppended(rows: seq<Allocation>, row: Allocation)
    ensures forall item: nat :: Mentions(rows + [row], item) <==> Mentions(rows, item) || item == row.item
  {
    var longer := rows + [row];
    forall item: nat
      ensures Mentions(longer, item) <==> Mentions(rows, item) || item == row.item
    {
      assert longer[|rows|] == row;
      assert forall i :: 0 <= i < |rows| ==> longer[i] == rows[i];
    }
  }

  // A list is refused as soon as one of its prefixes is.
  lemma {:induction false} RefusalSpreads(requests: seq<Request>, n: nat)
    requires n <= |requests| && Canonical(requests[..n]) == Err(InvalidFulfillment)
    ensures Canonical(requests) == Err(InvalidFulfillment)
    decreases |requests|
  {
    if n == |requests| {
      assert requests[..n] == requests;
    } else {
      var k := |requests| - 1;
      assert requests[..k][..n] == requests[..n];
      RefusalSpreads(requests[..k], n);
    }
  }
}

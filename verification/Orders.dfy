// One commercial order: a draft is edited line by line, confirmed, cancelled.
//
// Apply gives the meaning of each service call as a function on order values;
// OrderDesk, below, is the code that updates the stored order in place.
module Orders {
  import opened Common
  import opened Calculations

  datatype OrderStatus = Draft | Confirmed | Cancelled

  // position orders the lines for display; id is the row identifier that
  // fulfillment batches refer to.
  datatype Item = Item(id: nat, position: nat, line: Line, surchargeReason: string)

  datatype Order = Order(
    status: OrderStatus,
    items: seq<Item>,
    totals: Totals,
    version: nat,
    nextItem: nat)

  datatype OrderError =
    | PermissionDenied
    | OrganizationMismatch
    | NotEditable
    | VersionConflict
    | InvalidLine(cause: LineError)
    | InvalidItem
    | ReasonRequired
    | ConfirmationBlocked
    | InvalidTransition

  // What the actor's membership allows.
  datatype Actor = Actor(manage: bool, adjust: bool, confirm: bool, cancel: bool)

  // Decimals as submitted; None keeps the stored amount.  Reasons arrive
  // stripped, and reasonAllowed is the outcome of the forbidden-term scan.
  datatype Amounts = Amounts(quantity: real, unitPrice: real, discount: real, surcharge: real, reason: string,
                             reasonAllowed: bool)
  datatype Changes = Changes(
    quantity: Option<real>,
    unitPrice: Option<real>,
    discount: Option<real>,
    surcharge: Option<real>,
    reason: Option<string>,
    reasonAllowed: bool)

  // A catalog row as the service finds it: in the caller's organization, on sale.
  datatype CatalogRow = CatalogRow(own: bool, active: bool)

  // What a line was chosen from; a free-text line has neither row.  matching:
  // the variant is one of the product's.
  datatype Choice = Choice(product: Option<CatalogRow>, variant: Option<CatalogRow>, matching: bool)

  const FREE_TEXT := Choice(None, None, true)

  datatype Command =
    | ChangeCustomer(actor: Actor, version: nat, customerUsable: bool)
    | AddItem(actor: Actor, version: nat, amounts: Amounts, choice: Choice, named: bool)
    | UpdateItem(actor: Actor, version: nat, item: nat, changes: Changes)
    | RemoveItem(actor: Actor, version: nat, item: nat)
    | Confirm(actor: Actor, version: nat, customerUsable: bool, catalog: map<nat, Choice>)
    | Cancel(actor: Actor, version: nat, reasoned: bool)

  const NewOrder := Order(Draft, [], Totals(0, 0, 0, 0), 1, 0)

  function Lines(items: seq<Item>): (lines: seq<Line>)
    ensures |lines| == |items|
    ensures forall i :: 0 <= i < |items| ==> lines[i] == items[i].line
  {
    seq(|items|, i requires 0 <= i < |items| => items[i].line)
  }

  function IndexOf(items: seq<Item>, id: nat): (found: Option<nat>)
    ensures found.Some? ==> found.value < |items| && items[found.value].id == id
    ensures found.None? ==> forall i :: 0 <= i < |items| ==> items[i].id != id
  {
    if items == [] then None
    else if items[0].id == id then Some(0)
    else match IndexOf(items[1..], id) {
      case Some(k) => Some(k + 1)
      case None =>
        assert forall i :: 1 <= i < |items| ==> items[i] == items[1..][i - 1];
        None
    }
  }

  function LastPosition(items: seq<Item>): (p: nat)
    ensures forall i :: 0 <= i < |items| ==> items[i].position <= p
  {
    if items == [] then 0
    else
      assert forall i :: 1 <= i < |items| ==> items[i] == items[1..][i - 1];
      Max(items[0].position, LastPosition(items[1..]))
  }

  function SurchargeProblem(amount: int, reason: string, reasonAllowed: bool): Option<OrderError> {
    if amount == 0 then (if reason != "" then Some(InvalidItem) else None)
    else if reason == "" then Some(ReasonRequired)
    else if !reasonAllowed then Some(InvalidItem)
    else None
  }

  predicate ForeignRow(row: Option<CatalogRow>) {
    row.Some? && !row.value.own
  }

  predicate OffSale(row: Option<CatalogRow>) {
    row.Some? && !row.value.active
  }

  function CatalogProblem(choice: Choice): Option<OrderError> {
    if ForeignRow(choice.product) then Some(OrganizationMismatch)
    else if ForeignRow(choice.variant) then Some(OrganizationMismatch)
    else if choice.variant.Some? && !choice.matching then Some(InvalidItem)
    else if OffSale(choice.product) || OffSale(choice.variant) then Some(ConfirmationBlocked)
    else None
  }

  function ChoiceOf(catalog: map<nat, Choice>, id: nat): Choice {
    if id in catalog then catalog[id] else FREE_TEXT
  }

  predicate ForeignLine(catalog: map<nat, Choice>, item: Item) {
    ForeignRow(ChoiceOf(catalog, item.id).product) || ForeignRow(ChoiceOf(catalog, item.id).variant)
  }

  // The problem of the first line that has one.
  function FirstProblem(items: seq<Item>, catalog: map<nat, Choice>): (problem: Option<OrderError>)
    ensures problem.None? <==> forall i :: 0 <= i < |items| ==> CatalogProblem(ChoiceOf(catalog, items[i].id)).None?
  {
    if items == [] then None
    else
      var k := |items| - 1;
      var earlier := FirstProblem(items[..k], catalog);
      if earlier.Some? then earlier else CatalogProblem(ChoiceOf(catalog, items[k].id))
  }

  function Editable(order: Order, version: nat): Option<OrderError> {
    if order.status != Draft then Some(NotEditable)
    else if order.version != version then Some(VersionConflict)
    else None
  }

  function Edited(order: Order, items: seq<Item>): Order {
    order.(items := items, totals := CalculateOrder(Lines(items)), version := order.version + 1)
  }

  // What refuses a new line before the order itself is looked at.
  function AddRefused(actor: Actor, amounts: Amounts, choice: Choice, named: bool): (problem: Option<OrderError>)
    ensures problem.None? ==> CalculateLine(amounts.quantity, amounts.unitPrice, amounts.discount,
                                            amounts.surcharge).Ok?
  {
    if !actor.manage then Some(PermissionDenied)
    else match CalculateLine(amounts.quantity, amounts.unitPrice, amounts.discount, amounts.surcharge)
      case Err(cause) => Some(InvalidLine(cause))
      case Ok(line) =>
        if (line.discount != 0 || line.surcharge != 0) && !actor.adjust then Some(PermissionDenied)
        else match SurchargeProblem(line.surcharge, amounts.reason, amounts.reasonAllowed)
          case Some(problem) => Some(problem)
          case None =>
            if CatalogProblem(choice).Some? then CatalogProblem(choice)
            else if !named then Some(InvalidItem)
            else None
  }

  function ApplyAdd(order: Order, actor: Actor, version: nat, amounts: Amounts, choice: Choice, named: bool)
    : Result<Order, OrderError>
  {
    match AddRefused(actor, amounts, choice, named)
    case Some(problem) => Err(problem)
    case None =>
      match Editable(order, version)
      case Some(problem) => Err(problem)
      case None =>
        var line := CalculateLine(amounts.quantity, amounts.unitPrice, amounts.discount, amounts.surcharge).value;
        var item := Item(order.nextItem, LastPosition(order.items) + 1, line, amounts.reason);
        Ok(Edited(order, order.items + [item]).(nextItem := order.nextItem + 1))
  }

  function Revised(item: Item, changes: Changes): Result<Line, LineError> {
    CalculateLine(
      if changes.quantity.Some? then changes.quantity.value else AsQuantity(item.line.quantity),
      if changes.unitPrice.Some? then changes.unitPrice.value else AsMoney(item.line.unitPrice),
      if changes.discount.Some? then changes.discount.value else AsMoney(item.line.discount),
      if changes.surcharge.Some? then changes.surcharge.value else AsMoney(item.line.surcharge))
  }

  function ApplyUpdate(order: Order, actor: Actor, version: nat, id: nat, changes: Changes): Result<Order, OrderError> {
    if !actor.manage then Err(PermissionDenied)
    else match Editable(order, version)
      case Some(problem) => Err(problem)
      case None =>
        match IndexOf(order.items, id)
        case None => Err(OrganizationMismatch)
        case Some(k) =>
          var item := order.items[k];
          match Revised(item, changes)
          case Err(cause) => Err(InvalidLine(cause))
          case Ok(line) =>
            var reason := if changes.reason.Some? then changes.reason.value else item.surchargeReason;
            var adjusted := line.discount != item.line.discount
                            || line.surcharge != item.line.surcharge
                            || reason != item.surchargeReason;
            if adjusted && !actor.adjust then Err(PermissionDenied)
            else match SurchargeProblem(line.surcharge, reason, changes.reasonAllowed)
              case Some(problem) => Err(problem)
              case None => Ok(Edited(order, order.items[k := item.(line := line, surchargeReason := reason)]))
  }

  function ApplyRemove(order: Order, actor: Actor, version: nat, id: nat): Result<Order, OrderError> {
    if !actor.manage then Err(PermissionDenied)
    else match Editable(order, version)
      case Some(problem) => Err(problem)
      case None =>
        match IndexOf(order.items, id)
        case None => Err(OrganizationMismatch)
        case Some(k) => Ok(Edited(order, order.items[..k] + order.items[k + 1..]))
  }

  predicate MayMove(before: OrderStatus, after: OrderStatus) {
    match before
    case Draft => after == Confirmed || after == Cancelled
    case Confirmed => after == Cancelled
    case Cancelled => false
  }

  function ApplyConfirm(order: Order, actor: Actor, version: nat, customerUsable: bool, catalog: map<nat, Choice>)
    : Result<Order, OrderError>
  {
    if !actor.confirm then Err(PermissionDenied)
    else if order.version != version then Err(VersionConflict)
    else if !MayMove(order.status, Confirmed) then Err(InvalidTransition)
    else if exists i :: 0 <= i < |order.items| && ForeignLine(catalog, order.items[i]) then Err(OrganizationMismatch)
    else if !customerUsable then Err(ConfirmationBlocked)
    else if order.items == [] then Err(ConfirmationBlocked)
    else if FirstProblem(order.items, catalog).Some? then Err(FirstProblem(order.items, catalog).value)
    else Ok(Edited(order, order.items).(status := Confirmed))
  }

  function ApplyCancel(order: Order, actor: Actor, version: nat, reasoned: bool): Result<Order, OrderError> {
    if !actor.cancel then Err(PermissionDenied)
    else if !reasoned then Err(ReasonRequired)
    else if order.version != version then Err(VersionConflict)
    else if !MayMove(order.status, Cancelled) then Err(InvalidTransition)
    else Ok(order.(status := Cancelled, version := order.version + 1))
  }

  function Apply(order: Order, command: Command): Result<Order, OrderError> {
    match command
    case ChangeCustomer(actor, version, usable) =>
      if !actor.manage then Err(PermissionDenied)
      else if !usable then Err(ConfirmationBlocked)
      else (match Editable(order, version)
            case Some(problem) => Err(problem)
            case None => Ok(order.(version := order.version + 1)))
    case AddItem(actor, version, amounts, choice, named) => ApplyAdd(order, actor, version, amounts, choice, named)
    case UpdateItem(actor, version, item, changes) => ApplyUpdate(order, actor, version, item, changes)
    case RemoveItem(actor, version, item) => ApplyRemove(order, actor, version, item)
    case Confirm(actor, version, usable, catalog) => ApplyConfirm(order, actor, version, usable, catalog)
    case Cancel(actor, version, reasoned) => ApplyCancel(order, actor, version, reasoned)
  }

  // --- what every reachable order satisfies ---

  // The line came out of the calculator.
  ghost predicate Stored(line: Line) {
    PriceLine(line.quantity, line.unitPrice, line.discount, line.surcharge) == Ok(line)
  }

  ghost predicate SoundItem(item: Item) {
    && Stored(item.line)
    && SoundLine(item.line)
    && (item.line.surcharge == 0 <==> item.surchargeReason == "")
    && 1 <= item.position
  }

  ghost predicate SoundItems(items: seq<Item>, nextItem: nat) {
    && (forall i :: 0 <= i < |items| ==> SoundItem(items[i]) && items[i].id < nextItem)
    && (forall i, j :: 0 <= i < j < |items| ==> items[i].id != items[j].id && items[i].position != items[j].position)
  }

  ghost predicate WellFormed(order: Order) {
    SoundItems(order.items, order.nextItem) && Consistent(order)
  }

  ghost predicate Consistent(order: Order) {
    && order.totals == CalculateOrder(Lines(order.items))
    && (order.status == Confirmed ==> order.items != [])
    && 1 <= order.version
  }

  lemma NewOrderIsWellFormed()
    ensures WellFormed(NewOrder)
  {
    StoredAmountsAreFixed(0);
    assert CalculateOrder(Lines([])) == Totals(0, 0, 0, 0);
  }

  lemma RevisedLineIsSound(item: Item, changes: Changes)
    requires Revised(item, changes).Ok?
    ensures SoundLine(Revised(item, changes).value)
  {
    CalculatedLineIsSound(
      if changes.quantity.Some? then changes.quantity.value else AsQuantity(item.line.quantity),
      if changes.unitPrice.Some? then changes.unitPrice.value else AsMoney(item.line.unitPrice),
      if changes.discount.Some? then changes.discount.value else AsMoney(item.line.discount),
      if changes.surcharge.Some? then changes.surcharge.value else AsMoney(item.line.surcharge));
  }

  lemma AddKeepsItems(order: Order, actor: Actor, version: nat, amounts: Amounts, choice: Choice, named: bool)
    requires SoundItems(order.items, order.nextItem)
    requires ApplyAdd(order, actor, version, amounts, choice, named).Ok?
    ensures var after := ApplyAdd(order, actor, version, amounts, choice, named).value;
            SoundItems(after.items, after.nextItem)
  {
    CalculatedLineIsSound(amounts.quantity, amounts.unitPrice, amounts.discount, amounts.surcharge);
  }

  lemma UpdateKeepsItems(order: Order, actor: Actor, version: nat, id: nat, changes: Changes)
    requires SoundItems(order.items, order.nextItem)
    requires ApplyUpdate(order, actor, version, id, changes).Ok?
    ensures var after := ApplyUpdate(order, actor, version, id, changes).value;
            SoundItems(after.items, after.nextItem)
  {
    var item := order.items[IndexOf(order.items, id).value];
    RevisedLineIsSound(item, changes);
    assert SoundItem(item);
  }

  lemma RemoveKeepsItems(items: seq<Item>, nextItem: nat, k: nat)
    requires SoundItems(items, nextItem) && k < |items|
    ensures SoundItems(items[..k] + items[k + 1..], nextItem)
  {
    var rest := items[..k] + items[k + 1..];
    assert forall i :: 0 <= i < |rest| ==> rest[i] == items[if i < k then i else i + 1];
  }

  // Every accepted command keeps the order well formed: each row constraint of
  // the items table, the distinct positions and the totals all survive.
  lemma ApplyKeepsWellFormed(order: Order, command: Command)
    requires WellFormed(order) && Apply(order, command).Ok?
    ensures WellFormed(Apply(order, command).value)
  {
    ApplyKeepsItems(order, command);
    ApplyKeepsTotals(order, command);
  }

  lemma ApplyKeepsTotals(order: Order, command: Command)
    requires Consistent(order) && Apply(order, command).Ok?
    ensures Consistent(Apply(order, command).value)
  {
  }

  lemma ApplyKeepsItems(order: Order, command: Command)
    requires SoundItems(order.items, order.nextItem) && Apply(order, command).Ok?
    ensures var after := Apply(order, command).value;
            SoundItems(after.items, after.nextItem)
  {
    match command
    case AddItem(actor, version, amounts, choice, named) =>
      AddKeepsItems(order, actor, version, amounts, choice, named);
    case UpdateItem(actor, version, item, changes) =>
      UpdateKeepsItems(order, actor, version, item, changes);
    case RemoveItem(_, _, item) =>
      RemoveKeepsItems(order.items, order.nextItem, IndexOf(order.items, item).value);
    case ChangeCustomer(_, _, _) =>
    case Confirm(_, _, _, _) =>
    case Cancel(_, _, _) =>
  }

  // The money of a well-formed order is the exact sum of its rounded lines.
  lemma OrderMoney(order: Order)
    requires WellFormed(order)
    ensures var lines := Lines(order.items);
            && order.totals.subtotal == SumGross(lines)
            && order.totals.discountTotal == SumDiscount(lines)
            && order.totals.surchargeTotal == SumSurcharge(lines)
            && order.totals.total == SumTotal(lines)
            && order.totals.total == SumGross(lines) - SumDiscount(lines) + SumSurcharge(lines)
            && 0 <= order.totals.discountTotal <= order.totals.subtotal
            && 0 <= order.totals.surchargeTotal
            && 0 <= order.totals.total
            && -500 * |lines| <= 1000 * order.totals.subtotal - SumExact(lines) <= 500 * |lines|
  {
    var lines := Lines(order.items);
    forall line | line in lines ensures SoundLine(line) {
      var i :| 0 <= i < |lines| && lines[i] == line;
      assert SoundItem(order.items[i]);
    }
    OrderTotalsAreExact(lines);
  }

  // Outside a draft no command touches the lines or the totals, and the only
  // command that is accepted at all is the cancellation of a confirmed order.
  lemma FrozenOnceConfirmed(order: Order, command: Command)
    requires order.status != Draft && Apply(order, command).Ok?
    ensures order.status == Confirmed && command.Cancel?
    ensures Apply(order, command).value == order.(status := Cancelled, version := order.version + 1)
  {
  }

  // An update that submits nothing leaves every amount of the order as stored.
  lemma EmptyUpdateChangesNoAmount(order: Order, actor: Actor, id: nat)
    requires WellFormed(order) && order.status == Draft && actor.manage
    requires IndexOf(order.items, id).Some?
    ensures var nothing := Changes(None, None, None, None, None, true);
            ApplyUpdate(order, actor, order.version, id, nothing) == Ok(order.(version := order.version + 1))
  {
    var k := IndexOf(order.items, id).value;
    var line := order.items[k].line;
    StoredAmountsAreFixed(line.quantity);
    StoredAmountsAreFixed(line.unitPrice);
    StoredAmountsAreFixed(line.discount);
    StoredAmountsAreFixed(line.surcharge);
    assert SoundItem(order.items[k]);
    assert order.items[k := order.items[k]] == order.items;
  }

  // --- the stored order ---

  // after is what the call leaves behind: the committed value, or the order
  // untouched with the exception the specification names.
  ghost predicate Answers(
    before: Order, after: Order, r: Result<(), OrderError>, specified: Result<Order, OrderError>) {
    match specified
    case Ok(value) => r.Ok? && after == value
    case Err(error) => r == Err(error) && after == before
  }

  lemma {:induction false} FirstProblemStands(items: seq<Item>, n: nat, catalog: map<nat, Choice>)
    requires n <= |items| && FirstProblem(items[..n], catalog).Some?
    ensures FirstProblem(items, catalog) == FirstProblem(items[..n], catalog)
    decreases |items|
  {
    if n == |items| {
      assert items[..n] == items;
    } else {
      var front := items[..|items| - 1];
      assert front[..n] == items[..n];
      FirstProblemStands(front, n, catalog);
    }
  }

  class OrderDesk {
    var status: OrderStatus
    var items: seq<Item>
    var totals: Totals
    var version: nat
    var nextItem: nat

    ghost function Snapshot(): Order
      reads this
    {
      Order(status, items, totals, version, nextItem)
    }

    constructor ()
      ensures Snapshot() == NewOrder
    {
      status, items, totals, version, nextItem := Draft, [], Totals(0, 0, 0, 0), 1, 0;
    }

    method EnsureEditable(expected: nat) returns (problem: Option<OrderError>)
      ensures problem == Editable(Snapshot(), expected)
    {
      problem := None;
      if status != Draft {
        problem := Some(NotEditable);
      } else if version != expected {
        problem := Some(VersionConflict);
      }
    }

    // Recompute the stored totals from the stored lines, then bump the version.
    method Finish()
      modifies this`totals, this`version
      ensures Snapshot() == Edited(old(Snapshot()), old(items))
    {
      totals := CalculateOrder(Lines(items));
      version := version + 1;
    }

    method Find(id: nat) returns (k: nat)
      ensures k <= |items|
      ensures IndexOf(items, id) == if k < |items| then Some(k) else None
    {
      k := 0;
      while k < |items| && items[k].id != id
        invariant k <= |items|
        invariant IndexOf(items, id) == match IndexOf(items[k..], id) {
                    case Some(j) => Some(k + j)
                    case None => None
                  }
      {
        assert items[k..][1..] == items[k + 1..];
        k := k + 1;
      }
    }

    method NextPosition() returns (p: nat)
      ensures p == LastPosition(items) + 1
    {
      var last: nat := 0;
      var i := |items|;
      while 0 < i
        invariant 0 <= i <= |items|
        invariant last == LastPosition(items[i..])
      {
        i := i - 1;
        assert items[i..][1..] == items[i + 1..];
        last := Max(items[i].position, last);
      }
      assert items[0..] == items;
      p := last + 1;
    }

    method Add(actor: Actor, expected: nat, amounts: Amounts, choice: Choice, named: bool)
      returns (r: Result<(), OrderError>)
      modifies this
      ensures Answers(old(Snapshot()), Snapshot(), r,
                      Apply(old(Snapshot()), AddItem(actor, expected, amounts, choice, named)))
    {
      if !actor.manage {
        return Err(PermissionDenied);
      }
      var calculated := CalculateLine(amounts.quantity, amounts.unitPrice, amounts.discount, amounts.surcharge);
      if calculated.Err? {
        return Err(InvalidLine(calculated.error));
      }
      var line := calculated.value;
      if (line.discount != 0 || line.surcharge != 0) && !actor.adjust {
        return Err(PermissionDenied);
      }
      var problem := SurchargeProblem(line.surcharge, amounts.reason, amounts.reasonAllowed);
      if problem.Some? {
        return Err(problem.value);
      }
      problem := CatalogProblem(choice);
      if problem.Some? {
        return Err(problem.value);
      }
      if !named {
        return Err(InvalidItem);
      }
      problem := EnsureEditable(expected);
      if problem.Some? {
        return Err(problem.value);
      }
      Append(line, amounts.reason);
      r := Ok(());
    }

    method Append(line: Line, reason: string)
      modifies this
      ensures var item := Item(old(nextItem), LastPosition(old(items)) + 1, line, reason);
              Snapshot() == Edited(old(Snapshot()), old(items) + [item]).(nextItem := old(nextItem) + 1)
    {
      var position := NextPosition();
      items := items + [Item(nextItem, position, line, reason)];
      nextItem := nextItem + 1;
      Finish();
    }

    method Update(actor: Actor, expected: nat, id: nat, changes: Changes) returns (r: Result<(), OrderError>)
      modifies this
      ensures Answers(old(Snapshot()), Snapshot(), r, Apply(old(Snapshot()), UpdateItem(actor, expected, id, changes)))
    {
      if !actor.manage {
        return Err(PermissionDenied);
      }
      var problem := EnsureEditable(expected);
      if problem.Some? {
        return Err(problem.value);
      }
      var k := Find(id);
      if k == |items| {
        return Err(OrganizationMismatch);
      }
      var item := items[k];
      var calculated := Revised(item, changes);
      if calculated.Err? {
        return Err(InvalidLine(calculated.error));
      }
      var line := calculated.value;
      var reason := item.surchargeReason;
      if changes.reason.Some? {
        reason := changes.reason.value;
      }
      if line.discount != item.line.discount || line.surcharge != item.line.surcharge
         || reason != item.surchargeReason {
        if !actor.adjust {
          return Err(PermissionDenied);
        }
      }
      problem := SurchargeProblem(line.surcharge, reason, changes.reasonAllowed);
      if problem.Some? {
        return Err(problem.value);
      }
      if item.line != line {
        item := item.(line := line);
      }
      if item.surchargeReason != reason {
        item := item.(surchargeReason := reason);
      }
      items := items[k := item];
      Finish();
      r := Ok(());
    }

    method Remove(actor: Actor, expected: nat, id: nat) returns (r: Result<(), OrderError>)
      modifies this
      ensures Answers(old(Snapshot()), Snapshot(), r, Apply(old(Snapshot()), RemoveItem(actor, expected, id)))
    {
      if !actor.manage {
        return Err(PermissionDenied);
      }
      var problem := EnsureEditable(expected);
      if problem.Some? {
        return Err(problem.value);
      }
      var k := Find(id);
      if k == |items| {
        return Err(OrganizationMismatch);
      }
      items := items[..k] + items[k + 1..];
      Finish();
      r := Ok(());
    }

    method ConfirmOrder(actor: Actor, expected: nat, customerUsable: bool, catalog: map<nat, Choice>)
      returns (r: Result<(), OrderError>)
      modifies this
      ensures Answers(old(Snapshot()), Snapshot(), r,
                      Apply(old(Snapshot()), Confirm(actor, expected, customerUsable, catalog)))
    {
      if !actor.confirm {
        return Err(PermissionDenied);
      }
      if version != expected {
        return Err(VersionConflict);
      }
      if !MayMove(status, Confirmed) {
        return Err(InvalidTransition);
      }
      for i := 0 to |items|
        invariant forall j :: 0 <= j < i ==> !ForeignLine(catalog, items[j])
      {
        if ForeignLine(catalog, items[i]) {
          return Err(OrganizationMismatch);
        }
      }
      if !customerUsable || items == [] {
        return Err(ConfirmationBlocked);
      }
      for i := 0 to |items|
        invariant FirstProblem(items[..i], catalog).None?
      {
        assert items[..i + 1][..i] == items[..i];
        var problem := CatalogProblem(ChoiceOf(catalog, items[i].id));
        if problem.Some? {
          FirstProblemStands(items, i + 1, catalog);
          return Err(problem.value);
        }
      }
      assert items[..|items|] == items;
      totals := CalculateOrder(Lines(items));
      status := Confirmed;
      version := version + 1;
      r := Ok(());
    }

    method CancelOrder(actor: Actor, expected: nat, reasoned: bool) returns (r: Result<(), OrderError>)
      modifies this
      ensures Answers(old(Snapshot()), Snapshot(), r, Apply(old(Snapshot()), Cancel(actor, expected, reasoned)))
    {
      if !actor.cancel {
        return Err(PermissionDenied);
      }
      if !reasoned {
        return Err(ReasonRequired);
      }
      if version != expected {
        return Err(VersionConflict);
      }
      if !MayMove(status, Cancelled) {
        return Err(InvalidTransition);
      }
      status := Cancelled;
      version := version + 1;
      r := Ok(());
    }
  }
}

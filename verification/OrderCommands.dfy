// Exactly when each order command is accepted, and what it does to every line.
module OrderCommands {
  import opened Common
  import opened Calculations
  import opened Orders

  // The line with an id.
  predicate LineIs(items: seq<Item>, id: nat, item: Item) {
    item.id == id && exists i :: 0 <= i < |items| && items[i] == item
  }

  predicate HasLine(items: seq<Item>, id: nat) {
    exists i :: 0 <= i < |items| && items[i].id == id
  }

  ghost predicate DistinctIds(items: seq<Item>) {
    forall i, j :: 0 <= i < j < |items| ==> items[i].id != items[j].id
  }

  lemma FoundExactly(items: seq<Item>, id: nat)
    ensures HasLine(items, id) <==> IndexOf(items, id).Some?
    ensures DistinctIds(items) && HasLine(items, id) ==>
              forall i :: 0 <= i < |items| ==> (items[i].id == id <==> i == IndexOf(items, id).value)
  {
  }

  predicate MayEdit(order: Order, actor: Actor, version: nat) {
    actor.manage && order.status == Draft && order.version == version
  }

  // A surcharge needs a reason that may be stored, and nothing else has one.
  predicate ReasonFits(surcharge: int, reason: string, allowed: bool) {
    if surcharge == 0 then reason == "" else reason != "" && allowed
  }

  lemma ReasonFitsExactly(surcharge: int, reason: string, allowed: bool)
    ensures SurchargeProblem(surcharge, reason, allowed).None? <==> ReasonFits(surcharge, reason, allowed)
  {
  }

  // What a line is chosen from is the organization's own, on sale and matching.
  predicate OnSale(choice: Choice) {
    && (choice.product.Some? ==> choice.product.value.own && choice.product.value.active)
    && (choice.variant.Some? ==> choice.variant.value.own && choice.variant.value.active && choice.matching)
  }

  lemma OnSaleExactly(choice: Choice)
    ensures CatalogProblem(choice).None? <==> OnSale(choice)
  {
  }

  // --- adding ---

  // A line is added to a draft exactly when it prices, who adjusts may adjust,
  // a surcharge has its reason, and what it names is on sale.
  lemma AddedExactly(order: Order, actor: Actor, version: nat, amounts: Amounts, choice: Choice, named: bool)
    ensures Apply(order, AddItem(actor, version, amounts, choice, named)).Ok? <==>
            var line := CalculateLine(amounts.quantity, amounts.unitPrice, amounts.discount, amounts.surcharge);
            && MayEdit(order, actor, version)
            && line.Ok?
            && (actor.adjust || (line.value.discount == 0 && line.value.surcharge == 0))
            && ReasonFits(line.value.surcharge, amounts.reason, amounts.reasonAllowed)
            && OnSale(choice)
            && named
  {
    var line := CalculateLine(amounts.quantity, amounts.unitPrice, amounts.discount, amounts.surcharge);
    if line.Ok? {
      ReasonFitsExactly(line.value.surcharge, amounts.reason, amounts.reasonAllowed);
    }
    OnSaleExactly(choice);
  }

  // Every earlier line stands, and the new one comes last, under a new id, with
  // the submitted amounts and reason.
  lemma AdditionLeaves(order: Order, actor: Actor, version: nat, amounts: Amounts, choice: Choice, named: bool)
    requires WellFormed(order) && Apply(order, AddItem(actor, version, amounts, choice, named)).Ok?
    ensures var after := Apply(order, AddItem(actor, version, amounts, choice, named)).value;
            var n := |order.items|;
            && |after.items| == n + 1
            && after == Order(Draft, order.items + [after.items[n]], after.totals, version + 1, order.nextItem + 1)
            && !HasLine(order.items, after.items[n].id)
            && after.items[n].id == order.nextItem
            && (forall i :: 0 <= i < n ==> order.items[i].position < after.items[n].position)
            && after.items[n].line.quantity == Quantity(amounts.quantity)
            && after.items[n].line.unitPrice == Money(amounts.unitPrice)
            && after.items[n].line.discount == Money(amounts.discount)
            && after.items[n].line.surcharge == Money(amounts.surcharge)
            && SoundLine(after.items[n].line)
            && after.items[n].surchargeReason == amounts.reason
  {
    LineIsPricedExactly(Quantity(amounts.quantity), Money(amounts.unitPrice), Money(amounts.discount),
                        Money(amounts.surcharge));
    CalculatedLineIsSound(amounts.quantity, amounts.unitPrice, amounts.discount, amounts.surcharge);
  }

  // --- updating ---

  // The stored amount, unless another was submitted.
  function QuantityAfter(item: Item, changes: Changes): int {
    if changes.quantity.Some? then Quantity(changes.quantity.value) else item.line.quantity
  }

  function PriceAfter(item: Item, changes: Changes): int {
    if changes.unitPrice.Some? then Money(changes.unitPrice.value) else item.line.unitPrice
  }

  function DiscountAfter(item: Item, changes: Changes): int {
    if changes.discount.Some? then Money(changes.discount.value) else item.line.discount
  }

  function SurchargeAfter(item: Item, changes: Changes): int {
    if changes.surcharge.Some? then Money(changes.surcharge.value) else item.line.surcharge
  }

  function ReasonAfter(item: Item, changes: Changes): string {
    if changes.reason.Some? then changes.reason.value else item.surchargeReason
  }

  lemma RevisedIsPriced(item: Item, changes: Changes)
    ensures Revised(item, changes) ==
            PriceLine(QuantityAfter(item, changes), PriceAfter(item, changes), DiscountAfter(item, changes),
                      SurchargeAfter(item, changes))
  {
    StoredAmountsAreFixed(item.line.quantity);
    StoredAmountsAreFixed(item.line.unitPrice);
    StoredAmountsAreFixed(item.line.discount);
    StoredAmountsAreFixed(item.line.surcharge);
  }

  // A line of a draft is updated exactly when the amounts it would have price,
  // and changing discount, surcharge or reason is allowed and fits.
  lemma UpdatedExactly(order: Order, actor: Actor, version: nat, k: nat, changes: Changes)
    requires WellFormed(order) && k < |order.items|
    ensures var item := order.items[k];
            var discount, surcharge := DiscountAfter(item, changes), SurchargeAfter(item, changes);
            Apply(order, UpdateItem(actor, version, item.id, changes)).Ok? <==>
            && MayEdit(order, actor, version)
            && PriceLine(QuantityAfter(item, changes), PriceAfter(item, changes), discount, surcharge).Ok?
            && (actor.adjust || (&& discount == item.line.discount
                                 && surcharge == item.line.surcharge
                                 && ReasonAfter(item, changes) == item.surchargeReason))
            && ReasonFits(surcharge, ReasonAfter(item, changes), changes.reasonAllowed)
  {
    var item := order.items[k];
    FoundExactly(order.items, item.id);
    RevisedIsPriced(item, changes);
    ReasonFitsExactly(SurchargeAfter(item, changes), ReasonAfter(item, changes), changes.reasonAllowed);
  }

  // The named line carries what was submitted and keeps the rest; it stays
  // where it is, and so does every other line, field by field.
  lemma UpdateLeaves(order: Order, actor: Actor, version: nat, id: nat, changes: Changes)
    requires WellFormed(order) && Apply(order, UpdateItem(actor, version, id, changes)).Ok?
    ensures var after := Apply(order, UpdateItem(actor, version, id, changes)).value;
            && HasLine(order.items, id)
            && |after.items| == |order.items|
            && after == Order(Draft, after.items, after.totals, version + 1, order.nextItem)
            && forall k :: 0 <= k < |order.items| ==>
                 var before, now := order.items[k], after.items[k];
                 && now.id == before.id
                 && now.position == before.position
                 && (before.id != id ==> now == before)
                 && (before.id == id ==>
                       && now.line.quantity == QuantityAfter(before, changes)
                       && now.line.unitPrice == PriceAfter(before, changes)
                       && now.line.discount == DiscountAfter(before, changes)
                       && now.line.surcharge == SurchargeAfter(before, changes)
                       && SoundLine(now.line)
                       && now.surchargeReason == ReasonAfter(before, changes))
  {
    FoundExactly(order.items, id);
    var item := order.items[IndexOf(order.items, id).value];
    RevisedIsPriced(item, changes);
    RevisedLineIsSound(item, changes);
  }

  // --- removing ---

  lemma RemovedExactly(order: Order, actor: Actor, version: nat, id: nat)
    ensures Apply(order, RemoveItem(actor, version, id)).Ok? <==>
            MayEdit(order, actor, version) && HasLine(order.items, id)
  {
    FoundExactly(order.items, id);
  }

  // One line is missing, the rest stand in their order.
  ghost predicate OneLess(items: seq<Item>, rest: seq<Item>, id: nat) {
    && |rest| == |items| - 1
    && !HasLine(rest, id)
    && (forall other, item :: other != id ==> (LineIs(rest, other, item) <==> LineIs(items, other, item)))
    && (forall i, j :: 0 <= i < j < |rest| ==> Before(items, rest[i], rest[j]))
  }

  ghost predicate Before(items: seq<Item>, first: Item, second: Item) {
    exists i, j :: 0 <= i < j < |items| && items[i] == first && items[j] == second
  }

  lemma WithoutOne(items: seq<Item>, k: nat)
    requires DistinctIds(items) && k < |items|
    ensures OneLess(items, items[..k] + items[k + 1..], items[k].id)
  {
    var id := items[k].id;
    var rest := items[..k] + items[k + 1..];
    assert forall i :: 0 <= i < |rest| ==> rest[i] == items[if i < k then i else i + 1];
    forall other, item | other != id
      ensures LineIs(rest, other, item) <==> LineIs(items, other, item)
    {
      if LineIs(items, other, item) {
        var i :| 0 <= i < |items| && items[i] == item;
        assert rest[if i < k then i else i - 1] == item;
      }
    }
    forall i, j | 0 <= i < j < |rest|
      ensures Before(items, rest[i], rest[j])
    {
      assert items[if i < k then i else i + 1] == rest[i] && items[if j < k then j else j + 1] == rest[j];
    }
  }

  // The named line is gone, and one line with it; every other line is found as
  // it was, and the lines keep their order.
  lemma RemovalLeaves(order: Order, actor: Actor, version: nat, id: nat)
    requires WellFormed(order) && Apply(order, RemoveItem(actor, version, id)).Ok?
    ensures var after := Apply(order, RemoveItem(actor, version, id)).value;
            && after == Order(Draft, after.items, after.totals, version + 1, order.nextItem)
            && OneLess(order.items, after.items, id)
  {
    FoundExactly(order.items, id);
    WithoutOne(order.items, IndexOf(order.items, id).value);
  }

  // --- the order as a whole ---

  // A draft is confirmed exactly when its customer can be, it has lines, and
  // what every line names is still on sale; not a line or an amount changes.
  lemma ConfirmedExactly(order: Order, actor: Actor, version: nat, customerUsable: bool, catalog: map<nat, Choice>)
    requires WellFormed(order)
    ensures var r := Apply(order, Confirm(actor, version, customerUsable, catalog));
            && (r.Ok? <==>
                  && actor.confirm
                  && order.version == version
                  && order.status == Draft
                  && customerUsable
                  && order.items != []
                  && forall i :: 0 <= i < |order.items| && order.items[i].id in catalog ==>
                       OnSale(catalog[order.items[i].id]))
            && (r.Ok? ==> r.value == order.(status := Confirmed, version := version + 1))
  {
    forall i | 0 <= i < |order.items|
      ensures CatalogProblem(ChoiceOf(catalog, order.items[i].id)).None?
              <==> order.items[i].id in catalog ==> OnSale(catalog[order.items[i].id])
    {
      OnSaleExactly(ChoiceOf(catalog, order.items[i].id));
    }
  }

  // A draft with a line from somebody else's catalog is refused for that before
  // anything else is looked at.
  lemma ForeignLinesAreRefusedFirst(
    order: Order, actor: Actor, version: nat, customerUsable: bool, catalog: map<nat, Choice>)
    ensures Apply(order, Confirm(actor, version, customerUsable, catalog)) == Err(OrganizationMismatch) <==>
            && actor.confirm
            && order.version == version
            && order.status == Draft
            && exists i :: 0 <= i < |order.items| && order.items[i].id in catalog
                           && !OwnChoice(catalog[order.items[i].id])
  {
    forall i | 0 <= i < |order.items|
      ensures ForeignLine(catalog, order.items[i])
              <==> order.items[i].id in catalog && !OwnChoice(catalog[order.items[i].id])
    {
    }
    if FirstProblem(order.items, catalog).Some? {
      var i := ProblemIsSomeLines(order.items, catalog);
      assert ForeignLine(catalog, order.items[i])
             || FirstProblem(order.items, catalog) != Some(OrganizationMismatch);
    }
  }

  lemma CancelledExactly(order: Order, actor: Actor, version: nat, reasoned: bool)
    ensures var r := Apply(order, Cancel(actor, version, reasoned));
            && (r.Ok? <==> actor.cancel && reasoned && order.version == version && order.status != Cancelled)
            && (r.Ok? ==> r.value == order.(status := Cancelled, version := version + 1))
  {
  }

  lemma CustomerChangedExactly(order: Order, actor: Actor, version: nat, usable: bool)
    ensures var r := Apply(order, ChangeCustomer(actor, version, usable));
            && (r.Ok? <==> MayEdit(order, actor, version) && usable)
            && (r.Ok? ==> r.value == order.(version := version + 1))
  {
  }

  // --- refusals ---

  // What the named error says is wrong with the command.
  ghost predicate Explains(order: Order, command: Command, error: OrderError) {
    match error
    case PermissionDenied =>
      var actor := command.actor;
      if command.Confirm? then !actor.confirm
      else if command.Cancel? then !actor.cancel
      else !actor.manage || ((command.AddItem? || command.UpdateItem?) && !actor.adjust)
    case VersionConflict => order.version != command.version
    case NotEditable => order.status != Draft
    case OrganizationMismatch =>
      if command.AddItem? then !OwnChoice(command.choice)
      else if command.Confirm? then
        exists i :: 0 <= i < |order.items| && order.items[i].id in command.catalog
                    && !OwnChoice(command.catalog[order.items[i].id])
      else (command.UpdateItem? || command.RemoveItem?) && !HasLine(order.items, command.item)
    case InvalidLine(cause) =>
      if command.AddItem? then
        var amounts := command.amounts;
        NotPriced(Quantity(amounts.quantity), Money(amounts.unitPrice), Money(amounts.discount),
                  Money(amounts.surcharge), cause)
      else
        command.UpdateItem?
        && exists i :: 0 <= i < |order.items| && order.items[i].id == command.item
                       && NotPriced(QuantityAfter(order.items[i], command.changes),
                                    PriceAfter(order.items[i], command.changes),
                                    DiscountAfter(order.items[i], command.changes),
                                    SurchargeAfter(order.items[i], command.changes), cause)
    case InvalidItem =>
      if command.AddItem? then
        || !command.named
        || !OnSale(command.choice)
        || !ReasonFits(Money(command.amounts.surcharge), command.amounts.reason, command.amounts.reasonAllowed)
      else if command.Confirm? then
        exists i :: 0 <= i < |order.items| && order.items[i].id in command.catalog
                    && !OnSale(command.catalog[order.items[i].id])
      else
        command.UpdateItem?
        && exists i :: 0 <= i < |order.items| && order.items[i].id == command.item
                       && !ReasonFits(SurchargeAfter(order.items[i], command.changes),
                                      ReasonAfter(order.items[i], command.changes), command.changes.reasonAllowed)
    case ReasonRequired =>
      if command.Cancel? then !command.reasoned
      else if command.AddItem? then Money(command.amounts.surcharge) != 0 && command.amounts.reason == ""
      else
        command.UpdateItem?
        && exists i :: 0 <= i < |order.items| && order.items[i].id == command.item
                       && SurchargeAfter(order.items[i], command.changes) != 0
                       && ReasonAfter(order.items[i], command.changes) == ""
    case ConfirmationBlocked =>
      if command.AddItem? then !OnSale(command.choice)
      else if command.ChangeCustomer? then !command.customerUsable
      else
        command.Confirm?
        && (|| !command.customerUsable
            || order.items == []
            || exists i :: 0 <= i < |order.items| && order.items[i].id in command.catalog
                           && !OnSale(command.catalog[order.items[i].id]))
    case InvalidTransition =>
      if command.Confirm? then order.status != Draft else command.Cancel? && order.status == Cancelled
  }

  predicate OwnChoice(choice: Choice) {
    && (choice.product.Some? ==> choice.product.value.own)
    && (choice.variant.Some? ==> choice.variant.value.own)
  }

  predicate NotPriced(q: int, p: int, d: int, s: int, cause: LineError) {
    match cause
    case NonPositiveQuantity => q <= 0
    case NegativeAmount => p < 0 || d < 0 || s < 0
    case DiscountAboveGross => Money(AsQuantity(q) * AsMoney(p)) < d
  }

  lemma AddRefusalIsTruthful(order: Order, command: Command)
    requires command.AddItem? && Apply(order, command).Err?
    ensures Explains(order, command, Apply(order, command).error)
  {
  }

  lemma UpdateRefusalIsTruthful(order: Order, command: Command)
    requires command.UpdateItem? && Apply(order, command).Err?
    ensures Explains(order, command, Apply(order, command).error)
  {
    FoundExactly(order.items, command.item);
    if HasLine(order.items, command.item) {
      var k := IndexOf(order.items, command.item).value;
      assert order.items[k].id == command.item;
      RevisedIsPriced(order.items[k], command.changes);
    }
  }

  // A refusal names something that is wrong.
  lemma RefusalIsTruthful(order: Order, command: Command)
    requires WellFormed(order) && Apply(order, command).Err?
    ensures Explains(order, command, Apply(order, command).error)
  {
    match command
    case AddItem(_, _, _, _, _) => AddRefusalIsTruthful(order, command);
    case UpdateItem(_, _, _, _) => UpdateRefusalIsTruthful(order, command);
    case RemoveItem(_, _, id) => FoundExactly(order.items, id);
    case Confirm(_, _, _, catalog) => ConfirmRefusalIsTruthful(order, command);
    case ChangeCustomer(_, _, _) =>
    case Cancel(_, _, _) =>
  }

  // The first line with a problem has it.
  lemma {:induction false} ProblemIsSomeLines(items: seq<Item>, catalog: map<nat, Choice>) returns (i: nat)
    requires FirstProblem(items, catalog).Some?
    ensures i < |items| && FirstProblem(items, catalog) == CatalogProblem(ChoiceOf(catalog, items[i].id))
  {
    var k := |items| - 1;
    if FirstProblem(items[..k], catalog).Some? {
      i := ProblemIsSomeLines(items[..k], catalog);
    } else {
      i := k;
    }
  }

  lemma ConfirmRefusalIsTruthful(order: Order, command: Command)
    requires command.Confirm? && Apply(order, command).Err?
    ensures Explains(order, command, Apply(order, command).error)
  {
    if FirstProblem(order.items, command.catalog).Some? {
      var i := ProblemIsSomeLines(order.items, command.catalog);
      assert order.items[i].id in command.catalog;
    }
    if i :| 0 <= i < |order.items| && ForeignLine(command.catalog, order.items[i]) {
      assert order.items[i].id in command.catalog && !OwnChoice(command.catalog[order.items[i].id]);
    }
  }
}

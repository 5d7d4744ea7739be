// One order, built command by command, for the runs that show a state is reached.
module OrderSample {
  import opened Common
  import Calculations
  import Orders

  const BOSS := Orders.Actor(true, true, true, true)

  const UNIT := Orders.Amounts(1.0, 1.0, 0.0, 0.0, "", true)

  const ADD := Orders.AddItem(BOSS, 1, UNIT, Orders.FREE_TEXT, true)

  const REMOVE := Orders.RemoveItem(BOSS, 2, 0)

  const CONFIRM := Orders.Confirm(BOSS, 2, true, map[])

  const CANCEL := Orders.Cancel(BOSS, 3, true)

  const LINE := Calculations.Line(1000, 100, 100, 0, 0, 100)

  const DRAFTED := Orders.Order(Orders.Draft, [Orders.Item(0, 1, LINE, "")], Calculations.Totals(100, 0, 0, 100), 2, 1)

  const EMPTIED := Orders.Order(Orders.Draft, [], Calculations.Totals(0, 0, 0, 0), 3, 1)

  const PLACED := DRAFTED.(status := Orders.Confirmed, version := 3)

  const DROPPED := DRAFTED.(status := Orders.Cancelled, version := 4)

  lemma Sums()
    ensures Calculations.CalculateOrder([LINE]) == Calculations.Totals(100, 0, 0, 100)
    ensures Calculations.CalculateOrder([]) == Calculations.Totals(0, 0, 0, 0)
  {
    var none: seq<Calculations.Line> := [];
    assert [LINE][..0] == none;
    assert Calculations.SumGross(none) == Calculations.SumDiscount(none) == Calculations.SumSurcharge(none) == 0;
    Calculations.StoredAmountsAreFixed(100);
    Calculations.StoredAmountsAreFixed(0);
    assert Calculations.AsMoney(100) - Calculations.AsMoney(0) + Calculations.AsMoney(0) == Calculations.AsMoney(100);
  }

  lemma Passes()
    ensures Orders.AddRefused(BOSS, UNIT, Orders.FREE_TEXT, true) == None
  {
    Calculations.UnitLine();
  }

  lemma OneLineEdited()
    ensures Orders.Edited(Orders.NewOrder, DRAFTED.items) == DRAFTED.(nextItem := 0)
  {
    Sums();
    assert Orders.Lines(DRAFTED.items) == [LINE];
  }

  lemma AddsPriced(amounts: Orders.Amounts)
    requires Calculations.CalculateLine(amounts.quantity, amounts.unitPrice, amounts.discount, amounts.surcharge) ==
             Ok(LINE)
    requires amounts.reason == ""
    requires Orders.AddRefused(BOSS, amounts, Orders.FREE_TEXT, true) == None
    ensures Orders.ApplyAdd(Orders.NewOrder, BOSS, 1, amounts, Orders.FREE_TEXT, true) == Ok(DRAFTED)
  {
    OneLineEdited();
    assert Orders.NewOrder.items + [Orders.Item(0, Orders.LastPosition(Orders.NewOrder.items) + 1, LINE, "")] ==
           DRAFTED.items;
  }

  lemma Adds()
    ensures Orders.Apply(Orders.NewOrder, ADD) == Ok(DRAFTED)
  {
    Passes();
    Calculations.UnitLine();
    AddsPriced(UNIT);
  }

  lemma Removes()
    ensures Orders.Apply(DRAFTED, REMOVE) == Ok(EMPTIED)
  {
    Sums();
    assert Orders.Lines([]) == [];
  }

  lemma Confirms()
    ensures Orders.Apply(DRAFTED, CONFIRM) == Ok(PLACED)
  {
    Sums();
    assert Orders.Lines(DRAFTED.items) == [LINE];
    assert Orders.CatalogProblem(Orders.ChoiceOf(map[], 0)) == None;
  }

  lemma Cancels()
    ensures Orders.Apply(PLACED, CANCEL) == Ok(DROPPED)
  {
  }
}

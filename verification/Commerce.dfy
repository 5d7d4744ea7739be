// The order, its fulfillment batches and its payment as one system: every
// service call is an atomic event, in any interleaving, with any arguments.
module Commerce {
  import opened Common
  import Calculations
  import Orders
  import Fulfillment
  import opened Payments
  import opened PaymentSafety
  import opened PaymentGuards
  import opened PaymentAttention
  import opened PaymentLease

  datatype System = System(order: Orders.Order, depot: Fulfillment.Depot, ledger: Ledger)

  datatype Event =
    | OnOrder(command: Orders.Command)
    | OnBatches(request: Fulfillment.Command)
    | OnPayment(step: Step)

  const Start := System(Orders.NewOrder, Fulfillment.NewDepot, NewLedger)

  function React(s: System, e: Event): System {
    match e
    case OnOrder(command) =>
      var r := Orders.Apply(s.order, command);
      if r.Ok? then s.(order := r.value) else s
    case OnBatches(command) => s.(depot := Fulfillment.Next(s.order, s.depot, command))
    case OnPayment(step) => s.(ledger := Next(s.order, s.ledger, step))
  }

  function Run(es: seq<Event>): System {
    if es == [] then Start else React(Run(es[..|es| - 1]), es[|es| - 1])
  }

  // The state after the first k events.
  function At(es: seq<Event>, k: nat): System
    requires k <= |es|
  {
    Run(es[..k])
  }

  // --- the invariant of the whole ---

  ghost predicate Inv(s: System) {
    && Orders.WellFormed(s.order)
    && Fulfillment.Inv(s.order, s.depot)
    && PaymentGuards.Inv(s.ledger)
    && (s.ledger.intent.Some? ==>
          s.order.status != Orders.Draft && s.ledger.intent.value.amount == s.order.totals.total)
  }

  lemma StartInv()
    ensures Inv(Start)
  {
    Orders.NewOrderIsWellFormed();
    NewLedgerInv();
  }

  lemma OrderReactKeepsInv(s: System, command: Orders.Command)
    requires Inv(s)
    ensures Inv(React(s, OnOrder(command)))
  {
    if Orders.Apply(s.order, command).Ok? {
      Orders.ApplyKeepsWellFormed(s.order, command);
      Fulfillment.OrderStepKeepsInv(s.order, s.depot, command);
      if s.order.status != Orders.Draft {
        Orders.FrozenOnceConfirmed(s.order, command);
      }
    }
  }

  // The amount is taken from the order once and never touched again.
  lemma StepKeepsAmount(order: Orders.Order, ledger: Ledger, step: Step)
    requires PaymentGuards.Inv(ledger)
    ensures var after := Next(order, ledger, step);
            && (ledger.intent.Some? ==> after.intent.Some? && IntentAdvances(ledger.intent.value, after.intent.value))
            && (ledger.intent.None? && after.intent.Some? ==>
                  order.status == Orders.Confirmed && after.intent.value.amount == order.totals.total)
  {
    if Body(order, ledger, step).Ok? {
      StepKeepsIntentSound(order, ledger, step);
      if ledger.intent.None? {
        IntentAppears(order, ledger, step);
      }
    }
  }

  lemma IntentAppears(order: Orders.Order, ledger: Ledger, step: Step)
    requires ledger.intent.None? && Body(order, ledger, step).Ok?
    ensures var after := Body(order, ledger, step).value;
            after.intent.Some? ==>
              step.CreateIntent? && order.status == Orders.Confirmed && after.intent.value.amount == order.totals.total
  {
  }

  lemma ReactKeepsInv(s: System, e: Event)
    requires Inv(s)
    ensures Inv(React(s, e))
  {
    match e
    case OnOrder(command) =>
      OrderReactKeepsInv(s, command);
    case OnBatches(command) =>
      Fulfillment.CommandKeepsInv(s.order, s.depot, command);
    case OnPayment(step) =>
      StepKeepsInv(s.order, s.ledger, step);
      StepKeepsAmount(s.order, s.ledger, step);
  }

  lemma {:induction false} RunInv(es: seq<Event>)
    ensures Inv(Run(es))
  {
    if es == [] {
      StartInv();
    } else {
      RunInv(es[..|es| - 1]);
      ReactKeepsInv(Run(es[..|es| - 1]), es[|es| - 1]);
    }
  }

  // --- conservation ---

  // In every run the quantities that live batches hold of an item never exceed
  // what the order asks of it, and an item the order does not have is in none.
  lemma AllocationsConserved(es: seq<Event>, item: nat)
    ensures var s := Run(es);
            && 0 <= Fulfillment.Allocated(s.depot.batches, item) <= Fulfillment.OrderedQuantity(s.order, item)
            && (Orders.IndexOf(s.order.items, item).None? ==> Fulfillment.Allocated(s.depot.batches, item) == 0)
  {
    RunInv(es);
    AllocatedIsNonNegative(Run(es).depot.batches, item);
  }

  lemma {:induction false} AllocatedIsNonNegative(batches: seq<Fulfillment.Batch>, item: nat)
    requires forall b :: 0 <= b < |batches| ==> Fulfillment.SoundRows(batches[b].allocations)
    ensures 0 <= Fulfillment.Allocated(batches, item)
  {
    if batches != [] {
      var k := |batches| - 1;
      AllocatedIsNonNegative(batches[..k], item);
      var rows := if batches[k].status == Fulfillment.Cancelled then [] else batches[k].allocations;
      Fulfillment.QuantityInConcat(Fulfillment.LiveRows(batches[..k], None), rows, item);
      Fulfillment.QuantityInSoundRows(batches[k].allocations, item);
    }
  }

  // --- a paid intent is backed by exact evidence ---

  // The event hands the ledger an authenticated resource of one of its
  // attempts, mapped to paid, in the intent's currency, for the intent's amount.
  ghost predicate Backs(s: System, e: Event) {
    && e.OnPayment?
    && Evidence(e.step)
    && s.ledger.intent.Some?
    && Focus(s.ledger, e.step) < |s.ledger.attempts|
    && var attempt := s.ledger.attempts[Focus(s.ledger, e.step)];
    && attempt.externalId == e.step.resource.id
    && attempt.account in s.ledger.accounts
    && MapProviderStatus(s.ledger.accounts[attempt.account].provider, e.step.resource.status) ==
       Some(MoveTo(IntentStatus.Paid))
    && Exact(s.ledger.intent.value, e.step.resource)
    && (e.step.ApplyCancellation? ==> s.order.status != Orders.Cancelled)
  }

  ghost predicate IsPaid(ledger: Ledger) {
    ledger.intent.Some? && ledger.intent.value.status == IntentStatus.Paid
  }

  lemma OnlyExactEvidencePays(
    ledger: Ledger, a: nat, resource: Resource, command: CommandId, source: Source,
    order: Option<Orders.OrderStatus>, now: int)
    requires ledger.intent.Some? && a < |ledger.attempts| && !IsPaid(ledger)
    requires ApplyResource(ledger, a, resource, command, source, order, now).Ok?
    requires IsPaid(ApplyResource(ledger, a, resource, command, source, order, now).value)
    ensures ledger.attempts[a].account in ledger.accounts
    ensures MapProviderStatus(ledger.accounts[ledger.attempts[a].account].provider, resource.status) ==
            Some(MoveTo(IntentStatus.Paid))
    ensures Exact(ledger.intent.value, resource)
    ensures order != Some(Orders.Cancelled)
  {
  }

  lemma OnlyEvidencePays(order: Orders.Order, ledger: Ledger, step: Step)
    requires !IsPaid(ledger) && Body(order, ledger, step).Ok? && IsPaid(Body(order, ledger, step).value)
    ensures Evidence(step)
  {
  }

  lemma CallbackPays(s: System, step: Step)
    requires step.Callback? && Inv(s) && !IsPaid(s.ledger)
    requires Body(s.order, s.ledger, step).Ok? && IsPaid(Body(s.order, s.ledger, step).value)
    ensures Backs(s, OnPayment(step))
  {
    var a := AttemptFor(s.ledger.attempts, step.account, step.resource.id).value;
    OnlyExactEvidencePays(
      s.ledger, a, step.resource, CallbackRequest(step.account, step.resource.id, step.request), FromCallback, None,
        step.now);
  }

  lemma ReconciliationPays(s: System, step: Step)
    requires step.Reconcile? && Inv(s) && !IsPaid(s.ledger)
    requires Body(s.order, s.ledger, step).Ok? && IsPaid(Body(s.order, s.ledger, step).value)
    ensures Backs(s, OnPayment(step))
  {
    var a := AttemptWithId(s.ledger.attempts, step.resource.id).value;
    OnlyExactEvidencePays(s.ledger, a, step.resource, Client(step.key), FromReconciliation, None, step.now);
  }

  lemma CancellationPays(s: System, step: Step)
    requires step.ApplyCancellation? && Inv(s) && !IsPaid(s.ledger)
    requires Body(s.order, s.ledger, step).Ok? && IsPaid(Body(s.order, s.ledger, step).value)
    ensures Backs(s, OnPayment(step))
  {
    OnlyExactEvidencePays(
      s.ledger, step.attempt, step.resource, OutboxEvent(step.event), FromCancellationWorker, Some(s.order.status),
        step.now);
  }

  lemma BecomingPaidIsBacked(s: System, e: Event)
    requires Inv(s) && !IsPaid(s.ledger) && IsPaid(React(s, e).ledger)
    ensures Backs(s, e)
  {
    var step := e.step;
    OnlyEvidencePays(s.order, s.ledger, step);
    if step.Callback? {
      CallbackPays(s, step);
    } else if step.Reconcile? {
      ReconciliationPays(s, step);
    } else {
      CancellationPays(s, step);
    }
  }

  // Event k made the intent paid by exact evidence and it stayed paid since.
  ghost predicate PaidSince(es: seq<Event>, k: nat) {
    && k < |es|
    && Backs(At(es, k), es[k])
    && forall m :: k < m <= |es| ==> IsPaid(At(es, m).ledger)
  }

  lemma PaidSinceExtends(es: seq<Event>, n: nat, k: nat)
    requires |es| == n + 1 && PaidSince(es[..n], k) && IsPaid(Run(es).ledger)
    ensures PaidSince(es, k)
  {
    var front := es[..n];
    assert es[..n + 1] == es;
    forall m | 0 <= m <= n ensures At(front, m) == At(es, m) {
      assert front[..m] == es[..m];
    }
  }

  lemma PaidSinceNow(es: seq<Event>, n: nat)
    requires |es| == n + 1 && Backs(At(es, n), es[n]) && IsPaid(Run(es).ledger)
    ensures PaidSince(es, n)
  {
    assert es[..n + 1] == es;
  }

  lemma LastEventBacks(es: seq<Event>, n: nat)
    requires |es| == n + 1 && IsPaid(Run(es).ledger) && !IsPaid(At(es, n).ledger)
    ensures Backs(At(es, n), es[n])
  {
    RunInv(es[..n]);
    BecomingPaidIsBacked(At(es, n), es[n]);
  }

  lemma {:induction false} PaidIsBacked(es: seq<Event>)
    requires IsPaid(Run(es).ledger)
    ensures exists k: nat :: PaidSince(es, k)
  {
    var n := |es| - 1;
    if !IsPaid(At(es, n).ledger) {
      LastEventBacks(es, n);
      PaidSinceNow(es, n);
    } else {
      PaidIsBacked(es[..n]);
      var k: nat :| PaidSince(es[..n], k);
      PaidSinceExtends(es, n, k);
    }
  }

  // What a paid intent was paid for: its amount is the order's total, which is
  // the sum of the order's lines, each rounded once.
  lemma PaidAmountIsTheLines(es: seq<Event>)
    requires IsPaid(Run(es).ledger)
    ensures var s := Run(es);
            var lines := Orders.Lines(s.order.items);
            && s.ledger.intent.value.amount == s.order.totals.total == Calculations.SumTotal(lines)
            && s.order.totals.total == Calculations.SumGross(lines) - Calculations.SumDiscount(lines)
               + Calculations.SumSurcharge(lines)
            && 0 < s.ledger.intent.value.amount
            && -500 * |lines| <= 1000 * Calculations.SumGross(lines) - Calculations.SumExact(lines) <= 500 * |lines|
  {
    RunInv(es);
    Orders.OrderMoney(Run(es).order);
  }

  // --- what never changes once it is there ---

  ghost predicate Final(status: AttemptStatus) {
    status == AttemptStatus.Paid || status == Failed || status == AttemptStatus.Expired
  }

  // From s to t: outcomes and identifiers stand, the amount stands, and a
  // closed order stands line by line.
  ghost predicate Preserves(s: System, t: System) {
    && |s.ledger.attempts| <= |t.ledger.attempts|
    && (forall i :: 0 <= i < |s.ledger.attempts| ==>
          var b, c := s.ledger.attempts[i], t.ledger.attempts[i];
          && c.account == b.account
          && (Final(b.status) ==> c.status == b.status)
          && (b.status.Cancelled? && b.externalId != "" ==> c.status == b.status)
          && (b.externalId != "" ==> c.externalId == b.externalId && c.hostedUrl == b.hostedUrl))
    && (s.ledger.intent.Some? ==>
          t.ledger.intent.Some?
          && t.ledger.intent.value.amount == s.ledger.intent.value.amount
          && s.ledger.intent.value.version <= t.ledger.intent.value.version)
    && (s.order.status != Orders.Draft ==>
          t.order.items == s.order.items && t.order.totals == s.order.totals && t.order.status != Orders.Draft)
    && (s.order.status == Orders.Cancelled ==> t.order == s.order)
  }

  lemma StepPreservesAttempts(order: Orders.Order, ledger: Ledger, step: Step)
    requires PaymentGuards.Inv(ledger)
    ensures var after := Next(order, ledger, step);
            && |ledger.attempts| <= |after.attempts|
            && forall i :: 0 <= i < |ledger.attempts| ==>
                 after.attempts[i] == ledger.attempts[i]
                 || Moves(ledger.attempts[i], after.attempts[i], ActivatesAt(step, i), LateAt(ledger, step, i))
  {
    if Body(order, ledger, step).Ok? {
      OnlyTheFocusMoves(order, ledger, step);
      if Focus(ledger, step) < |ledger.attempts| {
        FocusMoves(order, ledger, step);
      }
    }
  }

  lemma ReactPreserves(s: System, e: Event)
    requires Inv(s)
    ensures Preserves(s, React(s, e))
  {
    match e
    case OnOrder(command) =>
      if Orders.Apply(s.order, command).Ok? && s.order.status != Orders.Draft {
        Orders.FrozenOnceConfirmed(s.order, command);
      }
    case OnBatches(_) =>
    case OnPayment(step) =>
      StepPreservesAttempts(s.order, s.ledger, step);
      StepKeepsAmount(s.order, s.ledger, step);
  }

  lemma PreservesTransitive(s: System, t: System, u: System)
    requires Preserves(s, t) && Preserves(t, u)
    ensures Preserves(s, u)
  {
  }

  // In every run, from any point of it to any later one.
  lemma {:induction false} RunPreserves(es: seq<Event>, k: nat)
    requires k <= |es|
    ensures Preserves(At(es, k), Run(es))
  {
    assert es[..|es|] == es;
    if k < |es| {
      var front := es[..|es| - 1];
      assert front[..k] == es[..k];
      RunPreserves(front, k);
      RunInv(front);
      ReactPreserves(Run(front), es[|es| - 1]);
      PreservesTransitive(At(es, k), Run(front), Run(es));
    }
  }

  // --- the audit trail ---

  // The history of every run starts from nothing, is connected, and ends where
  // the intent is; at most one attempt is open; what the intent carries is
  // what its status calls for.
  lemma AuditTrail(es: seq<Event>)
    ensures var ledger := Run(es).ledger;
            && Walk(ledger.history, ledger.intent)
            && HistoryUnique(ledger.history)
            && OneOpen(ledger.attempts)
            && (ledger.intent.Some? ==> IntentRowValid(ledger.intent.value))
  {
    RunInv(es);
  }

  // --- a cancelled order ---

  // Batches and attempts may end, but none is added, and the lines stand.
  lemma {:induction false} CancelledOrderIsFrozen(es: seq<Event>, k: nat)
    requires k <= |es| && At(es, k).order.status == Orders.Cancelled
    ensures var s, t := At(es, k), Run(es);
            && t.order == s.order
            && |t.ledger.attempts| == |s.ledger.attempts|
            && (s.ledger.intent.None? ==> t.ledger.intent.None?)
            && |t.depot.batches| == |s.depot.batches|
            && forall b :: 0 <= b < |s.depot.batches| ==>
                 t.depot.batches[b] == s.depot.batches[b]
                 || (!Fulfillment.Ended(s.depot.batches[b].status)
                     && t.depot.batches[b] == Fulfillment.SystemCancelled(s.depot.batches[b]))
  {
    assert es[..|es|] == es;
    if k < |es| {
      var front, e := es[..|es| - 1], es[|es| - 1];
      assert front[..k] == es[..k];
      CancelledOrderIsFrozen(front, k);
      RunInv(front);
      var s := Run(front);
      match e
      case OnOrder(command) =>
        if Orders.Apply(s.order, command).Ok? {
          Orders.FrozenOnceConfirmed(s.order, command);
        }
      case OnBatches(command) =>
        Fulfillment.FrozenOnceOrderCancelled(s.order, s.depot, command);
      case OnPayment(step) =>
        NoAttemptForCancelledOrder(s.order, s.ledger, step);
    }
  }

  lemma NoAttemptForCancelledOrder(order: Orders.Order, ledger: Ledger, step: Step)
    requires order.status != Orders.Confirmed
    ensures |Next(order, ledger, step).attempts| == |ledger.attempts|
    ensures ledger.intent.None? ==> Next(order, ledger, step).intent.None?
  {
    if Body(order, ledger, step).Ok? {
      OnlyTheFocusMoves(order, ledger, step);
      if ledger.intent.None? {
        IntentAppears(order, ledger, step);
      }
    }
  }

  ghost predicate Withdrawn(ledger: Ledger) {
    && ledger.intent.Some?
    && var status := ledger.intent.value.status;
    status == IntentStatus.Cancelled || status == IntentStatus.Expired || status == RequiresAttention
  }

  // Consuming the order's cancellation withdraws the intent.
  lemma ConsumptionWithdraws(order: Orders.Order, ledger: Ledger, event: nat, now: int)
    requires Execute(order, ledger, ConsumeOrderCancelled(event, now)).Ok?
    ensures Withdrawn(Execute(order, ledger, ConsumeOrderCancelled(event, now)).value)
  {
  }

  // While the order is cancelled, only evidence fetched by reconciliation or by
  // the cancellation worker takes a withdrawn intent back.
  lemma WithdrawnStays(order: Orders.Order, ledger: Ledger, step: Step)
    requires order.status == Orders.Cancelled && Withdrawn(ledger) && PaymentGuards.Inv(ledger)
    requires !step.Reconcile? && !step.ApplyCancellation?
    ensures Withdrawn(Next(order, ledger, step))
  {
    if Body(order, ledger, step).Ok? {
      if step.Callback? {
        CallbackKeepsWithdrawn(order, ledger, step);
      } else if step.ClaimCheckout? || step.ReleaseLease? || step.Activate? {
        DispatchKeepsWithdrawn(order, ledger, step);
      } else {
        CommandKeepsWithdrawn(order, ledger, step);
      }
    }
  }

  lemma CallbackKeepsWithdrawn(order: Orders.Order, ledger: Ledger, step: Step)
    requires Withdrawn(ledger) && step.Callback? && Body(order, ledger, step).Ok?
    ensures Withdrawn(Body(order, ledger, step).value)
  {
  }

  lemma DispatchKeepsWithdrawn(order: Orders.Order, ledger: Ledger, step: Step)
    requires order.status == Orders.Cancelled && Withdrawn(ledger)
    requires step.ClaimCheckout? || step.ReleaseLease? || step.Activate?
    requires Body(order, ledger, step).Ok?
    ensures Withdrawn(Body(order, ledger, step).value)
  {
  }

  lemma CommandKeepsWithdrawn(order: Orders.Order, ledger: Ledger, step: Step)
    requires order.status == Orders.Cancelled && Withdrawn(ledger)
    requires !Evidence(step) && !step.ClaimCheckout? && !step.ReleaseLease? && !step.Activate?
    requires Body(order, ledger, step).Ok?
    ensures Withdrawn(Body(order, ledger, step).value)
  {
  }

  // --- money that was taken ---

  // Event k is a payment step that ends the watch over money already taken.
  ghost predicate WatchEndsAt(es: seq<Event>, k: nat) {
    && k < |es|
    && MoneyTaken(At(es, k).ledger)
    && es[k].OnPayment?
    && Execute(At(es, k).order, At(es, k).ledger, es[k].step).Ok?
    && EndsWatch(At(es, k).order, At(es, k).ledger, es[k].step)
  }

  lemma WatchEndsLater(es: seq<Event>, n: nat, k: nat)
    requires n <= |es| && WatchEndsAt(es[..n], k)
    ensures WatchEndsAt(es, k)
  {
    assert es[..n][..k] == es[..k];
  }

  // The event after which taken money is no longer watched ended the watch.
  lemma EventEndsWatch(s: System, e: Event)
    requires Inv(s) && (!MoneyTaken(s.ledger) || Watched(s.ledger))
    requires MoneyTaken(React(s, e).ledger) && !Watched(React(s, e).ledger)
    ensures MoneyTaken(s.ledger) && e.OnPayment? && Execute(s.order, s.ledger, e.step).Ok?
    ensures EndsWatch(s.order, s.ledger, e.step)
  {
    if e.OnPayment? && Execute(s.order, s.ledger, e.step).Ok? {
      if MoneyTaken(s.ledger) {
        WatchEndsExactly(s.order, s.ledger, e.step);
      } else {
        TakenMoneyIsWatched(s.order, s.ledger, e.step);
      }
    }
  }

  lemma WatchEndedNow(es: seq<Event>, n: nat)
    requires |es| == n + 1 && MoneyTaken(Run(es).ledger) && !Watched(Run(es).ledger)
    requires !MoneyTaken(At(es, n).ledger) || Watched(At(es, n).ledger)
    ensures WatchEndsAt(es, n)
  {
    RunInv(es[..n]);
    EventEndsWatch(At(es, n), es[n]);
  }

  // In every run, money that was taken is watched, by a PAID intent or by one
  // that asks for attention, unless one of the listed steps ended the watch.
  lemma {:induction false} UnwatchedMoneyWasLetGo(es: seq<Event>)
    requires MoneyTaken(Run(es).ledger) && !Watched(Run(es).ledger)
    ensures exists k: nat :: WatchEndsAt(es, k)
  {
    assert es != [];
    var n := |es| - 1;
    if MoneyTaken(At(es, n).ledger) && !Watched(At(es, n).ledger) {
      UnwatchedMoneyWasLetGo(es[..n]);
      var k: nat :| WatchEndsAt(es[..n], k);
      WatchEndsLater(es, n, k);
    } else {
      WatchEndedNow(es, n);
    }
  }

  // --- leases ---

  ghost predicate Leases(s: System, i: nat, token: nat, expires: int) {
    && i < |s.ledger.attempts|
    && s.ledger.attempts[i].leaseToken == Some(token)
    && s.ledger.attempts[i].leaseExpires == Some(expires)
  }

  // Some event from k on, before m, ends the lease: its holder finishes or
  // releases, or another claim is made after it expired.
  ghost predicate LeaseEndsIn(es: seq<Event>, k: nat, m: nat, i: nat, token: nat, expires: int) {
    exists j :: k <= j < m <= |es| && es[j].OnPayment? && EndsLease(es[j].step, i, token, expires)
  }

  lemma LeaseThroughEvent(s: System, e: Event, i: nat, token: nat, expires: int)
    requires Inv(s) && Leases(s, i, token, expires)
    ensures Leases(React(s, e), i, token, expires) || (e.OnPayment? && EndsLease(e.step, i, token, expires))
  {
    if e.OnPayment? && Execute(s.order, s.ledger, e.step).Ok? {
      LeaseEndsOnlyByItsHolderOrExpiry(s.order, s.ledger, e.step, i);
    }
  }

  lemma LeaseThroughRun(es: seq<Event>, j: nat, i: nat, token: nat, expires: int)
    requires j < |es| && Leases(At(es, j), i, token, expires)
    ensures Leases(At(es, j + 1), i, token, expires) || LeaseEndsIn(es, j, j + 1, i, token, expires)
  {
    assert es[..j + 1][..j] == es[..j];
    RunInv(es[..j]);
    LeaseThroughEvent(At(es, j), es[j], i, token, expires);
    if es[j].OnPayment? && EndsLease(es[j].step, i, token, expires) {
      assert LeaseEndsIn(es, j, j + 1, i, token, expires);
    }
  }

  lemma LeaseEndsWider(es: seq<Event>, k: nat, l: nat, m: nat, n: nat, i: nat, token: nat, expires: int)
    requires k <= l <= m <= n <= |es| && LeaseEndsIn(es, l, m, i, token, expires)
    ensures LeaseEndsIn(es, k, n, i, token, expires)
  {
  }

  // From any point of a run at which a token is on an attempt to any later one,
  // the token is still there or some event in between ended its lease.
  lemma {:induction false} LeaseStandsUntilEnded(es: seq<Event>, k: nat, m: nat, i: nat, token: nat, expires: int)
    requires k <= m <= |es| && Leases(At(es, k), i, token, expires)
    ensures Leases(At(es, m), i, token, expires) || LeaseEndsIn(es, k, m, i, token, expires)
    decreases m
  {
    if k < m {
      LeaseStandsUntilEnded(es, k, m - 1, i, token, expires);
      if LeaseEndsIn(es, k, m - 1, i, token, expires) {
        LeaseEndsWider(es, k, k, m - 1, m, i, token, expires);
      } else {
        LeaseThroughRun(es, m - 1, i, token, expires);
        if LeaseEndsIn(es, m - 1, m, i, token, expires) {
          LeaseEndsWider(es, k, m - 1, m, m, i, token, expires);
        }
      }
    }
  }
}

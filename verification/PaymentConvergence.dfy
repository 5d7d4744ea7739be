// How often provider callbacks can move an intent, whatever their order,
// repetition or content.
module PaymentConvergence {
  import opened Common
  import opened Payments
  import opened PaymentSafety
  import opened PaymentGuards
  import Orders

  datatype Notice = Notice(account: nat, resource: Resource, request: string, now: int)

  // Callbacks do not look at the order.
  function Receive(ledger: Ledger, notice: Notice): Ledger {
    Next(Orders.NewOrder, ledger, Callback(notice.account, notice.resource, notice.request, notice.now))
  }

  function ReceiveAll(ledger: Ledger, notices: seq<Notice>): Ledger
    decreases |notices|
  {
    if notices == [] then ledger else ReceiveAll(Receive(ledger, notices[0]), notices[1..])
  }

  // How many of the notices change the intent.
  function Changes(ledger: Ledger, notices: seq<Notice>): nat
    decreases |notices|
  {
    if notices == [] then 0
    else
      var after := Receive(ledger, notices[0]);
      (if after.intent != ledger.intent then 1 else 0) + Changes(after, notices[1..])
  }

  // Callbacks can reach the attempt.
  predicate Speaks(ledger: Ledger, i: nat) {
    && i < |ledger.attempts|
    && ledger.attempts[i].externalId != ""
    && AccountActive(ledger.accounts, ledger.attempts[i].account)
    && ledger.accounts[ledger.attempts[i].account].callbacks
    && ledger.accounts[ledger.attempts[i].account].provider == MercadoPago
  }

  predicate Undecided(status: IntentStatus) {
    status == Pending || status == AwaitingPayment || status == IntentStatus.Processing
  }

  predicate OpenSpeaks(ledger: Ledger) {
    exists j :: 0 <= j < |ledger.attempts| && Speaks(ledger, j) && Open(ledger.attempts[j].status)
  }

  predicate FailedSpeaks(ledger: Ledger) {
    exists i :: 0 <= i < |ledger.attempts| && Speaks(ledger, i) && ledger.attempts[i].status == Failed
  }

  // An older failed attempt and a newer open one can be heard by turns.
  predicate CanCycle(ledger: Ledger) {
    && ledger.intent.Some?
    && Undecided(ledger.intent.value.status)
    && OpenSpeaks(ledger)
    && FailedSpeaks(ledger)
  }

  function Rank(ledger: Ledger): (rank: nat)
    ensures rank <= 5
  {
    if ledger.intent.None? || ledger.intent.value.status == RequiresAttention then 0
    else if Settled(ledger.intent.value.status) then 1
    else if OpenSpeaks(ledger) then
      (if ledger.intent.value.status == Pending then 5
       else if ledger.intent.value.status == AwaitingPayment then 4
       else 3)
    else if ledger.intent.value.status == Pending then 2
    else 3
  }

  ghost predicate SameVoices(b: Ledger, c: Ledger) {
    && c.accounts == b.accounts
    && |c.attempts| == |b.attempts|
    && forall i :: 0 <= i < |b.attempts| ==>
         c.attempts[i].account == b.attempts[i].account && c.attempts[i].externalId == b.attempts[i].externalId
  }

  // The shape of an effective callback: which attempt it spoke for, what was
  // concluded, and that everything else stood.
  lemma EffectiveNotice(ledger: Ledger, notice: Notice) returns (a: nat, target: Target, reason: Option<Reason>)
    requires Inv(ledger) && Receive(ledger, notice).intent != ledger.intent
    ensures ledger.intent.Some? && Speaks(ledger, a)
    ensures var intent, attempt, after := ledger.intent.value, ledger.attempts[a], Receive(ledger, notice);
            && Judge(intent, attempt, MercadoPago, notice.resource, FromCallback, None) == Shift(target, reason)
            && after.intent.Some?
            && after.intent.value.status == (if target == FailAttempt then Pending else target.status)
            && SameVoices(ledger, after)
            && after.attempts[a].status == ShiftAttempt(attempt.status, target, reason)
            && (forall i :: 0 <= i < |ledger.attempts| && i != a ==>
                after.attempts[i].status == ledger.attempts[i].status)
  {
    a := AttemptFor(ledger.attempts, notice.account, notice.resource.id).value;
    var verdict := Judge(ledger.intent.value, ledger.attempts[a], MercadoPago, notice.resource, FromCallback, None);
    target, reason := verdict.target, verdict.reason;
  }

  // What evidence can conclude from each state of the attempt and the intent.
  lemma ConclusionsByState(intent: Intent, attempt: Attempt, resource: Resource, target: Target, reason: Option<Reason>)
    requires Judge(intent, attempt, MercadoPago, resource, FromCallback, None) == Shift(target, reason)
    ensures intent.status != RequiresAttention
    ensures Settled(intent.status) ==> target == MoveTo(RequiresAttention)
    ensures target == FailAttempt ==> Open(attempt.status) || (attempt.status == Failed && intent.status != Pending)
    ensures target == MoveTo(AwaitingPayment) ==> Open(attempt.status) && intent.status == Pending
    ensures target == MoveTo(IntentStatus.Processing) ==>
              Open(attempt.status) && (intent.status == Pending || intent.status == AwaitingPayment)
    ensures target != MoveTo(Pending)
  {
    EvidenceKeepsOutcome(intent, attempt, MercadoPago, resource, FromCallback, None);
  }

  lemma VoicesAfter(b: Ledger, c: Ledger, i: nat)
    requires SameVoices(b, c)
    ensures Speaks(c, i) <==> Speaks(b, i)
  {
  }

  // Unless the intent can cycle, every change lowers the rank, and no change
  // makes cycling possible.
  lemma ChangeLowersRank(ledger: Ledger, notice: Notice)
    requires Inv(ledger) && !CanCycle(ledger)
    requires Receive(ledger, notice).intent != ledger.intent
    ensures Rank(Receive(ledger, notice)) < Rank(ledger)
    ensures !CanCycle(Receive(ledger, notice))
  {
    var after := Receive(ledger, notice);
    var a, target, reason := EffectiveNotice(ledger, notice);
    var intent, attempt := ledger.intent.value, ledger.attempts[a];
    ConclusionsByState(intent, attempt, notice.resource, target, reason);
    forall i | 0 <= i < |ledger.attempts|
      ensures Speaks(after, i) <==> Speaks(ledger, i)
    {
      VoicesAfter(ledger, after, i);
    }
    EvidenceKeepsOutcome(intent, attempt, MercadoPago, notice.resource, FromCallback, None);
    if Undecided(after.intent.value.status) {
      if target == FailAttempt {
        NoOpenAfterFailure(ledger, after, a);
      } else {
        assert OpenSpeaks(ledger);
        assert Open(after.attempts[a].status);
        assert !FailedSpeaks(after);
      }
    }
  }

  // A failure leaves nothing open to be heard: either the attempt that failed
  // was the open one, or, cycling being impossible, there was none.
  lemma NoOpenAfterFailure(ledger: Ledger, after: Ledger, a: nat)
    requires OneOpen(ledger.attempts) && !CanCycle(ledger) && SameVoices(ledger, after) && Speaks(ledger, a)
    requires ledger.intent.Some? && Undecided(ledger.intent.value.status)
    requires after.attempts[a].status == Failed
    requires Open(ledger.attempts[a].status) || ledger.attempts[a].status == Failed
    requires forall i :: 0 <= i < |ledger.attempts| && i != a ==> after.attempts[i].status == ledger.attempts[i].status
    ensures !OpenSpeaks(after)
  {
    forall j | 0 <= j < |after.attempts|
      ensures !(Speaks(after, j) && Open(after.attempts[j].status))
    {
      VoicesAfter(ledger, after, j);
      if Open(ledger.attempts[a].status) && j != a {
        assert !(Open(ledger.attempts[Min(a, j)].status) && Open(ledger.attempts[Max(a, j)].status));
      }
    }
  }

  lemma UnchangedIntentKeepsRank(ledger: Ledger, notice: Notice)
    requires Inv(ledger) && Receive(ledger, notice).intent == ledger.intent
    ensures Rank(Receive(ledger, notice)) == Rank(ledger)
    ensures CanCycle(Receive(ledger, notice)) <==> CanCycle(ledger)
  {
    var after := Receive(ledger, notice);
    assert after.attempts == ledger.attempts && after.accounts == ledger.accounts;
    assert forall i :: 0 <= i < |ledger.attempts| ==> Speaks(after, i) == Speaks(ledger, i);
  }

  lemma {:induction false} ChangesBounded(ledger: Ledger, notices: seq<Notice>)
    requires Inv(ledger) && !CanCycle(ledger)
    ensures Changes(ledger, notices) <= Rank(ledger)
    decreases |notices|
  {
    if notices != [] {
      var notice := notices[0];
      StepKeepsInv(Orders.NewOrder, ledger, Callback(notice.account, notice.resource, notice.request, notice.now));
      if Receive(ledger, notice).intent != ledger.intent {
        ChangeLowersRank(ledger, notice);
      } else {
        UnchangedIntentKeepsRank(ledger, notice);
      }
      ChangesBounded(Receive(ledger, notice), notices[1..]);
    }
  }

  // --- the intent of a single activated attempt ---

  // Where callbacks can lead from a fresh activation, with the changes left.
  function SoleRank(intent: IntentStatus, attempt: AttemptStatus): Option<nat> {
    if intent == RequiresAttention then Some(0)
    else if Settled(intent) then (if TerminalTarget(attempt) == Some(MoveTo(intent)) then Some(1) else None)
    else if intent == Pending then (if attempt == Failed then Some(1) else None)
    else if intent == IntentStatus.Processing then (if attempt == AttemptStatus.Processing then Some(2) else None)
    else (if attempt == Active then Some(3) else None)
  }

  ghost predicate Sole(ledger: Ledger) {
    && ledger.intent.Some?
    && |ledger.attempts| == 1
    && SoleRank(ledger.intent.value.status, ledger.attempts[0].status).Some?
  }

  lemma SoleChangeLowersRank(ledger: Ledger, notice: Notice)
    requires Inv(ledger) && Sole(ledger) && Receive(ledger, notice).intent != ledger.intent
    ensures var after := Receive(ledger, notice);
            && Sole(after)
            && SoleRank(after.intent.value.status, after.attempts[0].status).value
               < SoleRank(ledger.intent.value.status, ledger.attempts[0].status).value
  {
    var a, target, reason := EffectiveNotice(ledger, notice);
    ConclusionsByState(ledger.intent.value, ledger.attempts[a], notice.resource, target, reason);
  }

  lemma {:induction false} SoleChangesBounded(ledger: Ledger, notices: seq<Notice>)
    requires Inv(ledger) && Sole(ledger)
    ensures Changes(ledger, notices) <= SoleRank(ledger.intent.value.status, ledger.attempts[0].status).value
    decreases |notices|
  {
    if notices != [] {
      var notice := notices[0];
      StepKeepsInv(Orders.NewOrder, ledger, Callback(notice.account, notice.resource, notice.request, notice.now));
      if Receive(ledger, notice).intent != ledger.intent {
        SoleChangeLowersRank(ledger, notice);
      } else {
        UnchangedIntentKeepsRank(ledger, notice);
        assert Receive(ledger, notice).attempts == ledger.attempts;
      }
      SoleChangesBounded(Receive(ledger, notice), notices[1..]);
    }
  }

  // From the moment its only attempt is activated, callbacks change an intent
  // at most three times.
  lemma ThreeChangesAfterActivation(
    order: Orders.Order, ledger: Ledger, checkout: Checkout, lease: Option<nat>, event: nat, notices: seq<Notice>)
    requires Inv(ledger) && |ledger.attempts| == 1
    requires Execute(order, ledger, Activate(0, checkout, lease, event)).Ok?
    ensures Changes(Execute(order, ledger, Activate(0, checkout, lease, event)).value, notices) <= 3
  {
    var after := Execute(order, ledger, Activate(0, checkout, lease, event)).value;
    StepKeepsInv(order, ledger, Activate(0, checkout, lease, event));
    assert Sole(after);
    SoleChangesBounded(after, notices);
  }

  // --- what a callback may do to a decided intent ---

  lemma CallbackOnDecidedIntent(ledger: Ledger, notice: Notice)
    requires Inv(ledger) && ledger.intent.Some? && !Undecided(ledger.intent.value.status)
    ensures var after := Receive(ledger, notice).intent;
            || after == ledger.intent
            || (Settled(ledger.intent.value.status) && after.Some? && after.value.status == RequiresAttention)
  {
    if Receive(ledger, notice).intent != ledger.intent {
      var a, target, reason := EffectiveNotice(ledger, notice);
      ConclusionsByState(ledger.intent.value, ledger.attempts[a], notice.resource, target, reason);
    }
  }

  // --- without the condition there is no bound ---

  ghost function Unused(receipts: set<(nat, string, string)>): (length: nat)
    ensures forall r :: r in receipts ==> |r.2| < length
  {
    if receipts == {} then 0
    else
      var r :| r in receipts;
      var rest := Unused(receipts - {r});
      if rest <= |r.2| then |r.2| + 1 else rest
  }

  // A notice under a request never seen before, reporting a status in full.
  ghost function Report(ledger: Ledger, a: nat, status: string): Notice
    requires ledger.intent.Some? && a < |ledger.attempts|
  {
    var intent, attempt := ledger.intent.value, ledger.attempts[a];
    Notice(attempt.account, Resource(attempt.externalId, status, intent.amount, intent.currency),
           seq(Unused(ledger.callbackReceipts), i => 'x'), 0)
  }

  lemma SpeakerIsFound(ledger: Ledger, a: nat)
    requires Inv(ledger) && Speaks(ledger, a)
    ensures AttemptFor(ledger.attempts, ledger.attempts[a].account, ledger.attempts[a].externalId) == Some(a)
  {
  }

  lemma ReportIsHeard(ledger: Ledger, a: nat, status: string)
    requires Inv(ledger) && ledger.intent.Some? && Speaks(ledger, a)
    requires MapProviderStatus(MercadoPago, status).Some?
    ensures var notice := Report(ledger, a, status);
            var step := Callback(notice.account, notice.resource, notice.request, notice.now);
            var command := CallbackRequest(notice.account, notice.resource.id, notice.request);
            var told := ApplyResource(ledger, a, notice.resource, command, FromCallback, None, 0);
            && told.Ok?
            && Execute(Orders.NewOrder, ledger, step).Ok?
            && Receive(ledger, notice).intent == told.value.intent
            && Receive(ledger, notice).attempts == told.value.attempts
            && Receive(ledger, notice).accounts == ledger.accounts
  {
    var notice := Report(ledger, a, status);
    var step := Callback(notice.account, notice.resource, notice.request, notice.now);
    SpeakerIsFound(ledger, a);
    assert (notice.account, notice.resource.id, notice.request) !in ledger.callbackReceipts;
    StepKeepsIntentSound(Orders.NewOrder, ledger, step);
    OneOpenFiresExactly(Orders.NewOrder, ledger, step);
    IdsFireExactly(Orders.NewOrder, ledger, step);
    KeysFireExactly(Orders.NewOrder, ledger, step);
    RowsFireExactly(Orders.NewOrder, ledger, step);
    HistoryNeverRefusesACallback(Orders.NewOrder, ledger, step);
  }

  lemma RepeatedFailureSendsBack(intent: Intent, attempt: Attempt, resource: Resource)
    requires attempt.status == Failed && (intent.status == AwaitingPayment || intent.status == IntentStatus.Processing)
    requires Exact(intent, resource) && resource.status == "rejected"
    ensures Judge(intent, attempt, MercadoPago, resource, FromCallback, None) == Shift(FailAttempt, None)
  {
  }

  lemma OpenAttemptReopensPending(intent: Intent, attempt: Attempt, resource: Resource)
    requires Open(attempt.status) && intent.status == Pending
    requires Exact(intent, resource) && resource.status == "pending"
    ensures Judge(intent, attempt, MercadoPago, resource, FromCallback, None) == Shift(MoveTo(AwaitingPayment), None)
  {
  }

  lemma HeardReportMoves(ledger: Ledger, a: nat, status: string, target: Target)
    requires Inv(ledger) && ledger.intent.Some? && Speaks(ledger, a)
    requires MapProviderStatus(MercadoPago, status).Some?
    requires Judge(ledger.intent.value, ledger.attempts[a], MercadoPago, Report(ledger, a, status).resource,
                   FromCallback, None)
             == Shift(target, None)
    ensures var after := Receive(ledger, Report(ledger, a, status));
            && after.intent.Some?
            && after.intent.value.status == (if target == FailAttempt then Pending else target.status)
            && after.intent != ledger.intent
            && SameVoices(ledger, after)
            && after.attempts[a].status == ShiftAttempt(ledger.attempts[a].status, target, None)
            && forall i :: 0 <= i < |ledger.attempts| && i != a ==> after.attempts[i] == ledger.attempts[i]
  {
    ReportIsHeard(ledger, a, status);
  }

  // While the intent can cycle there is always a callback that changes it and
  // leaves it able to cycle: the open attempt reopens a pending intent, and the
  // failed one sends it back.
  lemma CycleContinues(ledger: Ledger) returns (notice: Notice)
    requires Inv(ledger) && CanCycle(ledger)
    ensures Receive(ledger, notice).intent != ledger.intent
    ensures CanCycle(Receive(ledger, notice))
  {
    var i: nat :| i < |ledger.attempts| && Speaks(ledger, i) && ledger.attempts[i].status == Failed;
    var j: nat :| j < |ledger.attempts| && Speaks(ledger, j) && Open(ledger.attempts[j].status);
    if ledger.intent.value.status == Pending {
      notice := Report(ledger, j, "pending");
      OpenAttemptReopensPending(ledger.intent.value, ledger.attempts[j], notice.resource);
      HeardReportMoves(ledger, j, "pending", MoveTo(AwaitingPayment));
    } else {
      notice := Report(ledger, i, "rejected");
      RepeatedFailureSendsBack(ledger.intent.value, ledger.attempts[i], notice.resource);
      HeardReportMoves(ledger, i, "rejected", FailAttempt);
    }
    CycleKept(ledger, Receive(ledger, notice), i, j);
  }

  lemma CycleKept(ledger: Ledger, after: Ledger, i: nat, j: nat)
    requires SameVoices(ledger, after) && Speaks(ledger, i) && Speaks(ledger, j)
    requires after.intent.Some? && Undecided(after.intent.value.status)
    requires after.attempts[i].status == Failed && Open(after.attempts[j].status)
    ensures CanCycle(after)
  {
    VoicesAfter(ledger, after, i);
    VoicesAfter(ledger, after, j);
  }

  lemma {:induction false} CyclesForever(ledger: Ledger, n: nat) returns (notices: seq<Notice>)
    requires Inv(ledger) && CanCycle(ledger)
    ensures |notices| == n && Changes(ledger, notices) == n
    decreases n
  {
    if n == 0 {
      notices := [];
    } else {
      var notice := CycleContinues(ledger);
      StepKeepsInv(Orders.NewOrder, ledger, Callback(notice.account, notice.resource, notice.request, notice.now));
      var rest := CyclesForever(Receive(ledger, notice), n - 1);
      notices := [notice] + rest;
      assert notices[0] == notice && notices[1..] == rest;
    }
  }

  // Callbacks settle after boundedly many changes, five at most, exactly when
  // no failed attempt can be heard beside an open one on an undecided intent.
  lemma CallbacksSettleExactly(ledger: Ledger)
    requires Inv(ledger)
    ensures (forall notices :: Changes(ledger, notices) <= 5) <==> !CanCycle(ledger)
  {
    if CanCycle(ledger) {
      var notices := CyclesForever(ledger, 6);
      assert Changes(ledger, notices) == 6;
    } else {
      forall notices ensures Changes(ledger, notices) <= 5 {
        ChangesBounded(ledger, notices);
      }
    }
  }
}

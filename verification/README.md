# Commerce, messaging and integrations: a verified model

This project models the state machines that carry the money, goods and messages of
the system and proves what they keep. `dafny verify dfyconfig.toml` checks all of it.

Every service function is one transaction, so it is one atomic step. Each is written
twice. A function over values says what the step does: its own checks and writes,
then the database constraints, which roll the whole step back. A class holds the
rows as fields and changes them assignment by assignment, as the program does; each
of its methods is proved to leave exactly what the function says, or to raise the
error it names and leave every field as it was. Work that spans several transactions
with provider calls in between is a protocol: workers are phases, and a run is any
interleaving of their events with everybody else's. The `Commands` and `Evidence`
modules state on the rows and words themselves exactly when each step is accepted
and everything it leaves behind.

| files | what they model |
|---|---|
| `Calculations`, `Orders`, `OrderCommands` | half-up money, lines and totals; draft editing, confirmation, cancellation |
| `Fulfillment`, `FulfillmentCommands` | batches that share out the quantities of an order |
| `Payments`, `PaymentDesk` | one intent, its attempts, leases, callbacks, reconciliation and cancellation |
| `PaymentSafety`, `PaymentGuards`, `PaymentLease`, `PaymentConvergence`, `PaymentAttention` | what payment steps keep, which constraint can reject which step, who may speak for an attempt, how far callbacks can move an intent, and how taken money stops being watched |
| `PaymentEvidence`, `PaymentCommands` | what a provider's word does to a payment, and exactly when each payment command commits |
| `Commerce` | order, batches and payment run together |
| `OrderSample`, `PaymentWitnesses` | runs of the joint system that reach the corners |
| `Messaging`, `MessageRow`, `MessageDesk`, `MessageDispatch` | one message, its consent records, and the dispatch protocol over any number of workers |
| `MessageCommands`, `MessageProgress`, `SharedConsent` | exactly when each messaging step commits, what each turn of a worker achieves, and all messages to one contact over their shared consent |
| `Integrations`, `IntegrationRuns`, `IntegrationCommands` | one delivery with bounded retry, and every interleaving over it |
| `Customers`, `CustomerMerges`, `CustomerCommands`, `CustomerDesk` | contacts, addresses, merging, the canonical customer |
| `Receipts`, `Retries`, `ConsentRetries` | the idempotency protocol around commands, over the joint system and over consent decisions |

Amounts are integers in cents and quantities integers in thousandths; unrounded input
is `real`. Times are integers supplied to each step and need not increase, so nothing
rests on clocks. Lease tokens are fresh naturals. A digest is modelled by what it
digests. Command ids of different origin are kept apart.

## What the code does that its documents do not say

Each of these is proved, with the exact condition where there is one.

- Callbacks need not settle. Repeated failure reports for an older failed attempt and
  pending reports for a newer open one move the intent back and forth without bound;
  this is the only such case (`PaymentConvergence.CallbacksSettleExactly`).
- Money that was taken can stop being watched. Exactly four kinds of step take an intent
  out of PAID and attention (`PaymentAttention.WatchEndsExactly`); in particular the
  cancellation of an order can cancel the intent over a paid attempt without an alarm
  (`PaymentAttention.ConsumptionExactly`, `PaymentWitnesses.PaidCanBeCancelledSilently`,
  `PaymentWitnesses.PendingCanBeCancelledSilently`).
- A cancellation worker logs every change under the id of its outbox event, so after one
  change it can never record another (`PaymentWitnesses.CancellationAnswerCommitsExactly`,
  `PaymentWitnesses.CancellationIsLost`).
- A repeated request is not answered from its receipt but by looking again for its row, so
  a replay can raise: when the line was removed meanwhile (`Retries.ReplayAnsweredExactly`),
  or when the opposite consent was decided (`ConsentRetries.ReplayedDecisionExactly`).
- A message released because effects were disabled is meant to be tried again, but the
  command id of the second authorisation repeats and the step aborts
  (`MessageDispatch.ReleasedSendIsNeverRetried`).
- `reconcile_uncertain` can never pass its guard, because a message becomes uncertain only
  while it has no provider identifier (`MessageRow.UncertainCannotBeReconciled`).
- A delivery confirmed by reconciliation can be sent again when a worker that lost its
  lease reports a transient failure (`IntegrationRuns.AnotherAttemptExactly`), and a
  connection somebody disabled is degraded and reactivated by late results exactly from
  the third failure in a row on (`Integrations.DisabledConnectionComesBack`).
- A merge can leave the surviving customer without a primary contact
  (`CustomerMerges.PrimarySurvivesExactly`).

## Model

| member | source | states |
|---|---|---|
| `Calculations.HalfUp` | apps/orders/calculations.py:8-9 | the rounded amount is within half a unit of the value, and a tie goes away from zero |
| `Calculations.HalfUpIsTheNearest` | apps/orders/calculations.py:8-13 | those conditions leave exactly one integer, so half-up rounding is determined by them |
| `Calculations.QuantizingIsIdempotent` | apps/orders/calculations.py:8-13 | quantizing a quantized amount, money or quantity, changes nothing |
| `Calculations.StoredAmountsAreFixed` | apps/orders/calculations.py:8-13 | an amount already stored in cents or thousandths is a fixed point of its quantization |
| `Calculations.CalculatedLineIsSound` | apps/orders/calculations.py:26-45 | every accepted line has positive quantity, non-negative amounts, a discount not above gross, a gross within half a cent of quantity times price, and a non-negative total that adds up |
| `Calculations.GrossIsNearest` | apps/orders/calculations.py:36-36 | the line gross is the exact product rounded once: it differs from quantity times price by at most half a cent |
| `Calculations.RecalculatingAStoredLine` | apps/orders/calculations.py:26-45 | feeding a stored line its own amounts returns the same line |
| `Calculations.OrderTotalsAreExact` | apps/orders/calculations.py:48-57 | for any list of sound lines the total equals subtotal minus discount plus surcharge without rounding, equals the sum of the line totals, is not negative, and the subtotal is within half a cent per line of the unrounded sum |
| `Orders.ApplyKeepsWellFormed` | apps/orders/services.py:277-487 | every accepted command keeps each line sound, item ids and positions distinct, and the stored totals equal to the recalculated ones |
| `Orders.ApplyKeepsTotals` | apps/orders/services.py:164-168 | after any accepted command the stored totals are those of the stored lines |
| `Orders.OrderMoney` | apps/orders/services.py:164-168 | in a well-formed order the total is the exact sum of the line totals, is non-negative, and is within half a cent per line of the unrounded sum |
| `Orders.FrozenOnceConfirmed` | apps/orders/services.py:104-106 | once an order is not a draft, no accepted command changes its lines or totals, and the only one accepted is the cancellation of a confirmed order |
| `Orders.EmptyUpdateChangesNoAmount` | apps/orders/services.py:369-450 | an update that submits no field leaves all amounts of the order as stored |
| `Orders.OrderDesk.Update` | apps/orders/services.py:369-450 | updating an item recalculates its line from the stored amounts and the submitted changes, or refuses without effect |
| `Orders.OrderDesk.Remove` | apps/orders/services.py:454-487 | removing an item deletes exactly that row, recomputes the totals and raises the version, or refuses without effect |
| `Orders.OrderDesk.CancelOrder` | apps/orders/services.py:575-620 | cancellation needs a reason, the current version and an allowed transition, and changes only status and version |
| `Orders.OrderDesk.NextPosition` | apps/orders/services.py:336-336 | the next position is one above the largest in use, whatever order the rows are in |
| `Fulfillment.CanonicalIsSound` | apps/fulfillment/services.py:122-133 | an accepted allocation list names distinct items with positive rounded quantities |
| `Fulfillment.CheckIsExact` | apps/fulfillment/services.py:136-161 | rows pass the allocation check if and only if, together with the other live batches, no item is allocated beyond its ordered quantity |
| `Fulfillment.CreateConserves` | apps/fulfillment/services.py:226-296 | a batch is created only when every item stays within its quantity over all live batches |
| `Fulfillment.ReplaceConserves` | apps/fulfillment/services.py:299-365 | replacing the allocations of a batch, its own old rows excluded from the check, keeps every item within its quantity |
| `Fulfillment.StatusChangeConserves` | apps/fulfillment/services.py:368-430 | moving a batch along or cancelling it never raises what is allocated of any item |
| `Fulfillment.CommandKeepsInv` | apps/fulfillment/services.py:226-531 | conservation, sound rows, numbered batches and ended receipts survive every command |
| `Fulfillment.OrderStepKeepsInv` | apps/orders/services.py:104-106 | conservation survives every order command beneath the batches, because only drafts can be edited and a draft has no batch |
| `Fulfillment.ConsumptionDrains` | apps/fulfillment/services.py:493-531 | consuming the cancellation of an order leaves no live batch, leaves ended batches untouched field by field and allocates nothing |
| `Fulfillment.DrainEffect` | apps/fulfillment/services.py:506-517 | visiting the batches one by one cancels exactly those that had not ended |
| `Fulfillment.FrozenOnceOrderCancelled` | apps/fulfillment/services.py:87-111 | once the order is cancelled no batch is added, edited or moved along; a batch can only be cancelled |
| `Fulfillment.LifecycleAdvances` | apps/fulfillment/transitions.py:4-28 | a batch only ever advances to a later stage, pickups are never in transit, and ended batches never change |
| `Fulfillment.FulfillmentDesk.CheckRows` | apps/fulfillment/services.py:136-161 | accumulating the allocated quantities in a dictionary gives the same verdict as summing all live rows |
| `Fulfillment.FulfillmentDesk.Create` | apps/fulfillment/services.py:226-296 | creating a batch answers as the specification, refusals in order and without effect |
| `Fulfillment.FulfillmentDesk.Replace` | apps/fulfillment/services.py:299-365 | replacing allocations deletes the old rows and stores the checked new ones, or refuses without effect |
| `Fulfillment.FulfillmentDesk.Transition` | apps/fulfillment/services.py:368-430 | a transition moves status and version when allowed, or refuses without effect |
| `Fulfillment.FulfillmentDesk.CancelFromOrderEvent` | apps/fulfillment/services.py:433-490 | cancelling one batch for an order event is idempotent by its receipt and leaves ended batches alone |
| `Fulfillment.FulfillmentDesk.Consume` | apps/fulfillment/services.py:493-531 | the consumer loop drains every batch of the cancelled order and returns exactly the number it cancelled |
| `Payments.OpenAttempt` | apps/payments/services.py:267-274 | the open attempt found is open, and none is found only when no attempt is open |
| `Payments.MapProviderStatus` | apps/payments/providers.py:48-71 | no provider word maps to PENDING |
| `PaymentSafety.EvidenceKeepsOutcome` | apps/payments/services.py:632-640 | evidence for a paid, failed, cancelled or expired attempt either repeats its outcome or raises attention: the attempt keeps its status |
| `PaymentSafety.OnlyTheFocusMoves` | apps/payments/services.py:206-1200 | a step changes no attempt other than the one it addresses, and appends at most one |
| `PaymentSafety.FocusMoves` | apps/payments/services.py:490-612 | what one step may do to an attempt: outcomes are final, CANCELLED leaves only through a late result, an external id and its link are written once |
| `PaymentSafety.StepKeepsIntentSound` | apps/payments/models.py:147-168 | every step leaves an intent whose amount and currency are unchanged, whose version does not fall and rises with the status, and whose timestamps and attention code fit its status |
| `PaymentGuards.OneOpenFiresExactly` | apps/payments/models.py:241-245 | the one-open-attempt constraint rejects a step exactly when a late result would reopen a closed attempt beside an open one |
| `PaymentGuards.IdsFireExactly` | apps/payments/models.py:236-240 | the external-id constraint rejects exactly an activation under an id the account already has |
| `PaymentGuards.KeysFireExactly` | apps/payments/models.py:231-235 | the idempotency-key constraint rejects exactly a checkout requested under a used key |
| `PaymentGuards.RowsFireExactly` | apps/payments/models.py:252-272 | the row constraints of an attempt reject exactly evidence that would activate an attempt without an external id |
| `PaymentGuards.HistoryFiresExactly` | apps/payments/models.py:318-318 | the history constraint rejects exactly a second entry under a command id already used |
| `PaymentGuards.HistoryNeverRefusesACallback` | apps/payments/services.py:705-720 | callbacks never meet the history constraint: the replay receipt is always there first |
| `PaymentGuards.CommitsExactly` | apps/payments/models.py:229-272 | a step whose own checks pass commits if and only if none of six listed objections of the database stands |
| `PaymentGuards.StepKeepsInv` | apps/payments/services.py:206-1200 | all constraints, the connected history, fresh distinct lease tokens and linked ids survive every step, whatever the order it finds |
| `PaymentLease.NoLocalCloseUnderLease` | apps/payments/services.py:880-904 | neither the cancel command nor the order cancellation closes a requested attempt whose request may be in flight |
| `PaymentLease.ActivationAcceptedExactly` | apps/payments/services.py:460-553 | a provider result is recorded if and only if it is usable, the attempt still awaits one under that lease or under none, and no unique constraint stands against it |
| `PaymentLease.HolderIsRecorded` | apps/payments/services.py:490-548 | the token holder of a requested or locally cancelled attempt gets its result recorded unless a constraint stands against it, and the intent asks for attention exactly when order, intent or account changed |
| `PaymentConvergence.ChangesBounded` | apps/payments/services.py:58-80 | unless an older failed attempt can be heard beside an open one, any sequence of callbacks changes the intent at most as often as its rank, five |
| `PaymentConvergence.ThreeChangesAfterActivation` | apps/payments/services.py:556-670 | once its only attempt is activated, callbacks in any order and number change an intent at most three times |
| `PaymentConvergence.CallbackOnDecidedIntent` | apps/payments/services.py:641-656 | a callback leaves a PAID, CANCELLED or EXPIRED intent alone or raises attention, and never leaves attention |
| `PaymentConvergence.CallbacksSettleExactly` | apps/payments/services.py:657-660 | callbacks settle within five changes if and only if no failed attempt can be heard beside an open one on an undecided intent |
| `PaymentConvergence.CyclesForever` | apps/payments/services.py:657-660 | otherwise there is, for every n, a sequence of n callbacks each of which changes the intent |
| `PaymentService.PaymentDesk.OpenIntent` | apps/payments/services.py:206-245 | creating an intent: the step-by-step assignments leave exactly the specified ledger, or raise the specified error and roll every field back |
| `PaymentService.PaymentDesk.AskForCheckout` | apps/payments/services.py:248-301 | requesting a checkout: the step-by-step assignments leave exactly the specified ledger, or raise the specified error and roll every field back |
| `PaymentService.PaymentDesk.Claim` | apps/payments/services.py:304-381 | claiming a requested checkout, closing it when its context became ineligible: the step-by-step assignments leave exactly the specified ledger, or raise the specified error and roll every field back |
| `PaymentService.PaymentDesk.Release` | apps/payments/services.py:384-412 | releasing a lease with its back-off: the step-by-step assignments leave exactly the specified ledger, or raise the specified error and roll every field back |
| `PaymentService.PaymentDesk.RecordCheckout` | apps/payments/services.py:460-553 | recording the provider result, a rejected attempt row being a domain error: the step-by-step assignments leave exactly the specified ledger, or raise the specified error and roll every field back |
| `PaymentService.PaymentDesk.Hear` | apps/payments/services.py:673-760 | receiving a callback, replays answered from the receipt: the step-by-step assignments leave exactly the specified ledger, or raise the specified error and roll every field back |
| `PaymentService.PaymentDesk.ReconcileResource` | apps/payments/services.py:763-824 | reconciling a fetched resource: the step-by-step assignments leave exactly the specified ledger, or raise the specified error and roll every field back |
| `PaymentService.PaymentDesk.AskForCancellation` | apps/payments/services.py:857-909 | requesting a cancellation, local when nothing is in flight: the step-by-step assignments leave exactly the specified ledger, or raise the specified error and roll every field back |
| `PaymentService.PaymentDesk.ClaimForCancellation` | apps/payments/services.py:912-948 | claiming a cancellation: the step-by-step assignments leave exactly the specified ledger, or raise the specified error and roll every field back |
| `PaymentService.PaymentDesk.CloseCancellationEvent` | apps/payments/services.py:951-975 | completing the event of an attempt that already ended: the step-by-step assignments leave exactly the specified ledger, or raise the specified error and roll every field back |
| `PaymentService.PaymentDesk.RecordCancellation` | apps/payments/services.py:978-1041 | recording the provider answer to a cancellation: the step-by-step assignments leave exactly the specified ledger, or raise the specified error and roll every field back |
| `PaymentService.PaymentDesk.ReopenPayment` | apps/payments/services.py:1076-1127 | reopening after a verified closure: the step-by-step assignments leave exactly the specified ledger, or raise the specified error and roll every field back |
| `PaymentService.PaymentDesk.Consume` | apps/payments/services.py:1130-1200 | consuming the order cancellation: the step-by-step assignments leave exactly the specified ledger, or raise the specified error and roll every field back |
| `PaymentService.PaymentDesk.Decide` | apps/payments/services.py:615-660 | overwriting target and reason check by check reaches the verdict the specification gives, whatever the order in which objections apply |
| `PaymentService.PaymentDesk.CanonicalTransition` | apps/payments/services.py:556-612 | intent, attempt and history move together, stamped for the new status |
| `Commerce.AllocationsConserved` | apps/fulfillment/services.py:136-161 | in every run of order, batches and payment the live allocations of an item stay between zero and its ordered quantity |
| `Commerce.PaidIsBacked` | apps/payments/services.py:615-670 | in every run a paid intent was made paid by an authenticated resource of its own attempt mapped to paid, in its currency and for exactly its amount, and stayed paid since |
| `Commerce.PaidAmountIsTheLines` | apps/payments/services.py:219-236 | the amount of a paid intent is positive and equals the order total, which is the sum of the lines, gross minus discount plus surcharge |
| `Commerce.RunPreserves` | apps/payments/services.py:490-640 | from any point of a run to any later one: attempt outcomes and external ids stand, the amount stands, and a closed order stands line by line |
| `Commerce.AuditTrail` | apps/payments/services.py:179-189 | in every run the payment history starts from nothing, is connected, ends in the current status, repeats no command id, and the intent row fits its status |
| `Commerce.CancelledOrderIsFrozen` | apps/payments/services.py:219-268 | from the moment an order is cancelled no attempt, batch or line is added, and a batch can only be cancelled by the system |
| `Commerce.ConsumptionWithdraws` | apps/payments/services.py:1151-1189 | consuming the cancellation leaves the intent CANCELLED, EXPIRED or in attention |
| `Commerce.WithdrawnStays` | apps/payments/services.py:641-645 | while the order is cancelled only reconciliation or the cancellation worker takes a withdrawn intent back |
| `Commerce.RunInv` | apps/payments/services.py:206-1200 | the joint invariant of order, batches and payment holds in every run |
| `Messaging.InForce` | apps/messaging/services.py:293-303 | the preference found is active, no active one is effective later, and none recorded later is effective as late; none is found only when none is active |
| `Messaging.MapDeliveryStatus` | apps/messaging/providers.py:236-271 | every known provider word maps to sent, delivered or failed |
| `MessageRow.AtMostOneInForce` | apps/messaging/services.py:1839-1856 | after any sequence of recorded decisions exactly one preference is in force, the last one |
| `MessageRow.CreatedRowIsSound` | apps/messaging/services.py:354-435 | a created message is pending with one requested attempt and cites the allowed preference then in force |
| `MessageRow.StepKeepsRow` | apps/messaging/services.py:595-1358 | message and attempt status move in lockstep, a lease token is present exactly when queued or sending, the history ends where the message is, every logged callback has its receipt, and at most one preference is in force, after every transaction |
| `MessageRow.OneEntryPerChange` | apps/messaging/services.py:131-141 | a transaction leaves message and history alone or appends exactly one entry ending in the new status; only a claim of an already queued message misstates where it started |
| `MessageRow.FinalIsAbsorbing` | apps/messaging/services.py:1160-1169 | no transaction changes a delivered, failed or cancelled message, its attempt or its history |
| `MessageRow.AuthorisedExactly` | apps/messaging/services.py:855-921 | a send is authorised if and only if the caller holds the lease of a queued message, the source, its customer and version, the destination, the cited consent, the template, channel and rendering are all as when it was created, and no send of it was ever authorised before |
| `MessageRow.AuthorisedOnConsentInForce` | apps/messaging/services.py:776-803 | at authorisation the cited preference is the only one in force, allowed and effective |
| `MessageRow.WithdrawnConsentNeverReturns` | apps/messaging/services.py:1290-1308 | once the cited preference is inactive it stays so and no authorisation succeeds, even after a new allowed record |
| `MessageRow.UncertainCannotBeReconciled` | apps/messaging/services.py:1361-1380 | in every reachable state reconcile_uncertain is refused: an uncertain message never has a provider identifier |
| `MessageRow.SecondReleaseAborts` | apps/messaging/services.py:720-735 | a second release of the same attempt is rejected by the history constraint, its command id being fixed |
| `MessageDispatch.AtMostOneSend` | apps/messaging/services.py:1053-1109 | for every interleaving of workers that crash, stall, are superseded or race with other commands, at most one send reaches the provider; pending, queued and cancelled mean none did, sent and delivered mean exactly one did |
| `MessageDispatch.OutcomeIsFinal` | apps/messaging/services.py:1160-1202 | in every run, once delivered, failed or cancelled, message, attempt, history and number of sends never change |
| `MessageDispatch.CancelledIsNeverSent` | apps/messaging/services.py:1311-1358 | a cancelled message was not sent, and no worker is or becomes authorised to send it |
| `MessageDispatch.SendWasAuthorised` | apps/messaging/services.py:855-921 | every send is preceded by an authorisation by the same worker when source, destination, consent and form were all as at creation |
| `MessageDispatch.NothingSentAfterwards` | apps/messaging/services.py:782-824 | once the consent was withdrawn, or a send began and nobody is about to finish it, no run sends the message |
| `MessageDispatch.ReleasedSendIsNeverRetried` | apps/messaging/services.py:1092-1098 | a message released after ProviderEffectsDisabled goes back to pending but no later run ever sends it |
| `MessageDispatch.RunInv` | apps/messaging/services.py:595-1358 | tokens are distinct, one worker at most is live, and the message status tells how often the provider was called, in every run |
| `MessageService.MessageDesk.ClaimDispatch` | apps/messaging/services.py:595-687 | claiming: a lost send becomes uncertain, otherwise a fresh lease: the in-place writes leave exactly the specified rows, or raise the specified error and roll back |
| `MessageService.MessageDesk.ReleaseDispatch` | apps/messaging/services.py:690-735 | releasing with back-off: the in-place writes leave exactly the specified rows, or raise the specified error and roll back |
| `MessageService.MessageDesk.PrepareSend` | apps/messaging/services.py:855-921 | authorising: statuses move first and are rolled back when revalidation refuses: the in-place writes leave exactly the specified rows, or raise the specified error and roll back |
| `MessageService.MessageDesk.AcceptSend` | apps/messaging/services.py:952-1003 | recording an acceptance, a taken identifier being a domain error: the in-place writes leave exactly the specified rows, or raise the specified error and roll back |
| `MessageService.MessageDesk.RecordUncertain` | apps/messaging/services.py:1006-1050 | marking uncertain: the in-place writes leave exactly the specified rows, or raise the specified error and roll back |
| `MessageService.MessageDesk.RecordFailure` | apps/messaging/services.py:1112-1157 | marking failed: the in-place writes leave exactly the specified rows, or raise the specified error and roll back |
| `MessageService.MessageDesk.CancelMessage` | apps/messaging/services.py:1311-1358 | cancelling: the in-place writes leave exactly the specified rows, or raise the specified error and roll back |
| `MessageService.MessageDesk.HearDelivery` | apps/messaging/services.py:1205-1287 | applying delivery evidence, hard feedback suppressing the contact: the in-place writes leave exactly the specified rows, or raise the specified error and roll back |
| `MessageService.MessageDesk.ReconcileUncertain` | apps/messaging/services.py:1361-1434 | reconciling: the in-place writes leave exactly the specified rows, or raise the specified error and roll back |
| `MessageService.MessageDesk.RecordDecision` | apps/messaging/services.py:1792-1858 | recording a preference decision: the in-place writes leave exactly the specified rows, or raise the specified error and roll back |
| `MessageService.MessageDesk.CanonicalEvidence` | apps/messaging/services.py:1160-1202 | evidence moves message, attempt and history together unless the outcome is final or already known |
| `MessageService.MessageDesk.DispatchMessage` | apps/messaging/services.py:1053-1109 | one dispatch with all its exception handlers is exactly the run of the protocol in which one worker is not interrupted |
| `Integrations.DeliveryDesk.ClaimDelivery` | apps/integrations/services.py:130-159 | a claim creates the next numbered attempt exactly when the delivery is due, under three attempts and its connection active, and otherwise changes nothing |
| `Integrations.DeliveryDesk.FinishAttempt` | apps/integrations/services.py:180-225 | recording an answer updates attempt, delivery and connection as specified, without asking for the lease |
| `Integrations.DeliveryDesk.Dispatch` | apps/integrations/services.py:162-177 | an uninterrupted dispatch sends exactly when the delivery is claimable and records its own answer |
| `IntegrationRuns.SendsAreBoundedAndApart` | apps/integrations/services.py:130-225 | over all interleavings sends never overlap, there are at most three, attempts are numbered 1..n, and at most one attempt is active |
| `IntegrationRuns.AnotherAttemptExactly` | apps/integrations/services.py:130-225 | in a reachable state another attempt can follow if and only if the delivery is due for a retry, or fewer than three attempts exist and a worker at work may still report a transient failure |
| `IntegrationRuns.PermanentlyFailedIsNeverClaimed` | apps/integrations/services.py:137-140 | a delivery failed without a next attempt time is never attempted again |
| `IntegrationRuns.ConfirmedDeliverySentAgain` | apps/integrations/services.py:196-212 | a delivery reported SUCCEEDED by reconciliation can be attempted again through a late transient failure |
| `IntegrationRuns.RunInv` | apps/integrations/services.py:105-309 | the invariant behind these bounds holds in every run |
| `CustomerMerges.AddKeepsContactsValid` | apps/customers/services.py:177-195 | adding a contact keeps active values unique and one active primary per kind |
| `CustomerMerges.AddKeepsAddressesValid` | apps/customers/services.py:215-250 | adding an address keeps one shipping and one billing default per customer |
| `CustomerMerges.MergeKeepsContactsValid` | apps/customers/services.py:334-352 | a merge keeps active values unique and one active primary per customer and kind |
| `CustomerMerges.MergeUnitesContacts` | apps/customers/services.py:334-352 | after a merge the target holds exactly the union of both value sets, the source nothing, everybody else what they held |
| `CustomerMerges.MergeConservesContacts` | apps/customers/services.py:334-352 | every active contact of the source is moved or deactivated, and the two counters add up to their number |
| `CustomerMerges.PrimarySurvivesExactly` | apps/customers/services.py:335-349 | the target has a primary of a kind after the merge if and only if it had one or the source had one that was not a duplicate |
| `CustomerMerges.PrimaryCanBeLost` | apps/customers/services.py:335-345 | a concrete merge after which neither customer has a primary although the source had one |
| `CustomerMerges.MergeKeepsAddressesValid` | apps/customers/services.py:354-369 | a merge keeps one shipping and one billing default per customer |
| `CustomerMerges.MergeConservesAddresses` | apps/customers/services.py:354-369 | every active address of the source becomes the target's, and a default of either leaves the target with one |
| `CustomerMerges.LinksAreAcyclic` | apps/customers/services.py:331-332 | after any commands no chain of merged_into links returns to its start |
| `CustomerMerges.MergeRedirectsOneClass` | apps/customers/services.py:372-373 | a merge makes the target the root of exactly those customers whose root was the source; every root is unmerged and in the same organization |
| `CustomerMerges.RunInv` | apps/customers/services.py:310-398 | after any commands all uniqueness rules hold, the links form an ordered forest, and active rows belong to unmerged customers |
| `CustomerService.CustomerDesk.Register` | apps/customers/services.py:177-212 | adding a contact demotes the old primary only for a new value, or refuses without effect |
| `CustomerService.CustomerDesk.MergeContactRows` | apps/customers/services.py:334-352 | the contact loop, whatever order the rows come in, ends in the specified rows and counters, and no save on the way breaks a unique index |
| `CustomerService.CustomerDesk.MergeAddressRows` | apps/customers/services.py:354-369 | the address loop, whatever order the rows come in, ends in the specified rows and counter, and no save on the way breaks a unique index |
| `CustomerService.CustomerDesk.MergeCustomers` | apps/customers/services.py:310-398 | a merge answers as the specification, refusals without effect |
| `CustomerService.CustomerDesk.ResolveCanonical` | apps/customers/selectors.py:35-49 | the walk terminates at the recorded root, unmerged and in the organization, and its seen guard never ends it |
| `Receipts.StripTwice` | apps/payments/idempotency.py:16-16 | stripping a stored key changes nothing, so it finds itself |
| `Receipts.ReceiptsAreKept` | apps/orders/idempotency.py:15-63 | a receipt is written once and never changes |
| `Receipts.OtherPayloadIsRefused` | apps/messaging/idempotency.py:49-53 | the same key with another payload is refused for ever, without effect |
| `Receipts.CommandDesk.ClaimCommand` | apps/payments/idempotency.py:15-46 | a claim that loses the insert race answers as if the winner's receipt had been there from the start |
| `Receipts.CommandDesk.Perform` | apps/payments/idempotency.py:15-61 | checks, claim, body and completion together commit as specified, and a body that raises leaves no receipt |
| `Orders.OrderDesk.Add` | apps/orders/services.py:278-365 | adding an item answers as the specification in every case: permission, line, surcharge, catalog and name refusals in their order and without effect, otherwise the item is appended after the last position, totals recomputed and the version raised |
| `Orders.OrderDesk.ConfirmOrder` | apps/orders/services.py:491-571 | confirmation refuses foreign catalog rows first, then the customer, an empty order and the first line that is off sale or mismatched; otherwise it confirms with recalculated totals |
| `Fulfillment.AcceptedAllocationsAreSound` | apps/fulfillment/services.py:122-133 | an accepted list has distinct items in ascending order and positive quantities |
| `Fulfillment.FulfillmentDesk.Canonicalize` | apps/fulfillment/services.py:122-133 | the loop with its seen set refuses exactly the lists the specification refuses and otherwise returns the rounded rows sorted by item |
| `PaymentLease.LeaseEndsOnlyByItsHolderOrExpiry` | apps/payments/services.py:304-412 | a step leaves a lease token and its expiry on the attempt, or is its holder finishing or releasing, or another claim after expiry |
| `PaymentAttention.ConsumptionExactly` | apps/payments/services.py:1151-1189 | wherever the consumption of an order cancellation commits, the intent ends CANCELLED, in attention or EXPIRED exactly under the stated conditions; it is cancelled, with no alarm, when a requested checkout waits unleased or nothing is open and it was undecided |
| `PaymentAttention.WatchEndsExactly` | apps/payments/services.py:615-670 | among all steps that commit, a paid or alarmed intent stops being so if and only if the step is one of four: evidence of another outcome brought by reconciliation or by the cancellation worker to an alarmed intent, a claim that finds the order of an alarmed intent unconfirmed, a consumption that meets a waiting checkout |
| `PaymentAttention.TakenMoneyIsWatched` | apps/payments/services.py:556-612 | the step that marks the first attempt paid leaves the intent paid or in attention |
| `PaymentWitnesses.PaidIsReachable` | apps/payments/services.py:615-670 | a run of the joint system, from an empty order on, pays the order |
| `PaymentWitnesses.CyclingIsReachable` | apps/payments/services.py:657-660 | a run of the joint system reaches the state in which callbacks never settle: first checkout rejected, second one open |
| `PaymentWitnesses.PaidCanBeCancelledSilently` | apps/payments/services.py:1151-1169 | a run of the joint system takes the money, and the order cancellation then sets the paid intent to CANCELLED |
| `PaymentWitnesses.PendingCanBeCancelledSilently` | apps/payments/services.py:1170-1172 | a run of the joint system takes the money, an old failure clears the alarm, and the order cancellation then sets the pending intent to CANCELLED |
| `PaymentWitnesses.CancellationAnswerCommitsExactly` | apps/payments/services.py:978-1041 | the cancellation worker records its answer if and only if it holds the lease, brings the attempt resource, and concludes nothing new or does so under an event that never logged a change |
| `PaymentWitnesses.CancellationWorkerMovesOnce` | apps/payments/services.py:978-1041 | under an event id that already logged a change the cancellation worker never moves the intent again |
| `PaymentWitnesses.CancellationIsLost` | apps/payments/services.py:978-1041 | a run of the joint system in which the worker heard "in process" first and, holding the lease, then cannot record "cancelled" |
| `Commerce.UnwatchedMoneyWasLetGo` | apps/payments/services.py:615-670 | in every run, if an attempt is paid and the intent is neither paid nor in attention, one of the four kinds of step ended the watch over money already taken |
| `Commerce.LeaseStandsUntilEnded` | apps/payments/services.py:304-412 | from any point of a run at which a token is on an attempt to any later one, the token is still there or an event in between was its holder finishing or releasing, or another claim after expiry |
| `Integrations.BreakerExactly` | apps/integrations/services.py:203-221 | for any connection and any history of endings: the failure count, and the status, as functions of whether a third failure in a row was counted, how many carry, and whether a degraded connection succeeded |
| `Integrations.DisabledConnectionComesBack` | apps/integrations/services.py:203-221 | over any history a disabled connection stays disabled if and only if no third failure in a row is counted on it; otherwise it is degraded or active by the failures that carry |
| `Integrations.DeliveryDesk.RecoverLeases` | apps/integrations/services.py:105-127 | the recovery loop turns exactly the expired sends uncertain, returns their number, and touches the delivery only if there was one |
| `CustomerMerges.AddHolds` | apps/customers/services.py:177-195 | adding a contact makes the value held and nobody gains or loses another; it is primary exactly when it already was, or was new and asked to be |
| `Receipts.Strip` | apps/payments/idempotency.py:16-16 | a stripped key neither starts nor ends with a blank |
| `Receipts.RunCompletes` | apps/payments/idempotency.py:49-61 | in every run, unprotected actions included, every committed receipt is completed |
| `Receipts.RetryLooksAgain` | apps/payments/idempotency.py:15-61 | repeating a successful command at any later time has no effect; if its first checks still pass it is answered by looking again for what the receipt refers to |
| `Receipts.ReplaysCanBeErased` | apps/fulfillment/idempotency.py:15-61 | deleting every replay from any trace, unprotected actions interleaved, leaves the same final state and receipts |
| `Receipts.EachKeySucceedsOnce` | apps/orders/idempotency.py:15-63 | after a command succeeded under a key, no later command under it has any effect |
| `Retries.GateIsTheStepsOwn` | apps/orders/services.py:208-610 | what a service function checks before it claims its receipt is what the step would refuse first, with the same error |
| `Retries.RunsAreRuns` | apps/orders/idempotency.py:15-63 | every run of order, batch and payment commands under receipts, with unprotected steps in between, is a run of the joint system and keeps its invariant |
| `Retries.ReplayAnsweredExactly` | apps/orders/services.py:148-161 | in every run a replay whose first checks pass is answered if and only if it did not add or change a line that is gone by then; a replayed consumption answers zero, and no replay has an effect |
| `Retries.RemovedLineIsNotAnswered` | apps/orders/services.py:331-332 | a concrete run: the line of an add_item request is removed under another key, and the request sent again raises a conflict |
| `ConsentRetries.RunKeepsOneInForce` | apps/messaging/services.py:1839-1856 | decisions under receipts and hard feedback, in any order, leave at most one preference in force |
| `ConsentRetries.ReplayedDecisionExactly` | apps/messaging/services.py:1823-1838 | a replayed decision is answered with the preference in force if that says the same, and raises a conflict otherwise; it has no effect |
| `ConsentRetries.OppositeDecisionIsNotAnswered` | apps/messaging/services.py:1823-1838 | allowed, then suppressed under another key, then the first request again: it raises |
| `Calculations.LineIsPricedExactly` | apps/orders/calculations.py:26-45 | a line prices if and only if its rounded quantity is positive, no rounded amount is negative and the discount is at most the gross; it carries those amounts, and its total is gross minus discount plus surcharge |
| `OrderCommands.AddedExactly` | apps/orders/services.py:278-365 | a line is added if and only if the order is an editable draft, the line prices, adjustments are permitted, a surcharge has a storable reason and nothing else has one, its catalog rows are own, on sale and matching, and it is named |
| `OrderCommands.AdditionLeaves` | apps/orders/services.py:336-363 | after an addition every earlier line stands, and the new one comes last under a new id, with the submitted amounts and reason |
| `OrderCommands.UpdatedExactly` | apps/orders/services.py:369-450 | a line is updated if and only if the amounts it would have price, and a change of discount, surcharge or reason is permitted and fits |
| `OrderCommands.UpdateLeaves` | apps/orders/services.py:409-446 | after an update the named line carries what was submitted and what was stored elsewhere, keeps id and position, and every other line stands field by field |
| `OrderCommands.RemovedExactly` | apps/orders/services.py:454-487 | a line is removed if and only if the order is an editable draft that has it |
| `OrderCommands.RemovalLeaves` | apps/orders/services.py:473-477 | after a removal the named line is not found, every other is found exactly as it was, one row is gone and the others keep their order |
| `OrderCommands.ConfirmedExactly` | apps/orders/services.py:491-571 | a draft is confirmed if and only if it has lines, its customer is usable and every line is on sale; no line and no amount changes |
| `OrderCommands.ForeignLinesAreRefusedFirst` | apps/orders/services.py:66-101 | a confirmation is refused as a foreign line exactly when some line names a foreign catalog row, whatever else is wrong with customer or lines |
| `OrderCommands.RefusalIsTruthful` | apps/orders/services.py:41-205 | every refused order command names, by its error, something that is wrong with it |
| `FulfillmentCommands.ListIsAcceptedExactly` | apps/fulfillment/services.py:122-133 | a list is accepted if and only if it is not empty, names no item twice and asks a positive rounded quantity of each; it becomes one row for every request and no other, in the order of the items |
| `FulfillmentCommands.CreatedExactly` | apps/fulfillment/services.py:227-296 | a batch is created if and only if the list is acceptable and of lines of the confirmed order, each line covers it beside all live batches, and permission and destination are there |
| `FulfillmentCommands.CreationAllocates` | apps/fulfillment/services.py:268-290 | a creation allocates of every item exactly the requested quantity in addition; the batch is a draft numbered above all others, which stand |
| `FulfillmentCommands.ReplacedExactly` | apps/fulfillment/services.py:300-365 | allocations are replaced if and only if the batch is a draft at that version and each line covers the new list beside the other batches, its own old rows not counted |
| `FulfillmentCommands.ReplacementReallocates` | apps/fulfillment/services.py:335-360 | a replacement changes what is allocated of every item by the requested quantity less what the batch held, and of the batch nothing else but the version |
| `FulfillmentCommands.MovedExactly` | apps/fulfillment/transitions.py:4-28 | a batch moves to exactly the status asked for, if and only if that is one step ahead for its method, with a reason for a cancellation and none otherwise |
| `FulfillmentCommands.EventCancelsExactly` | apps/fulfillment/services.py:434-490 | an order event cancels a batch once, only under a cancelled order and only if it had not ended, and keeps its receipt |
| `FulfillmentCommands.ConsumedExactly` | apps/fulfillment/services.py:493-531 | a consumption happens once, over a cancelled order only; it cancels every batch that had not ended and leaves the others field by field |
| `FulfillmentCommands.RefusalIsTruthful` | apps/fulfillment/services.py:60-180 | every refused fulfillment command names, by its error, something that is wrong with it |
| `PaymentEvidence.WordsAreTheTables` | apps/payments/providers.py:48-71 | each literal word of either provider means what it says and no other word means anything |
| `PaymentEvidence.HigherWordAdvances` | apps/payments/services.py:615-670 | callback, reconciliation or cancellation worker: on an undecided payment a credible word for a later status moves the intent there and the attempt to the matching status, stamped, logged and versioned |
| `PaymentEvidence.SameWordChangesNothing` | apps/payments/services.py:657-660 | the word for the status a payment has changes nothing |
| `PaymentEvidence.LowerWordAlarms` | apps/payments/services.py:646-656 | on an undecided payment a word for an earlier status raises attention as non-monotonic |
| `PaymentEvidence.FailureFreesThePayment` | apps/payments/services.py:557-561 | on an undecided payment a credible failure leaves the attempt FAILED and the intent PENDING, and changes nothing when both were so already |
| `PaymentEvidence.ContradictionAlarms` | apps/payments/services.py:632-640 | on an undecided payment anything but its own outcome, told about an attempt that is over, raises attention as non-monotonic and leaves the attempt as it was |
| `PaymentEvidence.DoubtfulWordAlarms` | apps/payments/services.py:616-631 | about an open attempt of an undecided payment, a wrong amount or currency, an unknown word brought by the worker, and money taken for a cancelled order raise attention, each under its own reason, the first two before the last; every other word is credible |
| `PaymentEvidence.DecidedPaymentIsConfirmedOrAlarmed` | apps/payments/services.py:645-656 | on a PAID, CANCELLED or EXPIRED payment a credible word for that status changes nothing and everything else raises attention as non-monotonic |
| `PaymentEvidence.AlarmIsLiftedByCredibleWords` | apps/payments/services.py:641-644 | under attention a callback changes nothing; reconciliation and the cancellation worker lift it with any credible word, to the status that word says |
| `PaymentEvidence.UnknownWordIsRefused` | apps/payments/services.py:616-620 | a word not in the table is refused from a callback or a reconciliation |
| `PaymentEvidence.CallbackIsHeardExactly` | apps/payments/services.py:674-760 | a callback commits if and only if its account is an active Mercado Pago account with callbacks and it repeats a request or brings a known word for an attempt of that account; a repetition changes nothing |
| `PaymentEvidence.OnlyTheEntitledAreHeard` | apps/payments/services.py:764-824 | a reconciliation that commits is a manager's, at the version read, of an attempt with that resource; a worker's answer holds the lease and is about its own attempt |
| `PaymentCommands.OpensExactly` | apps/payments/services.py:207-245 | an intent is opened if and only if the order is confirmed, has a positive total and no intent yet; it asks for exactly that total |
| `PaymentCommands.RequestsExactly` | apps/payments/services.py:249-301 | a checkout is requested if and only if the intent is pending at that version under a confirmed order, the account is active, nothing is open and the key is new; it adds one undispatched attempt |
| `PaymentCommands.ClaimsExactly` | apps/payments/services.py:305-381 | a claim commits on a requested attempt that is due; it leases it for ninety seconds if order, intent and account still allow it, otherwise ends it, failed or cancelled, and closes the undecided intent of an order that is gone |
| `PaymentCommands.ReleasesExactly` | apps/payments/services.py:385-412 | only the token holder gives a lease back, with the back-off after a failure; any other release changes nothing |
| `PaymentCommands.ActivationLeaves` | apps/payments/services.py:498-553 | everything a recorded checkout leaves: the link and expiry on the attempt, no lease, and the intent awaiting payment, or in attention when order, intent or account changed meanwhile |
| `PaymentCommands.CancelsExactly` | apps/payments/services.py:858-909 | a cancellation is accepted if and only if a manager asks at the version read, one attempt is open and no cancellation of it is pending; an undispatched one is closed at once, any other is handed to the worker |
| `PaymentCommands.CancellationIsClaimedExactly` | apps/payments/services.py:913-948 | the cancellation worker leases an attempt if and only if it is active or processing, has an identifier and is due |
| `PaymentCommands.ReopensExactly` | apps/payments/services.py:1077-1110 | a payment is reopened if and only if the order is confirmed, the intent pending, cancelled or expired, nothing is open and the last attempt ended without money |
| `PaymentCommands.ReopeningLeaves` | apps/payments/services.py:1110-1127 | a reopened intent is pending without attention, cancellation and expiry, keeps its amount, and is logged unless it was pending |
| `PaymentCommands.WaitingCheckoutIsWithdrawn` | apps/payments/services.py:1151-1169 | consuming the order cancellation cancels an unleased requested checkout together with its intent |
| `PaymentCommands.ConsumptionLeaves` | apps/payments/services.py:1170-1189 | otherwise it raises attention when something is open or the intent is paid or processing, cancels a pending or awaiting intent, and leaves any other alone |
| `PaymentCommands.AccountsAreSetExactly` | apps/payments/models.py:33-90 | an account keeps its provider, and callbacks are for Mercado Pago accounts only |
| `PaymentCommands.ObjectionRaisesExactly` | apps/payments/services.py:517-531 | a constraint that rejects the attempt row of a checkout result is a domain error the worker handles; one that rejects its history entry, or any other step, is an integrity error |
| `PaymentCommands.RefusalIsTruthful` | apps/payments/services.py:83-113 | every refused payment step names, by its error, something that is wrong with it |
| `MessageRow.AuthorisationLeaves` | apps/messaging/services.py:856-921 | an authorisation moves message and attempt to sending, one version on, and logs it once |
| `MessageRow.RefusalEscapesExactly` | apps/messaging/services.py:856-880 | for the lease holder of a queued message, authorisation ends the worker by an exception it does not catch exactly when the contact belongs to another customer or an eligible message was authorised before |
| `MessageRow.CreatedExactly` | apps/messaging/services.py:354-435 | a message is created if and only if source, customer, contact, template, channel and rendering all allow it and a permission is in force and effective; it takes its snapshot from exactly those rows |
| `MessageCommands.ClaimedExactly` | apps/messaging/services.py:596-640 | a message is claimed if and only if it is pending, queued or sending and neither a back-off nor a lease stands in the way |
| `MessageCommands.ClaimLeaves` | apps/messaging/services.py:620-687 | a claim leases for ninety seconds under a fresh token, or gives up a send whose lease ran out |
| `MessageCommands.ReleasedExactly` | apps/messaging/services.py:691-735 | only the token holder releases, once; the message is pending again, after the back-off if the dispatch failed |
| `MessageCommands.AcceptedExactly` | apps/messaging/services.py:953-1003 | an acceptance is recorded if and only if the holder of a send under way brings an identifier the channel does not have |
| `MessageCommands.CancelledExactly` | apps/messaging/services.py:1312-1358 | a message is cancelled if and only if a manager asks at the version read while it is pending or queued; its lease ends there |
| `MessageCommands.ReportsAreTheTables` | apps/messaging/providers.py:243-263 | each literal delivery word of each provider means what it says, and exactly the three hard words of the mail provider suppress the address |
| `MessageCommands.FeedbackLeaves` | apps/messaging/services.py:1160-1287 | a callback takes the message where its word says unless its outcome is recorded; a bounce, complaint or rejection switches every consent off and records a refusal, and no other word touches the consent |
| `MessageCommands.FeedbackIsHeardExactly` | apps/messaging/services.py:1206-1262 | a callback commits if and only if the connection is enabled and it repeats a request or brings a known word about this message; a repetition changes nothing |
| `MessageCommands.SuppressedAddressIsRefused` | apps/messaging/services.py:293-308 | no message can be created to a contact whose consent in force is a refusal |
| `MessageCommands.RefusalIsTruthful` | apps/messaging/services.py:116-130 | every refused messaging step names, by its error, something that is wrong with it |
| `MessageDispatch.AskingEndsExactly` | apps/messaging/services.py:1054-1090 | a worker asking on its lease of a queued message may send, dies on an exception it does not catch when the contact went to another customer or the message was authorised before, and otherwise goes on to fail the message |
| `MessageProgress.ClaimingEndsExactly` | apps/messaging/services.py:1055-1057 | a worker that claims holds the fresh lease exactly when the claim commits on a message that was not being sent; a lost send it gives up |
| `MessageProgress.SettlingEndsExactly` | apps/messaging/services.py:1067-1109 | the lease holder fails a refused or rejected message, records an acceptance under a usable identifier, and otherwise records that it does not know, if need be in a second transaction |
| `MessageProgress.BackingOffEndsExactly` | apps/messaging/services.py:1058-1098 | an adapter that does not fit or may not send puts the message back for the back-off, once; a second such release aborts and changes nothing |
| `MessageProgress.UndisturbedDispatchSends` | apps/messaging/services.py:1054-1109 | from any fresh message that is still eligible, one undisturbed dispatch with an accepting provider ends sent, under the identifier returned, with exactly one send |
| `SharedConsent.OthersSeeOneForeignStep` | apps/messaging/services.py:1290-1308 | over all messages to one contact, what one message or a decision does to another is at most one of the two foreign steps of the single-message model |
| `SharedConsent.RunInv` | apps/messaging/services.py:354-1858 | in every run over any number of messages each row is sound and all share the same consent records, one in force at most |
| `SharedConsent.BouncedContactIsNotWrittenTo` | apps/messaging/services.py:1272-1273 | in every run, once a bounce, complaint or rejection about any message to the contact was heard, no message written before is ever authorised, whatever consent is recorded later |
| `SharedConsent.NothingIsWrittenAfterABounce` | apps/messaging/services.py:1290-1308 | and until an allowance is recorded again, no message to the contact can be created |
| `SharedConsent.BounceHappens` | apps/messaging/services.py:1206-1287 | a run reaches such a bounce: consent, one message, its dispatch, the callback |
| `IntegrationCommands.ClaimsExactly` | apps/integrations/services.py:130-159 | in every run a worker starts the next attempt, numbered and leased for ninety seconds, if and only if the delivery is due and its connection active; then nobody serves it and its last attempt failed in a way worth retrying |
| `IntegrationCommands.AnswersAreRecorded` | apps/integrations/services.py:181-225 | in every run each kind of answer is recorded on attempt, delivery and connection: next attempt two seconds after the first transient failure and four after the second, none after the third, and an ambiguous answer not held against the connection |
| `IntegrationCommands.RecoveryGivesUpExactly` | apps/integrations/services.py:106-127 | recovery makes uncertain exactly the sends whose lease ran out, and then the delivery; without one it changes nothing |
| `CustomerCommands.ContactAddedExactly` | apps/customers/services.py:177-212 | a contact is added for a current customer of the organization; a value it has is left alone, a new primary takes that from its contacts of the kind and from nobody else |
| `CustomerCommands.AddressAddedExactly` | apps/customers/services.py:215-267 | a new default address takes the defaults it asks for from the customer's other active addresses and from nobody else |
| `CustomerCommands.MergedExactly` | apps/customers/services.py:311-332 | two customers are merged if and only if they are different, current and of the manager's organization; the source alone changes, to inactive and referring to the target |
| `CustomerCommands.MergeMovesContact` | apps/customers/services.py:334-352 | row by row: a merge moves the active contacts of the source with their values, primary unless the target has one of the kind, switches off those the target has, and touches no other |
| `CustomerCommands.MergeMovesAddress` | apps/customers/services.py:354-369 | row by row: a merge moves the active addresses of the source, default unless the target has that default, and touches no other |
| `CustomerCommands.RefusalIsTruthful` | apps/customers/services.py:27-41 | every refused customer command names, by its error, something that is wrong with it |
| `CustomerMerges.MergeCountsItsWork` | apps/customers/services.py:334-398 | the merge record counts the contacts that changed hands, those switched off, the addresses and the notes moved |
| `Receipts.StripExactly` | apps/payments/idempotency.py:16-16 | the stripped key is the key without the blanks at its ends, and no other string is |
| `Receipts.ExecutesExactly` | apps/payments/idempotency.py:15-61 | a command whose first checks pass runs if and only if its stripped key has one to sixty-four characters and no receipt; under a receipt the same payload is answered again and any other conflicts |

## Left out

- Permissions: one boolean per step says whether the actor's membership allows it.
- Display fields, snapshots of names, notes, audit entries and outbox payloads; one history entry per status change is kept.
- Column widths and decimal digits: amounts and quantities are unbounded integers.
- Receipts: the receipts of order, batch and payment commands wrap the joint system in `Retries`, those of consent decisions are in `ConsentRetries`. The message commands, whose message is never deleted, and the channel and template commands are not instantiated.
- Fulfillment.FulfillmentDesk.Transition: pickup units and delivery address snapshots are one boolean, usable or not.
- Orders.OrderDesk.Add: a surcharge reason arrives stripped with the outcome of the forbidden-term scan, and the item name is one boolean, given or not.
- Orders.OrderDesk.ConfirmOrder: the customer is one boolean, usable or not, snapshots are not copied, lines are checked in the order they were added, and customer changes of a draft only raise the version.
- PaymentService.PaymentDesk.OpenIntent: the currency of an order is not a field, because a constraint fixes it to BRL (apps/orders/models.py:61), so that test never refuses.
- PaymentService.PaymentDesk.Hear: authenticity, digests and rate limits happen before the call; the resource is an input already authenticated.
- PaymentService.PaymentDesk.RecordCheckout: the URL is a string with one boolean, https with a host.
- The provider calls of the payment workers, `fetch_and_reconcile` and the polling tasks: their transactions are steps, in any order and number; nothing is said about progress.
- The exact conversion to minor units: amounts are whole cents from the start, so its error branch cannot occur.
- The provider of a payment account never changes once recorded, which the model enforces; no code path changes it.
- MessageDispatch.AtMostOneSend: `mark_sending`, which authorises without revalidating and which no production code calls, is not among the workers' steps.
- MessageService.MessageDesk.ReconcileUncertain: the read before the provider call and the transaction after it are one step; no message passes the read, so the transaction never begins.
- MessageService.MessageDesk.PrepareSend: rows of other tables are read from an input record; templates, placeholders and rendering are one boolean each.
- Message creation from events and automation rules, templates, channels, connections and pairing.
- Concurrent first decisions on a contact: two transactions that both find no preference could each add an active one; transactions are atomic here.
- IntegrationRuns.AnotherAttemptExactly: reconciliation runs are not stored, so a reconciler may write as often as it likes, which is more than the program allows.
- Creating deliveries, webhook ingestion and payload minimisation.
- Customer documents, status changes and note removal.
- CustomerService.CustomerDesk.MergeCustomers: the unique indexes on contacts and addresses are assumed to hold before the merge; they are proved to hold in every run.
- Row locks and deadlocks, views, forms, admin, settings, migrations, provider payload shapes.

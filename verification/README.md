# Verification model of the order mesh

This project models the message-driven order mesh in Dafny and proves properties of the model.
A customer's order becomes a command at the **gateway**, an order at the **orders service**, and
then an event that starts an **order saga**. The **inventory** holds stock and the **payments
service** takes money; the saga joins their replies, completes or cancels the order, and asks for
compensations. **Notifications** join the order's first and last events and tell the customer. A
**broker** carries the messages, **contracts** check them, and a **start-up order** brings the
services up. Every service may see any message again, in any order, and any publish may fail.

## How it is organised

| part | model on values | proofs | objects, as the code has them |
|---|---|---|---|
| shared vocabulary, publisher | `Messages`, `Sums`, `Text` | | `Messages` |
| order saga | `SagaModel` | `SagaProofs`, `SagaRuns`, `SagaNotices`, `SagaOrder`, `SagaAnswers` | `SagaService` |
| inventory | `InventoryModel` | `CartProofs`, `StockProofs`, `InventoryProofs`, `InventoryAnswers` | `InventoryService` |
| payments | `PaymentsModel` | `PaymentsProofs`, `PaymentsAnswers` | `PaymentsService` |
| orders, exact money | `OrdersModel`, `Money` | `OrdersProofs`, `OrdersAnswers`, `Money` | `OrdersService` |
| the four together, and with notifications | `Mesh` | `Mesh`, `MeshAsks`, `MeshSettled`, `MeshAnswers`, `MeshRest`, `MeshIds`, `MeshNotices`, `MeshMissed`, `MeshExample` | |
| gateway slots | `GatewayModel` | `GatewayProofs`, `GatewayAnswers` | `GatewayService` |
| broker | `Subjects`, `Routing`, `CircuitBreaker`, `Backoff`, `DeliveryModel` | `Routing`, `Fairness`, `CircuitBreaker`, `Backoff`, `DeliveryProofs`, `DeliveryBreakers`, `DeliveryTurns`, `DeliveryFairness`, `DeliveryUneven`, `DeliveryAnswers` | `BrokerService`, `Subjects` |
| notifications | `NotificationsModel` | `NotificationsProofs`, `NotificationsFirst`, `NotificationsAnswers` | `NotificationsService` |
| start-up order | `Dependencies` | `Dependencies`, `StartupOrder` | `StartupOrder` |
| contracts, trace headers | `JsonSchema`, `Envelopes`, `Payloads`, `Traceparent` | the same, `JsonErrors`, `EnvelopeAnswers` | `JsonSchema` |

Code that changes records in place is a class whose methods are proved equal to a transition
function on values; what the code promises is proved about runs of that function. A run is any
sequence of calls: any messages, in any order, repeated at will, with the publisher up or down at
each call. Concurrent code (the gateway's requests, the broker's deliveries) is a state machine
whose steps interleave freely.

The modules named `...Answers` say, for every call after every run, exactly which answer the caller
gets and what is stored and sent, told from the stores and the log before and after the call and not
from the transition function.

Three inputs come from outside the model: the clock and id source (ids are parameters; where a
result needs them to be fresh it says so), the publisher (each call says whether it is up; a failed
publish appends nothing), and whether an envelope could be built.

`dafny verify dfyconfig.toml` checks the whole project.

## Where the code and its promises part

- **Exact money.** A total is not returned for every schema-valid cart whose true sum is a safe
  integer: a line that is free but whose quantity exceeds 2^53-1 gets no total. `Money` has the cart
  and the exact condition.
- **Customer notifications.** An orchestrator on its own can notify a customer twice, but only if it
  is fed contradictory replies: the same cart reported refused and reserved, besides a charge
  (`SagaNotices.ContradictoryRepliesNotifyTwice`, with the exact condition in
  `SagaNotices.SecondNotificationIff`). In the composed system the inventory never contradicts itself,
  and a cancelled saga asks for exactly one notification (`MeshAsks.NotifiedOnce`).
- **Customers missed.** The notifications worker lets the first terminal event delivered decide
  (`NotificationsFirst.MissedIff`). When a late compensation, which does not ask to notify, overtakes
  the cancellation that does, the customer is never told
  (`NotificationsProofs.LateStepSilencesCustomer`), and that happens in a legal run of the composed
  system (`MeshMissed.ACustomerIsMissed`). The first cancellation a saga publishes always asks
  to notify, so a customer with an address is missed only through such an overtaking
  (`MeshNotices.MissedOnlyIfOvertaken`).
- **Free carts.** A cart with free lines can be accepted by the orders service and yet hold more of one
  SKU than the inventory can count (`CartProofs.FreeCartUnanswered`); its saga then waits for good, and
  a charge made for it is never refunded. Once everything is delivered the orders answered are exactly
  those whose carts can be counted (`MeshAnswers.AnsweredIffCountable`); when no line is free every
  accepted cart can. `MeshAnswers.EndState` gives the status of every saga at that point, which is
  always within reach (`MeshRest.CanSettle`). An order of total 0 never completes either way, since
  payments take positive amounts only (`Mesh.ComposedSafety`).
- **Circuit breaker.** A failure of a delivery admitted before the breaker opened can end a running
  trial, after which a second trial runs beside the first; and a late success closes an open breaker
  before its cooldown. The trial is alone exactly when nothing was in flight when it was admitted
  (`CircuitBreaker.TrialAloneIff`), and a delivery is admitted before the cooldown is over exactly when
  another has succeeded since the breaker opened (`CircuitBreaker.EarlyAdmissionIff`).
- **Fairness.** A queue group that listens for dead letters shares the letters it gets and the messages
  it is sent as one rotation: its members get equally many of both together, give or take one
  (`DeliveryFairness.MembersShare`), but not of the messages alone (`DeliveryUneven.MessagesAloneUneven`).
  Those are shared evenly whenever none of the letters is for the group (`DeliveryFairness.ChainsShared`).
- **Backoff.** Delays need not be non-decreasing when the base is negative; `Backoff` has the exact
  condition.
- **Unpublished inventory events.** An inventory event still unpublished when its order is released
  is never published; `InventoryProofs.EventsPublishedOnce` says so.

## Model

| member | source | states |
|---|---|---|
| `Mesh.ComposedSafety` | src/saga.ts:122-250 | Over any run of orders, saga, inventory and payments on a network that reorders and repeats: a completed saga's order still holds stock for its whole cart under the saga's reservation id and has paid exactly its total, which is positive, in its currency, under the saga's payment id; stock is released only for cancelled sagas; a cancelled saga had a refused cart, a declined payment or a charge of the wrong amount or currency behind it |
| `Mesh.StepKeeps` | src/saga.ts:89-289 | Every call to any of the four services keeps the agreement between them: each saga and reserved cart stems from one order, and everything a saga knows or decided is backed by a published act of a participant |
| `Mesh.RepliesBacked` | src/saga.ts:182-188 | Every reply the network can deliver states what its sender really did |
| `MeshSettled.SettledOutcome` | src/saga.ts:122-289 | When everything has been published and delivered, an order whose cart was answered and whose payment was charged or declined is completed exactly if its stock was promised and its exact price paid; otherwise it is cancelled, holds no stock, and has asked for one notification and for one refund if charged and none if not |
| `MeshAsks.NotifiedOnce` | src/saga.ts:199-250 | In every legal run of the composed system a cancelled saga has asked, counting the terminal still unpublished, for exactly one notification of its customer |
| `MeshAnswers.UncountableNeverAnswered` | src/inventory.ts:181-189 | In every legal run a saga whose cart has a SKU total beyond 2^53-1 never leaves awaiting_inventory, gets no reply, and asks for nothing, not even a refund |
| `MeshAnswers.AnsweredIffCountable` | src/inventory.ts:181-209 | When everything has been published and delivered, a saga has left awaiting_inventory if and only if its cart can be counted: positive quantities and no SKU total beyond 2^53-1 |
| `MeshAnswers.EndState` | src/saga.ts:122-225 | When everything has been published and delivered, every saga has one status, read off the stock row, the payment and the cart: waiting for the inventory if its cart cannot be counted; otherwise cancelled if its cart was refused, with or without a payment; otherwise waiting for payment if none was made or it is only reserved; otherwise completed if its exact total was charged, and cancelled if not |
| `MeshRest.CanSettle` | src/saga.ts:89-103 | Every legal run can be carried on, by deliveries and retries that place no order and move no money, to a legal run in which everything has been published and delivered |
| `MeshIds.IdsNameMessages` | src/saga.ts:251-270 | In every legal run two messages on the network with the same message id are the same message, the sagas' own terminals included |
| `MeshAnswers.FreeCartWaits` | src/inventory.ts:181-189 | In every legal run the saga of an order for the free cart is still waiting for the inventory |
| `MeshAnswers.FreeCartAccepted` | src/orders.ts:190-259 | The orders service does create an order for the free cart under any new key |
| `MeshSettled.UniqueEvents` | src/inventory.ts:246-284 | No two events of the participants ever share a message id |
| `MeshSettled.StepKeepsNoted` | src/saga.ts:89-99 | A message id is in the saga's index only if that reply has left its mark on its saga, so ignoring redeliveries loses nothing |
| `MeshNotices.NoticesAreTruthful` | services/notifications/worker.py:349-411 | Fed any messages of the composed system in any order, the worker dispatches a notice only for the end its saga reached, completed or cancelled, and for the customer who placed the order |
| `MeshNotices.MissedOnlyIfOvertaken` | services/notifications/worker.py:386-411 | Fed messages of the composed system, if the first terminal the worker got for an order is the first its saga published, the e-mail to the customer who placed it is skipped if and only if that customer has no address |
| `MeshExample.AnOrderCompletes` | src/saga.ts:89-289 | A legal run exists that settles with its order completed, so the results about settled runs are not empty |
| `SagaProofs.ExactlyOnceCompensation` | src/saga.ts:199-289 | In every run, a cancelled saga has asked, counting the terminal still unpublished, for exactly one refund iff it knows a payment, exactly one release iff it knows a reservation, and one or two customer notifications |
| `SagaProofs.StepKeepsGood` | src/saga.ts:89-99 | Every call keeps every saga's account of compensations and only moves sagas forward |
| `SagaProofs.LateSound` | src/saga.ts:199-225 | A late effect keeps the account whether the previous cancellation went out (one step is added) or not (the full list replaces it) |
| `SagaProofs.CompensationsCounted` | src/saga.ts:49-55 | A full list asks for a refund iff charged, a release iff reserved, and one notification |
| `SagaRuns.OnlyForward` | src/saga.ts:89-289 | Between any two points of a run status only advances, completed is final, reservation, payment and reason are written once, a parked charge is never dropped, and nothing leaves index or log |
| `SagaRuns.RedeliveryOnlyPublishes` | src/saga.ts:89-99 | Delivering a handled message again, after any traffic, changes nothing but the publish flag and the log |
| `SagaRuns.TerminalsMinted` | src/saga.ts:251-269 | A completed saga minted exactly one terminal, a cancelled one between one and three, an undecided one none |
| `SagaRuns.PublishedExactlyOnce` | src/saga.ts:251-289 | With fresh ids no envelope is published twice, and a terminal is in the log exactly once if flagged published and not at all otherwise |
| `SagaNotices.NotifiedTwiceIff` | src/saga.ts:199-226 | A reply makes the requested notifications two exactly when it is the first charge or first reservation for a cancelled saga whose last cancellation is unpublished and does not ask to notify |
| `SagaNotices.SecondNotificationIff` | src/saga.ts:89-99 | The same over runs: after any messages that left at most one request, the next call makes it two iff it handles such a reply for that order |
| `SagaNotices.ContradictoryRepliesNotifyTwice` | src/saga.ts:199-250 | A run from the empty store that publishes two notifications for one order: refused, charged while the publisher is down, then reserved all the same |
| `SagaNotices.TwiceOnlyIfContradicted` | src/saga.ts:122-250 | In every run of the orchestrator a cancelled saga has asked for exactly one notification, unless it was told of a refusal and of a reservation of the same cart and of a charge |
| `SagaNotices.FirstPublishedNotifies` | src/saga.ts:215-250 | In every run the first cancellation published for an order asks to notify the customer |
| `SagaOrder.ReplyOrderIndependence` | src/saga.ts:122-213 | For one inventory reply and one payment reply, every schedule delivering each at least once, with any interleaving, repetition and outages, ends in the same status, ids, reason and multiset of requested compensations |
| `SagaAnswers.AnswersRight` | src/saga.ts:89-289 | After every run of the orchestrator, for every next message: publish_failed exactly if the publisher is down and the order is left with a terminal, new or resent, that is not in the log; completed or cancelled exactly if the log grew by one new terminal of that kind; replayed exactly if it grew by the terminal held; started, awaiting, duplicate, conflict and rejected exactly as message and saga say, the log unchanged; and what is stored and indexed, nothing else |
| `SagaAnswers.ReplyVerdict` | src/saga.ts:122-270 | What a reply does to a saga, by what it means: ignored if stale, a conflict if it contradicts what is known, remembered while the other reply is missing, and otherwise a terminal, signed and traced to its cause, that completes the order just when stock is promised and the exact total paid, and else cancels it with the first reason and what there is to undo |
| `SagaService.CompensationsFor` | src/saga.ts:49-55 | The pushed list is the model's list |
| `SagaService.MemorySagaStore.Put` | src/saga.ts:77-80 | Exactly the two maps change, at the saga's order and the message |
| `SagaService.OrderSagaOrchestrator.HandleLocked` | src/saga.ts:89-99 | The objects, indexes and log end up exactly as the transition function on values says |
| `SagaService.OrderSagaOrchestrator.Start` | src/saga.ts:100-121 | As the model: wrong source, known order with equal or different request, new saga |
| `SagaService.OrderSagaOrchestrator.OnInventory` | src/saga.ts:122-144 | As the model: every branch of the inventory reply on the shared record |
| `SagaService.OrderSagaOrchestrator.OnPayment` | src/saga.ts:145-181 | As the model: every branch of the payment reply |
| `SagaService.OrderSagaOrchestrator.SettleCharge` | src/saga.ts:189-198 | As the model: completes iff amount and currency match |
| `SagaService.OrderSagaOrchestrator.LateEffect` | src/saga.ts:199-214 | As the model: a first late charge or reservation is compensated |
| `SagaService.OrderSagaOrchestrator.EmitLateWork` | src/saga.ts:215-226 | As the model: one step if the last cancellation is out, the full list otherwise |
| `SagaService.OrderSagaOrchestrator.PublishTerminal` | src/saga.ts:251-270 | As the model: the terminal is recorded and indexed before it is sent |
| `SagaService.OrderSagaOrchestrator.FinishExisting` | src/saga.ts:271-277 | As the model: only an unpublished terminal is sent again |
| `SagaService.OrderSagaOrchestrator.TryPublish` | src/saga.ts:278-289 | The flag is set iff the publisher took the envelope |
| `InventoryProofs.StockConserved` | src/inventory.ts:105-132 | In every run each lot's reserved equals what reserved orders hold of it and stays between zero and on hand; the cancelled set is exactly the released orders |
| `InventoryProofs.ReleaseNeverMissesAHold` | src/inventory.ts:211-234 | A release is refused only when it does not ask for the stock: giving back a hold never fails |
| `InventoryProofs.OnlyForward` | src/inventory.ts:181-234 | A row's cart, reservation and event never change, status only turns to released, and a released order holds nothing for good |
| `InventoryProofs.EventsPublishedOnce` | src/inventory.ts:286-310 | An order's one event is in the log exactly once iff flagged published; one unpublished at release never goes out |
| `InventoryProofs.AnsweredCartsAreCountable` | src/inventory.ts:181-189 | In every run an order has an event, reserved or failed, only if its cart has positive quantities and no SKU total beyond 2^53-1 |
| `InventoryProofs.CartAllOrNothing` | src/inventory.ts:181-209 | A new countable cart is reserved iff every aggregated SKU fits in one up warehouse of the stock before the call, each line naming the least such warehouse; otherwise all lots are untouched and the first SKU that does not fit is reported; an unbuildable event changes nothing |
| `InventoryAnswers.AnswersRight` | src/inventory.ts:171-310 | After every run, for every next message: a new countable cart is reserved, and its event says so, exactly if some up warehouse has room for each SKU, each line naming the least such warehouse; otherwise row and event name the first SKU nobody has room for and why (no lot, all down, not enough); a known creation sends just the event still owed; a cancellation gives back just what is held; everything else is rejected, a conflict or a duplicate exactly as stated and changes nothing |
| `InventoryAnswers.EventsSayWhy` | src/inventory.ts:246-284 | In every run an order's event carries its row's own reason and SKUs, or its reserved lines |
| `InventoryAnswers.RoomIsAnswered` | src/inventory.ts:105-117 | A hold finds the least up warehouse whose on-hand less reserved is enough, and otherwise the one true reason of three |
| `InventoryProofs.ReleaseConserves` | src/inventory.ts:211-234 | Releasing a reserved row gives back every line and keeps the lots balanced |
| `InventoryProofs.StepKeeps` | src/inventory.ts:171-179 | Every message keeps stock balanced, the outbox truthful, and rows moving forward |
| `StockProofs.HoldAnswerSpec` | src/inventory.ts:105-117 | A hold takes the least up warehouse with enough, and otherwise says which of the three reasons applies |
| `StockProofs.HoldAllSpec` | src/inventory.ts:199-209 | Holding need by need is all-or-nothing against the stock before the first hold |
| `StockProofs.RollbackRestores` | src/inventory.ts:246-284 | Giving back the lines held restores every lot |
| `StockProofs.GiveBackSpec` | src/inventory.ts:118-124 | Returning lines that were held lowers each lot by exactly those lines |
| `CartProofs.AggregateSpec` | src/inventory.ts:62-71 | The aggregate has one entry per SKU with its total, in order of first appearance, and fails iff a quantity or running total is not a positive safe integer |
| `CartProofs.PricedCartsAreCountable` | src/inventory.ts:62-71 | When no line is free, every cart the orders service can total is one the inventory can count |
| `CartProofs.FreeCartUnanswered` | src/inventory.ts:181-189 | A cart of free lines that gets a total of zero and that the inventory cannot count |
| `InventoryService.AggregateLines` | src/inventory.ts:62-71 | The loop computes the model's aggregate and, when it answers, every entry is positive, distinct and safe |
| `InventoryService.MemoryInventoryStore.Seed` | src/inventory.ts:90-95 | A valid count opens a lot with nothing reserved, on that key only |
| `InventoryService.MemoryInventoryStore.Hold` | src/inventory.ts:105-117 | The in-place update equals taking from the answered lot, or nothing |
| `InventoryService.MemoryInventoryStore.Unhold` | src/inventory.ts:118-124 | Lowers the lot iff it holds that much |
| `InventoryService.InventoryService.HandleLocked` | src/inventory.ts:171-179 | As the model, and keeps conservation and the outbox |
| `InventoryService.InventoryService.ReserveLocked` | src/inventory.ts:181-209 | As the model: duplicates, conflicts, tombstones, new carts |
| `InventoryService.InventoryService.ReleaseLocked` | src/inventory.ts:211-234 | As the model: refusal, tombstone, release |
| `InventoryService.InventoryService.HoldCart` | src/inventory.ts:199-209 | The loop with rollback ends either with the planned lots and lines or with all lots as they were |
| `InventoryService.InventoryService.PersistOutcome` | src/inventory.ts:246-284 | As the model: event, row, log, or everything given back |
| `InventoryService.InventoryService.Tombstone` | src/inventory.ts:236-244 | As the model: a released row without event |
| `PaymentsProofs.LedgerConserved` | src/payments.ts:110-140 | For every customer available + held + captured equals what was credited, held equals the sum over reserved payments, and both balances are non-negative safe integers |
| `PaymentsProofs.HoldNeverMissing` | src/payments.ts:219-263 | A charge is rejected exactly for a malformed request, an unknown order, an injected processor error or an unbuildable envelope, never for a missing hold |
| `PaymentsAnswers.AnswersRight` | src/payments.ts:175-325 | After every run, for every next call: a new well-formed request is reserved exactly if the customer is not blocked, has the money and the hold stays a safe integer, and then just the amount moves from available to held; otherwise it is declined, no money moves, and the event says blocked or short of funds; a reserved payment is captured in full; a known key answers as before, sends just the event still owed, or is a conflict if used for something else |
| `PaymentsAnswers.ReserveRight` | src/payments.ts:175-217 | The exact answer, store and log of every reserve request |
| `PaymentsAnswers.ChargeRight` | src/payments.ts:219-263 | The exact answer, store and log of every charge request |
| `PaymentsProofs.KeysNeverRebind` | src/payments.ts:142-153 | Reserve key, charge key, order id and payment id never lead to another record; identity, event and first charge key are fixed; a hold is captured at most once |
| `PaymentsProofs.EventsPublishedOnce` | src/payments.ts:265-341 | Each record's event is in the log exactly once iff flagged published, and the log holds nothing else |
| `PaymentsProofs.StepKeeps` | src/payments.ts:175-263 | Every call keeps records, indexes, ledgers and outbox sound, and each customer's wealth changes only by credits |
| `PaymentsProofs.ChargeEvents` | src/payments.ts:219-263 | A charge gives an event only to the order it names, with the clock's id |
| `PaymentsService.MemoryPaymentStore.Credit` | src/payments.ts:114-122 | As the model on the whole ledger map |
| `PaymentsService.MemoryPaymentStore.Authorize` | src/payments.ts:123-132 | As the model: moves available to held or refuses |
| `PaymentsService.MemoryPaymentStore.Capture` | src/payments.ts:133-141 | As the model: takes from held or refuses |
| `PaymentsService.MemoryPaymentStore.Put` | src/payments.ts:142-148 | The four indexes change exactly at the record's keys |
| `PaymentsService.MemoryPaymentStore.BindCharge` | src/payments.ts:149-153 | The key is bound; the record keeps its first charge key |
| `PaymentsService.PaymentsService.ReserveLocked` | src/payments.ts:175-217 | As the model: replay, conflict, injected failure, declined, reserved |
| `PaymentsService.PaymentsService.ChargeLocked` | src/payments.ts:219-263 | As the model: replay, conflict, failed, charged, settle |
| `PaymentsService.PaymentsService.Settle` | src/payments.ts:240-263 | As the model: capture, event, binding, send |
| `PaymentsService.PaymentsService.FailReserve` | src/payments.ts:274-295 | As the model: a failed record with its event |
| `PaymentsService.PaymentsService.FinishExisting` | src/payments.ts:319-325 | As the model: only an unpublished settled record is sent again |
| `OrdersProofs.KeysNeverRebind` | src/orders.ts:148-157 | An idempotency key or command message leads to the same, unchanged order for good |
| `OrdersProofs.EventsPublishedOnce` | src/orders.ts:190-279 | Every order's event carries the exact total and is in the log exactly once iff flagged published; nothing else is in the log |
| `OrdersProofs.OneOrderPerKey` | src/orders.ts:190-259 | Two orders never share an idempotency key |
| `OrdersAnswers.AnswersRight` | src/orders.ts:179-266 | After every run, for every next command: a new key and id with a cart that has a total makes one order with its event; a key used for another body is a conflict; a known command sends just the event still owed; everything else is rejected and changes nothing |
| `OrdersService.OrdersService.HandleLocked` | src/orders.ts:179-259 | As the model, with the total computed in rounded arithmetic |
| `OrdersService.OrdersService.FinishExisting` | src/orders.ts:261-266 | As the model |
| `OrdersService.OrdersService.TryPublish` | src/orders.ts:268-279 | As the model |
| `OrdersService.MemoryOrderStore.Put` | src/orders.ts:148-153 | The three maps change exactly at the record's keys |
| `Money.TotalCents` | src/orders.ts:67-78 | With every product and sum rounded, the result is the exact safe sum or nothing |
| `Money.TotalReturnedIff` | src/orders.ts:67-78 | On schema-valid carts a total is returned iff the true sum is at most 2^53-1 and no free line has a quantity beyond it |
| `Money.FreeLineGetsNoTotal` | src/orders.ts:67-78 | A cart that shows the second condition is needed |
| `Money.TotalIgnoresOrder` | src/orders.ts:67-78 | Permuting the lines does not change the result |
| `Money.SafeSurvivesRounding` | src/orders.ts:67-78 | A monotone rounding exact up to 2^53 never makes an unsafe integer look safe |
| `GatewayProofs.OnePublishPerKey` | services/gateway/gateway.go:240-311 | Under every interleaving a key is published at most once |
| `GatewayProofs.OneOutstandingPerKey` | services/gateway/gateway.go:277-311 | At most one publish per key is outstanding, and none once one succeeded |
| `GatewayProofs.AnswersRight` | services/gateway/gateway.go:240-311 | A 202 carries the bytes of the one publication of its key, from the same body hash; a 409 means another body was accepted; a 503 means this request published nothing |
| `GatewayAnswers.AnsweredBy` | services/gateway/gateway.go:221-310 | Under every interleaving a request is answered 503 exactly if its own publish failed, with the 202 of its own command if its own publish succeeded, and otherwise by the one command published for its key: that command's 202 for the same body, a bare 409 for another |
| `GatewayProofs.NeverWaitsTwice` | services/gateway/gateway.go:277-296 | A slot closed with status 0 is never in the map, so a looping request never waits on it again |
| `GatewayProofs.EveryoneAnswered` | services/gateway/gateway.go:277-311 | Without new arrivals the gateway rests after a bounded number of steps under any schedule, and only when every request is answered |
| `GatewayProofs.NoDeadlock` | services/gateway/gateway.go:277-296 | While a request is unanswered some request can move |
| `GatewayProofs.StepKeeps` | services/gateway/gateway.go:277-311 | Every step of every request keeps slots, map, answers and log consistent |
| `GatewayService.Gateway.BeginLocked` | services/gateway/gateway.go:279-294 | The locked section is the protocol's begin step |
| `GatewayService.Gateway.Look` | services/gateway/gateway.go:283-290 | Reading a closed slot gives exactly one of retry, replay, conflict, as the protocol's wake step |
| `GatewayService.Gateway.SetStatus` | services/gateway/gateway.go:298-299 | One protocol step |
| `GatewayService.Gateway.SetResp` | services/gateway/gateway.go:300 | One protocol step |
| `GatewayService.Gateway.Close` | services/gateway/gateway.go:301 | One protocol step, for success and failure alike |
| `GatewayService.Gateway.FailLocked` | services/gateway/gateway.go:304-310 | Removes the key only if it still leads to this slot; one protocol step |
| `Subjects.ValidSubject` | src/broker.ts:57-71 | The index loop accepts exactly the strings whose tokens are literals, or in a pattern `*` or a last `>` |
| `Subjects.MatchSubject` | src/broker.ts:73-84 | The loop agrees with the recursive definition of `*` and `>` |
| `Subjects.MatchesIff` | src/broker.ts:73-84 | Matching read off position by position, with a trailing `>` covering one token or more |
| `Subjects.LiteralMatchesItself` | src/broker.ts:57-84 | A valid subject, as a pattern, accepts itself and nothing else |
| `Subjects.SplitJoin` | src/broker.ts:57-71 | Splitting undoes joining |
| `Routing.FanoutRouted` | src/broker.ts:99-122 | Every matching fan-out subscriber is picked exactly once and no other one is |
| `Routing.GroupRouted` | src/broker.ts:99-122 | Exactly one member per matching queue group |
| `Routing.TurnTaken` | src/broker.ts:99-122 | The member picked is the eligible one whose turn it is |
| `Fairness.FairShare` | src/broker.ts:99-122 | From any rotation, over any publishes and retries, two members of a group are picked equally often, give or take one |
| `DeliveryTurns.RetriesTakeTurns` | src/broker.ts:193-195 | In every run a fan-out subscriber retries itself; in a queue group the next attempt goes to the member at the rotation's place among those then subscribed, in the order of their subscriptions, or to the previous one if none is left; nothing else changes |
| `DeliveryFairness.MembersShare` | src/broker.ts:98-204 | In every run, while a group keeps its members and whatever else goes on, any two of them are given equally much, give or take one: chains readied, first attempts and retries together, and dead letters the group listens for |
| `DeliveryFairness.ChainsShared` | src/broker.ts:98-204 | If none of those dead letters is for the group, the chains readied for two members differ by at most one |
| `DeliveryUneven.MessagesAloneUneven` | src/broker.ts:98-204 | A legal run in which a group of two that listens for dead letters is sent two messages and both go to the same member: letters take turns too, so the messages alone need not be shared evenly |
| `DeliveryAnswers.ActionsAnswered` | src/broker.ts:98-222 | What every action does in every run: a publish starts a chain for each matching fan-out subscriber and for the member of each hearing group whose place it is, in that order; a handler is called exactly if its breaker is closed, or open past its cooldown; a failure sleeps before the last attempt and is given up with one letter at it; and what each breaker makes of it |
| `BrokerService.MemoryBroker.Pick` | src/broker.ts:99-122 | The two loops produce the specified targets and rotation |
| `BrokerService.MemoryBroker.Subscribe` | src/broker.ts:205-211 | Refuses a closed broker, a bad pattern or a blank queue; otherwise appends with a fresh id |
| `BrokerService.MemoryBroker.Unsubscribe` | src/broker.ts:213-216 | Removes exactly that subscription |
| `BrokerService.MemoryBroker.Close` | src/broker.ts:219-222 | Closes for good, drops every subscription, and keeps rotations and ids |
| `BrokerService.MemoryBroker.Route` | src/broker.ts:199-204 | A closed broker or bad subject routes nothing; otherwise the targets of pick |
| `BrokerService.MemoryBroker.Next` | src/broker.ts:193-195 | A retry returns to a fan-out subscriber or goes to the group's next member |
| `BrokerService.MemoryBroker.BeforeHandler` | src/broker.ts:173-177 | The section of deliver up to the handler call is the delivery model's start step, dead letter included |
| `BrokerService.MemoryBroker.AfterHandler` | src/broker.ts:178-192 | The section from the handler's return to the sleep is the model's finish step: done, dead letter, or retry |
| `BrokerService.MemoryBroker.AfterSleep` | src/broker.ts:193-195 | The section after the sleep is the model's resume step |
| `BrokerService.MemoryBroker.SendDeadLetter` | src/broker.ts:160-171 | The letter names subject, reason, attempts, time and bytes, and is sent to exactly the subscribers the dead-letter subject routes to under the current rotation, which is advanced for the groups it touches |
| `BrokerService.Subscription.BreakerAllows` | src/broker.ts:124-135 | The field updates are the model's admission |
| `BrokerService.Subscription.RecordSuccess` | src/broker.ts:137-141 | The field updates are the model's success |
| `BrokerService.Subscription.RecordFailure` | src/broker.ts:143-158 | The field updates are the model's failure |
| `CircuitBreaker.AlwaysShaped` | src/broker.ts:124-158 | Half-open holds iff a trial is flagged; failures stay below any threshold of at least one |
| `CircuitBreaker.FailuresCounted` | src/broker.ts:137-158 | The count is the number of failures since the last success or opening |
| `CircuitBreaker.OpensAtThreshold` | src/broker.ts:143-158 | A closed breaker opens exactly at the threshold-th such failure |
| `CircuitBreaker.OneTrialPerEntry` | src/broker.ts:124-135 | Each entry to half-open lets exactly one delivery through |
| `CircuitBreaker.CooldownHonoured` | src/broker.ts:124-135 | A delivery admitted by an open breaker comes at least the cooldown after the failure that opened it |
| `CircuitBreaker.TrialAddsOne` | src/broker.ts:124-158 | Throughout any half-open stretch exactly one delivery more is in flight than when the stretch began |
| `CircuitBreaker.TrialAloneIff` | src/broker.ts:124-135 | The trial runs alone if and only if no delivery was in flight when it was admitted |
| `CircuitBreaker.CoolingState` | src/broker.ts:124-158 | With no opening and no admission after the cooldown since the failure that opened it, the breaker is closed if some delivery has succeeded since, and otherwise still open from that failure |
| `CircuitBreaker.EarlyAdmissionIff` | src/broker.ts:124-141 | A delivery asked for before the cooldown is over is admitted if and only if some delivery has succeeded since the breaker opened |
| `CircuitBreaker.TwoTrialsCanOverlap` | src/broker.ts:143-150 | Such an overlap: a stale failure during a trial leads to a second trial beside the first |
| `CircuitBreaker.LateSuccessSkipsCooldown` | src/broker.ts:137-141 | Such an early admission: a success of a delivery admitted before the breaker opened closes it and admits the next delivery without the cooldown |
| `Backoff.DelaysNeverShrinkIff` | src/broker.ts:49-52 | With factor at least one, delays never shrink iff the base is not negative or the factor is one |
| `Backoff.DelaysMultiply` | src/broker.ts:49-52 | The first delay is the base, each next one the factor times the one before, until the cap, which then stays for a base not negative and a factor of at least one |
| `Backoff.WaitBounded` | src/broker.ts:49-52 | The sleeps together are at most the cap once each |
| `Backoff.MaxWaitIs` | src/broker.ts:49-52 | That bound is the number of sleeps times the cap, counted as zero when negative |
| `DeliveryProofs.DeliveryConserved` | src/broker.ts:173-204 | Each target of a publish gets a chain that, whatever else happens, takes a bounded number of steps, can always go on until over, calls handlers at most max(1, maxDeliver) times, waits at most the cap per retry, and ends in one success or one dead letter with the original subject and bytes, right reason and attempt count |
| `DeliveryProofs.RetriesKeepTheirRoute` | src/broker.ts:193-195 | A fan-out message stays with its subscriber, a queue message within its pattern and queue |
| `DeliveryProofs.StepKeeps` | src/broker.ts:160-196 | Every step of any chain keeps all chains and dead letters in order |
| `DeliveryBreakers.BreakerIsRun` | src/broker.ts:173-192 | In every run of the broker each subscription's breaker is the circuit breaker run on that subscription's own admissions and completions, and its deliveries in flight are the chains whose handler is running |
| `DeliveryBreakers.TrialInRun` | src/broker.ts:124-135 | Whenever a subscription's breaker is half-open, exactly one handler more is running for it than when the trial was let through |
| `NotificationsProofs.SentAtMostOnce` | services/notifications/worker.py:349-444 | Per order at most one email and one text are sent, each iff the dispatch says so; a parked terminal excludes customer, terminal and dispatch |
| `NotificationsProofs.OnlyForward` | services/notifications/worker.py:349-444 | One dispatch per order, for fixed event and recipients; channels never leave sent, failed or skipped; customer and terminal are written once |
| `NotificationsFirst.FirstDecides` | services/notifications/worker.py:349-411 | When message ids name the order's events: until both kinds have come the worker holds just the first one of the kind that came; from then on its one dispatch is for the first terminal and the first customer delivered, whatever else comes |
| `NotificationsFirst.FirstJoins` | services/notifications/worker.py:386-411 | Under one directory the recipients and channels are those the first created and first terminal event call for |
| `NotificationsFirst.MissedIff` | services/notifications/worker.py:386-411 | Under one directory an order's e-mail is skipped if and only if the first terminal delivered does not ask to notify or the customer has no address; a skipped one is never sent |
| `NotificationsFirst.JoinIgnoresOrder` | services/notifications/worker.py:349-411 | For a fixed directory, once created and terminal have both come, in any order and number, amid any traffic and failures, terminal, recipients and channel plan are those the two events call for |
| `NotificationsProofs.LateStepSilencesCustomer` | services/notifications/worker.py:356-363 | Once an order's first two messages are its creation and any cancellation that does not ask to notify, that order never leads to a mail or a text, whatever is delivered afterwards |
| `MeshMissed.ACustomerIsMissed` | services/notifications/worker.py:360-411 | Such a miss in a legal run of the composed system: a refused cart, a late charge and its refund, all published by the services, fed so that the refund overtakes the cancellation that asks to notify; the customer has an address and gets no mail, whatever follows |
| `NotificationsProofs.RetryIffPending` | services/notifications/worker.py:413-444 | A redelivery is asked for iff a channel is still pending |
| `NotificationsAnswers.AnswersRight` | services/notifications/worker.py:328-444 | After every run, for every next message: which messages note a customer, park a terminal, conflict, resume or make a dispatch, whom the dispatch is for, which channels are tried, what is written to whom, and exactly which outcome is reported |
| `NotificationsAnswers.ChannelsTellTries` | services/notifications/worker.py:413-444 | After every run a channel is skipped if nobody is to be told, sent if its last try was accepted, failed if refused for good, pending if all failed in passing; and what went out for an order is one message to the planned address about the deciding terminal if it was sent, and nothing otherwise |
| `NotificationsAnswers.MailedIff` | services/notifications/worker.py:386-429 | Under one directory and a mailer that accepts, once the first created and terminal events are in, a mail about that terminal has gone to exactly the address its customer is to be mailed at |
| `NotificationsAnswers.TextedIff` | services/notifications/worker.py:386-438 | The same for texts, as long as no mail fails in passing |
| `NotificationsProofs.StepKeeps` | services/notifications/worker.py:328-363 | Every message keeps the join sound |
| `NotificationsService.Worker.Handle` | services/notifications/worker.py:328-347 | As the model, and keeps it sound |
| `NotificationsService.Worker.Locked` | services/notifications/worker.py:349-363 | As the model on the shared views and dispatches |
| `NotificationsService.Worker.OnCreated` | services/notifications/worker.py:365-377 | As the model: customer once, parked terminal released, resend |
| `NotificationsService.Worker.Park` | services/notifications/worker.py:379-384 | As the model: first terminal is parked, another one conflicts |
| `NotificationsService.Worker.DispatchTerminal` | services/notifications/worker.py:386-411 | As the model: conflict, or plan, index, send |
| `NotificationsService.Worker.Send` | services/notifications/worker.py:413-444 | As the model: each pending channel is tried once, in order, stopping at a passing failure |
| `StartupOrder.StartupOrder` | src/compose.ts:67-92 | An order is returned iff no service needs itself directly or through others; it is a permutation with needs first, and lexicographically least among all such |
| `StartupOrder.BuildGraph` | src/compose.ts:68-77 | The counting loops record, for each known service, how many it needs and who needs it |
| `StartupOrder.Unlock` | src/compose.ts:82-89 | Telling the dependents keeps the counts and the sorted queue of ready services |
| `Dependencies.GreedyIsLeast` | src/compose.ts:78-90 | Always starting the least ready service gives the lexicographically least order |
| `Dependencies.StuckHasCycle` | src/compose.ts:91 | If nobody left is ready, those left contain a cycle |
| `Dependencies.StartableIsAcyclic` | src/compose.ts:91 | If an order exists there is no cycle |
| `JsonSchema.Validate` | src/contracts.ts:286-293 | Succeeds iff the value conforms, and otherwise reports at least one error |
| `JsonSchema.Check` | src/contracts.ts:212-284 | Pushes exactly the specified errors, in order, onto the shared list |
| `JsonSchema.ErrorsIff` | src/contracts.ts:212-284 | No errors iff the declarative recursive conformance holds |
| `JsonErrors.ErrorsAreOffences` | src/contracts.ts:208-281 | The errors are exactly the offences of the value against the schema, each with its reason and its place |
| `EnvelopeAnswers.CreatedIff` | src/contracts.ts:301-333 | createEnvelope makes the envelope asked for exactly if its type is known, payload and shell conform and its trace header can be read, and otherwise reports just the offences |
| `EnvelopeAnswers.ParsedIff` | src/contracts.ts:335-371 | parseEnvelope reads an object exactly if shell, type, version, payload and trace header are right, gives back what it holds, and otherwise reports just the offences |
| `Payloads.PayloadConforms` | src/contracts.ts:87-160 | Each catalogue schema accepts the typed payload of its message exactly if identifiers are well written, lists not empty (but for compensations) and amounts of the right sign |
| `Envelopes.CreatedParses` | src/contracts.ts:301-371 | Whatever createEnvelope accepts, parseEnvelope returns unchanged |
| `Envelopes.ParsedParses` | src/contracts.ts:335-371 | parseEnvelope is idempotent on its own output, canonical trace header included |
| `Envelopes.ParsedComplete` | src/contracts.ts:335-371 | A parsed envelope conforms to the shell and payload schemas although its trace header was rewritten |
| `Envelopes.CatalogKnows` | src/contracts.ts:182-206 | Looking a type up finds its own row and nothing else, for exactly the eight types of the catalogue, all at one version |
| `Traceparent.FormatParses` | src/observability.ts:23-36 | Writing a span and reading it back preserves trace id, span id and sampling |
| `Traceparent.CanonicalStays` | src/observability.ts:23-36 | Canonicalising a header is idempotent and keeps its meaning (section 3.2 of W3C Trace Context) |
| `Traceparent.ParsedIff` | src/observability.ts:23-32 | A header is read exactly if, but for white space around it, it writes down non-zero ids in digits of either case under a version other than ff; and is read as that span |
| `Traceparent.ContinuedTrace` | src/observability.ts:49-57 | A continued span is always writable, stays in the trace with its sampling decision, and names its parent |

## Left out

- HTTP handling, health endpoints, logging, signals and process start-up: input and output only.
- The gateway's request validation before the idempotency slot, and the parts of the 202 response other than its body: branches without state.
- `services/gateway/broker/broker.go` and `python/broker.py`: the same picking and redelivery without breaker, backoff or dead letters.
- `src/images.ts` and the YAML parser and policy checks of `src/compose.ts`: one-branch checks on text.
- UUID, date-time and version-pattern syntax: parameters of the schema checker; identifiers elsewhere are compared only for equality.
- The services take typed payloads that already passed their schema, so their own shape checks on payload fields never fire; requests that are not schema-checked (payments) carry a flag for well-formed ids.
- Occurrence times and trace headers of the services' events: carried along by the code and not read by it. `Traceparent` and `Envelopes` treat them on their own.
- Backoff delays are exact reals where the code has doubles, and the breaker's times are integers.
- Reading a typed payload back out of its JSON: `Payloads` writes them and says which conform.
- `createEnvelope` failing inside the saga: it cannot fail on the saga's own payloads while the clock hands out valid ids and times.
- Fingerprints are the fields they list, taken as injective; SKUs, warehouses and service names stand for their rank in the code's sort order.
- JSON numbers are reals, JSON equality in `enum` is structural, and strings are sequences of UTF-16 code units.
- The gateway's publish, and each handler's awaited publish, is one step that succeeds or fails; a publish that both delivers and reports failure is not modelled.
- The broker runs the targets of one publish one after the other; the model lets them start in any order, which covers that and more. The sections of `deliver` between its awaits are methods; that a handler call or a sleep comes between them is a step boundary of `DeliveryModel`.
- Handlers receive a copy of the bytes, so the bytes of a delivery are a value here; a handler changing its copy is not modelled.
- Dead-letter delivery is best effort: the model keeps the letter and the rotation it advances, not what its subscribers do with it.
- Restocking an existing lot (`seed` on a known key zeroes what is reserved) and marking orders cancelled or warehouses down in mid-run: runs start from freshly seeded lots and a fixed set of warehouses.
- The notifications worker's texts: a function of the order and its terminal event, represented by that event. Its per-order lock makes each call one step.
- Reading accessors of the stores, and the service objects' lists of unpublished records.
- CatalogKey: the routing keys of the catalogue are part of `Messages`; the catalogue of `Envelopes` keeps type, version and schema only.

# Instafood order fulfilment, modelled in Dafny

Instafood takes a customer's food order and sees it through with three
workflows that talk to each other only by signals:

- the **order workflow** (`OrderWorkflowImpl`) refuses any restaurant other
  than MegaBurger and starts the restaurant workflow. It waits for an ETA or a
  rejection. A pickup order then waits for RESTAURANT_DELIVERED. A delivery
  order waits for READY or for a timer of ETA minutes, whichever comes first.
  It then starts exactly one courier workflow and waits for COURIER_DELIVERED;
- the **restaurant workflow** (`MegaBurgerOrderWorkflowImpl`) places the order
  with the MegaBurger backend, sends PENDING to the order workflow, and then
  polls the backend four times. Each poll reads until the status differs from
  the one it waits out, and sends what it read: first PENDING is waited out,
  then, after the ETA has been read and sent, the fixed ACCEPTED, COOKING and
  READY in turn. So a status can be sent twice when the order skipped one of
  those (`ClosingPollsIgnoreObservedStatus`), a change that comes and goes
  between two reads is never sent, and nothing is sent after the poll that
  waits out READY;
- the **courier workflow** (`CourierDeliveryWorkflowImpl`) turns the courier's
  own statuses into order statuses for the order workflow.

The MegaBurger backend is modelled as well. Its order table is `OrdersApi`
and its order object is `Order`. The table creates each order under the next
id, patches status and ETA in place, lists orders by id, and can be cleared.

## How the model is built

- `domain.dfy` (module `Domain`) holds the value types as datatypes: the
  eleven order statuses, the food order, the courier job and the backend order
  request. It also holds `Effect`, one outgoing action of a workflow: a child
  started, a status or ETA sent to the parent, a failure, or completion.
- Each workflow has two parts. The first is a pure state value: the signal
  fields, a `Phase` that says at which `await` the workflow is suspended, and
  the log of its effects. One transition function per signal and per await
  acts on that value. The second is a class with the source's fields, whose
  methods are those signals and awaits. Each method promises
  `State() == Transition(old(State()))`, so what is proved about the
  transitions holds for the object.
- The runtime is made explicit as events. A signal only overwrites a field.
  A `Resume` event re-evaluates the pending await, and `TimerFired` ends the
  ETA timer. `Run` folds a sequence of events, so lemmas about `Run` hold for
  every interleaving of signals and re-evaluations. This includes a status
  overwritten before the await saw it. It also lets a new await wait for a
  `Resume` before its first evaluation, where the runtime checks the condition
  at once, so the model allows more runs than the program and every property
  proved over all runs holds for the program's runs. Throwing an exception becomes the
  `Failed` phase, with a `WorkflowFailed` effect saying why.
- The restaurant workflow reads the backend order as an explicit finite
  sequence of answers. Each answer is a status and an optional ETA. Every read
  uses up one answer: a poll uses one per read it makes, and the ETA read
  (`getOrderEta`) uses one. When the answers run out during a wait, the
  workflow stays suspended at that wait: `Polling(s)` or `AwaitingEtaRead`.
  Its inputs are the id the backend assigns and these answers. An answer
  without an ETA fails the workflow with `MissingEta`, because unboxing the
  missing value for `updateEta` throws.
- The backend's `Order` is a class whose setters change one field each.
  `OrdersApi` holds a `map<int, Order>` of shared order objects. `Table()` is
  the value view of that map, and `Dense` is its invariant: the ids are
  exactly 0 .. size-1, and each order is stored under its own id.

The order workflow's two queries, `getStatus` and `getEtaInMinutes`, are
functions that read its fields, and so is its private helper
`getTimeToSendCourier`, which gives the courier timer's length. So are the
restaurant workflow's `getStatus` and the getters of `Order`. Being functions,
none of them can change anything; each is tied by its contract to the state
the other members' contracts speak of.

## Model

| member | source | states |
|---|---|---|
| Dispatcher.OrderWorkflow.constructor | instafood/src/main/java/com/instafood/orders/dispatcher/OrderWorkflowImpl.java:15-16 | a fresh workflow is the initial state: status CREATED and ETA -1, which the queries answer, nothing started, nothing logged, and the invariant holds |
| Dispatcher.OrderWorkflow.UpdateStatus | instafood/src/main/java/com/instafood/orders/dispatcher/OrderWorkflowImpl.java:64-67 | the status signal overwrites the status and keeps the invariant |
| Dispatcher.OrderWorkflow.UpdateEta | instafood/src/main/java/com/instafood/orders/dispatcher/OrderWorkflowImpl.java:69-72 | the ETA signal overwrites the ETA and keeps the invariant |
| Dispatcher.SignalsIdempotent | instafood/src/main/java/com/instafood/orders/dispatcher/OrderWorkflowImpl.java:64-72 | each signal changes only its own field, and repeating a signal changes nothing more |
| Dispatcher.OrderWorkflow.GetStatus | instafood/src/main/java/com/instafood/orders/dispatcher/OrderWorkflowImpl.java:54-57 | the answer is the workflow's status, which `QueriesAnswerLastSignals` ties to the last status signalled |
| Dispatcher.OrderWorkflow.GetEtaInMinutes | instafood/src/main/java/com/instafood/orders/dispatcher/OrderWorkflowImpl.java:59-62 | the answer is the workflow's ETA, which `QueriesAnswerLastSignals` ties to the last ETA signalled |
| Dispatcher.OrderWorkflow.GetTimeToSendCourier | instafood/src/main/java/com/instafood/orders/dispatcher/OrderWorkflowImpl.java:49-52 | the courier timer's length is the current ETA; `AwaitEtaOrRejection` stores it in `AwaitingReadyOrTimer` |
| Dispatcher.QueriesAnswerLastSignals | instafood/src/main/java/com/instafood/orders/dispatcher/OrderWorkflowImpl.java:54-72 | after any history of events, the status answered is the last status signalled and the ETA the last ETA signalled, CREATED and -1 when none was; starting children, waits and the timer change neither |
| Dispatcher.OrderWorkflow.OrderFood | instafood/src/main/java/com/instafood/orders/dispatcher/OrderWorkflowImpl.java:19-27 | MegaBurger orders start the restaurant child; any other restaurant fails at once; the signal fields are untouched |
| Dispatcher.UnsupportedRestaurantFails | instafood/src/main/java/com/instafood/orders/dispatcher/OrderWorkflowImpl.java:20-26 | for a restaurant other than MegaBurger, whatever follows, the workflow has failed and started no child |
| Dispatcher.OrderWorkflow.AwaitEtaOrRejection | instafood/src/main/java/com/instafood/orders/dispatcher/OrderWorkflowImpl.java:29-36 | resumes exactly when an ETA is set or the status is REJECTED, then fails or branches on pickup, keeping the ETA as the timer's length |
| Dispatcher.FirstAwait | instafood/src/main/java/com/instafood/orders/dispatcher/OrderWorkflowImpl.java:29-32 | the first wait ends if and only if ETA is not -1 or status is REJECTED; REJECTED fails the workflow even with an ETA set |
| Dispatcher.OrderWorkflow.AwaitReadyOrTimer | instafood/src/main/java/com/instafood/orders/dispatcher/OrderWorkflowImpl.java:36-41 | resumes exactly on the timer or on READY, then starts the courier child with the order's restaurant, address and telephone |
| Dispatcher.JobFor | instafood/src/main/java/com/instafood/orders/dispatcher/OrderWorkflowImpl.java:40-41 | the courier job copies the order's restaurant, address and telephone, in that order |
| Dispatcher.JobForKeepsOnlyRoute | instafood/src/main/java/com/instafood/orders/dispatcher/OrderWorkflowImpl.java:40-41 | two orders give the same courier job exactly when they agree on restaurant, address and telephone |
| Dispatcher.CourierStartTrigger | instafood/src/main/java/com/instafood/orders/dispatcher/OrderWorkflowImpl.java:36-41 | a step starts a courier if and only if it ends the timer-bounded wait: the timer fires, or READY is seen |
| Dispatcher.OrderWorkflow.AwaitCourierDelivered | instafood/src/main/java/com/instafood/orders/dispatcher/OrderWorkflowImpl.java:43 | completes exactly when the status is COURIER_DELIVERED |
| Dispatcher.OrderWorkflow.AwaitRestaurantDelivered | instafood/src/main/java/com/instafood/orders/dispatcher/OrderWorkflowImpl.java:45 | completes exactly when the status is RESTAURANT_DELIVERED |
| Dispatcher.CompletionNeedsDeliveredStatus | instafood/src/main/java/com/instafood/orders/dispatcher/OrderWorkflowImpl.java:43-46 | a step that completes the workflow re-evaluates a final wait: RESTAURANT_DELIVERED for pickup, COURIER_DELIVERED for delivery |
| Dispatcher.CourierRejectedKeepsWaiting | instafood/src/main/java/com/instafood/orders/dispatcher/OrderWorkflowImpl.java:43 | COURIER_REJECTED, like every status but COURIER_DELIVERED, does not end the last wait |
| Dispatcher.StepPreservesWellFormed | instafood/src/main/java/com/instafood/orders/dispatcher/OrderWorkflowImpl.java:19-47 | every event keeps the log consistent with the phase |
| Dispatcher.RunPreservesWellFormed | instafood/src/main/java/com/instafood/orders/dispatcher/OrderWorkflowImpl.java:19-47 | every sequence of events keeps the log consistent with the phase |
| Dispatcher.WellFormedChildren | instafood/src/main/java/com/instafood/orders/dispatcher/OrderWorkflowImpl.java:34-41 | at most one restaurant and one courier child, none for pickup, the courier started right after the restaurant with the derived job |
| Dispatcher.ReachableChildren | instafood/src/main/java/com/instafood/orders/dispatcher/OrderWorkflowImpl.java:19-47 | over any history: at most one courier, none for pickup, exactly one once a delivery order completes |
| Dispatcher.TerminalIsFinal | instafood/src/main/java/com/instafood/orders/dispatcher/OrderWorkflowImpl.java:19-47 | once failed or completed, no event changes the phase or the log |
| Restaurant.MegaBurgerOrderWorkflow.constructor | instafood/src/main/java/com/instafood/orders/megaburger/MegaBurgerOrderWorkflowImpl.java:27 | a fresh workflow has status CREATED and has sent nothing |
| Restaurant.MegaBurgerOrderWorkflow.GetStatus | instafood/src/main/java/com/instafood/orders/megaburger/MegaBurgerOrderWorkflowImpl.java:85-88 | the answer is the last status sent to the parent, CREATED if none was |
| Restaurant.MegaBurgerOrderWorkflow.UpdateOrderStatus | instafood/src/main/java/com/instafood/orders/megaburger/MegaBurgerOrderWorkflowImpl.java:63-66 | the status is remembered and sent to the parent, keeping status equal to the last one sent |
| Restaurant.ForwardMatchesLog | instafood/src/main/java/com/instafood/orders/megaburger/MegaBurgerOrderWorkflowImpl.java:63-66 | after forwarding a status, the remembered status is the last one in the log |
| Restaurant.MapMegaBurgerFoodOrder | instafood/src/main/java/com/instafood/orders/megaburger/MegaBurgerOrderWorkflowImpl.java:68-73 | the backend request carries the meal and quantity; id, status and ETA are unset |
| Restaurant.MapKeepsOnlyMealAndQuantity | instafood/src/main/java/com/instafood/orders/megaburger/MegaBurgerOrderWorkflowImpl.java:68-73 | two orders give the same request if and only if they agree on meal and quantity |
| Restaurant.MegaBurgerOrderWorkflow.PollOrderStatusTransition | instafood/src/main/java/com/instafood/orders/megaburger/MegaBurgerOrderWorkflowImpl.java:75-83 | the loop returns the first read whose status differs from the given one, after reading once per leading equal status plus once; nothing when every read repeats it |
| Restaurant.PollTransition | instafood/src/main/java/com/instafood/orders/megaburger/MegaBurgerOrderWorkflowImpl.java:75-83 | the polled status is read at the last answer used and is never the awaited-out status |
| Restaurant.PollTransitionWaitsOut | instafood/src/main/java/com/instafood/orders/megaburger/MegaBurgerOrderWorkflowImpl.java:75-83 | every read before the one returned still had the awaited-out status |
| Restaurant.PollTransitionUnique | instafood/src/main/java/com/instafood/orders/megaburger/MegaBurgerOrderWorkflowImpl.java:75-83 | any result with that description is the poll loop's: the first differing read decides it |
| Restaurant.OrderFoodRun | instafood/src/main/java/com/instafood/orders/megaburger/MegaBurgerOrderWorkflowImpl.java:30-52 | every run, whatever the backend answers, starts by creating the remote order with the mapped request and sending PENDING, and leaves the workflow started |
| Restaurant.MegaBurgerOrderWorkflow.OrderFood | instafood/src/main/java/com/instafood/orders/megaburger/MegaBurgerOrderWorkflowImpl.java:30-52 | the whole of `orderFood` for a given id and backend answers, keeping status equal to the last status sent |
| Restaurant.MegaBurgerOrderWorkflow.AfterFirst | instafood/src/main/java/com/instafood/orders/megaburger/MegaBurgerOrderWorkflowImpl.java:40-51 | after the first transition: fail on REJECTED, fail when the ETA read has none, otherwise send the ETA and run the later polls, keeping status equal to the last status sent |
| Restaurant.MegaBurgerOrderWorkflow.CloseOut | instafood/src/main/java/com/instafood/orders/megaburger/MegaBurgerOrderWorkflowImpl.java:47 | one later poll: forward what replaced the status, or stay suspended waiting |
| Restaurant.MegaBurgerOrderWorkflow.CloseAll | instafood/src/main/java/com/instafood/orders/megaburger/MegaBurgerOrderWorkflowImpl.java:46-51 | the polls away from ACCEPTED, COOKING and READY in turn, then completion |
| Restaurant.RunCases | instafood/src/main/java/com/instafood/orders/megaburger/MegaBurgerOrderWorkflowImpl.java:30-52 | every run is one of five: still polling away from PENDING; rejected; waiting for the ETA read; failed for lack of an ETA; or the ETA followed by the later polls, each with its exact messages |
| Restaurant.OpeningMessages | instafood/src/main/java/com/instafood/orders/megaburger/MegaBurgerOrderWorkflowImpl.java:33-38 | every run creates the remote order first and sends PENDING first; it stops there exactly when no other status is read, otherwise the next message is a status other than PENDING |
| Restaurant.RejectionStopsAtOnce | instafood/src/main/java/com/instafood/orders/megaburger/MegaBurgerOrderWorkflowImpl.java:38-42 | if the first status after PENDING is REJECTED, the run sends it and fails with nothing else, whatever later reads would say |
| Restaurant.AfterFirstOutcomes | instafood/src/main/java/com/instafood/orders/megaburger/MegaBurgerOrderWorkflowImpl.java:38-44 | after the first transition the ETA follows, or the run has failed on REJECTED, failed on a missing ETA, or waits for the ETA read |
| Restaurant.EtaOutcome | instafood/src/main/java/com/instafood/orders/megaburger/MegaBurgerOrderWorkflowImpl.java:43-51 | once the ETA is sent, the later messages are statuses away from ACCEPTED, COOKING and READY in turn, then completion, or the run waits at the first poll that has not finished |
| Restaurant.EtaSentOnce | instafood/src/main/java/com/instafood/orders/megaburger/MegaBurgerOrderWorkflowImpl.java:43-44 | the ETA is sent at most once, as the fourth effect, right after a first transition other than REJECTED |
| Restaurant.ClosingLogShape | instafood/src/main/java/com/instafood/orders/megaburger/MegaBurgerOrderWorkflowImpl.java:46-51 | the later polls send one status per finished poll, each different from the status it waited out, then completion after all three; otherwise the workflow is left waiting on the first poll that has not finished |
| Restaurant.WaitOutSplit | instafood/src/main/java/com/instafood/orders/megaburger/MegaBurgerOrderWorkflowImpl.java:46-51 | what the later polls send and where they leave the workflow depend only on the reads, not on what was sent before |
| Restaurant.AfterFirstKeepsLog | instafood/src/main/java/com/instafood/orders/megaburger/MegaBurgerOrderWorkflowImpl.java:40-51 | everything after the first transition only adds to what was sent, and never returns to waiting on PENDING |
| Restaurant.CompletedMessages | instafood/src/main/java/com/instafood/orders/megaburger/MegaBurgerOrderWorkflowImpl.java:30-52 | a completed run sent exactly: the request, PENDING, s1, the ETA, s2, s3, s4, then completion, with each status away from the one it waited out |
| Restaurant.ClosingPollsIgnoreObservedStatus | instafood/src/main/java/com/instafood/orders/megaburger/MegaBurgerOrderWorkflowImpl.java:46-51 | the later polls wait out fixed constants: an order that goes PENDING to COOKING has COOKING sent twice |
| Restaurant.StatusIsLastSent | instafood/src/main/java/com/instafood/orders/megaburger/MegaBurgerOrderWorkflowImpl.java:63-66 | in every run, the status the workflow answers with is the last one it sent |
| Restaurant.WaitOutKeepsMatch | instafood/src/main/java/com/instafood/orders/megaburger/MegaBurgerOrderWorkflowImpl.java:46-51 | the later polls keep the remembered status equal to the last one sent |
| Delivery.CourierDeliveryWorkflow.constructor | instafood/src/main/java/com/instafood/orders/delivery/CourierDeliveryWorkflowImpl.java:9 | a fresh courier workflow has status CREATED and has sent nothing |
| Delivery.CourierDeliveryWorkflow.UpdateStatus | instafood/src/main/java/com/instafood/orders/delivery/CourierDeliveryWorkflowImpl.java:35-38 | the signal overwrites the courier status and keeps the invariant |
| Delivery.SignalOverwrites | instafood/src/main/java/com/instafood/orders/delivery/CourierDeliveryWorkflowImpl.java:35-38 | the initial status is CREATED; a signal overwrites it whatever it was; repeating it changes nothing |
| Delivery.CourierDeliveryWorkflow.DeliverOrder | instafood/src/main/java/com/instafood/orders/delivery/CourierDeliveryWorkflowImpl.java:12-15 | `deliverOrder` runs to its first wait |
| Delivery.CourierDeliveryWorkflow.AwaitAssignment | instafood/src/main/java/com/instafood/orders/delivery/CourierDeliveryWorkflowImpl.java:15-21 | resumes exactly when the status is not CREATED; REJECTED sends COURIER_REJECTED and fails, anything else sends COURIER_ACCEPTED |
| Delivery.AssignmentAwait | instafood/src/main/java/com/instafood/orders/delivery/CourierDeliveryWorkflowImpl.java:15-21 | the first wait ends if and only if the status is not CREATED; rejection sends COURIER_REJECTED and fails; PICKED_UP or DELIVERED first still send COURIER_ACCEPTED |
| Delivery.CourierDeliveryWorkflow.AwaitPickedUp | instafood/src/main/java/com/instafood/orders/delivery/CourierDeliveryWorkflowImpl.java:23-24 | resumes exactly on PICKED_UP and sends PICKED_UP |
| Delivery.CourierDeliveryWorkflow.AwaitDelivered | instafood/src/main/java/com/instafood/orders/delivery/CourierDeliveryWorkflowImpl.java:26-27 | resumes exactly on DELIVERED, sends COURIER_DELIVERED and completes |
| Delivery.ReportsFollowObservedStatus | instafood/src/main/java/com/instafood/orders/delivery/CourierDeliveryWorkflowImpl.java:23-27 | PICKED_UP is first sent only by a step that sees PICKED_UP, COURIER_DELIVERED only by one that sees DELIVERED |
| Delivery.StepPreservesWellFormed | instafood/src/main/java/com/instafood/orders/delivery/CourierDeliveryWorkflowImpl.java:12-28 | every event keeps the log consistent with the phase |
| Delivery.RunPreservesWellFormed | instafood/src/main/java/com/instafood/orders/delivery/CourierDeliveryWorkflowImpl.java:12-28 | every sequence of events keeps the log consistent with the phase |
| Delivery.ReachableLogs | instafood/src/main/java/com/instafood/orders/delivery/CourierDeliveryWorkflowImpl.java:12-28 | the parent receives COURIER_REJECTED and a failure, or a prefix of COURIER_ACCEPTED, PICKED_UP, COURIER_DELIVERED, all of it exactly when completed |
| Delivery.TerminalIsFinal | instafood/src/main/java/com/instafood/orders/delivery/CourierDeliveryWorkflowImpl.java:12-28 | once failed or completed, no event changes the phase or the log |
| Delivery.DeliveredFirstWaitsForPickUp | instafood/src/main/java/com/instafood/orders/delivery/CourierDeliveryWorkflowImpl.java:21-23 | a courier that reports DELIVERED before PICKED_UP is reported accepted, and then the workflow keeps waiting for PICKED_UP |
| Delivery.StuckAwaitingPickedUp | instafood/src/main/java/com/instafood/orders/delivery/CourierDeliveryWorkflowImpl.java:23 | without PICKED_UP, any number of re-evaluations leave the workflow as it is |
| BackendOrder.Order.constructor | megaburger/src/main/java/com/instaclustr/megaburger/domain/Order.java:13-17 | a new order has the given meal and quantity, status PENDING, and no id or ETA |
| BackendOrder.Order.GetId | megaburger/src/main/java/com/instaclustr/megaburger/domain/Order.java:19-21 | answers the id of the snapshot the setters describe |
| BackendOrder.Order.GetMeal | megaburger/src/main/java/com/instaclustr/megaburger/domain/Order.java:23-25 | answers the meal of the snapshot, fixed since construction |
| BackendOrder.Order.GetQuantity | megaburger/src/main/java/com/instaclustr/megaburger/domain/Order.java:27-29 | answers the quantity of the snapshot, fixed since construction |
| BackendOrder.Order.GetStatus | megaburger/src/main/java/com/instaclustr/megaburger/domain/Order.java:35-37 | answers the status of the snapshot the setters describe |
| BackendOrder.Order.GetEtaMinutes | megaburger/src/main/java/com/instaclustr/megaburger/domain/Order.java:47-49 | answers the ETA of the snapshot the setters describe |
| BackendOrder.Order.SetId | megaburger/src/main/java/com/instaclustr/megaburger/domain/Order.java:31-33 | only the id changes |
| BackendOrder.Order.UpdateStatus | megaburger/src/main/java/com/instaclustr/megaburger/domain/Order.java:39-41 | only the status changes |
| BackendOrder.Order.UpdateEta | megaburger/src/main/java/com/instaclustr/megaburger/domain/Order.java:43-45 | only the ETA changes |
| OrdersController.Patched | megaburger/src/main/java/com/instaclustr/megaburger/controller/OrdersApi.java:47-48 | a patch sets status and ETA only where it carries them; id, meal and quantity are kept |
| OrdersController.PatchIdempotent | megaburger/src/main/java/com/instaclustr/megaburger/controller/OrdersApi.java:47-48 | applying a patch twice is applying it once; an empty patch changes nothing |
| OrdersController.CreateKeepsDense | megaburger/src/main/java/com/instaclustr/megaburger/controller/OrdersApi.java:58-60 | on a dense table the new id is unused, the table grows by one, no stored order is overwritten, and it stays dense |
| OrdersController.UpdateKeepsKeys | megaburger/src/main/java/com/instaclustr/megaburger/controller/OrdersApi.java:45-50 | a patch keeps the set of ids and every order's id, meal and quantity, touches no other order, and keeps the table dense |
| OrdersController.ReplayKeepsDense | megaburger/src/main/java/com/instaclustr/megaburger/controller/OrdersApi.java:42-67 | any sequence of create, update and clear requests keeps the ids exactly 0 .. size-1 |
| OrdersController.DenseFromEmpty | megaburger/src/main/java/com/instaclustr/megaburger/controller/OrdersApi.java:25 | from the empty table, every request history leaves a dense table |
| OrdersController.OrdersApi.constructor | megaburger/src/main/java/com/instaclustr/megaburger/controller/OrdersApi.java:25 | the table starts empty |
| OrdersController.OrdersApi.GetAll | megaburger/src/main/java/com/instaclustr/megaburger/controller/OrdersApi.java:28-34 | status 200 with every stored order exactly once, in strictly ascending id order |
| OrdersController.OrdersApi.Below | megaburger/src/main/java/com/instaclustr/megaburger/controller/OrdersApi.java:31-33 | the orders under ids 0 .. n-1, in id order |
| OrdersController.OrdersApi.GetById | megaburger/src/main/java/com/instaclustr/megaburger/controller/OrdersApi.java:36-40 | status 200 with the order stored under the id, or with no body when there is none |
| OrdersController.OrdersApi.Create | megaburger/src/main/java/com/instaclustr/megaburger/controller/OrdersApi.java:55-63 | status 201 with the order, which now has the old number of orders as id and is stored under it; the table stays dense |
| OrdersController.OrdersApi.Update | megaburger/src/main/java/com/instaclustr/megaburger/controller/OrdersApi.java:42-53 | a stored id gets the patch in place and status 200 with that order; a missing id ends in a null dereference with nothing changed; the ids never change |
| OrdersController.OrdersApi.DeleteAll | megaburger/src/main/java/com/instaclustr/megaburger/controller/OrdersApi.java:65-67 | the table is empty, so the listing is empty |

## Left out

- The workflow runtime: durable replay and history, child and external
  workflow stubs, and the queueing of signals. Signals are events and
  re-evaluating an await is an explicit `Resume`.
- The activity retry and timeout options of the restaurant workflow, and the
  ten-second sleep between polls. The sleep changes no state, so it is left
  out.
- A backend call that fails for good. When `createOrder` or `getOrderById`
  uses up its three attempts, the restaurant workflow fails and the order
  workflow keeps waiting. In the model the backend's answers can only run out,
  which leaves the restaurant workflow suspended; they never fail.
- The timer's duration. The ETA at the end of the first wait is recorded as
  the timer's length, but the timer's expiry is a `TimerFired` event, not a
  clock.
- The failure of a child workflow does not reach the parent in this model. The
  parent learns of a rejection only through the status signal, as in the
  source.
- The Java `int` width of the ETA and of quantities. They are unbounded
  integers here, because no operation of the core does arithmetic on them.
- The HTTP client, the JSON encoding and the activity wrappers that connect the
  restaurant workflow to the backend. The backend's answers are an input
  sequence instead.
- How the backend binds a JSON patch body to an `Order`. The patch is the two
  optional fields `update` reads from it.
- Null fields other than the missing ETA and a missing id in `update`. The
  restaurant is `MegaBurger` or `OtherRestaurant(name)`, because the
  `Restaurant` enum's source is not part of this model.
- The backend's own `OrderStatus` enum is not part of this model. The backend
  uses the workflows' eleven statuses.
- The concurrency of the backend's map, Spring's annotations, the response
  wrapper and its headers, and logging. A response is a status code and a
  body.
- Courier GPS tracking and the version gate. The courier workflow modelled
  here has neither.

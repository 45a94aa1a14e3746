/** Values shared by the three order-fulfilment workflows: the order lifecycle,
  * the customer's food order, the courier job derived from it, the order record
  * exchanged with the restaurant's backend, and the effects a workflow emits
  * (children started, messages sent to its parent, its outcome). */
module Domain {

  datatype Option<+T> = None | Some(value: T)

  /** The eleven states of an order, in declaration order. */
  datatype OrderStatus =
    | Created
    | Pending
    | Accepted
    | Rejected
    | Cooking
    | Ready
    | CourierAccepted
    | CourierRejected
    | RestaurantDelivered
    | PickedUp
    | CourierDelivered

  /** The restaurant an order is placed with. Only MegaBurger is integrated;
    * every other value (including a missing one) is an OtherRestaurant. */
  datatype Restaurant = MegaBurger | OtherRestaurant(name: string)

  /** What the customer orders; immutable once built. */
  datatype FoodOrder = FoodOrder(
    restaurant: Restaurant,
    meal: string,
    quantity: int,
    telephone: string,
    address: string,
    pickup: bool)

  /** What a courier is given: where to collect and whom to call. */
  datatype CourierDeliveryJob = CourierDeliveryJob(
    restaurant: Restaurant,
    address: string,
    telephone: string)

  /** The restaurant backend's order as the workflows see it; every field is
    * a boxed value that may be absent. */
  datatype MegaBurgerFoodOrder = MegaBurgerFoodOrder(
    id: Option<int>,
    meal: Option<string>,
    quantity: Option<int>,
    status: Option<OrderStatus>,
    etaMinutes: Option<int>)

  /** Why a workflow ended in failure. */
  datatype FailureReason =
    | UnsupportedRestaurant(restaurant: Restaurant)
    | OrderRejected
    | RestaurantRejected(orderId: int)
    | MissingEta(orderId: int)
    | CourierRejectedJob

  /** One outgoing effect of a workflow, in the order it happens. */
  datatype Effect =
    | StartedRestaurantChild(order: FoodOrder)
    | StartedCourierChild(job: CourierDeliveryJob)
    | CreatedRemoteOrder(request: MegaBurgerFoodOrder)
    | SentStatus(status: OrderStatus)
    | SentEta(minutes: int)
    | WorkflowFailed(reason: FailureReason)
    | WorkflowCompleted

  /** The status most recently sent to the parent, or `initial` if none was. */
  function LastSentStatus(log: seq<Effect>, initial: OrderStatus): OrderStatus
    decreases |log|
  {
    if log == [] then initial
    else if log[|log| - 1].SentStatus? then log[|log| - 1].status
    else LastSentStatus(log[..|log| - 1], initial)
  }

  /** Appending an effect changes the last sent status only if the effect
    * is itself a status message. */
  lemma LastSentStatusAppend(log: seq<Effect>, e: Effect, initial: OrderStatus)
    ensures LastSentStatus(log + [e], initial) == if e.SentStatus? then e.status else LastSentStatus(log, initial)
  {
    assert (log + [e])[..|log|] == log;
  }
}

/** The MegaBurger backend's order object (megaburger Order). Meal and
  * quantity are fixed at construction; id, status and ETA are changed in
  * place, each by its own setter and nothing else. */
module BackendOrder {
  import opened Domain

  /** The fields of an order at one moment, as a value. */
  datatype OrderRecord = OrderRecord(
    id: Option<int>,
    meal: string,
    quantity: int,
    status: OrderStatus,
    etaMinutes: Option<int>)

  class Order {
    var id: Option<int>
    const meal: string
    const quantity: int
    var status: OrderStatus
    var etaMinutes: Option<int>

    /** The order's fields as a record. */
    function Snapshot(): OrderRecord
      reads this
    {
      OrderRecord(id, meal, quantity, status, etaMinutes)
    }

    /** A new order is PENDING, with no id and no ETA yet. */
    constructor (meal: string, quantity: int)
      ensures Snapshot() == OrderRecord(None, meal, quantity, Pending, None)
    {
      this.meal := meal;
      this.quantity := quantity;
      status := Pending;
      id := None;
      etaMinutes := None;
    }

    /** Each getter answers the matching field of the snapshot, the record
      * on which the constructor and the setters state what they do. */
    function GetId(): (r: Option<int>)
      reads this
      ensures r == Snapshot().id
    {
      id
    }

    function GetMeal(): (r: string)
      reads this
      ensures r == Snapshot().meal
    {
      meal
    }

    function GetQuantity(): (r: int)
      reads this
      ensures r == Snapshot().quantity
    {
      quantity
    }

    function GetStatus(): (r: OrderStatus)
      reads this
      ensures r == Snapshot().status
    {
      status
    }

    function GetEtaMinutes(): (r: Option<int>)
      reads this
      ensures r == Snapshot().etaMinutes
    {
      etaMinutes
    }

    method SetId(nextInt: int)
      modifies this`id
      ensures Snapshot() == old(Snapshot()).(id := Some(nextInt))
    {
      id := Some(nextInt);
    }

    method UpdateStatus(status: OrderStatus)
      modifies this`status
      ensures Snapshot() == old(Snapshot()).(status := status)
    {
      this.status := status;
    }

    method UpdateEta(etaMinutes: int)
      modifies this`etaMinutes
      ensures Snapshot() == old(Snapshot()).(etaMinutes := Some(etaMinutes))
    {
      this.etaMinutes := Some(etaMinutes);
    }
  }
}

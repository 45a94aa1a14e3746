/** The MegaBurger backend's order table (megaburger OrdersApi): orders kept
  * in a map keyed by id, created with the next id, patched in place, listed
  * by id and cleared. A response is a status code and a body. */
module OrdersController {
  import opened Domain
  import opened BackendOrder

  datatype Response<T> = Response(code: int, body: T)

  /** `update`'s outcome: the patched order, or the null dereference that
    * patching a missing id ends in. */
  datatype UpdateResult = Updated(response: Response<Order>) | NullDereference

  /** The two fields a patch request can carry; an absent one is left as is. */
  datatype OrderPatch = OrderPatch(status: Option<OrderStatus>, etaMinutes: Option<int>)

  // ---------------------------------------------------------------------
  // The table as a value

  /** A patch applied to one order. */
  function Patched(r: OrderRecord, p: OrderPatch): (r': OrderRecord)
    ensures r'.id == r.id && r'.meal == r.meal && r'.quantity == r.quantity
    ensures r'.status == (if p.status.Some? then p.status.value else r.status)
    ensures r'.etaMinutes == (if p.etaMinutes.Some? then p.etaMinutes else r.etaMinutes)
  {
    var r1 := if p.status.Some? then r.(status := p.status.value) else r;
    if p.etaMinutes.Some? then r1.(etaMinutes := p.etaMinutes) else r1
  }

  /** Patching twice with the same request is patching once, and an empty
    * request changes nothing. */
  lemma PatchIdempotent(r: OrderRecord, p: OrderPatch)
    ensures Patched(Patched(r, p), p) == Patched(r, p)
    ensures Patched(r, OrderPatch(None, None)) == r
  {
  }

  /** The ids are exactly 0 .. size-1, and each order is stored under its
    * own id. */
  ghost predicate Dense(t: map<int, OrderRecord>) {
    && (forall k :: k in t <==> 0 <= k < |t|)
    && (forall k :: k in t ==> t[k].id == Some(k))
  }

  /** `create` on the table: the order gets the next id and is stored under it. */
  function CreateIn(t: map<int, OrderRecord>, r: OrderRecord): map<int, OrderRecord> {
    t[|t| := r.(id := Some(|t|))]
  }

  /** `update` on the table; a missing id leaves it as it was. */
  function UpdateIn(t: map<int, OrderRecord>, id: int, p: OrderPatch): map<int, OrderRecord> {
    if id in t then t[id := Patched(t[id], p)] else t
  }

  /** On a table whose ids are dense, `create` uses a fresh id, so nothing
    * stored is overwritten, the table grows by one, and it stays dense. */
  lemma CreateKeepsDense(t: map<int, OrderRecord>, r: OrderRecord)
    requires Dense(t)
    ensures |t| !in t
    ensures |CreateIn(t, r)| == |t| + 1
    ensures forall k :: k in t ==> k in CreateIn(t, r) && CreateIn(t, r)[k] == t[k]
    ensures Dense(CreateIn(t, r))
  {
    var t' := CreateIn(t, r);
    assert |t| !in t;
    assert |t'| == |t| + 1;
    forall k | k in t'
      ensures t'[k].id == Some(k)
    {
      if k != |t| {
        assert t'[k] == t[k];
      }
    }
  }

  /** `update` never adds or removes an id, never changes an order's id, meal
    * or quantity, and touches no other order. */
  lemma UpdateKeepsKeys(t: map<int, OrderRecord>, id: int, p: OrderPatch)
    ensures UpdateIn(t, id, p).Keys == t.Keys
    ensures forall k :: k in t ==>
      && UpdateIn(t, id, p)[k].id == t[k].id
      && UpdateIn(t, id, p)[k].meal == t[k].meal
      && UpdateIn(t, id, p)[k].quantity == t[k].quantity
      && (k != id ==> UpdateIn(t, id, p)[k] == t[k])
    ensures Dense(t) ==> Dense(UpdateIn(t, id, p))
  {
    if id in t {
      assert UpdateIn(t, id, p).Keys == t.Keys;
    }
  }

  /** The requests that change the table. */
  datatype Request =
    | Create(order: OrderRecord)
    | Update(id: int, patch: OrderPatch)
    | DeleteAll

  function Apply(t: map<int, OrderRecord>, q: Request): map<int, OrderRecord> {
    match q
    case Create(r) => CreateIn(t, r)
    case Update(id, p) => UpdateIn(t, id, p)
    case DeleteAll => map[]
  }

  function Replay(t: map<int, OrderRecord>, qs: seq<Request>): map<int, OrderRecord>
    decreases |qs|
  {
    if qs == [] then t else Replay(Apply(t, qs[0]), qs[1..])
  }

  /** Whatever requests arrive, starting from the empty table, the ids stay
    * exactly 0 .. size-1, each order under its own id. */
  lemma {:induction false} ReplayKeepsDense(t: map<int, OrderRecord>, qs: seq<Request>)
    requires Dense(t)
    ensures Dense(Replay(t, qs))
    decreases |qs|
  {
    if qs != [] {
      match qs[0] {
        case Create(r) => CreateKeepsDense(t, r);
        case Update(id, p) => UpdateKeepsKeys(t, id, p);
        case DeleteAll =>
      }
      ReplayKeepsDense(Apply(t, qs[0]), qs[1..]);
    }
  }

  lemma DenseFromEmpty(qs: seq<Request>)
    ensures Dense(Replay(map[], qs))
  {
    ReplayKeepsDense(map[], qs);
  }

  // ---------------------------------------------------------------------
  // The controller object

  class OrdersApi {
    var orders: map<int, Order>

    /** The stored orders' fields, by id. */
    function Table(): map<int, OrderRecord>
      reads this, orders.Values
    {
      map k | k in orders :: orders[k].Snapshot()
    }

    ghost predicate Valid()
      reads this, orders.Values
    {
      Dense(Table())
    }

    /** The table has exactly the stored ids, so as many entries. */
    lemma TableKeys()
      ensures Table().Keys == orders.Keys && |Table()| == |orders|
    {
      assert Table().Keys == orders.Keys;
    }

    /** In a dense table every stored object sits under one id only. */
    lemma Distinct(id: int)
      requires Valid() && id in orders
      ensures forall k :: k in orders && k != id ==> orders[k] != orders[id]
    {
      TableKeys();
      forall k | k in orders && k != id
        ensures orders[k] != orders[id]
      {
        assert k in Table() && id in Table();
      }
    }

    constructor ()
      ensures Valid() && orders == map[]
    {
      orders := map[];
    }

    /** `getAll`: every stored order, in ascending id order. */
    function GetAll(): (r: Response<seq<Order>>)
      requires Valid()
      reads this, orders.Values
      ensures r.code == 200 && |r.body| == |orders|
      ensures forall i :: 0 <= i < |r.body| ==> r.body[i].id == Some(i)
      ensures forall i, j :: 0 <= i < j < |r.body| ==> r.body[i].id.value < r.body[j].id.value
      ensures forall i :: 0 <= i < |r.body| ==> i in orders && r.body[i] == orders[i]
      ensures forall k :: k in orders ==> 0 <= k < |r.body|
    {
      TableKeys();
      Response(200, Below(|orders|))
    }

    /** The orders stored under ids 0 .. n-1, in that order. */
    function Below(n: nat): (r: seq<Order>)
      requires Valid() && n <= |orders|
      reads this, orders.Values
      ensures |r| == n
      ensures forall i :: 0 <= i < n ==> i in orders && r[i] == orders[i] && r[i].id == Some(i)
    {
      if n == 0 then []
      else
        TableKeys();
        Below(n - 1) + [orders[n - 1]]
    }

    /** `getById`: the stored order, or nothing, always with status 200. */
    function GetById(orderId: int): (r: Response<Option<Order>>)
      reads this
      ensures r.code == 200
      ensures r.body.Some? <==> orderId in orders
      ensures r.body.Some? ==> r.body.value == orders[orderId]
    {
      Response(200, if orderId in orders then Some(orders[orderId]) else None)
    }

    /** `create`: the order gets the current number of orders as its id and
      * is stored under it; the request body is a new object, never one
      * already stored. */
    method Create(order: Order) returns (r: Response<Order>)
      requires Valid() && order !in orders.Values
      modifies this`orders, order`id
      ensures r == Response(201, order)
      ensures orders == old(orders)[old(|orders|) := order]
      ensures order.Snapshot() == old(order.Snapshot()).(id := Some(old(|orders|)))
      ensures Table() == CreateIn(old(Table()), old(order.Snapshot()))
      ensures Valid()
    {
      ghost var t := Table();
      ghost var rec := order.Snapshot();
      CreateKeepsDense(t, rec);
      TableKeys();
      order.SetId(|orders|);
      orders := orders[order.GetId().value := order];
      assert Table() == CreateIn(t, rec);
      r := Response(201, order);
    }

    /** `update`: apply the patch to the stored order in place. A missing id
      * dereferences null before anything is changed. */
    method Update(orderId: int, patch: OrderPatch) returns (r: UpdateResult)
      requires Valid()
      modifies this`orders, orders.Values
      ensures orders == old(orders)
      ensures orderId !in orders ==> r == NullDereference && Table() == old(Table())
      ensures orderId in orders ==> r == Updated(Response(200, orders[orderId]))
      ensures Table() == UpdateIn(old(Table()), orderId, patch)
      ensures Valid()
    {
      if orderId !in orders {
        return NullDereference;
      }
      ghost var t := Table();
      var order := orders[orderId];
      Distinct(orderId);
      if patch.status.Some? {
        order.UpdateStatus(patch.status.value);
      }
      if patch.etaMinutes.Some? {
        order.UpdateEta(patch.etaMinutes.value);
      }
      assert order.Snapshot() == Patched(t[orderId], patch);
      UpdateKeepsKeys(t, orderId, patch);
      forall k | k in orders
        ensures Table()[k] == UpdateIn(t, orderId, patch)[k]
      {
      }
      assert Table().Keys == UpdateIn(t, orderId, patch).Keys;
      r := Updated(Response(200, order));
    }

    /** `deleteAll`: the table is emptied, so the listing is empty. */
    method DeleteAll()
      modifies this`orders
      ensures orders == map[] && Valid()
      ensures GetAll().body == []
    {
      orders := map[];
    }
  }
}

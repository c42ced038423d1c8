/** InMemoryOrderRepository: orders kept in a dictionary keyed by the text of their id. */
module OrderStore {
  import opened Wrappers
  import opened Identifiers
  import opened Orders

  class InMemoryOrderRepository {
    /** `_orders`: each entry holds the state the order had when it was last saved. */
    var orders: map<string, OrderValue>

    /** Every entry sits under the text of its own id, and every stored order is one an Order
        can be in. */
    ghost predicate Valid()
      reads this
    {
      KeyedById() && forall k :: k in orders ==> OrderInvariant(orders[k])
    }

    ghost predicate KeyedById()
      reads this
    {
      forall k :: k in orders ==> orders[k].id.value == k
    }

    constructor ()
      ensures Valid() && orders == map[]
    {
      orders := map[];
    }

    /** `save`: stores the order under `str(order.id)`, replacing what was there. */
    method Save(order: OrderValue)
      requires Valid() && OrderInvariant(order)
      modifies this`orders
      ensures Valid()
      ensures orders == old(orders)[order.id.value := order]
      ensures |orders| == if order.id.value in old(orders) then |old(orders)| else |old(orders)| + 1
    {
      orders := orders[order.id.value := order];
    }

    /** `find_by_id`. */
    function FindById(id: OrderId): (r: Option<OrderValue>)
      reads this
      ensures r.Some? <==> id.value in orders
      ensures r.Some? ==> r.value == orders[id.value]
    {
      if id.value in orders then Some(orders[id.value]) else None
    }

    /** `find_by_customer_id`: every stored order of that customer, each once, and nothing else. */
    method FindByCustomerId(customerId: CustomerId) returns (r: seq<OrderValue>)
      requires KeyedById()
      ensures forall o :: o in r <==> o in orders.Values && o.customerId == customerId
      ensures forall i, j :: 0 <= i < j < |r| ==> r[i] != r[j]
    {
      r := [];
      var stored := orders;
      var remaining := stored.Keys;
      ghost var visited: set<string> := {};
      while remaining != {}
        invariant remaining <= stored.Keys && visited == stored.Keys - remaining
        invariant Gathered(stored, customerId, visited, r)
        decreases |remaining|
      {
        var k :| k in remaining;
        var order := stored[k];
        ghost var before := r;
        if order.customerId == customerId {
          r := r + [order];
        }
        GatherStep(stored, customerId, visited, before, k);
        remaining := remaining - {k};
        visited := visited + {k};
      }
      GatheredEverything(stored, customerId, r);
    }

    /** `delete`: removes the entry if there is one; the others stay. */
    method Delete(id: OrderId)
      requires Valid()
      modifies this`orders
      ensures Valid()
      ensures orders == old(orders) - {id.value}
      ensures |orders| == if id.value in old(orders) then |old(orders)| - 1 else |old(orders)|
    {
      if id.value in orders {
        orders := orders - {id.value};
      }
    }

    /** `clear`. */
    method Clear()
      modifies this`orders
      ensures Valid() && orders == map[]
    {
      orders := map[];
    }

    /** `size`. */
    function Size(): (n: nat)
      reads this
      ensures n == |orders.Keys|
    {
      |orders|
    }
  }

  /** What the loop of `find_by_customer_id` has gathered from the keys in `visited`: exactly the
      orders of `customerId` stored under those keys, each once. */
  ghost predicate Gathered(m: map<string, OrderValue>, customerId: CustomerId, visited: set<string>, r: seq<OrderValue>)
  {
    && (forall i :: 0 <= i < |r| ==>
          r[i].id.value in visited && r[i].id.value in m && m[r[i].id.value] == r[i] && r[i].customerId == customerId)
    && (forall k :: k in visited && k in m && m[k].customerId == customerId ==> m[k] in r)
    && (forall i, j :: 0 <= i < j < |r| ==> r[i].id != r[j].id)
  }

  /** One more key seen: its order is appended exactly when it belongs to the customer. */
  lemma GatherStep(m: map<string, OrderValue>, customerId: CustomerId, visited: set<string>, r: seq<OrderValue>, k: string)
    requires forall key :: key in m ==> m[key].id.value == key
    requires Gathered(m, customerId, visited, r) && k in m && k !in visited
    ensures Gathered(m, customerId, visited + {k}, if m[k].customerId == customerId then r + [m[k]] else r)
  {
  }

  /** Once every key is seen, the gathered orders are exactly the customer's stored orders. */
  lemma GatheredEverything(m: map<string, OrderValue>, customerId: CustomerId, r: seq<OrderValue>)
    requires Gathered(m, customerId, m.Keys, r)
    ensures forall o :: o in r <==> o in m.Values && o.customerId == customerId
    ensures forall i, j :: 0 <= i < j < |r| ==> r[i] != r[j]
  {
    forall o | o in m.Values && o.customerId == customerId
      ensures o in r
    {
      var k :| k in m && m[k] == o;
    }
  }
}

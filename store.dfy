/** The persisted state the route handlers share: the medicine, order and
    inventory collections of the document store and the relational billing
    table, with the invariant every handler keeps, and the
    `find(...).sort({ createdAt: -1 })` query the order listings use. */
module Store {
  import opened Wrappers
  import opened Http
  import opened OrderModel
  import opened MedicineModel
  import opened InventoryModel
  import opened Billing
  import opened Ledger

  /** The human-readable order ids in use. */
  function OrderIds(orders: map<Id, Order>): set<string> {
    set k | k in orders :: orders[k].orderId
  }

  ghost function BilledIds(billing: seq<BillingRow>): set<string> {
    set i | 0 <= i < |billing| :: billing[i].orderId
  }

  /** What holds of every order from its creation on: its total is the sum of
      its lines, and an order with an agent has a four-digit OTP. */
  ghost predicate WellFormedOrder(o: Order) {
    && o.totalAmount == Subtotal(o.items)
    && (o.assignedTo.Some? ==> o.deliveryOTP.Some? && IsOtp(o.deliveryOTP.value))
  }

  /** The fields no handler changes after creation. */
  predicate SameIdentity(o: Order, o2: Order) {
    o2.orderId == o.orderId && o2.userId == o.userId && o2.items == o.items && o2.totalAmount == o.totalAmount
  }

  /** The store invariant: `orderId` is unique (its unique index), billing
      `order_id` is unique (its UNIQUE column), there is exactly one billing
      row per order and it carries the order's amount, and every order is
      well formed. */
  ghost predicate Consistent(orders: map<Id, Order>, billing: seq<BillingRow>) {
    && (forall k1, k2 :: k1 in orders && k2 in orders && k1 != k2 ==> orders[k1].orderId != orders[k2].orderId)
    && (forall i, j :: 0 <= i < j < |billing| ==> billing[i].orderId != billing[j].orderId)
    && BilledIds(billing) == OrderIds(orders)
    && (forall k, i :: k in orders && 0 <= i < |billing| && billing[i].orderId == orders[k].orderId ==>
          billing[i] == BillingFor(orders[k]))
    && (forall k :: k in orders ==> WellFormedOrder(orders[k]))
  }

  /** Rewriting an order's mutable fields keeps the invariant. */
  lemma ReplaceKeepsConsistent(orders: map<Id, Order>, billing: seq<BillingRow>, id: Id, o2: Order)
    requires Consistent(orders, billing)
    requires id in orders && SameIdentity(orders[id], o2) && WellFormedOrder(o2)
    ensures Consistent(orders[id := o2], billing)
  {
    var orders2 := orders[id := o2];
    assert OrderIds(orders2) == OrderIds(orders) by {
      forall x | x in OrderIds(orders) ensures x in OrderIds(orders2) {
        var k :| k in orders && orders[k].orderId == x;
        assert orders2[k].orderId == x;
      }
    }
    assert BillingFor(o2) == BillingFor(orders[id]);
  }

  /** Storing a new well-formed order under a fresh key and a fresh orderId,
      together with its billing row, keeps the invariant. */
  lemma InsertKeepsConsistent(orders: map<Id, Order>, billing: seq<BillingRow>, key: Id, o: Order)
    requires Consistent(orders, billing)
    requires key !in orders && o.orderId !in OrderIds(orders) && WellFormedOrder(o)
    ensures Consistent(orders[key := o], billing + [BillingFor(o)])
  {
    var orders2 := orders[key := o];
    var billing2 := billing + [BillingFor(o)];
    assert OrderIds(orders2) == OrderIds(orders) + {o.orderId} by {
      forall x | x in OrderIds(orders) ensures x in OrderIds(orders2) {
        var k :| k in orders && orders[k].orderId == x;
        assert orders2[k].orderId == x;
      }
      assert orders2[key].orderId == o.orderId;
    }
    assert BilledIds(billing2) == BilledIds(billing) + {o.orderId} by {
      forall x | x in BilledIds(billing) ensures x in BilledIds(billing2) {
        var i :| 0 <= i < |billing| && billing[i].orderId == x;
        assert billing2[i].orderId == x;
      }
      assert billing2[|billing|].orderId == o.orderId;
    }
    forall k, i | k in orders2 && 0 <= i < |billing2| && billing2[i].orderId == orders2[k].orderId
      ensures billing2[i] == BillingFor(orders2[k])
    {
      if i < |billing| {
        assert billing[i].orderId in BilledIds(billing);
        if k == key {
          assert false;
        }
      } else if k != key {
        assert false;
      }
    }
  }

  class Db {
    var medicines: map<Id, Medicine>
    var orders: map<Id, Order>
    var inventory: map<Id, InventoryRec>
    var billing: seq<BillingRow>

    constructor ()
      ensures Valid()
      ensures medicines == map[] && orders == map[] && inventory == map[] && billing == []
    {
      medicines := map[];
      orders := map[];
      inventory := map[];
      billing := [];
      assert BilledIds([]) == {};
    }

    ghost predicate Valid()
      reads this
    {
      Consistent(orders, billing)
    }

    /** Stock of medicine `m` not accounted for by inventory records. */
    ghost function Balance(m: Id): int
      reads this
      requires m in medicines
    {
      BalanceOf(medicines, inventory, m)
    }
  }

  function IdsOf(list: seq<(Id, Order)>): set<Id> {
    set i | 0 <= i < |list| :: list[i].0
  }

  predicate DistinctIds(list: seq<(Id, Order)>) {
    forall i, j :: 0 <= i < j < |list| ==> list[i].0 != list[j].0
  }

  /** Sorted by `createdAt`, newest first. */
  predicate NewestFirst(list: seq<(Id, Order)>) {
    forall i, j :: 0 <= i < j < |list| ==> list[i].1.createdAt >= list[j].1.createdAt
  }

  /** Inserts `entry` before the first element older than it. */
  method InsertNewestFirst(list: seq<(Id, Order)>, entry: (Id, Order)) returns (r: seq<(Id, Order)>, j: int)
    requires NewestFirst(list)
    ensures 0 <= j <= |list| && r == list[..j] + [entry] + list[j..]
    ensures NewestFirst(r)
  {
    j := 0;
    while j < |list| && list[j].1.createdAt >= entry.1.createdAt
      invariant 0 <= j <= |list|
      invariant forall i :: 0 <= i < j ==> list[i].1.createdAt >= entry.1.createdAt
    {
      j := j + 1;
    }
    r := list[..j] + [entry] + list[j..];
    assert forall i :: 0 <= i < |r| ==> r[i] == (if i < j then list[i] else if i == j then entry else list[i - 1]);
  }

  /** What an insertion does to the ids and entries of a list. */
  lemma InsertedEntries(list: seq<(Id, Order)>, entry: (Id, Order), j: int)
    requires 0 <= j <= |list|
    ensures IdsOf(list[..j] + [entry] + list[j..]) == IdsOf(list) + {entry.0}
    ensures forall i :: 0 <= i < |list| + 1 ==>
      (list[..j] + [entry] + list[j..])[i] == (if i < j then list[i] else if i == j then entry else list[i - 1])
  {
    var r := list[..j] + [entry] + list[j..];
    assert forall i :: 0 <= i < |r| ==> r[i] == (if i < j then list[i] else if i == j then entry else list[i - 1]);
    forall x | x in IdsOf(list) ensures x in IdsOf(r) {
      var i :| 0 <= i < |list| && list[i].0 == x;
      if i < j { assert r[i].0 == x; } else { assert r[i + 1].0 == x; }
    }
    assert r[j].0 == entry.0;
  }

  /** The listing built so far while `rest` is still to be visited: stored
      orders the query keeps, each once, and every kept order already
      visited. */
  predicate Listing(orders: map<Id, Order>, keep: Order -> bool, rest: set<Id>, list: seq<(Id, Order)>) {
    && (forall i :: 0 <= i < |list| ==>
          list[i].0 in orders && orders[list[i].0] == list[i].1 && keep(list[i].1) && list[i].0 !in rest)
    && (forall k :: k in orders && k !in rest && keep(orders[k]) ==> k in IdsOf(list))
    && DistinctIds(list)
  }

  /** Visiting a kept order and inserting it anywhere keeps the listing. */
  lemma ListingInsert(orders: map<Id, Order>, keep: Order -> bool, rest: set<Id>, list: seq<(Id, Order)>, k: Id, j: int)
    requires Listing(orders, keep, rest, list) && k in rest && k in orders && keep(orders[k]) && 0 <= j <= |list|
    ensures Listing(orders, keep, rest - {k}, list[..j] + [(k, orders[k])] + list[j..])
  {
    InsertedEntries(list, (k, orders[k]), j);
  }

  /** `Order.find(query).sort({ createdAt: -1 })`: every stored order the
      query keeps, each once with its id, newest first. */
  method FindNewestFirst(orders: map<Id, Order>, keep: Order -> bool) returns (list: seq<(Id, Order)>)
    ensures forall i :: 0 <= i < |list| ==> list[i].0 in orders && orders[list[i].0] == list[i].1 && keep(list[i].1)
    ensures forall k :: k in orders && keep(orders[k]) ==> k in IdsOf(list)
    ensures DistinctIds(list)
    ensures NewestFirst(list)
  {
    list := [];
    var rest := orders.Keys;
    while rest != {}
      invariant rest <= orders.Keys
      invariant Listing(orders, keep, rest, list)
      invariant NewestFirst(list)
      decreases rest
    {
      var k :| k in rest;
      if keep(orders[k]) {
        ghost var before := list;
        var j;
        list, j := InsertNewestFirst(list, (k, orders[k]));
        ListingInsert(orders, keep, rest, before, k, j);
      }
      rest := rest - {k};
    }
  }
}

/** The pharmacist dashboard: counts of pending orders and prescriptions, the
    revenue of delivered orders, and the five most recent orders, computed
    from the lists the order and prescription listings return. */
module Dashboard {
  import opened OrderModel
  import opened PrescriptionModel
  import Collections

  /** An order still waiting for the pharmacy. */
  predicate AwaitsPharmacy(o: Order) {
    o.status == OrderStatus.Pending || o.status == OrderStatus.Verified
  }

  predicate Settled(o: Order) {
    !AwaitsPharmacy(o)
  }

  predicate IsDelivered(o: Order) {
    o.status == Delivered
  }

  predicate AwaitsReview(p: Prescription) {
    p.status == PrescriptionStatus.Pending
  }

  /** The number of orders waiting for the pharmacy. */
  function PendingOrders(orders: seq<Order>): (n: nat)
    ensures n <= |orders|
  {
    |Collections.Filter(orders, AwaitsPharmacy)|
  }

  /** The number of prescriptions waiting for review. */
  function PendingPrescriptions(prescriptions: seq<Prescription>): (n: nat)
    ensures n <= |prescriptions|
  {
    |Collections.Filter(prescriptions, AwaitsReview)|
  }

  function TotalAmount(o: Order): real {
    o.totalAmount
  }

  /** An order's contribution to the revenue: its amount when delivered,
      nothing otherwise. */
  function DeliveredAmount(o: Order): real {
    if IsDelivered(o) then o.totalAmount else 0.0
  }

  /** Summing the delivered orders' amounts is summing every order's
      contribution. */
  lemma {:induction false} FilteredSumIsMaskedSum(orders: seq<Order>)
    ensures Collections.SumReal(Collections.Filter(orders, IsDelivered), TotalAmount)
         == Collections.SumReal(orders, DeliveredAmount)
  {
    if orders != [] {
      var init, last := orders[..|orders| - 1], orders[|orders| - 1];
      FilteredSumIsMaskedSum(init);
      var tail := if IsDelivered(last) then [last] else [];
      Collections.SumRealConcat(Collections.Filter(init, IsDelivered), tail, TotalAmount);
      if IsDelivered(last) {
        assert [last][..0] == [];
      }
    }
  }

  /** The amounts of the delivered orders, summed left to right: every
      order contributes its amount if delivered and nothing otherwise. */
  function Revenue(orders: seq<Order>): (r: real)
    ensures r == Collections.SumReal(orders, DeliveredAmount)
  {
    FilteredSumIsMaskedSum(orders);
    Collections.SumReal(Collections.Filter(orders, IsDelivered), TotalAmount)
  }

  /** The pending count plus the count of the other orders is the number of
      orders. */
  lemma PendingOrdersComplement(orders: seq<Order>)
    ensures PendingOrders(orders) + |Collections.Filter(orders, Settled)| == |orders|
  {
    Collections.FilterCountSplit(orders, AwaitsPharmacy, Settled);
  }

  /** Counts and revenue add up over the two halves of a list. */
  lemma StatsSplit(a: seq<Order>, b: seq<Order>)
    ensures PendingOrders(a + b) == PendingOrders(a) + PendingOrders(b)
    ensures Revenue(a + b) == Revenue(a) + Revenue(b)
  {
    Collections.FilterConcat(a, b, AwaitsPharmacy);
    Collections.FilterConcat(a, b, IsDelivered);
    Collections.SumRealConcat(Collections.Filter(a, IsDelivered), Collections.Filter(b, IsDelivered), TotalAmount);
  }

  /** Without delivered orders the revenue is zero. */
  lemma NoDeliveriesNoRevenue(orders: seq<Order>)
    requires forall i :: 0 <= i < |orders| ==> orders[i].status != Delivered
    ensures Revenue(orders) == 0.0
  {
    Collections.FilterNone(orders, IsDelivered);
  }

  /** When every order is delivered the revenue is the sum of all amounts. */
  lemma AllDeliveredRevenue(orders: seq<Order>)
    requires forall i :: 0 <= i < |orders| ==> orders[i].status == Delivered
    ensures Revenue(orders) == Collections.SumReal(orders, TotalAmount)
  {
    Collections.FilterAll(orders, IsDelivered);
  }

  /** Adding one delivered order adds its amount; adding any other order
      leaves the revenue alone. */
  lemma RevenueAppend(orders: seq<Order>, o: Order)
    ensures Revenue(orders + [o]) == Revenue(orders) + (if o.status == Delivered then o.totalAmount else 0.0)
  {
    assert (orders + [o])[..|orders + [o]| - 1] == orders;
    var kept := Collections.Filter(orders, IsDelivered);
    if o.status == Delivered {
      assert Collections.Filter(orders + [o], IsDelivered) == kept + [o];
      assert (kept + [o])[..|kept + [o]| - 1] == kept;
    } else {
      assert Collections.Filter(orders + [o], IsDelivered) == kept + [];
      assert kept + [] == kept;
    }
  }

  /** `orders.slice(0, 5)`: the first five orders, or all of them when there
      are fewer. */
  function Recent(orders: seq<Order>): (r: seq<Order>)
    ensures |r| == if |orders| < 5 then |orders| else 5
    ensures r == orders[..|r|]
  {
    if |orders| <= 5 then orders else orders[..5]
  }

  /** The figures the dashboard shows. */
  datatype Stats = Stats(pendingOrders: nat, pendingPrescriptions: nat, revenue: real)

  function ComputeStats(orders: seq<Order>, prescriptions: seq<Prescription>): (s: Stats)
    ensures s.pendingOrders == PendingOrders(orders) && s.pendingPrescriptions == PendingPrescriptions(prescriptions)
    ensures s.pendingOrders <= |orders| && s.pendingPrescriptions <= |prescriptions|
    ensures s.revenue == Revenue(orders)
  {
    Stats(PendingOrders(orders), PendingPrescriptions(prescriptions), Revenue(orders))
  }
}

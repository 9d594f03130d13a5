/** The `/delivery` route handlers used by delivery agents: the list of an
    agent's open deliveries, the status update, and the OTP check that
    completes a delivery. */
module DeliveryRoutes {
  import opened Wrappers
  import opened Http
  import opened OrderModel
  import opened Store

  /** An order the agent still has to deliver: assigned to them and either
      assigned or picked up. */
  predicate OpenDeliveryFor(o: Order, agent: int) {
    o.assignedTo == Some(agent) && (o.status == Assigned || o.status == PickedUp)
  }

  /** `GET /delivery/my-deliveries`: exactly the agent's open deliveries,
      newest first. */
  method MyDeliveries(orders: map<Id, Order>, agent: int) returns (list: seq<(Id, Order)>)
    ensures forall i :: 0 <= i < |list| ==>
      list[i].0 in orders && orders[list[i].0] == list[i].1 && OpenDeliveryFor(list[i].1, agent)
    ensures forall k :: k in orders && OpenDeliveryFor(orders[k], agent) ==> k in IdsOf(list)
    ensures DistinctIds(list) && NewestFirst(list)
  {
    list := FindNewestFirst(orders, (o: Order) => OpenDeliveryFor(o, agent));
  }

  /** The status update on a found order: refused unless the order is
      assigned to the caller; otherwise the requested status whatever the
      current one, and the signature only when a non-empty one is given. */
  function DeliveryStatusStep(o: Order, agent: int, status: OrderStatus, signature: Option<string>, now: int)
    : (r: Response<Order>)
    ensures r.Ok? <==> o.assignedTo == Some(agent)
    ensures r.Err? ==> r == Err(Forbidden("Access denied"))
    ensures r.Ok? ==> SameIdentity(o, r.value) && r.value.status == status && r.value.updatedAt == now
    ensures r.Ok? ==> r.value.assignedTo == o.assignedTo && r.value.deliveryOTP == o.deliveryOTP
    ensures r.Ok? ==> r.value.deliverySignature == (if signature.Some? && signature.value != "" then signature else o.deliverySignature)
    ensures r.Ok? ==> r.value == o.(status := status, deliverySignature := r.value.deliverySignature, updatedAt := now)
  {
    if o.assignedTo != Some(agent) then Err(Forbidden("Access denied"))
    else
      var sig := if signature.Some? && signature.value != "" then signature else o.deliverySignature;
      Ok(o.(status := status, deliverySignature := sig, updatedAt := now))
  }

  /** The agent's status route can mark an order delivered without the OTP. */
  lemma StatusRouteSkipsOtp(o: Order, agent: int, now: int)
    requires o.assignedTo == Some(agent)
    ensures DeliveryStatusStep(o, agent, Delivered, None, now).Ok?
    ensures DeliveryStatusStep(o, agent, Delivered, None, now).value.status == Delivered
  {
  }

  /** `PUT /delivery/:id/status`. */
  method UpdateDeliveryStatus(db: Db, agent: int, id: Id, status: OrderStatus, signature: Option<string>, now: int)
    returns (r: Response<Order>)
    requires db.Valid()
    modifies db
    ensures db.Valid()
    ensures id !in old(db.orders) ==> r == Err(NotFound("Order not found"))
    ensures id in old(db.orders) ==> r == DeliveryStatusStep(old(db.orders)[id], agent, status, signature, now)
    ensures r.Ok? ==> db.orders == old(db.orders)[id := r.value]
    ensures r.Err? ==> db.orders == old(db.orders)
    ensures db.medicines == old(db.medicines) && db.inventory == old(db.inventory) && db.billing == old(db.billing)
  {
    if id !in db.orders {
      return Err(NotFound("Order not found"));
    }
    r := DeliveryStatusStep(db.orders[id], agent, status, signature, now);
    if r.Ok? {
      ReplaceKeepsConsistent(db.orders, db.billing, id, r.value);
      db.orders := db.orders[id := r.value];
    }
  }

  /** The OTP check on a found order: refused unless the order is assigned
      to the caller, rejected unless the given OTP is strictly the stored
      one (an absent OTP equals only an absent one), otherwise delivered. */
  function VerifyOtpStep(o: Order, agent: int, otp: Option<string>, now: int): (r: Response<Order>)
    ensures r.Ok? <==> o.assignedTo == Some(agent) && otp == o.deliveryOTP
    ensures o.assignedTo != Some(agent) ==> r == Err(Forbidden("Access denied"))
    ensures o.assignedTo == Some(agent) && otp != o.deliveryOTP ==> r == Err(BadRequest("Invalid OTP"))
    ensures r.Ok? ==> r.value == o.(status := Delivered, updatedAt := now)
  {
    if o.assignedTo != Some(agent) then Err(Forbidden("Access denied"))
    else if o.deliveryOTP != otp then Err(BadRequest("Invalid OTP"))
    else Ok(o.(status := Delivered, updatedAt := now))
  }

  /** On a stored order, a successful check needs an OTP, and that OTP is
      the four-digit code the assignment drew: an order that has an agent
      always has a code. */
  lemma VerifyNeedsTheCode(o: Order, agent: int, otp: Option<string>, now: int)
    requires WellFormedOrder(o) && VerifyOtpStep(o, agent, otp, now).Ok?
    ensures otp.Some? && IsOtp(otp.value) && otp == o.deliveryOTP
  {
  }

  /** The OTP is not cleared: after a successful check the same call
      succeeds again. */
  lemma {:induction false} ReplaySucceeds(o: Order, agent: int, otp: Option<string>, t1: int, t2: int)
    requires VerifyOtpStep(o, agent, otp, t1).Ok?
    ensures VerifyOtpStep(VerifyOtpStep(o, agent, otp, t1).value, agent, otp, t2).Ok?
  {
    var o1 := VerifyOtpStep(o, agent, otp, t1).value;
    assert o1.assignedTo == o.assignedTo && o1.deliveryOTP == o.deliveryOTP;
  }

  /** `POST /delivery/:id/verify-otp`. */
  method VerifyOtp(db: Db, agent: int, id: Id, otp: Option<string>, now: int) returns (r: Response<Order>)
    requires db.Valid()
    modifies db
    ensures db.Valid()
    ensures id !in old(db.orders) ==> r == Err(NotFound("Order not found"))
    ensures id in old(db.orders) ==> r == VerifyOtpStep(old(db.orders)[id], agent, otp, now)
    ensures r.Ok? ==> db.orders == old(db.orders)[id := r.value]
    ensures r.Err? ==> db.orders == old(db.orders)
    ensures db.medicines == old(db.medicines) && db.inventory == old(db.inventory) && db.billing == old(db.billing)
  {
    if id !in db.orders {
      return Err(NotFound("Order not found"));
    }
    r := VerifyOtpStep(db.orders[id], agent, otp, now);
    if r.Ok? {
      ReplaceKeepsConsistent(db.orders, db.billing, id, r.value);
      db.orders := db.orders[id := r.value];
    }
  }
}

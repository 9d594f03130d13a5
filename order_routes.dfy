/** The `/orders` route handlers: placing an order (stock check, price
    snapshot, stock decrement, billing row), the listings, reading one
    order, the status update with its text message, and the assignment to a
    delivery agent with its OTP. */
module OrderRoutes {
  import opened Wrappers
  import opened Http
  import opened OrderModel
  import opened MedicineModel
  import opened Billing
  import opened Ledger
  import opened Store
  import Text
  import Notifications

  // ---------------------------------------------------------------- placing

  /** The copy of a medicine an order line keeps. */
  function Snapshot(med: Medicine, line: LineRequest): OrderItem {
    OrderItem(line.medicineId, med.name, line.quantity, med.price, med.requiresPrescription)
  }

  /** Why a requested line cannot be served, if it cannot: an unknown
      medicine, or less stock than the quantity asked for. */
  function LineFailure(meds: map<Id, Medicine>, line: LineRequest): (f: Option<Failure>)
    ensures f.None? <==> line.medicineId in meds && meds[line.medicineId].stock >= line.quantity
    ensures f.Some? && line.medicineId in meds ==> f.value.BadRequest?
    ensures f.Some? && line.medicineId !in meds ==> f.value.NotFound?
  {
    if line.medicineId !in meds then Some(NotFound("Medicine " + line.medicineId + " not found"))
    else if meds[line.medicineId].stock < line.quantity then
      Some(BadRequest("Insufficient stock for " + meds[line.medicineId].name))
    else None
  }

  /** The validation pass over the requested lines, each checked against the
      stock as it was before the order: the snapshots of all lines when every
      line can be served, otherwise the failure of the first line that
      cannot. */
  function CheckLines(meds: map<Id, Medicine>, lines: seq<LineRequest>): (r: Response<seq<OrderItem>>)
    ensures r.Ok? ==> |r.value| == |lines|
  {
    if lines == [] then Ok([])
    else
      var prefix := lines[..|lines| - 1];
      var last := lines[|lines| - 1];
      match CheckLines(meds, prefix)
      case Err(f) => Err(f)
      case Ok(items) =>
        match LineFailure(meds, last)
        case Some(f) => Err(f)
        case None => Ok(items + [Snapshot(meds[last.medicineId], last)])
  }

  /** What the validation pass computes: it succeeds exactly when every line
      can be served, with one snapshot per line in line order; otherwise its
      failure is that of the first line that cannot be served. */
  lemma {:induction false} CheckLinesMeaning(meds: map<Id, Medicine>, lines: seq<LineRequest>)
    ensures CheckLines(meds, lines).Ok? <==> forall i :: 0 <= i < |lines| ==> LineFailure(meds, lines[i]).None?
    ensures CheckLines(meds, lines).Ok? ==> |CheckLines(meds, lines).value| == |lines|
    ensures CheckLines(meds, lines).Ok? ==> forall i :: 0 <= i < |lines| ==>
      lines[i].medicineId in meds && CheckLines(meds, lines).value[i] == Snapshot(meds[lines[i].medicineId], lines[i])
    ensures CheckLines(meds, lines).Err? ==> exists i :: (0 <= i < |lines| &&
      LineFailure(meds, lines[i]) == Some(CheckLines(meds, lines).failure) &&
      forall j :: 0 <= j < i ==> LineFailure(meds, lines[j]).None?)
  {
    if lines != [] {
      var prefix := lines[..|lines| - 1];
      var last := lines[|lines| - 1];
      CheckLinesMeaning(meds, prefix);
      assert forall i :: 0 <= i < |prefix| ==> prefix[i] == lines[i];
      match CheckLines(meds, prefix)
      case Err(f) =>
        var i :| 0 <= i < |prefix| && LineFailure(meds, prefix[i]) == Some(f) &&
          forall j :: 0 <= j < i ==> LineFailure(meds, prefix[j]).None?;
        assert LineFailure(meds, lines[i]) == Some(f);
      case Ok(items) =>
        if LineFailure(meds, last).Some? {
          assert LineFailure(meds, lines[|lines| - 1]) == Some(CheckLines(meds, lines).failure);
        }
    }
  }

  /** Once a prefix of the lines fails, so does the whole list, with the same
      failure. */
  lemma {:induction false} CheckLinesErrSticks(meds: map<Id, Medicine>, lines: seq<LineRequest>, j: int)
    requires 0 <= j <= |lines| && CheckLines(meds, lines[..j]).Err?
    ensures CheckLines(meds, lines) == CheckLines(meds, lines[..j])
    decreases |lines| - j
  {
    if j < |lines| {
      assert lines[..j + 1][..j] == lines[..j];
      CheckLinesErrSticks(meds, lines, j + 1);
    } else {
      assert lines[..j] == lines;
    }
  }

  /** One step of the validation pass: the result for the first `i + 1`
      lines from the result for the first `i`. */
  lemma CheckLinesStep(meds: map<Id, Medicine>, lines: seq<LineRequest>, i: int, items: seq<OrderItem>)
    requires 0 <= i < |lines| && CheckLines(meds, lines[..i]) == Ok(items)
    ensures LineFailure(meds, lines[i]).Some? ==> CheckLines(meds, lines[..i + 1]) == Err(LineFailure(meds, lines[i]).value)
    ensures LineFailure(meds, lines[i]).None? ==>
      CheckLines(meds, lines[..i + 1]) == Ok(items + [Snapshot(meds[lines[i].medicineId], lines[i])])
  {
    assert lines[..i + 1][..i] == lines[..i];
  }

  /** The quantity of medicine `m` the items order. */
  function OrderedQty(items: seq<OrderItem>, m: Id): int {
    if items == [] then 0
    else
      var last := items[|items| - 1];
      OrderedQty(items[..|items| - 1], m) + (if last.medicineId == m then last.quantity else 0)
  }

  /** The `$inc: { stock: -quantity }` updates of an order, one per item, in
      order. */
  function ApplyDecrements(meds: map<Id, Medicine>, items: seq<OrderItem>): (r: map<Id, Medicine>)
    ensures r.Keys == meds.Keys
  {
    if items == [] then meds
    else
      var last := items[|items| - 1];
      IncStock(ApplyDecrements(meds, items[..|items| - 1]), last.medicineId, -last.quantity)
  }

  /** The decrements lower each medicine's stock by the quantity the items
      order of it and change nothing else. */
  lemma {:induction false} DecrementsEffect(meds: map<Id, Medicine>, items: seq<OrderItem>)
    ensures forall m :: m in meds ==>
      ApplyDecrements(meds, items)[m] == meds[m].(stock := meds[m].stock - OrderedQty(items, m))
  {
    if items != [] {
      DecrementsEffect(meds, items[..|items| - 1]);
    }
  }

  /** An item list that does not mention `m` orders none of it. */
  lemma {:induction false} OrderedQtyAbsent(items: seq<OrderItem>, m: Id)
    requires forall i :: 0 <= i < |items| ==> items[i].medicineId != m
    ensures OrderedQty(items, m) == 0
  {
    if items != [] {
      OrderedQtyAbsent(items[..|items| - 1], m);
    }
  }

  /** An item list that mentions `m` once orders that item's quantity. */
  lemma {:induction false} OrderedQtySingle(items: seq<OrderItem>, m: Id, j: int)
    requires 0 <= j < |items| && items[j].medicineId == m
    requires forall i :: 0 <= i < |items| && i != j ==> items[i].medicineId != m
    ensures OrderedQty(items, m) == items[j].quantity
  {
    var prefix := items[..|items| - 1];
    if j == |items| - 1 {
      OrderedQtyAbsent(prefix, m);
    } else {
      OrderedQtySingle(prefix, m, j);
    }
  }

  /** No two lines name the same medicine. */
  predicate DistinctMedicines(lines: seq<LineRequest>) {
    forall i, j :: 0 <= i < j < |lines| ==> lines[i].medicineId != lines[j].medicineId
  }

  /** Because each line is checked against the stock before the order, the
      check protects the stock only when every medicine appears on one line:
      then no stock that was not negative becomes negative. */
  lemma DistinctLinesKeepStock(meds: map<Id, Medicine>, lines: seq<LineRequest>, m: Id)
    requires CheckLines(meds, lines).Ok? && DistinctMedicines(lines)
    requires m in meds && meds[m].stock >= 0
    ensures ApplyDecrements(meds, CheckLines(meds, lines).value)[m].stock >= 0
  {
    CheckLinesMeaning(meds, lines);
    var items := CheckLines(meds, lines).value;
    DecrementsEffect(meds, items);
    if j :| 0 <= j < |lines| && lines[j].medicineId == m {
      assert LineFailure(meds, lines[j]).None?;
      OrderedQtySingle(items, m, j);
    } else {
      OrderedQtyAbsent(items, m);
    }
  }

  /** Two lines for the same medicine both pass the check against one unit of
      stock, and the order drives that stock to -1. */
  lemma DuplicateLinesOversell()
    ensures var med := Medicine("Aspirin", None, None, OverTheCounter, None, 1.0, 1, None, [],
                                None, None, None, None, false, 0, 0);
            var meds := map["a" := med];
            var lines := [LineRequest("a", 1), LineRequest("a", 1)];
            CheckLines(meds, lines).Ok? && ApplyDecrements(meds, CheckLines(meds, lines).value)["a"].stock == -1
  {
    var med := Medicine("Aspirin", None, None, OverTheCounter, None, 1.0, 1, None, [],
                        None, None, None, None, false, 0, 0);
    var meds := map["a" := med];
    var lines := [LineRequest("a", 1), LineRequest("a", 1)];
    var item := Snapshot(med, LineRequest("a", 1));
    assert LineFailure(meds, lines[0]).None? && LineFailure(meds, lines[1]).None?;
    CheckLinesMeaning(meds, lines);
    var items := CheckLines(meds, lines).value;
    assert items[0] == item && items[1] == item;
    assert items == [item, item];
    assert items[..1] == [item] && [item][..0] == [];
    assert OrderedQty([item], "a") == 1;
    assert OrderedQty(items, "a") == 2;
    DecrementsEffect(meds, items);
  }

  /** The human-readable id of a new order: `ORD-`, the creation time in
      milliseconds, `-`, and the random suffix. */
  function OrderIdFor(now: nat, suffix: string): (id: string)
    ensures |id| > 5 + |suffix| && id[..4] == "ORD-"
    ensures id[4..|id| - |suffix| - 1] == Text.DecimalString(now) && id[|id| - |suffix| - 1] == '-'
    ensures id[|id| - |suffix|..] == suffix
  {
    "ORD-" + Text.DecimalString(now) + "-" + suffix
  }

  /** Distinct (time, suffix) pairs give distinct order ids: the digits of
      the time cannot run into the `-` that precedes the suffix. */
  lemma OrderIdInjective(n1: nat, s1: string, n2: nat, s2: string)
    requires OrderIdFor(n1, s1) == OrderIdFor(n2, s2)
    ensures n1 == n2 && s1 == s2
  {
    var id := OrderIdFor(n1, s1);
    var d1, d2 := Text.DecimalString(n1), Text.DecimalString(n2);
    assert id == "ORD-" + d1 + "-" + s1 == "ORD-" + d2 + "-" + s2;
    assert id[4 + |d1|] == '-' && id[4 + |d2|] == '-';
    assert forall i :: 0 <= i < |d2| ==> id[4 + i] == d2[i];
    assert forall i :: 0 <= i < |d1| ==> id[4 + i] == d1[i];
    if |d1| != |d2| {
      assert false;
    }
    assert d1 == id[4..4 + |d1|] == d2;
    assert s1 == id[5 + |d1|..] == s2;
    Text.ParseDecimalString(n1);
    Text.ParseDecimalString(n2);
  }

  /** The outcome of placing an order: the first failing line's error, a
      server error when the generated order id is already taken, otherwise a
      pending order whose lines are the snapshots and whose total is their
      sum. */
  function PlaceOrder(meds: map<Id, Medicine>, usedIds: set<string>, userId: int, req: OrderRequest,
                      orderId: string, now: int): (r: Response<Order>)
    ensures r.Ok? <==> CheckLines(meds, req.items).Ok? && orderId !in usedIds
    ensures CheckLines(meds, req.items).Err? ==> r == Err(CheckLines(meds, req.items).failure)
    ensures CheckLines(meds, req.items).Ok? && orderId in usedIds ==> r == Err(ServerError("Failed to create order"))
    ensures r.Ok? ==> r.value.orderId == orderId && r.value.userId == userId && r.value.status == Pending
    ensures r.Ok? ==> r.value.items == CheckLines(meds, req.items).value
    ensures r.Ok? ==> r.value.totalAmount == Subtotal(r.value.items)
    ensures r.Ok? ==> r.value.prescriptionId == req.prescriptionId && r.value.deliveryAddress == req.deliveryAddress
    ensures r.Ok? ==> r.value.deliveryType == (if req.deliveryType.Some? then req.deliveryType.value else Delivery)
    ensures r.Ok? ==> r.value.assignedTo.None? && r.value.deliveryOTP.None?
    ensures r.Ok? ==> r.value.deliverySignature.None? && r.value.notes.None?
    ensures r.Ok? ==> r.value.createdAt == now && r.value.updatedAt == now
  {
    match CheckLines(meds, req.items)
    case Err(f) => Err(f)
    case Ok(items) =>
      if orderId in usedIds then Err(ServerError("Failed to create order"))
      else Ok(NewOrder(orderId, userId, req, items, Subtotal(items), Pending, now))
  }

  /** The server never looks at prescriptions: an order with no
      prescription whose lines all pass the stock check is placed, even when
      those lines are for prescription-only medicines. */
  lemma PrescriptionNotChecked(meds: map<Id, Medicine>, usedIds: set<string>, userId: int, req: OrderRequest,
                               orderId: string, now: int)
    requires req.prescriptionId.None? && orderId !in usedIds
    requires forall i :: 0 <= i < |req.items| ==> LineFailure(meds, req.items[i]).None?
    ensures PlaceOrder(meds, usedIds, userId, req, orderId, now).Ok?
    ensures var o := PlaceOrder(meds, usedIds, userId, req, orderId, now).value;
            o.prescriptionId.None? && |o.items| == |req.items| &&
            forall i :: 0 <= i < |req.items| ==>
              req.items[i].medicineId in meds &&
              o.items[i].requiresPrescription == meds[req.items[i].medicineId].requiresPrescription
  {
    CheckLinesMeaning(meds, req.items);
  }

  /** The validation loop of `POST /orders`: the lines checked one by one
      against the stock, the running total summed as it goes. */
  method ValidateLines(meds: map<Id, Medicine>, lines: seq<LineRequest>) returns (r: Response<seq<OrderItem>>, total: real)
    ensures r == CheckLines(meds, lines)
    ensures r.Ok? ==> total == Subtotal(r.value)
  {
    var orderItems: seq<OrderItem> := [];
    total := 0.0;
    var i := 0;
    while i < |lines|
      invariant 0 <= i <= |lines|
      invariant CheckLines(meds, lines[..i]) == Ok(orderItems)
      invariant total == Subtotal(orderItems)
    {
      var line := lines[i];
      CheckLinesStep(meds, lines, i, orderItems);
      if line.medicineId !in meds {
        r := Err(NotFound("Medicine " + line.medicineId + " not found"));
        assert CheckLines(meds, lines[..i + 1]) == r;
        CheckLinesErrSticks(meds, lines, i + 1);
        return;
      }
      var medicine := meds[line.medicineId];
      if medicine.stock < line.quantity {
        r := Err(BadRequest("Insufficient stock for " + medicine.name));
        assert CheckLines(meds, lines[..i + 1]) == r;
        CheckLinesErrSticks(meds, lines, i + 1);
        return;
      }
      assert LineFailure(meds, line).None?;
      var item := Snapshot(medicine, line);
      total := total + medicine.price * line.quantity as real;
      SubtotalAppend(orderItems, item);
      orderItems := orderItems + [item];
      i := i + 1;
    }
    assert lines[..i] == lines;
    r := Ok(orderItems);
  }

  /** The stock loop of `POST /orders`: one `$inc` per item. */
  method DecrementStock(db: Db, items: seq<OrderItem>)
    modifies db
    ensures db.medicines == ApplyDecrements(old(db.medicines), items)
    ensures db.orders == old(db.orders) && db.inventory == old(db.inventory) && db.billing == old(db.billing)
  {
    var j := 0;
    while j < |items|
      invariant 0 <= j <= |items|
      invariant db.medicines == ApplyDecrements(old(db.medicines), items[..j])
      invariant db.orders == old(db.orders) && db.inventory == old(db.inventory) && db.billing == old(db.billing)
    {
      assert items[..j + 1][..j] == items[..j];
      db.medicines := IncStock(db.medicines, items[j].medicineId, -items[j].quantity);
      j := j + 1;
    }
    assert items[..j] == items;
  }

  /** `POST /orders`. `key` is the `_id` the store gives the new document,
      `now` the clock and `suffix` the random part of the order id. */
  method CreateOrder(db: Db, userId: int, req: OrderRequest, key: Id, now: nat, suffix: string)
    returns (r: Response<Order>)
    requires db.Valid() && key !in db.orders
    modifies db
    ensures db.Valid()
    ensures r == PlaceOrder(old(db.medicines), old(OrderIds(db.orders)), userId, req, OrderIdFor(now, suffix), now)
    ensures r.Err? ==> db.medicines == old(db.medicines) && db.orders == old(db.orders) && db.billing == old(db.billing)
    ensures r.Ok? ==> db.orders == old(db.orders)[key := r.value]
    ensures r.Ok? ==> db.medicines == ApplyDecrements(old(db.medicines), r.value.items)
    ensures r.Ok? ==> db.billing == old(db.billing) + [BillingFor(r.value)]
    ensures db.inventory == old(db.inventory)
    ensures r.Ok? ==> forall m :: m in old(db.medicines) ==>
      m in db.medicines && db.Balance(m) == old(db.Balance(m)) - OrderedQty(r.value.items, m)
  {
    var checked, total := ValidateLines(db.medicines, req.items);
    if checked.Err? {
      return Err(checked.failure);
    }
    var orderItems := checked.value;
    var orderId := OrderIdFor(now, suffix);
    if orderId in OrderIds(db.orders) {
      return Err(ServerError("Failed to create order"));
    }
    var order := NewOrder(orderId, userId, req, orderItems, total, Pending, now);
    InsertKeepsConsistent(db.orders, db.billing, key, order);
    db.orders := db.orders[key := order];
    DecrementStock(db, orderItems);
    db.billing := db.billing + [BillingFor(order)];
    DecrementsEffect(old(db.medicines), orderItems);
    r := Ok(order);
  }

  // ---------------------------------------------------------------- reading

  /** `GET /orders/:id`: customers see only their own orders, the other
      roles see every order. */
  function GetOrder(orders: map<Id, Order>, role: Role, caller: int, id: Id): (r: Response<Order>)
    ensures r.Ok? <==> id in orders && (role != Customer || orders[id].userId == caller)
    ensures r.Ok? ==> r.value == orders[id]
    ensures id !in orders ==> r == Err(NotFound("Order not found"))
    ensures id in orders && role == Customer && orders[id].userId != caller ==> r == Err(Forbidden("Access denied"))
  {
    if id !in orders then Err(NotFound("Order not found"))
    else if role == Customer && orders[id].userId != caller then Err(Forbidden("Access denied"))
    else Ok(orders[id])
  }

  /** `GET /orders/my-orders`: exactly the caller's orders, newest first. */
  method ListMyOrders(orders: map<Id, Order>, caller: int) returns (list: seq<(Id, Order)>)
    ensures forall i :: 0 <= i < |list| ==>
      list[i].0 in orders && orders[list[i].0] == list[i].1 && list[i].1.userId == caller
    ensures forall k :: k in orders && orders[k].userId == caller ==> k in IdsOf(list)
    ensures DistinctIds(list) && NewestFirst(list)
  {
    list := FindNewestFirst(orders, (o: Order) => o.userId == caller);
  }

  /** Whether the `status` query parameter restricts the listing: only when
      it is present and not empty. */
  predicate StatusQueryKeeps(status: Option<string>, o: Order) {
    status.None? || status.value == "" || StatusName(o.status) == status.value
  }

  /** `GET /orders`: every order, or those whose status is the one asked for,
      newest first. */
  method ListOrders(orders: map<Id, Order>, status: Option<string>) returns (list: seq<(Id, Order)>)
    ensures forall i :: 0 <= i < |list| ==>
      list[i].0 in orders && orders[list[i].0] == list[i].1 && StatusQueryKeeps(status, list[i].1)
    ensures forall k :: k in orders && StatusQueryKeeps(status, orders[k]) ==> k in IdsOf(list)
    ensures DistinctIds(list) && NewestFirst(list)
  {
    list := FindNewestFirst(orders, (o: Order) => StatusQueryKeeps(status, o));
  }

  /** Without a status (or with an empty one) the listing holds every order. */
  lemma EmptyStatusQueryKeepsAll(status: Option<string>, o: Order)
    requires status.None? || status.value == ""
    ensures StatusQueryKeeps(status, o)
  {
  }

  /** With a status the listing holds exactly the orders in that status. */
  lemma StatusQuerySelects(s: OrderStatus, o: Order)
    ensures StatusQueryKeeps(Some(StatusName(s)), o) <==> o.status == s
  {
    if StatusName(o.status) == StatusName(s) {
      StatusNameInjective(o.status, s);
    }
  }

  // ---------------------------------------------------------------- status

  /** `findByIdAndUpdate(id, { status, notes, updatedAt })`: a field missing
      from the body is left as it was. Any status may follow any other. */
  function StatusStep(o: Order, status: Option<OrderStatus>, notes: Option<string>, now: int): (o2: Order)
    ensures SameIdentity(o, o2)
    ensures o2.status == (if status.Some? then status.value else o.status)
    ensures o2.notes == (if notes.Some? then notes else o.notes)
    ensures o2 == o.(status := o2.status, notes := o2.notes, updatedAt := now)
  {
    o.(status := status.GetOr(o.status), notes := if notes.Some? then notes else o.notes, updatedAt := now)
  }

  /** The status route enforces no transition order: from any status, every
      status can be reached in one step, `delivered` included. */
  lemma AnyStatusReachable(o: Order, s: OrderStatus, now: int)
    ensures StatusStep(o, Some(s), None, now).status == s
    ensures WellFormedOrder(o) ==> WellFormedOrder(StatusStep(o, Some(s), None, now))
  {
  }

  /** The status string the message is built from: the requested status, or
      `undefined` when the body had none. */
  function RequestedStatusText(status: Option<OrderStatus>): string {
    if status.Some? then StatusName(status.value) else "undefined"
  }

  /** The text message for a status change: sent only when the customer has a
      non-empty phone number on file, and it names the order. */
  function StatusSms(phone: Option<string>, orderId: string, status: Option<OrderStatus>): (sms: Option<Notifications.Sms>)
    ensures sms.Some? <==> phone.Some? && phone.value != ""
    ensures sms.Some? ==> sms.value.to == phone.value && Text.Contains(sms.value.body, orderId)
    ensures sms.Some? ==> sms.value.body == Notifications.StatusMessage(orderId, RequestedStatusText(status))
  {
    if phone.Some? && phone.value != "" then
      Some(Notifications.Sms(phone.value, Notifications.StatusMessage(orderId, RequestedStatusText(status))))
    else None
  }

  /** `PUT /orders/:id/status`. `phone` is the customer's phone number as the
      users table holds it; the message to send is returned. */
  method UpdateOrderStatus(db: Db, id: Id, status: Option<OrderStatus>, notes: Option<string>,
                           phone: Option<string>, now: int)
    returns (r: Response<Order>, sms: Option<Notifications.Sms>)
    requires db.Valid()
    modifies db
    ensures db.Valid()
    ensures id !in old(db.orders) ==> r == Err(NotFound("Order not found")) && sms.None? && db.orders == old(db.orders)
    ensures id in old(db.orders) ==> r == Ok(StatusStep(old(db.orders)[id], status, notes, now))
    ensures id in old(db.orders) ==> db.orders == old(db.orders)[id := r.value]
    ensures id in old(db.orders) ==> sms == StatusSms(phone, r.value.orderId, status)
    ensures db.medicines == old(db.medicines) && db.inventory == old(db.inventory) && db.billing == old(db.billing)
  {
    if id !in db.orders {
      return Err(NotFound("Order not found")), None;
    }
    var order := StatusStep(db.orders[id], status, notes, now);
    ReplaceKeepsConsistent(db.orders, db.billing, id, order);
    db.orders := db.orders[id := order];
    r := Ok(order);
    sms := StatusSms(phone, order.orderId, status);
  }

  // ---------------------------------------------------------------- assign

  /** `Math.floor(1000 + random * 9000).toString()` for a `random` in [0, 1):
      a four-digit code without a leading zero. */
  function DrawOtp(random: real): (otp: string)
    requires 0.0 <= random < 1.0
    ensures IsOtp(otp)
    ensures 1000 <= Text.ParseDecimal(otp) <= 9999
    ensures Text.ParseDecimal(otp) == (1000.0 + random * 9000.0).Floor
  {
    var n := (1000.0 + random * 9000.0).Floor;
    assert 1000 <= n <= 9999 by {
      assert 1000.0 <= 1000.0 + random * 9000.0 < 10000.0;
    }
    Text.FourDigits(n);
    Text.ParseDecimalString(n);
    Text.DecimalString(n)
  }

  /** `findByIdAndUpdate(id, { assignedTo, status: 'assigned', deliveryOTP,
      updatedAt })`: a fresh OTP replaces any earlier one. */
  function AssignStep(o: Order, assignedTo: Option<int>, otp: string, now: int): (o2: Order)
    ensures SameIdentity(o, o2)
    ensures o2.status == Assigned && o2.deliveryOTP == Some(otp)
    ensures o2.assignedTo == (if assignedTo.Some? then assignedTo else o.assignedTo)
    ensures o2 == o.(assignedTo := o2.assignedTo, status := Assigned, deliveryOTP := Some(otp), updatedAt := now)
  {
    o.(assignedTo := if assignedTo.Some? then assignedTo else o.assignedTo,
       status := Assigned, deliveryOTP := Some(otp), updatedAt := now)
  }

  /** Assigning with an OTP as the route draws it keeps an order well formed,
      including an order that had no agent. */
  lemma AssignKeepsWellFormed(o: Order, assignedTo: Option<int>, otp: string, now: int)
    requires WellFormedOrder(o) && IsOtp(otp)
    ensures WellFormedOrder(AssignStep(o, assignedTo, otp, now))
  {
  }

  /** `PUT /orders/:id/assign`. `random` is the value `Math.random()`
      returned. */
  method AssignOrder(db: Db, id: Id, assignedTo: Option<int>, random: real, now: int) returns (r: Response<Order>)
    requires db.Valid() && 0.0 <= random < 1.0
    modifies db
    ensures db.Valid()
    ensures id !in old(db.orders) ==> r == Err(NotFound("Order not found")) && db.orders == old(db.orders)
    ensures id in old(db.orders) ==> r == Ok(AssignStep(old(db.orders)[id], assignedTo, DrawOtp(random), now))
    ensures id in old(db.orders) ==> db.orders == old(db.orders)[id := r.value]
    ensures db.medicines == old(db.medicines) && db.inventory == old(db.inventory) && db.billing == old(db.billing)
  {
    if id !in db.orders {
      return Err(NotFound("Order not found"));
    }
    var order := AssignStep(db.orders[id], assignedTo, DrawOtp(random), now);
    ReplaceKeepsConsistent(db.orders, db.billing, id, order);
    db.orders := db.orders[id := order];
    r := Ok(order);
  }
}

/** The Order document: its status and delivery-type enumerations with their
    defaults, the line-item snapshot, and the body of `POST /orders`. */
module OrderModel {
  import opened Wrappers
  import opened Http
  import Collections
  import Text

  datatype OrderStatus = Pending | Verified | Processing | Assigned | PickedUp | Delivered | Rejected

  /** The string stored in the document for each status. */
  function StatusName(s: OrderStatus): string {
    match s
    case Pending => "pending"
    case Verified => "verified"
    case Processing => "processing"
    case Assigned => "assigned"
    case PickedUp => "picked_up"
    case Delivered => "delivered"
    case Rejected => "rejected"
  }

  /** Distinct statuses are stored as distinct strings. */
  lemma StatusNameInjective(s: OrderStatus, t: OrderStatus)
    requires StatusName(s) == StatusName(t)
    ensures s == t
  {
  }

  const DefaultStatus: OrderStatus := Pending

  datatype DeliveryType = Delivery | Pickup

  const DefaultDeliveryType: DeliveryType := Delivery

  datatype Address = Address(street: string, city: string, state: string, zipCode: string, phone: string)

  /** One line of an order, copied from the medicine when the order was placed. */
  datatype OrderItem = OrderItem(
    medicineId: Id,
    name: string,
    quantity: int,
    price: real,
    requiresPrescription: bool)

  datatype Order = Order(
    orderId: string,
    userId: int,
    prescriptionId: Option<Id>,
    items: seq<OrderItem>,
    totalAmount: real,
    deliveryAddress: Option<Address>,
    deliveryType: DeliveryType,
    status: OrderStatus,
    assignedTo: Option<int>,
    deliverySignature: Option<string>,
    deliveryOTP: Option<string>,
    notes: Option<string>,
    createdAt: int,
    updatedAt: int)

  function LineAmount(item: OrderItem): real {
    item.price * item.quantity as real
  }

  /** The amount of a list of line items: the sum of price times quantity. */
  function Subtotal(items: seq<OrderItem>): real {
    Collections.SumReal(items, LineAmount)
  }

  /** Adding a line adds its price times its quantity. */
  lemma SubtotalAppend(items: seq<OrderItem>, item: OrderItem)
    ensures Subtotal(items + [item]) == Subtotal(items) + item.price * item.quantity as real
  {
    assert (items + [item])[..|items + [item]| - 1] == items;
  }

  /** One requested line of the `POST /orders` body. */
  datatype LineRequest = LineRequest(medicineId: Id, quantity: int)

  /** The `POST /orders` body. */
  datatype OrderRequest = OrderRequest(
    items: seq<LineRequest>,
    deliveryAddress: Option<Address>,
    deliveryType: Option<DeliveryType>,
    prescriptionId: Option<Id>)

  /** A new Order document: the creation fields as given, `deliveryType`
      defaulting to `delivery`, nothing assigned yet, both timestamps `now`. */
  function NewOrder(orderId: string, userId: int, req: OrderRequest, items: seq<OrderItem>,
                    totalAmount: real, status: OrderStatus, now: int): (o: Order)
    ensures o.orderId == orderId && o.userId == userId && o.items == items
    ensures o.totalAmount == totalAmount && o.status == status
    ensures o.prescriptionId == req.prescriptionId && o.deliveryAddress == req.deliveryAddress
    ensures req.deliveryType.None? ==> o.deliveryType == Delivery
    ensures req.deliveryType.Some? ==> o.deliveryType == req.deliveryType.value
    ensures o.assignedTo.None? && o.deliverySignature.None? && o.deliveryOTP.None? && o.notes.None?
  {
    Order(orderId, userId, req.prescriptionId, items, totalAmount, req.deliveryAddress,
          req.deliveryType.GetOr(DefaultDeliveryType), status, None, None, None, None, now, now)
  }

  /** A delivery OTP as the assign route makes it: four decimal digits, the
      first not zero. */
  predicate IsOtp(s: string) {
    |s| == 4 && Text.AllDigits(s) && s[0] != '0'
  }
}

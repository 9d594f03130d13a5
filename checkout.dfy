/** The customer's checkout page: whether the cart needs a prescription, the
    prescriptions offered, the gate that stops an order needing one, the
    request sent to `POST /orders`, and the tax and total shown. */
module Checkout {
  import opened Wrappers
  import opened Http
  import opened OrderModel
  import opened PrescriptionModel
  import Billing
  import Collections

  /** A cart line as the cart holds it: the medicine and the quantity. */
  datatype CartItem = CartItem(id: Id, name: string, price: real, quantity: int, requiresPrescription: bool)

  /** `cart.some(item => item.requiresPrescription)`. */
  function HasRxItems(cart: seq<CartItem>): (b: bool)
    ensures b <==> exists i :: 0 <= i < |cart| && cart[i].requiresPrescription
  {
    if cart == [] then false
    else cart[0].requiresPrescription || HasRxItems(cart[1..])
  }

  predicate IsVerified(p: (Id, Prescription)) {
    p.1.status == PrescriptionStatus.Verified
  }

  /** The prescriptions the page offers: the customer's verified ones, in the
      order they were fetched. */
  function VerifiedPrescriptions(fetched: seq<(Id, Prescription)>): (r: seq<(Id, Prescription)>)
    ensures forall i :: 0 <= i < |r| ==> r[i] in fetched && r[i].1.status == PrescriptionStatus.Verified
    ensures forall i :: 0 <= i < |fetched| && fetched[i].1.status == PrescriptionStatus.Verified ==> fetched[i] in r
  {
    Collections.Filter(fetched, IsVerified)
  }

  /** Fetching more prescriptions appends their verified ones after the
      others: the offered list keeps the fetched order. */
  lemma VerifiedKeepsOrder(a: seq<(Id, Prescription)>, b: seq<(Id, Prescription)>)
    ensures VerifiedPrescriptions(a + b) == VerifiedPrescriptions(a) + VerifiedPrescriptions(b)
  {
    Collections.FilterConcat(a, b, IsVerified);
  }

  function LineOf(item: CartItem): LineRequest {
    LineRequest(item.id, item.quantity)
  }

  /** The order request: one line per cart item, in cart order, with the
      medicine id and quantity; the address only for home delivery; the
      selected prescription, or none when nothing is selected. */
  function BuildOrderRequest(cart: seq<CartItem>, deliveryType: DeliveryType, address: Address, selected: string)
    : (req: OrderRequest)
    ensures |req.items| == |cart|
    ensures forall i :: 0 <= i < |cart| ==> req.items[i] == LineRequest(cart[i].id, cart[i].quantity)
    ensures req.deliveryAddress == (if deliveryType == Delivery then Some(address) else None)
    ensures req.deliveryType == Some(deliveryType)
    ensures req.prescriptionId == (if selected == "" then None else Some(selected))
  {
    OrderRequest(
      seq(|cart|, i requires 0 <= i < |cart| => LineOf(cart[i])),
      if deliveryType == Delivery then Some(address) else None,
      Some(deliveryType),
      if selected == "" then None else Some(selected))
  }

  /** What submitting the form does: show an error and send nothing, or send
      the request. */
  datatype SubmitOutcome = Blocked(error: string) | Send(request: OrderRequest)

  const RxError: string := "Please select a verified prescription for prescription medicines"

  /** The submit handler: a cart that needs a prescription is not sent
      without a selected one. */
  function Submit(cart: seq<CartItem>, deliveryType: DeliveryType, address: Address, selected: string)
    : (out: SubmitOutcome)
    ensures out.Blocked? <==> HasRxItems(cart) && selected == ""
    ensures out.Blocked? ==> out.error == RxError
    ensures out.Send? ==> out.request == BuildOrderRequest(cart, deliveryType, address, selected)
  {
    if HasRxItems(cart) && selected == "" then Blocked(RxError)
    else Send(BuildOrderRequest(cart, deliveryType, address, selected))
  }

  /** Every request sent for a cart with a prescription medicine names a
      prescription (which the server then does not check). */
  lemma RxRequestsNamePrescription(cart: seq<CartItem>, deliveryType: DeliveryType, address: Address, selected: string)
    requires HasRxItems(cart)
    requires Submit(cart, deliveryType, address, selected).Send?
    ensures Submit(cart, deliveryType, address, selected).request.prescriptionId == Some(selected)
  {
  }

  /** The tax shown: 18% of the subtotal. */
  function DisplayedTax(subtotal: real): real {
    subtotal * 0.18
  }

  /** The total shown: 118% of the subtotal. */
  function DisplayedTotal(subtotal: real): real {
    subtotal * 1.18
  }

  /** The page's total is subtotal plus tax, and it is the total of the
      billing row the server writes for an order of that amount. */
  lemma DisplayedTotalMatchesBilling(o: Order)
    ensures DisplayedTotal(o.totalAmount) == o.totalAmount + DisplayedTax(o.totalAmount)
    ensures DisplayedTotal(o.totalAmount) == Billing.BillingFor(o).total
    ensures DisplayedTax(o.totalAmount) == Billing.BillingFor(o).tax
  {
  }
}

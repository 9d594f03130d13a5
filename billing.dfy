/** The relational billing ledger: one row per order, written when the order
    is created, with 18% tax and payment status `pending`. */
module Billing {
  import opened OrderModel

  const TaxRate: real := 0.18

  datatype BillingRow = BillingRow(
    orderId: string,
    userId: int,
    amount: real,
    tax: real,
    total: real,
    paymentStatus: string)

  /** The row the create-order route inserts for an order. */
  function BillingFor(o: Order): (row: BillingRow)
    ensures row.orderId == o.orderId && row.userId == o.userId && row.amount == o.totalAmount
    ensures row.tax == 0.18 * o.totalAmount
    ensures row.total == 1.18 * o.totalAmount
    ensures row.paymentStatus == "pending"
  {
    var tax := o.totalAmount * TaxRate;
    BillingRow(o.orderId, o.userId, o.totalAmount, tax, o.totalAmount + tax, "pending")
  }
}

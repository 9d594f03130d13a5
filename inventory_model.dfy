/** The Inventory document: a stock batch of one medicine, with its defaults. */
module InventoryModel {
  import opened Wrappers
  import opened Http

  const DefaultReorderLevel: int := 10

  datatype InventoryRec = InventoryRec(
    medicineId: Id,
    quantity: int,
    reorderLevel: int,
    lastRestocked: int,
    supplier: Option<string>,
    batchNumber: Option<string>,
    expiryDate: Option<int>,
    location: Option<string>,
    updatedAt: int)

  /** The schema fields a request body may carry, `updatedAt` among them. */
  datatype InventoryFields = InventoryFields(
    medicineId: Option<Id>,
    quantity: Option<int>,
    reorderLevel: Option<int>,
    lastRestocked: Option<int>,
    supplier: Option<string>,
    batchNumber: Option<string>,
    expiryDate: Option<int>,
    location: Option<string>,
    updatedAt: Option<int>)

  /** `medicineId` and `quantity` are required. */
  predicate HasRequired(body: InventoryFields) {
    body.medicineId.Some? && body.quantity.Some?
  }

  /** `new Inventory(body)` as `save()` accepts it: the supplied fields, with
      `reorderLevel` defaulting to 10, `lastRestocked` and `updatedAt` to the
      creation time. */
  function NewInventory(body: InventoryFields, now: int): (r: Option<InventoryRec>)
    ensures r.Some? <==> HasRequired(body)
    ensures r.Some? ==> r.value.medicineId == body.medicineId.value && r.value.quantity == body.quantity.value
    ensures r.Some? ==> Overwrites(body.reorderLevel, 10, r.value.reorderLevel)
    ensures r.Some? ==> Overwrites(body.lastRestocked, now, r.value.lastRestocked)
    ensures r.Some? ==> Overwrites(body.updatedAt, now, r.value.updatedAt)
    ensures r.Some? ==> r.value.supplier == body.supplier && r.value.batchNumber == body.batchNumber
    ensures r.Some? ==> r.value.expiryDate == body.expiryDate && r.value.location == body.location
  {
    if !HasRequired(body) then None
    else Some(InventoryRec(
      body.medicineId.value, body.quantity.value, body.reorderLevel.GetOr(DefaultReorderLevel),
      body.lastRestocked.GetOr(now), body.supplier, body.batchNumber, body.expiryDate,
      body.location, body.updatedAt.GetOr(now)))
  }

  /** Every field of a record, as a request body would supply it. */
  function InventoryFieldsOf(rec: InventoryRec): InventoryFields {
    InventoryFields(
      Some(rec.medicineId), Some(rec.quantity), Some(rec.reorderLevel), Some(rec.lastRestocked),
      rec.supplier, rec.batchNumber, rec.expiryDate, rec.location, Some(rec.updatedAt))
  }

  /** The defaults never overwrite a supplied value: creating a record from
      all of its own fields gives it back. */
  lemma NewInventoryFromFields(rec: InventoryRec, now: int)
    ensures NewInventory(InventoryFieldsOf(rec), now) == Some(rec)
  {
  }

  /** `{ ...body, updatedAt: now }` applied by `findByIdAndUpdate`: each
      supplied field replaces the stored one, the others stay; `updatedAt`
      is `now` whatever the body says. */
  function ApplyInventoryFields(rec: InventoryRec, body: InventoryFields, now: int): (r: InventoryRec)
    ensures Overwrites(body.medicineId, rec.medicineId, r.medicineId)
    ensures Overwrites(body.quantity, rec.quantity, r.quantity)
    ensures Overwrites(body.reorderLevel, rec.reorderLevel, r.reorderLevel)
    ensures Overwrites(body.lastRestocked, rec.lastRestocked, r.lastRestocked)
    ensures OverwritesOptional(body.supplier, rec.supplier, r.supplier)
    ensures OverwritesOptional(body.batchNumber, rec.batchNumber, r.batchNumber)
    ensures OverwritesOptional(body.expiryDate, rec.expiryDate, r.expiryDate)
    ensures OverwritesOptional(body.location, rec.location, r.location)
    ensures r.updatedAt == now
  {
    InventoryRec(
      body.medicineId.GetOr(rec.medicineId),
      body.quantity.GetOr(rec.quantity),
      body.reorderLevel.GetOr(rec.reorderLevel),
      body.lastRestocked.GetOr(rec.lastRestocked),
      body.supplier.Or(rec.supplier),
      body.batchNumber.Or(rec.batchNumber),
      body.expiryDate.Or(rec.expiryDate),
      body.location.Or(rec.location),
      now)
  }
}

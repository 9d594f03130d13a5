/** The `/inventory` route handlers: adding a stock record, updating one,
    and the low-stock listing. Adding and updating move the medicine's stock
    by the same amount as the record's quantity. */
module InventoryRoutes {
  import opened Wrappers
  import opened Http
  import opened MedicineModel
  import opened InventoryModel
  import opened Ledger
  import opened Store

  /** `POST /inventory`. `key` is the `_id` the store gives the new record.
      A body missing a required field fails validation on save; otherwise
      the record is stored and its medicine's stock goes up by its quantity
      (nothing happens to the stock when no medicine has that id). */
  method AddInventory(db: Db, key: Id, body: InventoryFields, now: int) returns (r: Response<InventoryRec>)
    requires key !in db.inventory
    modifies db
    ensures NewInventory(body, now).None? ==>
      r == Err(ServerError("Failed to add inventory")) && db.inventory == old(db.inventory) && db.medicines == old(db.medicines)
    ensures NewInventory(body, now).Some? ==>
      && r == Ok(NewInventory(body, now).value)
      && db.inventory == old(db.inventory)[key := r.value]
      && db.medicines == IncStock(old(db.medicines), r.value.medicineId, r.value.quantity)
    ensures db.medicines.Keys == old(db.medicines.Keys)
    ensures forall m :: m in old(db.medicines) ==> db.Balance(m) == old(db.Balance(m))
    ensures db.orders == old(db.orders) && db.billing == old(db.billing)
  {
    var created := NewInventory(body, now);
    if created.None? {
      return Err(ServerError("Failed to add inventory"));
    }
    var rec := created.value;
    forall m | m in db.medicines
      ensures BalanceOf(IncStock(db.medicines, rec.medicineId, rec.quantity), db.inventory[key := rec], m)
              == BalanceOf(db.medicines, db.inventory, m)
    {
      AddRecordKeepsBalance(db.medicines, db.inventory, key, rec, m);
    }
    db.inventory := db.inventory[key := rec];
    db.medicines := IncStock(db.medicines, rec.medicineId, rec.quantity);
    r := Ok(rec);
  }

  /** `PUT /inventory/:id`.
      - A missing id fails before any write: the old record's quantity is read
        from nothing, so the request ends in a server error, not a 404.
      - Otherwise the record is rewritten with the supplied fields.
      - A body without `quantity` makes the difference not a number, and the
        stock update is refused after the record was written.
      - Otherwise a non-zero difference between the new and the old quantity
        is added to the stock of the record's (possibly new) medicine. */
  method UpdateInventory(db: Db, id: Id, body: InventoryFields, now: int) returns (r: Response<InventoryRec>)
    modifies db
    ensures id !in old(db.inventory) ==>
      r == Err(ServerError("Failed to update inventory")) && db.inventory == old(db.inventory) && db.medicines == old(db.medicines)
    ensures id in old(db.inventory) ==> db.inventory == old(db.inventory)[id := ApplyInventoryFields(old(db.inventory)[id], body, now)]
    ensures id in old(db.inventory) && body.quantity.None? ==>
      r == Err(ServerError("Failed to update inventory")) && db.medicines == old(db.medicines)
    ensures id in old(db.inventory) && body.quantity.Some? ==>
      && r == Ok(db.inventory[id])
      && db.medicines == IncStock(old(db.medicines), r.value.medicineId, body.quantity.value - old(db.inventory)[id].quantity)
    ensures db.medicines.Keys == old(db.medicines.Keys)
    ensures id in old(db.inventory) ==> forall m :: m in old(db.medicines) ==>
      db.Balance(m) == old(db.Balance(m))
                       + (if m == old(db.inventory)[id].medicineId then old(db.inventory)[id].quantity else 0)
                       - (if m == db.inventory[id].medicineId then old(db.inventory)[id].quantity else 0)
    ensures db.orders == old(db.orders) && db.billing == old(db.billing)
  {
    if id !in db.inventory {
      return Err(ServerError("Failed to update inventory"));
    }
    var oldRec := db.inventory[id];
    var rec := ApplyInventoryFields(oldRec, body, now);
    var diff := rec.quantity - oldRec.quantity;
    var meds := db.medicines;
    forall m | m in meds
      ensures BalanceOf(IncStock(meds, rec.medicineId, diff), db.inventory[id := rec], m)
              == BalanceOf(meds, db.inventory, m)
                 + (if m == oldRec.medicineId then oldRec.quantity else 0)
                 - (if m == rec.medicineId then oldRec.quantity else 0)
    {
      ReplaceRecordShiftsBalance(meds, db.inventory, id, rec, m);
    }
    IncStockZero(meds, rec.medicineId);
    db.inventory := db.inventory[id := rec];
    if body.quantity.None? {
      return Err(ServerError("Failed to update inventory"));
    }
    if diff != 0 {
      db.medicines := IncStock(db.medicines, rec.medicineId, diff);
    }
    r := Ok(rec);
  }

  /** An update that keeps the record on the same medicine keeps every
      medicine's stock minus its recorded quantity. */
  lemma UpdateKeepsBalance(meds: map<Id, Medicine>, inv: map<Id, InventoryRec>, id: Id, body: InventoryFields, now: int, m: Id)
    requires id in inv && m in meds && body.quantity.Some?
    requires body.medicineId.None? || body.medicineId.value == inv[id].medicineId
    ensures var rec := ApplyInventoryFields(inv[id], body, now);
            BalanceOf(IncStock(meds, rec.medicineId, rec.quantity - inv[id].quantity), inv[id := rec], m) == BalanceOf(meds, inv, m)
  {
    ReplaceRecordShiftsBalance(meds, inv, id, ApplyInventoryFields(inv[id], body, now), m);
  }

  /** The threshold of the low-stock listing. */
  const LowStockLimit: int := 10

  /** `GET /inventory/low-stock`: the records holding at most 10 units,
      whatever their own reorder level. */
  function LowStock(inv: map<Id, InventoryRec>): (r: map<Id, InventoryRec>)
    ensures r.Keys <= inv.Keys
    ensures forall k :: k in r ==> r[k] == inv[k]
    ensures forall k :: k in inv ==> (k in r <==> inv[k].quantity <= 10)
  {
    map k | k in inv && inv[k].quantity <= LowStockLimit :: inv[k]
  }

  /** The record's own reorder level plays no part: a record above 10 units is
      not listed even when its reorder level is higher. */
  lemma ReorderLevelIgnored(inv: map<Id, InventoryRec>, k: Id)
    requires k in inv && inv[k].quantity > 10 && inv[k].reorderLevel > inv[k].quantity
    ensures k !in LowStock(inv)
  {
  }
}

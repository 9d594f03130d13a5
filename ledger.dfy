/** Stock bookkeeping shared by the order and inventory routes.

    `Medicine.stock` is changed only by `$inc` updates. The inventory routes
    apply to a medicine's stock the same delta they apply to an inventory
    record's quantity, so the BALANCE of a medicine, its stock minus the
    quantities of all inventory records that point to it, is what the
    inventory routes leave alone and what order creation lowers. */
module Ledger {
  import opened Http
  import opened MedicineModel
  import opened InventoryModel

  /** `Medicine.findByIdAndUpdate(id, { $inc: { stock: delta } })`: nothing
      happens when no medicine has that id. */
  function IncStock(meds: map<Id, Medicine>, id: Id, delta: int): (r: map<Id, Medicine>)
    ensures r.Keys == meds.Keys
    ensures forall m :: m in meds && m != id ==> r[m] == meds[m]
    ensures id in meds ==> r[id] == meds[id].(stock := meds[id].stock + delta)
  {
    if id in meds then meds[id := meds[id].(stock := meds[id].stock + delta)] else meds
  }

  /** An increment by zero changes nothing. */
  lemma IncStockZero(meds: map<Id, Medicine>, id: Id)
    ensures IncStock(meds, id, 0) == meds
  {
    if id in meds {
      assert meds[id].(stock := meds[id].stock + 0) == meds[id];
    }
  }

  /** What one inventory record contributes to medicine `m`. */
  function Share(rec: InventoryRec, m: Id): int {
    if rec.medicineId == m then rec.quantity else 0
  }

  ghost function Pick(keys: set<Id>): Id
    requires keys != {}
  {
    var k :| k in keys; k
  }

  /** The quantities that the records under `keys` hold of medicine `m`. */
  ghost function QtyOn(inv: map<Id, InventoryRec>, keys: set<Id>, m: Id): int
    requires keys <= inv.Keys
    decreases keys
  {
    if keys == {} then 0
    else
      var k := Pick(keys);
      Share(inv[k], m) + QtyOn(inv, keys - {k}, m)
  }

  /** The quantity of medicine `m` recorded across the whole inventory. */
  ghost function StockedQty(inv: map<Id, InventoryRec>, m: Id): int {
    QtyOn(inv, inv.Keys, m)
  }

  /** Stock of `m` not accounted for by inventory records. */
  ghost function BalanceOf(meds: map<Id, Medicine>, inv: map<Id, InventoryRec>, m: Id): int
    requires m in meds
  {
    meds[m].stock - StockedQty(inv, m)
  }

  /** The sum does not depend on the order the records are visited in: any
      record can be taken out first. */
  lemma {:induction false} QtyOnRemove(inv: map<Id, InventoryRec>, keys: set<Id>, k: Id, m: Id)
    requires keys <= inv.Keys && k in keys
    ensures QtyOn(inv, keys, m) == Share(inv[k], m) + QtyOn(inv, keys - {k}, m)
    decreases keys
  {
    var p := Pick(keys);
    if p != k {
      QtyOnRemove(inv, keys - {p}, k, m);
      QtyOnRemove(inv, keys - {k}, p, m);
      assert keys - {p} - {k} == keys - {k} - {p};
    }
  }

  /** The sum over `keys` only reads the records under `keys`. */
  lemma {:induction false} QtyOnFrame(inv: map<Id, InventoryRec>, inv2: map<Id, InventoryRec>, keys: set<Id>, m: Id)
    requires keys <= inv.Keys && keys <= inv2.Keys
    requires forall k :: k in keys ==> inv[k] == inv2[k]
    ensures QtyOn(inv, keys, m) == QtyOn(inv2, keys, m)
    decreases keys
  {
    if keys != {} {
      QtyOnFrame(inv, inv2, keys - {Pick(keys)}, m);
    }
  }

  /** A new record adds its share. */
  lemma StockedQtyInsert(inv: map<Id, InventoryRec>, key: Id, rec: InventoryRec, m: Id)
    requires key !in inv
    ensures StockedQty(inv[key := rec], m) == StockedQty(inv, m) + Share(rec, m)
  {
    var inv2 := inv[key := rec];
    QtyOnRemove(inv2, inv2.Keys, key, m);
    assert inv2.Keys - {key} == inv.Keys;
    QtyOnFrame(inv, inv2, inv.Keys, m);
  }

  /** A replaced record swaps its old share for its new one. */
  lemma StockedQtyReplace(inv: map<Id, InventoryRec>, key: Id, rec: InventoryRec, m: Id)
    requires key in inv
    ensures StockedQty(inv[key := rec], m) == StockedQty(inv, m) - Share(inv[key], m) + Share(rec, m)
  {
    var inv2 := inv[key := rec];
    QtyOnRemove(inv2, inv2.Keys, key, m);
    QtyOnRemove(inv, inv.Keys, key, m);
    assert inv2.Keys == inv.Keys;
    QtyOnFrame(inv, inv2, inv.Keys - {key}, m);
  }

  /** Storing a new record and incrementing its medicine's stock by the
      record's quantity keeps the balance of every medicine, including when
      the record names no existing medicine. */
  lemma AddRecordKeepsBalance(meds: map<Id, Medicine>, inv: map<Id, InventoryRec>, key: Id, rec: InventoryRec, m: Id)
    requires key !in inv && m in meds
    ensures m in IncStock(meds, rec.medicineId, rec.quantity)
    ensures BalanceOf(IncStock(meds, rec.medicineId, rec.quantity), inv[key := rec], m) == BalanceOf(meds, inv, m)
  {
    StockedQtyInsert(inv, key, rec, m);
  }

  /** Replacing record `key` by `rec` and incrementing `rec`'s medicine by the
      quantity difference moves the old quantity from the balance of the old
      medicine to that of the new one; every other balance stays. */
  lemma ReplaceRecordShiftsBalance(meds: map<Id, Medicine>, inv: map<Id, InventoryRec>, key: Id, rec: InventoryRec, m: Id)
    requires key in inv && m in meds
    ensures m in IncStock(meds, rec.medicineId, rec.quantity - inv[key].quantity)
    ensures BalanceOf(IncStock(meds, rec.medicineId, rec.quantity - inv[key].quantity), inv[key := rec], m)
            == BalanceOf(meds, inv, m)
               + (if m == inv[key].medicineId then inv[key].quantity else 0)
               - (if m == rec.medicineId then inv[key].quantity else 0)
  {
    StockedQtyReplace(inv, key, rec, m);
  }
}

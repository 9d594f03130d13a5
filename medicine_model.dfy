/** The Medicine document: its category enumeration, its defaults, and the
    fields a request body may supply. */
module MedicineModel {
  import opened Wrappers

  datatype Category = OverTheCounter | PrescriptionOnly | Supplement

  /** The string stored for each category. */
  function CategoryName(c: Category): string {
    match c
    case OverTheCounter => "OTC"
    case PrescriptionOnly => "Prescription"
    case Supplement => "Supplement"
  }

  const DefaultCategory: Category := OverTheCounter
  const DefaultStock: int := 0
  const DefaultRequiresPrescription: bool := false

  /** `stock` is a plain Number: nothing in the schema keeps it non-negative. */
  datatype Medicine = Medicine(
    name: string,
    genericName: Option<string>,
    brand: Option<string>,
    category: Category,
    description: Option<string>,
    price: real,
    stock: int,
    imageUrl: Option<string>,
    symptoms: seq<string>,
    dosage: Option<string>,
    sideEffects: Option<string>,
    manufacturer: Option<string>,
    expiryDate: Option<int>,
    requiresPrescription: bool,
    createdAt: int,
    updatedAt: int)

  /** The schema fields a request body may carry; an absent field is `None`.
      The timestamps are schema fields too, so a body may set them. */
  datatype MedicineFields = MedicineFields(
    name: Option<string>,
    genericName: Option<string>,
    brand: Option<string>,
    category: Option<Category>,
    description: Option<string>,
    price: Option<real>,
    stock: Option<int>,
    imageUrl: Option<string>,
    symptoms: Option<seq<string>>,
    dosage: Option<string>,
    sideEffects: Option<string>,
    manufacturer: Option<string>,
    expiryDate: Option<int>,
    requiresPrescription: Option<bool>,
    createdAt: Option<int>,
    updatedAt: Option<int>)

  const NoFields: MedicineFields :=
    MedicineFields(None, None, None, None, None, None, None, None, None, None, None, None, None, None, None, None)

  /** `name` is required (Mongoose's required check refuses an empty string)
      and so is `price`. */
  predicate HasRequired(body: MedicineFields) {
    body.name.Some? && body.name.value != "" && body.price.Some?
  }

  /** `new Medicine(body)` as `save()` accepts it: `None` when a required field
      is missing, otherwise the supplied fields with the schema defaults for
      the others; an absent timestamp is `now`. */
  function NewMedicine(body: MedicineFields, now: int): (r: Option<Medicine>)
    ensures r.Some? <==> HasRequired(body)
    ensures r.Some? ==> r.value.name == body.name.value && r.value.price == body.price.value
    ensures r.Some? ==> Overwrites(body.category, OverTheCounter, r.value.category)
    ensures r.Some? ==> Overwrites(body.stock, 0, r.value.stock)
    ensures r.Some? ==> Overwrites(body.requiresPrescription, false, r.value.requiresPrescription)
    ensures r.Some? ==> Overwrites(body.symptoms, [], r.value.symptoms)
    ensures r.Some? ==> r.value.genericName == body.genericName && r.value.brand == body.brand
    ensures r.Some? ==> r.value.description == body.description && r.value.imageUrl == body.imageUrl
    ensures r.Some? ==> r.value.dosage == body.dosage && r.value.sideEffects == body.sideEffects
    ensures r.Some? ==> r.value.manufacturer == body.manufacturer && r.value.expiryDate == body.expiryDate
    ensures r.Some? ==> Overwrites(body.createdAt, now, r.value.createdAt)
    ensures r.Some? ==> Overwrites(body.updatedAt, now, r.value.updatedAt)
  {
    if !HasRequired(body) then None
    else Some(Medicine(
      body.name.value, body.genericName, body.brand, body.category.GetOr(DefaultCategory),
      body.description, body.price.value, body.stock.GetOr(DefaultStock), body.imageUrl,
      body.symptoms.GetOr([]), body.dosage, body.sideEffects, body.manufacturer, body.expiryDate,
      body.requiresPrescription.GetOr(DefaultRequiresPrescription),
      body.createdAt.GetOr(now), body.updatedAt.GetOr(now)))
  }

  /** Every field of a medicine, as a request body would supply it. */
  function FieldsOf(m: Medicine): MedicineFields {
    MedicineFields(
      Some(m.name), m.genericName, m.brand, Some(m.category), m.description, Some(m.price),
      Some(m.stock), m.imageUrl, Some(m.symptoms), m.dosage, m.sideEffects, m.manufacturer,
      m.expiryDate, Some(m.requiresPrescription), Some(m.createdAt), Some(m.updatedAt))
  }

  /** The defaults never overwrite a supplied value: creating a medicine from
      all of its own fields gives it back. */
  lemma NewMedicineFromFields(m: Medicine, now: int)
    requires m.name != ""
    ensures NewMedicine(FieldsOf(m), now) == Some(m)
  {
  }

  /** `{ ...body, updatedAt: now }` applied by `findByIdAndUpdate`: each
      supplied field replaces the stored one, the others stay; `updatedAt`
      is `now` whatever the body says. */
  function ApplyMedicineFields(m: Medicine, body: MedicineFields, now: int): (r: Medicine)
    ensures Overwrites(body.name, m.name, r.name)
    ensures OverwritesOptional(body.genericName, m.genericName, r.genericName)
    ensures OverwritesOptional(body.brand, m.brand, r.brand)
    ensures Overwrites(body.category, m.category, r.category)
    ensures OverwritesOptional(body.description, m.description, r.description)
    ensures Overwrites(body.price, m.price, r.price)
    ensures Overwrites(body.stock, m.stock, r.stock)
    ensures OverwritesOptional(body.imageUrl, m.imageUrl, r.imageUrl)
    ensures Overwrites(body.symptoms, m.symptoms, r.symptoms)
    ensures OverwritesOptional(body.dosage, m.dosage, r.dosage)
    ensures OverwritesOptional(body.sideEffects, m.sideEffects, r.sideEffects)
    ensures OverwritesOptional(body.manufacturer, m.manufacturer, r.manufacturer)
    ensures OverwritesOptional(body.expiryDate, m.expiryDate, r.expiryDate)
    ensures Overwrites(body.requiresPrescription, m.requiresPrescription, r.requiresPrescription)
    ensures Overwrites(body.createdAt, m.createdAt, r.createdAt)
    ensures r.updatedAt == now
  {
    Medicine(
      body.name.GetOr(m.name),
      body.genericName.Or(m.genericName),
      body.brand.Or(m.brand),
      body.category.GetOr(m.category),
      body.description.Or(m.description),
      body.price.GetOr(m.price),
      body.stock.GetOr(m.stock),
      body.imageUrl.Or(m.imageUrl),
      body.symptoms.GetOr(m.symptoms),
      body.dosage.Or(m.dosage),
      body.sideEffects.Or(m.sideEffects),
      body.manufacturer.Or(m.manufacturer),
      body.expiryDate.Or(m.expiryDate),
      body.requiresPrescription.GetOr(m.requiresPrescription),
      body.createdAt.GetOr(m.createdAt),
      now)
  }

  /** An empty body only refreshes `updatedAt`. */
  lemma ApplyNoFields(m: Medicine, now: int)
    ensures ApplyMedicineFields(m, NoFields, now) == m.(updatedAt := now)
  {
  }

  /** A body carrying every field of `m2` turns any stored medicine into
      `m2`, apart from the update time. An optional field that
      `m2` lacks is absent from the body too and so keeps its stored value,
      hence the requirement that `m2` has them all. */
  lemma ApplyAllFields(m: Medicine, m2: Medicine, now: int)
    requires m2.genericName.Some? && m2.brand.Some? && m2.description.Some? && m2.imageUrl.Some?
    requires m2.dosage.Some? && m2.sideEffects.Some? && m2.manufacturer.Some? && m2.expiryDate.Some?
    ensures ApplyMedicineFields(m, FieldsOf(m2), now) == m2.(updatedAt := now)
  {
  }

  /** The schema defaults, as a document a body is spread over. The
      required `name` and `price` have no default; any body that creation
      accepts supplies them. */
  function Defaults(now: int): Medicine {
    Medicine("", None, None, DefaultCategory, None, 0.0, DefaultStock, None, [], None, None, None, None,
             DefaultRequiresPrescription, now, now)
  }

  /** Creation is the update of the schema defaults by the body: a field is
      the body's when supplied and the default otherwise. The update always
      sets `updatedAt` to `now`, so the two agree when the body does not
      carry one. */
  lemma NewIsDefaultsUpdated(body: MedicineFields, now: int)
    requires HasRequired(body) && body.updatedAt.None?
    ensures NewMedicine(body, now) == Some(ApplyMedicineFields(Defaults(now), body, now))
  {
  }

  /** Applying the same body twice is the same as applying it once. */
  lemma ApplyIdempotent(m: Medicine, body: MedicineFields, t1: int, t2: int)
    ensures ApplyMedicineFields(ApplyMedicineFields(m, body, t1), body, t2) == ApplyMedicineFields(m, body, t2)
  {
  }
}

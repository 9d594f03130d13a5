/** The `/medicines` route handlers: the catalogue listing with its search
    and filters, and reading, adding, updating and deleting one medicine. */
module MedicineRoutes {
  import opened Wrappers
  import opened Http
  import opened MedicineModel
  import opened Store
  import Text

  /** The query parameters of `GET /medicines`; an absent one is `None`. */
  datatype MedicineQuery = MedicineQuery(search: Option<string>, category: Option<string>, requiresPrescription: Option<string>)

  const NoQuery: MedicineQuery := MedicineQuery(None, None, None)

  /** The texts the search looks in: the name, the generic name when there
      is one, and the symptoms. */
  function SearchedTexts(m: Medicine): seq<string> {
    [m.name] + (if m.genericName.Some? then [m.genericName.value] else []) + m.symptoms
  }

  /** The search's `$or` of three conditions is a hit in one of the
      searched texts. */
  lemma SearchedTextsHit(m: Medicine, text: string)
    ensures (|| Text.ContainsIgnoreCase(m.name, text)
             || (m.genericName.Some? && Text.ContainsIgnoreCase(m.genericName.value, text))
             || (exists i :: 0 <= i < |m.symptoms| && Text.ContainsIgnoreCase(m.symptoms[i], text)))
        <==> exists i :: 0 <= i < |SearchedTexts(m)| && Text.ContainsIgnoreCase(SearchedTexts(m)[i], text)
  {
    var texts := SearchedTexts(m);
    var g := if m.genericName.Some? then 1 else 0;
    assert texts[0] == m.name;
    assert m.genericName.Some? ==> texts[1] == m.genericName.value;
    assert forall i :: 0 <= i < |m.symptoms| ==> texts[1 + g + i] == m.symptoms[i];
    if exists i :: 0 <= i < |texts| && Text.ContainsIgnoreCase(texts[i], text) {
      var i :| 0 <= i < |texts| && Text.ContainsIgnoreCase(texts[i], text);
      if 1 + g <= i {
        assert m.symptoms[i - 1 - g] == texts[i];
      }
    }
  }

  /** The search text occurs, ignoring case, in the name, the generic name or
      one of the symptoms. */
  predicate MatchesSearch(m: Medicine, text: string)
    ensures MatchesSearch(m, text) <==>
      exists i :: 0 <= i < |SearchedTexts(m)| && Text.ContainsIgnoreCase(SearchedTexts(m)[i], text)
  {
    SearchedTextsHit(m, text);
    || Text.ContainsIgnoreCase(m.name, text)
    || (m.genericName.Some? && Text.ContainsIgnoreCase(m.genericName.value, text))
    || (exists i :: 0 <= i < |m.symptoms| && Text.ContainsIgnoreCase(m.symptoms[i], text))
  }

  /** One condition per parameter, all of them required. `search` and
      `category` count only when not empty; `requiresPrescription` counts
      whenever it is present, and any value other than `true` asks for the
      medicines that need no prescription. */
  predicate Matches(m: Medicine, q: MedicineQuery) {
    && (q.search.None? || q.search.value == "" || MatchesSearch(m, q.search.value))
    && (q.category.None? || q.category.value == "" || CategoryName(m.category) == q.category.value)
    && (q.requiresPrescription.None? || m.requiresPrescription == (q.requiresPrescription.value == "true"))
  }

  /** `GET /medicines`: the medicines the query matches. */
  function ListMedicines(meds: map<Id, Medicine>, q: MedicineQuery): (r: map<Id, Medicine>)
    ensures r.Keys <= meds.Keys
    ensures forall k :: k in r ==> r[k] == meds[k]
    ensures forall k :: k in meds ==> (k in r <==> Matches(meds[k], q))
  {
    map k | k in meds && Matches(meds[k], q) :: meds[k]
  }

  /** Without parameters the whole catalogue is listed. */
  lemma NoQueryListsAll(meds: map<Id, Medicine>)
    ensures ListMedicines(meds, NoQuery) == meds
  {
  }

  /** The query with only the search parameter of `q`, only its category,
      only its prescription flag. */
  function SearchPart(q: MedicineQuery): MedicineQuery { MedicineQuery(q.search, None, None) }
  function CategoryPart(q: MedicineQuery): MedicineQuery { MedicineQuery(None, q.category, None) }
  function PrescriptionPart(q: MedicineQuery): MedicineQuery { MedicineQuery(None, None, q.requiresPrescription) }

  /** The parameters combine conjunctively: listing with all of them is
      listing with each in turn. */
  lemma FiltersCompose(meds: map<Id, Medicine>, q: MedicineQuery)
    ensures ListMedicines(meds, q)
         == ListMedicines(ListMedicines(ListMedicines(meds, SearchPart(q)), CategoryPart(q)), PrescriptionPart(q))
  {
  }

  /** The search parameter alone keeps exactly the medicines the search
      matches; an empty one keeps all. */
  lemma SearchFilter(m: Medicine, s: string)
    ensures Matches(m, MedicineQuery(Some(s), None, None)) <==> s == "" || MatchesSearch(m, s)
  {
  }

  /** The category parameter keeps exactly the medicines of that category. */
  lemma CategoryFilter(m: Medicine, c: Category)
    ensures Matches(m, MedicineQuery(None, Some(CategoryName(c)), None)) <==> m.category == c
  {
  }

  /** `requiresPrescription=true` keeps the prescription medicines; any other
      value keeps the others. */
  lemma PrescriptionFilter(m: Medicine, v: string)
    ensures Matches(m, MedicineQuery(None, None, Some(v))) <==> (m.requiresPrescription <==> v == "true")
  {
  }

  /** A medicine is found by its own name, whatever the case of the search
      text. */
  lemma {:induction false} FoundByName(m: Medicine)
    ensures Matches(m, MedicineQuery(Some(m.name), None, None))
  {
    var l := Text.Lower(m.name);
    assert l[0..|l|] == l;
    assert Text.OccursAt(l, l, 0);
  }

  /** `GET /medicines/:id`. */
  function GetMedicine(meds: map<Id, Medicine>, id: Id): (r: Response<Medicine>)
    ensures r.Ok? <==> id in meds
    ensures r.Ok? ==> r.value == meds[id]
    ensures r.Err? ==> r == Err(NotFound("Medicine not found"))
  {
    if id in meds then Ok(meds[id]) else Err(NotFound("Medicine not found"))
  }

  /** `POST /medicines`. `key` is the `_id` the store gives the new document;
      a body missing a required field fails validation on save. */
  method AddMedicine(db: Db, key: Id, body: MedicineFields, now: int) returns (r: Response<Medicine>)
    requires key !in db.medicines
    modifies db
    ensures NewMedicine(body, now).None? ==> r == Err(ServerError("Failed to add medicine")) && db.medicines == old(db.medicines)
    ensures NewMedicine(body, now).Some? ==>
      r == Ok(NewMedicine(body, now).value) && db.medicines == old(db.medicines)[key := r.value]
    ensures db.orders == old(db.orders) && db.inventory == old(db.inventory) && db.billing == old(db.billing)
  {
    var created := NewMedicine(body, now);
    if created.None? {
      return Err(ServerError("Failed to add medicine"));
    }
    db.medicines := db.medicines[key := created.value];
    r := Ok(created.value);
  }

  /** `PUT /medicines/:id`: the supplied fields replace the stored ones. */
  method UpdateMedicine(db: Db, id: Id, body: MedicineFields, now: int) returns (r: Response<Medicine>)
    modifies db
    ensures id !in old(db.medicines) ==> r == Err(NotFound("Medicine not found")) && db.medicines == old(db.medicines)
    ensures id in old(db.medicines) ==>
      r == Ok(ApplyMedicineFields(old(db.medicines)[id], body, now)) && db.medicines == old(db.medicines)[id := r.value]
    ensures db.orders == old(db.orders) && db.inventory == old(db.inventory) && db.billing == old(db.billing)
  {
    if id !in db.medicines {
      return Err(NotFound("Medicine not found"));
    }
    var updated := ApplyMedicineFields(db.medicines[id], body, now);
    db.medicines := db.medicines[id := updated];
    r := Ok(updated);
  }

  /** `DELETE /medicines/:id`: only that medicine goes; orders keep their
      copies of it and inventory records keep pointing at its id. */
  method DeleteMedicine(db: Db, id: Id) returns (r: Response<string>)
    modifies db
    ensures id !in old(db.medicines) ==> r == Err(NotFound("Medicine not found")) && db.medicines == old(db.medicines)
    ensures id in old(db.medicines) ==> r == Ok("Medicine deleted successfully") && db.medicines == old(db.medicines) - {id}
    ensures db.orders == old(db.orders) && db.inventory == old(db.inventory) && db.billing == old(db.billing)
  {
    if id !in db.medicines {
      return Err(NotFound("Medicine not found"));
    }
    db.medicines := db.medicines - {id};
    r := Ok("Medicine deleted successfully");
  }
}

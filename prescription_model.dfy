/** The Prescription document: its status enumeration and defaults. Only the
    document is modelled; the routes that create and verify prescriptions are
    not part of this model. */
module PrescriptionModel {
  import opened Wrappers

  datatype PrescriptionStatus = Pending | Verified | Rejected | Processing

  function PrescriptionStatusName(s: PrescriptionStatus): string {
    match s
    case Pending => "pending"
    case Verified => "verified"
    case Rejected => "rejected"
    case Processing => "processing"
  }

  const DefaultPrescriptionStatus: PrescriptionStatus := Pending

  /** `verifiedBy`, `rejectionReason` and `notes` are independent optional
      fields: the schema ties none of them to `status`. */
  datatype Prescription = Prescription(
    userId: int,
    doctorName: Option<string>,
    doctorLicense: Option<string>,
    prescriptionDate: Option<int>,
    imageUrl: string,
    extractedText: Option<string>,
    medicines: seq<string>,
    status: PrescriptionStatus,
    verifiedBy: Option<int>,
    rejectionReason: Option<string>,
    notes: Option<string>,
    createdAt: int,
    updatedAt: int)

  datatype PrescriptionFields = PrescriptionFields(
    userId: Option<int>,
    doctorName: Option<string>,
    doctorLicense: Option<string>,
    prescriptionDate: Option<int>,
    imageUrl: Option<string>,
    extractedText: Option<string>,
    medicines: Option<seq<string>>,
    status: Option<PrescriptionStatus>,
    verifiedBy: Option<int>,
    rejectionReason: Option<string>,
    notes: Option<string>,
    createdAt: Option<int>,
    updatedAt: Option<int>)

  /** `userId` and a non-empty `imageUrl` are required. */
  predicate HasRequired(body: PrescriptionFields) {
    body.userId.Some? && body.imageUrl.Some? && body.imageUrl.value != ""
  }

  /** A document as `save()` accepts it: the supplied fields, with `status`
      defaulting to `pending`, `medicines` to the empty list and an absent
      timestamp to `now`. */
  function NewPrescription(body: PrescriptionFields, now: int): (r: Option<Prescription>)
    ensures r.Some? <==> HasRequired(body)
    ensures r.Some? ==> r.value.userId == body.userId.value && r.value.imageUrl == body.imageUrl.value
    ensures r.Some? ==> Overwrites(body.status, Pending, r.value.status)
    ensures r.Some? ==> Overwrites(body.medicines, [], r.value.medicines)
    ensures r.Some? ==> r.value.doctorName == body.doctorName && r.value.doctorLicense == body.doctorLicense
    ensures r.Some? ==> r.value.prescriptionDate == body.prescriptionDate && r.value.extractedText == body.extractedText
    ensures r.Some? ==> r.value.verifiedBy == body.verifiedBy && r.value.rejectionReason == body.rejectionReason
    ensures r.Some? ==> r.value.notes == body.notes
    ensures r.Some? ==> Overwrites(body.createdAt, now, r.value.createdAt)
    ensures r.Some? ==> Overwrites(body.updatedAt, now, r.value.updatedAt)
  {
    if !HasRequired(body) then None
    else Some(Prescription(
      body.userId.value, body.doctorName, body.doctorLicense, body.prescriptionDate,
      body.imageUrl.value, body.extractedText, body.medicines.GetOr([]),
      body.status.GetOr(DefaultPrescriptionStatus), body.verifiedBy, body.rejectionReason,
      body.notes, body.createdAt.GetOr(now), body.updatedAt.GetOr(now)))
  }

  /** Every field of a prescription, as a request body would supply it. */
  function PrescriptionFieldsOf(p: Prescription): PrescriptionFields {
    PrescriptionFields(
      Some(p.userId), p.doctorName, p.doctorLicense, p.prescriptionDate, Some(p.imageUrl),
      p.extractedText, Some(p.medicines), Some(p.status), p.verifiedBy, p.rejectionReason, p.notes,
      Some(p.createdAt), Some(p.updatedAt))
  }

  /** The defaults never overwrite a supplied value: creating a prescription
      from all of its own fields gives it back. */
  lemma NewPrescriptionFromFields(p: Prescription, now: int)
    requires p.imageUrl != ""
    ensures NewPrescription(PrescriptionFieldsOf(p), now) == Some(p)
  {
  }

  /** The schema accepts a verified prescription with a rejection reason and
      no verifier: status and the verification fields are not linked. */
  lemma StatusUnlinkedFromVerifier()
    ensures NewPrescription(
      PrescriptionFields(Some(1), None, None, None, Some("rx.png"), None, None, Some(Verified),
                         None, Some("unreadable"), None, None, None), 0).Some?
  {
  }
}

/** The Patient collection: identity, ward placement and clinical notes. */
module PatientModel {
  import opened Common

  const UnknownText := "Unknown"
  const NoRemarks := "Not Given"

  /** A stored patient. Room, bed, floor and age are kept as the text the
      manager submitted. */
  datatype Patient = Patient(
    name: string, diseases: string, allergies: string,
    roomNumber: string, bedNumber: string, floorNumber: string,
    age: string, gender: string, contactInfo: string,
    emergencyContact: string, remarks: string)

  /** The fields of an add-patient request. A required field that is missing
      is the empty string; an optional field that is missing is None. */
  datatype PatientForm = PatientForm(
    name: string, diseases: Option<string>, allergies: Option<string>,
    roomNumber: string, bedNumber: string, floorNumber: string,
    age: string, gender: string, contactInfo: string,
    emergencyContact: Option<string>, remarks: Option<string>)

  function OrDefault(field: Option<string>, default: string): string
  {
    if field.Some? then field.value else default
  }

  predicate HasRequiredFields(f: PatientForm)
  {
    f.name != "" && f.roomNumber != "" && f.bedNumber != "" && f.floorNumber != ""
    && f.age != "" && f.gender != "" && f.contactInfo != ""
  }

  /** Patient.create: None when a required field is empty (the schema's
      required validators reject it); otherwise the document, with the
      notes fields defaulted when absent. */
  function NewPatient(f: PatientForm): (p: Option<Patient>)
    ensures p.Some? <==> HasRequiredFields(f)
    ensures p.Some? ==> p.value.name == f.name && p.value.bedNumber == f.bedNumber
    ensures p.Some? ==> p.value.roomNumber == f.roomNumber && p.value.floorNumber == f.floorNumber
    ensures p.Some? ==> p.value.age == f.age && p.value.gender == f.gender && p.value.contactInfo == f.contactInfo
    ensures p.Some? && f.diseases.None? ==> p.value.diseases == UnknownText
    ensures p.Some? && f.allergies.None? ==> p.value.allergies == UnknownText
    ensures p.Some? && f.emergencyContact.None? ==> p.value.emergencyContact == UnknownText
    ensures p.Some? && f.remarks.None? ==> p.value.remarks == NoRemarks
    ensures p.Some? && f.diseases.Some? ==> p.value.diseases == f.diseases.value
    ensures p.Some? && f.allergies.Some? ==> p.value.allergies == f.allergies.value
    ensures p.Some? && f.emergencyContact.Some? ==> p.value.emergencyContact == f.emergencyContact.value
    ensures p.Some? && f.remarks.Some? ==> p.value.remarks == f.remarks.value
  {
    if !HasRequiredFields(f) then None
    else Some(Patient(
      f.name, OrDefault(f.diseases, UnknownText), OrDefault(f.allergies, UnknownText),
      f.roomNumber, f.bedNumber, f.floorNumber, f.age, f.gender, f.contactInfo,
      OrDefault(f.emergencyContact, UnknownText), OrDefault(f.remarks, NoRemarks)))
  }

  /** The body of an update-patient request: the keys present replace the
      stored values, the absent ones (None) leave them alone. */
  datatype PatientPatch = PatientPatch(
    name: Option<string>, diseases: Option<string>, allergies: Option<string>,
    roomNumber: Option<string>, bedNumber: Option<string>, floorNumber: Option<string>,
    age: Option<string>, gender: Option<string>, contactInfo: Option<string>,
    emergencyContact: Option<string>, remarks: Option<string>)

  const EmptyPatch := PatientPatch(None, None, None, None, None, None, None, None, None, None, None)

  function ApplyPatch(p: Patient, patch: PatientPatch): (r: Patient)
    ensures patch.name.Some? ==> r.name == patch.name.value
    ensures patch.name.None? ==> r.name == p.name
    ensures patch.diseases.Some? ==> r.diseases == patch.diseases.value
    ensures patch.diseases.None? ==> r.diseases == p.diseases
    ensures patch.allergies.Some? ==> r.allergies == patch.allergies.value
    ensures patch.allergies.None? ==> r.allergies == p.allergies
    ensures patch.roomNumber.Some? ==> r.roomNumber == patch.roomNumber.value
    ensures patch.roomNumber.None? ==> r.roomNumber == p.roomNumber
    ensures patch.bedNumber.Some? ==> r.bedNumber == patch.bedNumber.value
    ensures patch.bedNumber.None? ==> r.bedNumber == p.bedNumber
    ensures patch.floorNumber.Some? ==> r.floorNumber == patch.floorNumber.value
    ensures patch.floorNumber.None? ==> r.floorNumber == p.floorNumber
    ensures patch.age.Some? ==> r.age == patch.age.value
    ensures patch.age.None? ==> r.age == p.age
    ensures patch.gender.Some? ==> r.gender == patch.gender.value
    ensures patch.gender.None? ==> r.gender == p.gender
    ensures patch.contactInfo.Some? ==> r.contactInfo == patch.contactInfo.value
    ensures patch.contactInfo.None? ==> r.contactInfo == p.contactInfo
    ensures patch.emergencyContact.Some? ==> r.emergencyContact == patch.emergencyContact.value
    ensures patch.emergencyContact.None? ==> r.emergencyContact == p.emergencyContact
    ensures patch.remarks.Some? ==> r.remarks == patch.remarks.value
    ensures patch.remarks.None? ==> r.remarks == p.remarks
  {
    Patient(
      OrDefault(patch.name, p.name), OrDefault(patch.diseases, p.diseases),
      OrDefault(patch.allergies, p.allergies), OrDefault(patch.roomNumber, p.roomNumber),
      OrDefault(patch.bedNumber, p.bedNumber), OrDefault(patch.floorNumber, p.floorNumber),
      OrDefault(patch.age, p.age), OrDefault(patch.gender, p.gender),
      OrDefault(patch.contactInfo, p.contactInfo),
      OrDefault(patch.emergencyContact, p.emergencyContact), OrDefault(patch.remarks, p.remarks))
  }

  /** An empty update body changes nothing. */
  lemma EmptyPatchKeepsPatient(p: Patient)
    ensures ApplyPatch(p, EmptyPatch) == p
  {
  }

  /** Sending the same update twice has the effect of sending it once. */
  lemma PatchIdempotent(p: Patient, patch: PatientPatch)
    ensures ApplyPatch(ApplyPatch(p, patch), patch) == ApplyPatch(p, patch)
  {
  }
}

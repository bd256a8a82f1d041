/** The prescription form and `createPrescription`. */
module PrescriptionForm {
  import opened PosTypes

  /** The values of the seven input boxes of the prescription form. */
  datatype Form = Form(
    patientName: string,
    patientDob: string,
    insuranceProvider: string,
    insuranceId: string,
    rxNumber: string,
    physician: string,
    refills: string)

  /** A prescription record that passed the form check. */
  predicate Complete(p: Prescription) {
    p.patientName != "" && p.rxNumber != ""
  }

  /** `createPrescription`: refused when the patient name or the Rx number box
      is empty; otherwise a fresh record copying every box. */
  function CreatePrescription(form: Form): (r: Result<Prescription>)
    ensures r.Err? <==> form.patientName == "" || form.rxNumber == ""
    ensures r.Err? ==> r.error == IncompletePrescription
    ensures r.Ok? ==> Complete(r.value)
    ensures r.Ok? ==> r.value.insuranceProvider == form.insuranceProvider && r.value.rxNumber == form.rxNumber
  {
    if form.patientName == "" || form.rxNumber == "" then
      Err(IncompletePrescription)
    else
      Ok(Prescription(form.patientName, form.patientDob, form.insuranceProvider,
                      form.insuranceId, form.rxNumber, form.physician, form.refills))
  }
}

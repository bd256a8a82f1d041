/** Values shared by the pharmacy point-of-sale model: the catalogue entry, the
    prescription record, the user record, one cart line, and the error kinds the
    operations report instead of an `alert`. */
module PosTypes {

  datatype Option<+T> = None | Some(value: T)

  /** Every way an operation of the terminal can refuse to do its work. */
  datatype Error =
    | InvalidCredentials      // no user has this username and password
    | PrescriptionRequired    // a prescription-only item added with no active prescription
    | NotFound                // a quantity button for an id that has no cart line
    | EmptyCart               // checkout of an empty cart
    | MissingPrescription     // checkout of a cart with a prescription line lacking its record
    | IncompletePrescription  // a prescription form without patient name or Rx number

  datatype Result<+T> = Ok(value: T) | Err(error: Error)

  /** Outcome of a state-changing operation that returns nothing on success. */
  datatype Outcome = Pass | Fail(error: Error)

  /** A catalogue entry; prices are whole Malawian kwacha. */
  datatype Medication = Medication(
    id: int,
    name: string,
    price: nat,
    category: string,
    requiresRx: bool,
    stock: nat)

  /** The record built from the prescription form; every field is the text of
      one input box, `refills` included. */
  datatype Prescription = Prescription(
    patientName: string,
    patientDob: string,
    insuranceProvider: string,
    insuranceId: string,
    rxNumber: string,
    physician: string,
    refills: string)

  datatype User = User(
    id: int,
    username: string,
    password: string,
    name: string,
    role: string,
    permissions: seq<string>)

  /** A cart line: the catalogue fields copied from the item, the quantity, and
      the prescription stored when the line was created (only for items that
      require one). */
  datatype Line = Line(item: Medication, quantity: nat, rx: Option<Prescription>)
}

/** Checkout: the gate of `processOrder`, the receipt `generateReceipt`
    builds (without its timestamp and wording), and the state the terminal
    goes through over any sequence of user actions. */
module Orders {
  import opened PosTypes
  import opened CartLines
  import opened PrescriptionForm

  /** The patient block, printed only when a prescription is active; an empty
      box prints as "N/A". */
  datatype PatientBlock = PatientBlock(name: string, dob: string, insurance: string, memberId: string)

  /** One "- name x quantity - amount (RX: number)" row. */
  datatype ReceiptRow = ReceiptRow(name: string, quantity: nat, amount: nat, rxNumber: Option<string>)

  datatype Receipt = Receipt(
    cashierName: string,
    cashierRole: string,
    patient: Option<PatientBlock>,
    rows: seq<ReceiptRow>,
    subtotal: nat,
    insuranceAdjusted: bool)   // whether the INSURANCE and PATIENT PAYS lines appear

  function OrNA(s: string): string {
    if s == "" then "N/A" else s
  }

  /** A receipt field filled from an optional form box: the box's text when
      it was filled in, "N/A" when it was left blank. */
  predicate PrintsAs(field: string, box: string) {
    (box == "" ==> field == "N/A") && (box != "" ==> field == box)
  }

  /** The patient block is printed exactly when a prescription is active,
      with the patient's name; the date of birth, insurer and member id print
      as entered, or "N/A" when left blank, so no field prints blank. */
  function Patient(active: Option<Prescription>): (r: Option<PatientBlock>)
    ensures r.Some? <==> active.Some?
    ensures r.Some? ==> r.value.name == active.value.patientName
    ensures r.Some? ==> PrintsAs(r.value.dob, active.value.patientDob)
    ensures r.Some? ==> PrintsAs(r.value.insurance, active.value.insuranceProvider)
    ensures r.Some? ==> PrintsAs(r.value.memberId, active.value.insuranceId)
    ensures r.Some? ==> r.value.dob != "" && r.value.insurance != "" && r.value.memberId != ""
  {
    match active
    case None => None
    case Some(p) => Some(PatientBlock(p.patientName, OrNA(p.patientDob), OrNA(p.insuranceProvider), OrNA(p.insuranceId)))
  }

  /** One receipt row: a line that carries its prescription, or needs none,
      shows an Rx number exactly when the item is prescription-only, and
      that number is the stored prescription's. */
  function Row(line: Line): (r: ReceiptRow)
    ensures line.rx.Some? || !line.item.requiresRx ==> (r.rxNumber.Some? <==> line.item.requiresRx)
    ensures r.rxNumber.Some? ==> line.rx.Some? && r.rxNumber.value == line.rx.value.rxNumber
  {
    ReceiptRow(line.item.name, line.quantity, LineTotal(line),
               if line.item.requiresRx && line.rx.Some? then Some(line.rx.value.rxNumber) else None)
  }

  /** `currentPrescription?.insuranceProvider` is truthy: the insurance lines
      appear only beside a patient block that names that insurer. */
  function InsuranceApplies(active: Option<Prescription>): (r: bool)
    ensures r ==> Patient(active).Some? && Patient(active).value.insurance == active.value.insuranceProvider
    ensures active.None? ==> !r
  {
    active.Some? && active.value.insuranceProvider != ""
  }

  /** Sum of the amounts printed on the rows. */
  function RowsTotal(rows: seq<ReceiptRow>): nat {
    if rows == [] then 0 else RowsTotal(rows[..|rows| - 1]) + rows[|rows| - 1].amount
  }

  /** `generateReceipt`, read against the cart, the cashier and the session's
      active prescription. */
  function GenerateReceipt(lines: seq<Line>, cashier: User, active: Option<Prescription>): (r: Receipt)
    ensures |r.rows| == |lines|
    ensures forall k :: 0 <= k < |lines| ==> r.rows[k] == Row(lines[k])
  {
    Receipt(cashier.name, cashier.role, Patient(active),
            seq(|lines|, k requires 0 <= k < |lines| => Row(lines[k])),
            Total(lines), InsuranceApplies(active))
  }

  /** The gate and result of `processOrder`. */
  function ProcessOrder(lines: seq<Line>, cashier: User, active: Option<Prescription>): (r: Result<Receipt>)
    ensures r.Ok? <==> lines != [] && RxCovered(lines)
    ensures lines == [] ==> r == Err(EmptyCart)
    ensures lines != [] && !RxCovered(lines) ==> r == Err(MissingPrescription)
  {
    if lines == [] then Err(EmptyCart)
    else if !RxCovered(lines) then Err(MissingPrescription)
    else Ok(GenerateReceipt(lines, cashier, active))
  }

  lemma {:induction false} RowsTotalIsTotal(lines: seq<Line>)
    ensures RowsTotal(seq(|lines|, k requires 0 <= k < |lines| => Row(lines[k]))) == Total(lines)
    decreases |lines|
  {
    if lines != [] {
      var front := lines[..|lines| - 1];
      var rows := seq(|lines|, k requires 0 <= k < |lines| => Row(lines[k]));
      assert rows[..|rows| - 1] == seq(|front|, k requires 0 <= k < |front| => Row(front[k]));
      RowsTotalIsTotal(front);
    }
  }

  /** What an accepted checkout prints: one row per cart line, in cart order,
      whose amounts add up to the subtotal, which is the cart total; an Rx
      number exactly on the rows of prescription-only items, taken from the
      prescription stored in that line; the patient block exactly when a
      prescription is active; and the insurance lines exactly when the
      active prescription names an insurer. */
  lemma ReceiptContents(lines: seq<Line>, cashier: User, active: Option<Prescription>)
    requires ProcessOrder(lines, cashier, active).Ok?
    ensures var r := ProcessOrder(lines, cashier, active).value;
      && r.subtotal == Total(lines) == RowsTotal(r.rows)
      && |r.rows| == |lines|
      && (forall k :: 0 <= k < |lines| ==>
            r.rows[k].name == lines[k].item.name && r.rows[k].quantity == lines[k].quantity &&
            (r.rows[k].rxNumber.Some? <==> lines[k].item.requiresRx) &&
            (r.rows[k].rxNumber.Some? ==> r.rows[k].rxNumber.value == lines[k].rx.value.rxNumber))
      && (r.patient.Some? <==> active.Some?)
      && (r.insuranceAdjusted <==> active.Some? && active.value.insuranceProvider != "")
  {
    RowsTotalIsTotal(lines);
  }

  // ---------------------------------------------------------------------
  // The terminal over a sequence of user actions.

  /** The session variables `cart` and `currentPrescription`. */
  datatype Till = Till(lines: seq<Line>, active: Option<Prescription>)

  /** A click on a product card, a quantity or remove button, the prescription
      button, the checkout button, or the logout button. */
  datatype Action =
    | AddItem(med: Medication)
    | IncreaseItem(id: int)
    | DecreaseItem(id: int)
    | RemoveItem(id: int)
    | SubmitPrescription(form: Form)
    | PlaceOrder(cashier: User)
    | Logout

  /** The till after one action; a refused action leaves it as it was. */
  function Step(t: Till, a: Action): (r: Till)
    ensures a.AddItem? || a.IncreaseItem? || a.DecreaseItem? || a.RemoveItem? ==> r.active == t.active
    ensures a.SubmitPrescription? ==> r.lines == t.lines
    ensures a.PlaceOrder? || a.Logout? ==> r == t || r == Till([], None)
    ensures a.RemoveItem? ==> forall k :: 0 <= k < |r.lines| ==> r.lines[k].item.id != a.id
  {
    match a
    case AddItem(med) =>
      var r := Add(t.lines, med, t.active);
      if r.Ok? then t.(lines := r.value) else t
    case IncreaseItem(id) =>
      var r := Increase(t.lines, id);
      if r.Ok? then t.(lines := r.value) else t
    case DecreaseItem(id) =>
      var r := Decrease(t.lines, id);
      if r.Ok? then t.(lines := r.value) else t
    case RemoveItem(id) => t.(lines := Remove(t.lines, id))
    case SubmitPrescription(form) =>
      var r := CreatePrescription(form);
      if r.Ok? then t.(active := Some(r.value)) else t
    case PlaceOrder(cashier) =>
      if ProcessOrder(t.lines, cashier, t.active).Ok? then Till([], None) else t
    case Logout => Till([], None)
  }

  function Run(t: Till, actions: seq<Action>): Till
    decreases |actions|
  {
    if actions == [] then t else Run(Step(t, actions[0]), actions[1..])
  }

  /** Every prescription the till holds passed the form check. */
  predicate RecordsComplete(t: Till) {
    (t.active.Some? ==> Complete(t.active.value)) &&
    forall k :: 0 <= k < |t.lines| && t.lines[k].rx.Some? ==> Complete(t.lines[k].rx.value)
  }

  predicate Healthy(t: Till) {
    Consistent(t.lines) && RecordsComplete(t)
  }

  lemma AddKeepsHealthy(t: Till, med: Medication)
    requires Healthy(t) && Add(t.lines, med, t.active).Ok?
    ensures Healthy(Till(Add(t.lines, med, t.active).value, t.active))
  {
    AddPreservesConsistent(t.lines, med, t.active);
    AddEffect(t.lines, med, t.active);
    var r := Add(t.lines, med, t.active).value;
    forall k | 0 <= k < |r| && r[k].rx.Some?
      ensures Complete(r[k].rx.value)
    {
      if k < |t.lines| {
        assert r[k].rx == t.lines[k].rx;
      }
    }
  }

  lemma IncreaseKeepsHealthy(t: Till, id: int)
    requires Healthy(t) && Increase(t.lines, id).Ok?
    ensures Healthy(Till(Increase(t.lines, id).value, t.active))
  {
    IncreasePreservesConsistent(t.lines, id);
    IncreaseEffect(t.lines, id);
    var r := Increase(t.lines, id).value;
    forall k | 0 <= k < |r| && r[k].rx.Some?
      ensures Complete(r[k].rx.value)
    {
      assert r[k].rx == t.lines[k].rx;
    }
  }

  /** Deleting line `i` keeps every stored prescription complete. */
  lemma DeleteKeepsComplete(t: Till, i: nat)
    requires RecordsComplete(t) && i < |t.lines|
    ensures RecordsComplete(Till(t.lines[..i] + t.lines[i + 1..], t.active))
  {
    var r := t.lines[..i] + t.lines[i + 1..];
    forall k | 0 <= k < |r| && r[k].rx.Some?
      ensures Complete(r[k].rx.value)
    {
      assert r[k] == t.lines[if k < i then k else k + 1];
    }
  }

  lemma DecreaseKeepsHealthy(t: Till, id: int)
    requires Healthy(t) && Decrease(t.lines, id).Ok?
    ensures Healthy(Till(Decrease(t.lines, id).value, t.active))
  {
    DecreasePreservesConsistent(t.lines, id);
    DecreaseEffect(t.lines, id);
    var i := Find(t.lines, id).value;
    var r := Decrease(t.lines, id).value;
    if t.lines[i].quantity > 1 {
      forall k | 0 <= k < |r| && r[k].rx.Some?
        ensures Complete(r[k].rx.value)
      {
        assert r[k].rx == t.lines[k].rx;
      }
    } else {
      DeleteKeepsComplete(t, i);
    }
  }

  lemma RemoveKeepsHealthy(t: Till, id: int)
    requires Healthy(t)
    ensures Healthy(Till(Remove(t.lines, id), t.active))
  {
    RemovePreservesConsistent(t.lines, id);
    RemoveEffect(t.lines, id);
    if Find(t.lines, id).Some? {
      DeleteKeepsComplete(t, Find(t.lines, id).value);
    }
  }

  lemma StepKeepsHealthy(t: Till, a: Action)
    requires Healthy(t)
    ensures Healthy(Step(t, a))
  {
    match a
    case AddItem(med) =>
      if Add(t.lines, med, t.active).Ok? {
        AddKeepsHealthy(t, med);
      }
    case IncreaseItem(id) =>
      if Increase(t.lines, id).Ok? {
        IncreaseKeepsHealthy(t, id);
      }
    case DecreaseItem(id) =>
      if Decrease(t.lines, id).Ok? {
        DecreaseKeepsHealthy(t, id);
      }
    case RemoveItem(id) =>
      RemoveKeepsHealthy(t, id);
    case SubmitPrescription(form) =>
    case PlaceOrder(cashier) =>
    case Logout =>
  }

  /** Starting from a healthy till (the empty one of a fresh session, say),
      every action sequence keeps one line per id, every quantity at least 1,
      and a complete prescription on every prescription-only line. */
  lemma {:induction false} RunKeepsHealthy(t: Till, actions: seq<Action>)
    requires Healthy(t)
    ensures Healthy(Run(t, actions))
    decreases |actions|
  {
    if actions != [] {
      StepKeepsHealthy(t, actions[0]);
      RunKeepsHealthy(Step(t, actions[0]), actions[1..]);
    }
  }

  /** The checkout gate's prescription check never fires on a cart built by
      the terminal's own operations: checkout of such a cart is accepted
      exactly when it is not empty, and every Rx number on its receipt is
      non-empty. */
  lemma CheckoutOfBuiltCart(actions: seq<Action>, cashier: User)
    ensures var t := Run(Till([], None), actions);
      && ProcessOrder(t.lines, cashier, t.active) != Err(MissingPrescription)
      && (ProcessOrder(t.lines, cashier, t.active).Ok? <==> t.lines != [])
      && (ProcessOrder(t.lines, cashier, t.active).Ok? ==>
            forall k :: 0 <= k < |t.lines| && t.lines[k].item.requiresRx ==>
              ProcessOrder(t.lines, cashier, t.active).value.rows[k].rxNumber.Some? &&
              ProcessOrder(t.lines, cashier, t.active).value.rows[k].rxNumber.value != "")
  {
    RunKeepsHealthy(Till([], None), actions);
  }

  /** A successful checkout empties the cart and drops the active
      prescription; a refused one changes nothing. */
  lemma PlaceOrderEffect(t: Till, cashier: User)
    ensures t.lines == [] ==> Step(t, PlaceOrder(cashier)) == t
    ensures t.lines != [] && !RxCovered(t.lines) ==> Step(t, PlaceOrder(cashier)) == t
    ensures t.lines != [] && RxCovered(t.lines) ==> Step(t, PlaceOrder(cashier)) == Till([], None)
  {
  }

  /** The total a till ends with depends only on its lines, not on the order
      in which the actions built them. */
  lemma TotalIgnoresOrder(actions1: seq<Action>, actions2: seq<Action>)
    requires multiset(Run(Till([], None), actions1).lines) == multiset(Run(Till([], None), actions2).lines)
    ensures Total(Run(Till([], None), actions1).lines) == Total(Run(Till([], None), actions2).lines)
  {
    TotalPermutation(Run(Till([], None), actions1).lines, Run(Till([], None), actions2).lines);
  }
}

/** The terminal's session state — the globals `currentUser`, `cart` and
    `currentPrescription` — and the handlers that change it in place. Each
    handler is proved to leave exactly the state the value model in
    `CartLines`, `Orders`, `PrescriptionForm` and `Auth` describes, and to
    keep the cart invariant. */
module Terminal {
  import opened PosTypes
  import opened CartLines
  import opened PrescriptionForm
  import opened Orders
  import opened Auth
  import opened PriceFormat

  class Session {
    var currentUser: Option<User>
    var cart: seq<Line>
    var currentPrescription: Option<Prescription>

    /** One line per id, quantities at least 1, every prescription-only line
        holding a prescription, and every prescription held complete. */
    ghost predicate Valid()
      reads this
    {
      Healthy(Till(cart, currentPrescription))
    }

    /** The state when the page loads: nobody signed in, an empty cart, no
        prescription. */
    constructor ()
      ensures currentUser.None? && cart == [] && currentPrescription.None?
      ensures Valid()
    {
      currentUser := None;
      cart := [];
      currentPrescription := None;
    }

    /** `handleLogin`: sign in the first user whose username and password
        match; on a failure nothing changes. The cart is left as it is. */
    method Login(users: seq<User>, username: string, password: string) returns (outcome: Outcome)
      modifies this`currentUser
      ensures Authenticate(users, username, password).Ok? ==>
        outcome == Pass && currentUser == Some(Authenticate(users, username, password).value)
      ensures Authenticate(users, username, password).Err? ==>
        outcome == Fail(InvalidCredentials) && currentUser == old(currentUser)
    {
      var found := FindUser(users, username, password);
      if found.None? {
        return Fail(InvalidCredentials);
      }
      currentUser := Some(users[found.value]);
      outcome := Pass;
    }

    /** `handleLogout`: clears the user, the cart and the prescription. */
    method Logout()
      modifies this
      ensures currentUser.None? && cart == [] && currentPrescription.None?
      ensures Valid()
    {
      currentUser := None;
      cart := [];
      currentPrescription := None;
    }

    /** `createPrescription`: replaces the active prescription with a new
        record, unless the patient name or Rx number is missing. Lines
        already in the cart keep the record they stored. */
    method CreatePrescription(form: Form) returns (outcome: Outcome)
      modifies this`currentPrescription
      ensures PrescriptionForm.CreatePrescription(form).Ok? ==>
        outcome == Pass && currentPrescription == Some(PrescriptionForm.CreatePrescription(form).value)
      ensures PrescriptionForm.CreatePrescription(form).Err? ==>
        outcome == Fail(IncompletePrescription) && currentPrescription == old(currentPrescription)
      ensures old(Valid()) ==> Valid()
    {
      if form.patientName == "" || form.rxNumber == "" {
        return Fail(IncompletePrescription);
      }
      currentPrescription := Some(Prescription(form.patientName, form.patientDob, form.insuranceProvider,
                                               form.insuranceId, form.rxNumber, form.physician, form.refills));
      outcome := Pass;
    }

    /** `addToCart`: refused for a prescription-only item while no
        prescription is active; otherwise the line for the id gains one unit,
        or a new line with quantity 1 is appended that stores the active
        prescription when the item needs one. */
    method AddToCart(med: Medication) returns (outcome: Outcome)
      modifies this`cart
      ensures outcome.Pass? <==> Add(old(cart), med, currentPrescription).Ok?
      ensures outcome.Fail? ==> outcome.error == PrescriptionRequired && cart == old(cart)
      ensures outcome.Pass? ==> cart == Add(old(cart), med, currentPrescription).value
      ensures old(Valid()) ==> Valid()
    {
      if med.requiresRx && currentPrescription.None? {
        return Fail(PrescriptionRequired);
      }
      ghost var before := Till(cart, currentPrescription);
      AddEffect(cart, med, currentPrescription);
      var found := Find(cart, med.id);
      if found.Some? {
        var i := found.value;
        cart := cart[i := cart[i].(quantity := cart[i].quantity + 1)];
      } else {
        var line := Line(med, 1, if med.requiresRx then currentPrescription else None);
        cart := cart + [line];
      }
      if Healthy(before) {
        StepKeepsHealthy(before, AddItem(med));
      }
      outcome := Pass;
    }

    /** `increaseQuantity`: the line for the id gains one unit; an id with no
        line is reported and nothing changes. */
    method IncreaseQuantity(id: int) returns (outcome: Outcome)
      modifies this`cart
      ensures outcome.Pass? <==> Increase(old(cart), id).Ok?
      ensures outcome.Fail? ==> outcome.error == NotFound && cart == old(cart)
      ensures outcome.Pass? ==> cart == Increase(old(cart), id).value
      ensures old(Valid()) ==> Valid()
    {
      var found := Find(cart, id);
      if found.None? {
        return Fail(NotFound);
      }
      ghost var before := Till(cart, currentPrescription);
      IncreaseEffect(cart, id);
      var i := found.value;
      cart := cart[i := cart[i].(quantity := cart[i].quantity + 1)];
      if Healthy(before) {
        StepKeepsHealthy(before, IncreaseItem(id));
      }
      outcome := Pass;
    }

    /** `decreaseQuantity`: a line holding more than one loses one unit; a
        line holding one is filtered out; an id with no line is reported and
        nothing changes. */
    method DecreaseQuantity(id: int) returns (outcome: Outcome)
      modifies this`cart
      ensures outcome.Pass? <==> Decrease(old(cart), id).Ok?
      ensures outcome.Fail? ==> outcome.error == NotFound && cart == old(cart)
      ensures outcome.Pass? ==> cart == Decrease(old(cart), id).value
      ensures old(Valid()) ==> Valid()
    {
      var found := Find(cart, id);
      if found.None? {
        return Fail(NotFound);
      }
      ghost var before := Till(cart, currentPrescription);
      var i := found.value;
      if cart[i].quantity > 1 {
        cart := cart[i := cart[i].(quantity := cart[i].quantity - 1)];
      } else {
        cart := Remove(cart, id);
      }
      if Healthy(before) {
        StepKeepsHealthy(before, DecreaseItem(id));
      }
      outcome := Pass;
    }

    /** `removeItem`: filters the id out of the cart. */
    method RemoveItem(id: int)
      modifies this`cart
      ensures cart == Remove(old(cart), id)
      ensures old(Valid()) ==> Valid()
    {
      ghost var before := Till(cart, currentPrescription);
      cart := Remove(cart, id);
      if Healthy(before) {
        StepKeepsHealthy(before, Action.RemoveItem(id));
      }
    }

    /** The `forEach` loop of `updateCart` that adds up `price * quantity`. */
    method CartTotal() returns (total: nat)
      ensures total == Total(cart)
    {
      total := 0;
      var i := 0;
      while i < |cart|
        invariant 0 <= i <= |cart|
        invariant total == Total(cart[..i])
      {
        assert cart[..i + 1][..i] == cart[..i];
        total := total + cart[i].item.price * cart[i].quantity;
        i := i + 1;
      }
      assert cart[..|cart|] == cart;
    }

    /** The running total `updateCart` displays: "MK0.00" for an empty cart,
        otherwise the formatted loop total; both agree with the formatted
        cart total. */
    method CartTotalLabel() returns (text: string)
      ensures text == FormatPrice(Total(cart))
    {
      if |cart| == 0 {
        FormatPriceZero();
        return "MK0.00";
      }
      var total := CartTotal();
      text := FormatPrice(total);
    }

    /** `processOrder` for the signed-in cashier: refuses an empty cart and a
        cart with a prescription-only line lacking a prescription, leaving
        everything as it was; otherwise returns the receipt and clears the
        cart and the active prescription. */
    method ProcessOrder() returns (r: Result<Receipt>)
      requires currentUser.Some?
      modifies this`cart, this`currentPrescription
      ensures r == Orders.ProcessOrder(old(cart), currentUser.value, old(currentPrescription))
      ensures r.Ok? ==> cart == [] && currentPrescription.None?
      ensures r.Err? ==> cart == old(cart) && currentPrescription == old(currentPrescription)
      ensures old(Valid()) && old(cart) != [] ==> r.Ok?
      ensures old(Valid()) ==> Valid()
    {
      if |cart| == 0 {
        return Err(EmptyCart);
      }
      if !RxCovered(cart) {
        return Err(MissingPrescription);
      }
      var total := CartTotal();
      var receipt := GenerateReceipt(cart, currentUser.value, currentPrescription);
      assert receipt.subtotal == total;
      cart := [];
      currentPrescription := None;
      r := Ok(receipt);
    }
  }

  /** The regulated sale walked through end to end: the pharmacist signs in,
      the item is refused without a prescription, accepted after one is
      entered, and checked out with the insurance lines present. */
  method RegulatedSaleExample() {
    var session := new Session();
    var pharmacist := User(1, "pharmacist", "pharma123", "Dr. James Banda", "Pharmacist",
                           ["view", "edit", "prescribe", "checkout"]);
    var outcome := session.Login([pharmacist], "pharmacist", "pharma123");
    assert session.currentUser == Some(pharmacist);

    var amoxicillin := Medication(1, "Amoxicillin 500mg", 12000, "Antibiotics", true, 45);
    outcome := session.AddToCart(amoxicillin);
    assert outcome == Fail(PrescriptionRequired) && session.cart == [];

    var rx := Prescription("A", "", "AcmeIns", "", "R1", "", "0");
    outcome := session.CreatePrescription(Form("A", "", "AcmeIns", "", "R1", "", "0"));
    assert session.currentPrescription == Some(rx);
    outcome := session.AddToCart(amoxicillin);
    assert session.cart == [Line(amoxicillin, 1, Some(rx))];

    var receipt := session.ProcessOrder();
    assert receipt.Ok?;
    assert receipt.value.subtotal == 12000 by {
      assert Total([Line(amoxicillin, 1, Some(rx))]) == 12000;
    }
    assert receipt.value.insuranceAdjusted;
    assert session.cart == [] && session.currentPrescription.None?;
  }
}

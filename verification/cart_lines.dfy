/** The cart as a value: the sequence of lines held in the global `cart`, and
    what `addToCart`, `increaseQuantity`, `decreaseQuantity` and `removeItem`
    turn it into. The `Session` class performs these updates in place and is
    proved to produce exactly these values; the lemmas here state what the
    operations promise: at most one line per id, every quantity at least 1,
    every prescription-only line carrying a prescription, and how the total
    moves. */
module CartLines {
  import opened PosTypes

  /** The amount of one line, `item.price * item.quantity`: nothing exactly
      when the price or the quantity is zero, at least the unit price once
      the line holds a unit. */
  function LineTotal(line: Line): (r: nat)
    ensures r == 0 <==> line.item.price == 0 || line.quantity == 0
    ensures line.quantity >= 1 ==> r >= line.item.price
  {
    line.item.price * line.quantity
  }

  /** The running sum `sum + item.price * item.quantity`, first line first. */
  function Total(lines: seq<Line>): (r: nat)
    ensures forall k :: 0 <= k < |lines| ==> LineTotal(lines[k]) <= r
    ensures r == 0 <==> forall k :: 0 <= k < |lines| ==> LineTotal(lines[k]) == 0
  {
    if lines == [] then 0 else Total(lines[..|lines| - 1]) + LineTotal(lines[|lines| - 1])
  }

  /** `cart.find(item => item.id === id)`, as the index of the line found. */
  function Find(lines: seq<Line>, id: int): (r: Option<nat>)
    ensures r.Some? ==> r.value < |lines| && lines[r.value].item.id == id
    ensures r.Some? ==> forall j :: 0 <= j < r.value ==> lines[j].item.id != id
    ensures r.None? ==> forall j :: 0 <= j < |lines| ==> lines[j].item.id != id
  {
    if lines == [] then None
    else if lines[0].item.id == id then Some(0)
    else match Find(lines[1..], id)
      case None => None
      case Some(k) => Some(k + 1)
  }

  /** At most one line per catalogue id. */
  predicate UniqueIds(lines: seq<Line>) {
    forall i, j :: 0 <= i < j < |lines| ==> lines[i].item.id != lines[j].item.id
  }

  predicate PositiveQuantities(lines: seq<Line>) {
    forall i :: 0 <= i < |lines| ==> lines[i].quantity >= 1
  }

  /** Every line of a prescription-only item carries a prescription: exactly
      what the checkout gate re-checks. */
  predicate RxCovered(lines: seq<Line>) {
    forall i :: 0 <= i < |lines| && lines[i].item.requiresRx ==> lines[i].rx.Some?
  }

  /** The invariant every cart operation keeps. */
  predicate Consistent(lines: seq<Line>) {
    UniqueIds(lines) && PositiveQuantities(lines) && RxCovered(lines)
  }

  /** `existingItem.quantity += 1` on the first line for `id`. */
  function Bump(lines: seq<Line>, id: int): (r: seq<Line>)
    ensures |r| == |lines|
    ensures forall k :: 0 <= k < |lines| ==>
      r[k].item == lines[k].item && r[k].rx == lines[k].rx && r[k].quantity >= lines[k].quantity
  {
    if lines == [] then []
    else if lines[0].item.id == id then [lines[0].(quantity := lines[0].quantity + 1)] + lines[1..]
    else [lines[0]] + Bump(lines[1..], id)
  }

  /** `cart.filter(item => item.id !== id)`. */
  function Remove(lines: seq<Line>, id: int): (r: seq<Line>)
    ensures |r| <= |lines|
    ensures forall k :: 0 <= k < |r| ==> r[k].item.id != id
  {
    if lines == [] then []
    else if lines[0].item.id == id then Remove(lines[1..], id)
    else [lines[0]] + Remove(lines[1..], id)
  }

  /** `Remove` keeps exactly the lines whose id differs. */
  lemma {:induction false} RemoveKeeps(lines: seq<Line>, id: int)
    ensures forall l :: l in Remove(lines, id) <==> l in lines && l.item.id != id
  {
    if lines != [] {
      RemoveKeeps(lines[1..], id);
      assert lines == [lines[0]] + lines[1..];
    }
  }

  /** The line `addToCart` appends: quantity 1 and, for a prescription-only
      item, the prescription active at that moment. */
  function NewLine(med: Medication, active: Option<Prescription>): (r: Line)
    ensures r.item == med && PositiveQuantities([r])
    ensures RxCovered([r]) <==> !med.requiresRx || active.Some?
  {
    var line := Line(med, 1, if med.requiresRx then active else None);
    assert [line][0] == line;
    line
  }

  /** `addToCart(med)` with `active` the value of `currentPrescription`. */
  function Add(lines: seq<Line>, med: Medication, active: Option<Prescription>): (r: Result<seq<Line>>)
    ensures r.Err? <==> med.requiresRx && active.None?
    ensures r.Err? ==> r.error == PrescriptionRequired
  {
    if med.requiresRx && active.None? then Err(PrescriptionRequired)
    else if Find(lines, med.id).Some? then Ok(Bump(lines, med.id))
    else Ok(lines + [NewLine(med, active)])
  }

  /** `increaseQuantity`: the lookup of a missing id fails before anything
      changes. */
  function Increase(lines: seq<Line>, id: int): (r: Result<seq<Line>>)
    ensures r.Err? <==> Find(lines, id).None?
  {
    if Find(lines, id).None? then Err(NotFound) else Ok(Bump(lines, id))
  }

  /** `decreaseQuantity`: the line found for `id` loses one unit when it holds
      more than one; otherwise the id is filtered out of the cart. A missing
      id fails like `increaseQuantity`. */
  function Decrease(lines: seq<Line>, id: int): (r: Result<seq<Line>>)
    ensures r.Err? <==> Find(lines, id).None?
  {
    match Find(lines, id)
    case None => Err(NotFound)
    case Some(i) =>
      if lines[i].quantity > 1 then Ok(lines[i := lines[i].(quantity := lines[i].quantity - 1)])
      else Ok(Remove(lines, id))
  }

  // ---------------------------------------------------------------------
  // The recursive definitions in index form.

  lemma {:induction false} BumpAt(lines: seq<Line>, id: int)
    ensures Find(lines, id).None? ==> Bump(lines, id) == lines
    ensures Find(lines, id).Some? ==>
      var i := Find(lines, id).value;
      Bump(lines, id) == lines[i := lines[i].(quantity := lines[i].quantity + 1)]
  {
    if lines == [] {
    } else if lines[0].item.id == id {
      assert Find(lines, id) == Some(0);
    } else {
      var rest := lines[1..];
      BumpAt(rest, id);
      assert lines == [lines[0]] + rest;
      assert Bump(lines, id) == [lines[0]] + Bump(rest, id);
      if Find(rest, id).Some? {
        var j := Find(rest, id).value;
        assert Find(lines, id) == Some(j + 1);
        assert [lines[0]] + rest[j := rest[j].(quantity := rest[j].quantity + 1)]
            == lines[j + 1 := lines[j + 1].(quantity := lines[j + 1].quantity + 1)];
      }
    }
  }

  lemma {:induction false} RemoveAbsent(lines: seq<Line>, id: int)
    requires forall j :: 0 <= j < |lines| ==> lines[j].item.id != id
    ensures Remove(lines, id) == lines
  {
    if lines != [] {
      RemoveAbsent(lines[1..], id);
      assert lines == [lines[0]] + lines[1..];
    }
  }

  /** The filter distributes over concatenation. */
  lemma {:induction false} RemoveAppend(a: seq<Line>, b: seq<Line>, id: int)
    ensures Remove(a + b, id) == Remove(a, id) + Remove(b, id)
    decreases |a|
  {
    if a == [] {
      assert a + b == b;
    } else {
      assert (a + b)[0] == a[0];
      assert (a + b)[1..] == a[1..] + b;
      RemoveAppend(a[1..], b, id);
      var head: seq<Line> := if a[0].item.id == id then [] else [a[0]];
      var x, y := Remove(a[1..], id), Remove(b, id);
      assert Remove(a + b, id) == head + (x + y);
      assert Remove(a, id) == head + x;
      assert head + (x + y) == (head + x) + y;
    }
  }

  /** Filtering an id out keeps everything before its first line, drops that
      line, and filters the rest. */
  lemma RemoveFirst(lines: seq<Line>, id: int, i: nat)
    requires Find(lines, id) == Some(i)
    ensures Remove(lines, id) == lines[..i] + Remove(lines[i + 1..], id)
  {
    var rest := [lines[i]] + lines[i + 1..];
    assert lines == lines[..i] + rest;
    RemoveAppend(lines[..i], rest, id);
    RemoveAbsent(lines[..i], id);
    assert rest[1..] == lines[i + 1..];
  }

  /** With one line per id, filtering an id out deletes exactly its line and
      keeps the other lines in their order. */
  lemma RemoveAt(lines: seq<Line>, id: int)
    requires UniqueIds(lines) && Find(lines, id).Some?
    ensures var i := Find(lines, id).value;
      Remove(lines, id) == lines[..i] + lines[i + 1..]
  {
    var i := Find(lines, id).value;
    RemoveFirst(lines, id, i);
    RemoveAbsent(lines[i + 1..], id);
  }


  // ---------------------------------------------------------------------
  // The total.

  lemma {:induction false} TotalAppend(a: seq<Line>, b: seq<Line>)
    ensures Total(a + b) == Total(a) + Total(b)
    decreases |b|
  {
    if b == [] {
      assert a + b == a;
    } else {
      assert (a + b)[..|a + b| - 1] == a + b[..|b| - 1];
      TotalAppend(a, b[..|b| - 1]);
    }
  }

  lemma TotalSplit(lines: seq<Line>, i: nat)
    requires i < |lines|
    ensures Total(lines) == Total(lines[..i]) + LineTotal(lines[i]) + Total(lines[i + 1..])
  {
    var front, back := lines[..i], lines[i + 1..];
    var mid := [lines[i]];
    assert lines == front + mid + back;
    TotalAppend(front + mid, back);
    TotalAppend(front, mid);
    assert mid[..0] == [];
  }

  /** One more (or one fewer) unit moves a line total by one unit price. */
  lemma LineTotalStep(line: Line, quantity: nat)
    requires quantity == line.quantity + 1 || quantity + 1 == line.quantity
    ensures quantity == line.quantity + 1 ==>
      LineTotal(line.(quantity := quantity)) == LineTotal(line) + line.item.price
    ensures quantity + 1 == line.quantity ==>
      LineTotal(line.(quantity := quantity)) + line.item.price == LineTotal(line)
  {
    var p := line.item.price;
    if quantity == line.quantity + 1 {
      assert p * quantity == p * line.quantity + p;
    } else {
      assert p * quantity + p == p * line.quantity;
    }
  }

  /** Replacing one line moves the total by the difference of the two line
      totals. */
  lemma TotalUpdate(lines: seq<Line>, i: nat, line: Line)
    requires i < |lines|
    ensures Total(lines[i := line]) + LineTotal(lines[i]) == Total(lines) + LineTotal(line)
  {
    var updated := lines[i := line];
    TotalSplit(lines, i);
    TotalSplit(updated, i);
    assert updated[..i] == lines[..i] && updated[i + 1..] == lines[i + 1..];
  }

  /** Deleting one line lowers the total by that line's total. */
  lemma TotalDelete(lines: seq<Line>, i: nat)
    requires i < |lines|
    ensures Total(lines[..i] + lines[i + 1..]) + LineTotal(lines[i]) == Total(lines)
  {
    TotalSplit(lines, i);
    TotalAppend(lines[..i], lines[i + 1..]);
  }

  lemma MultisetDelete(lines: seq<Line>, j: nat)
    requires j < |lines|
    ensures multiset(lines[..j] + lines[j + 1..]) == multiset(lines) - multiset{lines[j]}
  {
    assert lines == lines[..j] + [lines[j]] + lines[j + 1..];
    assert multiset(lines) == multiset(lines[..j]) + multiset{lines[j]} + multiset(lines[j + 1..]);
  }

  /** The total does not depend on the order of the lines. */
  lemma {:induction false} TotalPermutation(a: seq<Line>, b: seq<Line>)
    requires multiset(a) == multiset(b)
    ensures Total(a) == Total(b)
    decreases |a|
  {
    if a != [] {
      var i := |a| - 1;
      var front := a[..i];
      assert front == a[..i] + a[i + 1..];
      MultisetDelete(a, i);
      assert a[i] in multiset(b);
      var j :| 0 <= j < |b| && b[j] == a[i];
      var rest := b[..j] + b[j + 1..];
      MultisetDelete(b, j);
      TotalPermutation(front, rest);
      TotalDelete(b, j);
    }
  }

  // ---------------------------------------------------------------------
  // addToCart

  /** A rejected add changes nothing; an accepted add either raises the
      quantity of the line already holding the id by one, adding no line, or
      appends one line with quantity 1 that stores the active prescription
      when the item needs one. */
  lemma AddEffect(lines: seq<Line>, med: Medication, active: Option<Prescription>)
    ensures med.requiresRx && active.None? ==> Add(lines, med, active) == Err(PrescriptionRequired)
    ensures Add(lines, med, active).Ok? && Find(lines, med.id).Some? ==>
      var i := Find(lines, med.id).value;
      Add(lines, med, active).value == lines[i := lines[i].(quantity := lines[i].quantity + 1)]
    ensures Add(lines, med, active).Ok? && Find(lines, med.id).None? ==>
      Add(lines, med, active).value == lines + [Line(med, 1, if med.requiresRx then active else None)]
  {
    BumpAt(lines, med.id);
  }

  lemma AddPreservesConsistent(lines: seq<Line>, med: Medication, active: Option<Prescription>)
    requires Consistent(lines) && Add(lines, med, active).Ok?
    ensures Consistent(Add(lines, med, active).value)
  {
    AddEffect(lines, med, active);
  }

  /** Whatever the add does, the lines already present keep their item and
      their stored prescription: re-adding an id never touches the
      prescription its line holds. */
  lemma AddKeepsStoredPrescriptions(lines: seq<Line>, med: Medication, active: Option<Prescription>)
    requires Add(lines, med, active).Ok?
    ensures |Add(lines, med, active).value| >= |lines|
    ensures forall k :: 0 <= k < |lines| ==>
      Add(lines, med, active).value[k].item == lines[k].item &&
      Add(lines, med, active).value[k].rx == lines[k].rx
  {
    AddEffect(lines, med, active);
  }

  /** An accepted add raises the total by exactly one unit price: the price
      copied into the line already holding the id, or the item's own. */
  lemma AddTotal(lines: seq<Line>, med: Medication, active: Option<Prescription>)
    requires Add(lines, med, active).Ok?
    ensures Total(Add(lines, med, active).value) == Total(lines) +
      match Find(lines, med.id)
      case Some(i) => lines[i].item.price
      case None => med.price
  {
    AddEffect(lines, med, active);
    match Find(lines, med.id)
    case Some(i) =>
      TotalUpdate(lines, i, lines[i].(quantity := lines[i].quantity + 1));
      LineTotalStep(lines[i], lines[i].quantity + 1);
    case None =>
      TotalAppend(lines, [NewLine(med, active)]);
      assert [NewLine(med, active)][..0] == [];
  }

  lemma {:induction false} FindAppended(lines: seq<Line>, line: Line)
    requires Find(lines, line.item.id).None?
    ensures Find(lines + [line], line.item.id) == Some(|lines|)
  {
    if lines != [] {
      assert (lines + [line])[1..] == lines[1..] + [line];
      FindAppended(lines[1..], line);
    }
  }

  /** Adding an item the cart does not hold, twice, leaves one line for it
      with quantity 2 rather than two lines. */
  lemma AddTwice(lines: seq<Line>, med: Medication, active: Option<Prescription>)
    requires Find(lines, med.id).None? && Add(lines, med, active).Ok?
    ensures Add(Add(lines, med, active).value, med, active)
         == Ok(lines + [Line(med, 2, if med.requiresRx then active else None)])
  {
    var once := lines + [NewLine(med, active)];
    AddEffect(lines, med, active);
    FindAppended(lines, NewLine(med, active));
    AddEffect(once, med, active);
    assert once[|lines| := once[|lines|].(quantity := 2)] == lines + [Line(med, 2, if med.requiresRx then active else None)];
  }

  // ---------------------------------------------------------------------
  // increaseQuantity

  /** Incrementing raises the quantity of the line for `id` by one and leaves
      every other line, and the order, as it was; a missing id is reported. */
  lemma IncreaseEffect(lines: seq<Line>, id: int)
    ensures Find(lines, id).None? ==> Increase(lines, id) == Err(NotFound)
    ensures Find(lines, id).Some? ==>
      var i := Find(lines, id).value;
      Increase(lines, id) == Ok(lines[i := lines[i].(quantity := lines[i].quantity + 1)])
  {
    BumpAt(lines, id);
  }

  lemma IncreasePreservesConsistent(lines: seq<Line>, id: int)
    requires Consistent(lines) && Increase(lines, id).Ok?
    ensures Consistent(Increase(lines, id).value)
  {
    IncreaseEffect(lines, id);
  }

  lemma IncreaseTotal(lines: seq<Line>, id: int)
    requires Increase(lines, id).Ok?
    ensures Total(Increase(lines, id).value) == Total(lines) + lines[Find(lines, id).value].item.price
  {
    IncreaseEffect(lines, id);
    var i := Find(lines, id).value;
    TotalUpdate(lines, i, lines[i].(quantity := lines[i].quantity + 1));
    LineTotalStep(lines[i], lines[i].quantity + 1);
  }

  // ---------------------------------------------------------------------
  // decreaseQuantity

  /** In a consistent cart, decrementing a line that holds more than one
      lowers it by exactly one and keeps it; decrementing a line that holds
      one removes it; the other lines stay, in order. */
  lemma DecreaseEffect(lines: seq<Line>, id: int)
    requires UniqueIds(lines)
    ensures Find(lines, id).None? ==> Decrease(lines, id) == Err(NotFound)
    ensures Find(lines, id).Some? ==>
      var i := Find(lines, id).value;
      Decrease(lines, id) == Ok(
        if lines[i].quantity > 1 then lines[i := lines[i].(quantity := lines[i].quantity - 1)]
        else lines[..i] + lines[i + 1..])
  {
    if Find(lines, id).Some? && lines[Find(lines, id).value].quantity <= 1 {
      RemoveAt(lines, id);
    }
  }

  lemma DeletePreservesConsistent(lines: seq<Line>, i: nat)
    requires Consistent(lines) && i < |lines|
    ensures Consistent(lines[..i] + lines[i + 1..])
  {
    var r := lines[..i] + lines[i + 1..];
    forall k | 0 <= k < |r|
      ensures r[k] == lines[if k < i then k else k + 1]
    {
    }
  }

  lemma DecreasePreservesConsistent(lines: seq<Line>, id: int)
    requires Consistent(lines) && Decrease(lines, id).Ok?
    ensures Consistent(Decrease(lines, id).value)
  {
    DecreaseEffect(lines, id);
    var i := Find(lines, id).value;
    if lines[i].quantity <= 1 {
      DeletePreservesConsistent(lines, i);
    }
  }

  /** In a consistent cart every decrement lowers the total by one unit
      price, whether the line stays or goes. */
  lemma DecreaseTotal(lines: seq<Line>, id: int)
    requires Consistent(lines) && Decrease(lines, id).Ok?
    ensures Total(Decrease(lines, id).value) + lines[Find(lines, id).value].item.price == Total(lines)
  {
    DecreaseEffect(lines, id);
    var i := Find(lines, id).value;
    var r := Decrease(lines, id).value;
    var line := lines[i];
    if line.quantity > 1 {
      var lower := line.(quantity := line.quantity - 1);
      assert r == lines[i := lower];
      TotalUpdate(lines, i, lower);
      LineTotalStep(line, line.quantity - 1);
    } else {
      assert line.quantity == 1;
      assert r == lines[..i] + lines[i + 1..];
      TotalDelete(lines, i);
      LineTotalStep(line, 0);
    }
  }

  // ---------------------------------------------------------------------
  // removeItem

  /** Removing an id absent from the cart changes nothing; removing a present
      one deletes its line and keeps the rest in order. */
  lemma RemoveEffect(lines: seq<Line>, id: int)
    requires UniqueIds(lines)
    ensures Find(lines, id).None? ==> Remove(lines, id) == lines
    ensures Find(lines, id).Some? ==>
      var i := Find(lines, id).value;
      Remove(lines, id) == lines[..i] + lines[i + 1..]
  {
    if Find(lines, id).Some? {
      RemoveAt(lines, id);
    } else {
      RemoveAbsent(lines, id);
    }
  }

  lemma RemovePreservesConsistent(lines: seq<Line>, id: int)
    requires Consistent(lines)
    ensures Consistent(Remove(lines, id))
  {
    RemoveEffect(lines, id);
    if Find(lines, id).Some? {
      DeletePreservesConsistent(lines, Find(lines, id).value);
    }
  }

  lemma RemoveTotal(lines: seq<Line>, id: int)
    requires UniqueIds(lines)
    ensures Find(lines, id).Some? ==>
      Total(Remove(lines, id)) + LineTotal(lines[Find(lines, id).value]) == Total(lines)
    ensures Find(lines, id).None? ==> Total(Remove(lines, id)) == Total(lines)
  {
    RemoveEffect(lines, id);
    if Find(lines, id).Some? {
      TotalDelete(lines, Find(lines, id).value);
    }
  }
}

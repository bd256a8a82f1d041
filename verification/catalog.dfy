/** The medication catalogue and the two ways the product grid is narrowed:
    the category buttons (`filterByCategory`) and the search box together
    with the active category (`filterMedications`). */
module Catalog {
  import opened PosTypes

  /** The twelve catalogue entries, prices in kwacha. */
  const Medications: seq<Medication> := [
    Medication(1, "Amoxicillin 500mg", 12000, "Antibiotics", true, 45),
    Medication(2, "Lisinopril 10mg", 8500, "Blood Pressure", true, 32),
    Medication(3, "Atorvastatin 20mg", 15750, "Cholesterol", true, 28),
    Medication(4, "Ibuprofen 200mg", 2500, "Pain Relief", false, 120),
    Medication(5, "Omeprazole 20mg", 14250, "Acid Reflux", true, 18),
    Medication(6, "Acetaminophen 500mg", 1800, "Pain Relief", false, 95),
    Medication(7, "Diphenhydramine 25mg", 3500, "Allergy", false, 65),
    Medication(8, "Fluticasone Nasal Spray", 12500, "Allergy", false, 42),
    Medication(9, "Metformin 500mg", 9500, "Diabetes", true, 36),
    Medication(10, "Albuterol Inhaler", 32500, "Asthma", true, 22),
    Medication(11, "Multivitamin", 7500, "Supplements", false, 78),
    Medication(12, "Vitamin D3 1000IU", 5500, "Supplements", false, 84)
  ]

  /** Catalogue ids are unique: entry k has id k + 1. */
  lemma CatalogIdsUnique()
    ensures forall k :: 0 <= k < |Medications| ==> Medications[k].id == k + 1
    ensures forall i, j :: 0 <= i < j < |Medications| ==> Medications[i].id != Medications[j].id
  {
  }

  /** ASCII case folding of one character. */
  function LowerChar(c: char): char {
    if 'A' <= c <= 'Z' then (c as int + 32) as char else c
  }

  /** `toLowerCase`, ASCII letters only. */
  function Lowercase(s: string): (r: string)
    ensures |r| == |s|
    ensures forall i :: 0 <= i < |s| ==> r[i] == LowerChar(s[i])
  {
    if s == [] then [] else [LowerChar(s[0])] + Lowercase(s[1..])
  }

  lemma LowercaseIdempotent(s: string)
    ensures Lowercase(Lowercase(s)) == Lowercase(s)
  {
    assert forall i :: 0 <= i < |s| ==> LowerChar(LowerChar(s[i])) == LowerChar(s[i]);
  }

  /** `s.includes(t)`: `t` starts at some position of `s`. */
  function Includes(s: string, t: string): (r: bool)
    ensures r ==> |t| <= |s|
    ensures t == [] ==> r
    decreases |s|
  {
    t <= s || (s != [] && Includes(s[1..], t))
  }

  /** `t` occurs in `s` starting at position `i`. */
  ghost predicate OccursAt(s: string, t: string, i: int) {
    0 <= i && i + |t| <= |s| && s[i..i + |t|] == t
  }

  lemma {:induction false} IncludesHasOccurrence(s: string, t: string)
    requires Includes(s, t)
    ensures exists i :: OccursAt(s, t, i)
    decreases |s|
  {
    if t <= s {
      assert s[..|t|] == t;
      assert OccursAt(s, t, 0);
    } else {
      IncludesHasOccurrence(s[1..], t);
      var j :| OccursAt(s[1..], t, j);
      assert s[j + 1..j + 1 + |t|] == s[1..][j..j + |t|];
      assert OccursAt(s, t, j + 1);
    }
  }

  lemma {:induction false} OccurrenceIncludes(s: string, t: string, i: nat)
    requires OccursAt(s, t, i)
    ensures Includes(s, t)
    decreases i
  {
    if i == 0 {
      assert t <= s;
    } else {
      assert s[1..][i - 1..i - 1 + |t|] == s[i..i + |t|];
      OccurrenceIncludes(s[1..], t, i - 1);
    }
  }

  /** `t` occurs somewhere in `s`. */
  ghost predicate Substring(s: string, t: string) {
    exists i :: OccursAt(s, t, i)
  }

  /** `Includes` is the substring relation. */
  lemma IncludesIsSubstring(s: string, t: string)
    ensures Includes(s, t) <==> Substring(s, t)
  {
    if Includes(s, t) {
      IncludesHasOccurrence(s, t);
    }
    if exists i :: OccursAt(s, t, i) {
      var i :| OccursAt(s, t, i);
      OccurrenceIncludes(s, t, i);
    }
  }

  /** The search predicate, with `term` already lower-cased: the term is a
      substring of the lower-cased name or of the lower-cased category. */
  function MatchesSearch(med: Medication, term: string): (r: bool)
    ensures r <==> Substring(Lowercase(med.name), term) || Substring(Lowercase(med.category), term)
  {
    var name, category := Lowercase(med.name), Lowercase(med.category);
    IncludesIsSubstring(name, term);
    IncludesIsSubstring(category, term);
    Includes(name, term) || Includes(category, term)
  }

  /** `meds.filter(med => med.category === category)`. */
  function WithCategory(meds: seq<Medication>, category: string): (r: seq<Medication>)
    ensures |r| <= |meds|
    ensures forall m :: m in r <==> m in meds && m.category == category
  {
    if meds == [] then []
    else if meds[0].category == category then [meds[0]] + WithCategory(meds[1..], category)
    else WithCategory(meds[1..], category)
  }

  /** `meds.filter(med => name or category, lower-cased, includes term)`. */
  function WithSearch(meds: seq<Medication>, term: string): (r: seq<Medication>)
    ensures |r| <= |meds|
    ensures forall m :: m in r <==> m in meds && MatchesSearch(m, term)
  {
    if meds == [] then []
    else if MatchesSearch(meds[0], term) then [meds[0]] + WithSearch(meds[1..], term)
    else WithSearch(meds[1..], term)
  }

  /** `filterByCategory`: the category "all" shows the whole catalogue,
      any other category the catalogue entries filed under it. */
  function FilterByCategory(category: string): (r: seq<Medication>)
    ensures forall m :: m in r <==> m in Medications && (category == "all" || m.category == category)
  {
    if category == "all" then Medications else WithCategory(Medications, category)
  }

  /** `filterMedications`: the grid shows exactly the catalogue entries in the
      active category (or all of them) whose lower-cased name or category
      contains the lower-cased search text. */
  function FilterMedications(activeCategory: string, search: string): (r: seq<Medication>)
    ensures forall m :: m in r <==>
      m in Medications && (activeCategory == "all" || m.category == activeCategory) &&
      (Includes(Lowercase(m.name), Lowercase(search)) || Includes(Lowercase(m.category), Lowercase(search)))
  {
    WithSearch(if activeCategory != "all" then WithCategory(Medications, activeCategory) else Medications,
               Lowercase(search))
  }

  /** The two filters compose with AND: applying them in either order gives
      the same grid, order included. */
  lemma {:induction false} FiltersCommute(meds: seq<Medication>, category: string, term: string)
    ensures WithSearch(WithCategory(meds, category), term) == WithCategory(WithSearch(meds, term), category)
    decreases |meds|
  {
    if meds != [] {
      FiltersCommute(meds[1..], category, term);
    }
  }

  lemma {:induction false} EmptySearchKeepsAll(meds: seq<Medication>)
    ensures WithSearch(meds, "") == meds
    decreases |meds|
  {
    if meds != [] {
      assert Includes(Lowercase(meds[0].name), "");
      EmptySearchKeepsAll(meds[1..]);
    }
  }

  /** With an empty search box the search shows what the category buttons
      show. */
  lemma EmptySearchIsCategoryFilter(category: string)
    ensures FilterMedications(category, "") == FilterByCategory(category)
  {
    assert Lowercase("") == "";
    EmptySearchKeepsAll(if category != "all" then WithCategory(Medications, category) else Medications);
  }

  /** Searching ignores case: a search text and its lower-cased form select
      the same items. */
  lemma SearchIgnoresCase(activeCategory: string, search: string)
    ensures FilterMedications(activeCategory, search) == FilterMedications(activeCategory, Lowercase(search))
  {
    LowercaseIdempotent(search);
  }
}

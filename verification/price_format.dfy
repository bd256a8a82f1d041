/** The price label `formatPrice` produces for a whole number of kwacha:
    "MK", the decimal digits with a comma in front of every group of three
    counted from the right, and ".00".

    `FormatPrice` follows the source as written: `toFixed(2)` followed by a
    global replace of the zero-width pattern `\B(?=(\d{3})+(?!\d))` with ",".
    `Group` is an independent statement of the intended layout, and
    `FormatPriceIsGrouped` proves the two agree. */
module PriceFormat {
  import opened PosTypes

  predicate IsDigit(c: char) {
    '0' <= c <= '9'
  }

  /** The regular-expression class `\w`. */
  predicate IsWordChar(c: char) {
    IsDigit(c) || 'a' <= c <= 'z' || 'A' <= c <= 'Z' || c == '_'
  }

  predicate AllDigits(s: string) {
    forall i :: 0 <= i < |s| ==> IsDigit(s[i])
  }

  function DigitChar(d: nat): (c: char)
    requires d < 10
    ensures IsDigit(c) && c as int - '0' as int == d
  {
    ('0' as int + d) as char
  }

  function DigitValue(c: char): (d: nat)
    requires IsDigit(c)
    ensures d < 10 && DigitChar(d) == c
  {
    c as int - '0' as int
  }

  /** The decimal numeral of `n`, most significant digit first. */
  function Digits(n: nat): (s: string)
    ensures |s| >= 1 && AllDigits(s)
    ensures s[0] == '0' ==> n == 0
  {
    if n < 10 then [DigitChar(n)] else Digits(n / 10) + [DigitChar(n % 10)]
  }

  /** The number a numeral denotes. */
  function Value(s: string): nat
    requires AllDigits(s)
  {
    if s == [] then 0 else 10 * Value(s[..|s| - 1]) + DigitValue(s[|s| - 1])
  }

  lemma {:induction false} ValueOfDigits(n: nat)
    ensures Value(Digits(n)) == n
  {
    if n >= 10 {
      var s := Digits(n);
      assert s[..|s| - 1] == Digits(n / 10);
      ValueOfDigits(n / 10);
    }
  }

  /** `Number.prototype.toFixed(2)` of a whole number below 10^21. */
  function ToFixed2(n: nat): (r: string)
    ensures |r| >= 4 && r[|r| - 3..] == ".00"
    ensures AllDigits(r[..|r| - 3]) && Value(r[..|r| - 3]) == n
  {
    ValueOfDigits(n);
    var d := Digits(n);
    assert (d + ".00")[..|d|] == d;
    d + ".00"
  }

  /** Length of the run of decimal digits that starts at position `p` of `s`. */
  function DigitRun(s: string, p: nat): (k: nat)
    requires p <= |s|
    ensures p + k <= |s|
    decreases |s| - p
  {
    if p == |s| || !IsDigit(s[p]) then 0 else 1 + DigitRun(s, p + 1)
  }

  /** `\B` at position `p`: both neighbours are word characters, or neither is. */
  predicate NonBoundary(s: string, p: nat)
    requires p <= |s|
  {
    (p > 0 && IsWordChar(s[p - 1])) == (p < |s| && IsWordChar(s[p]))
  }

  /** The lookahead `(?=(\d{3})+(?!\d))` exactly as the pattern reads: some
      positive multiple of three digits follows, then a non-digit or the end. */
  ghost predicate GroupsAhead(s: string, p: nat)
    requires p <= |s|
  {
    exists e :: p < e <= |s| && (e - p) % 3 == 0 && AllDigits(s[p..e]) && (e == |s| || !IsDigit(s[e]))
  }

  /** Where the pattern matches, computed from the length of the digit run. */
  predicate CommaAt(s: string, p: nat)
    requires p <= |s|
  {
    NonBoundary(s, p) && DigitRun(s, p) >= 3 && DigitRun(s, p) % 3 == 0
  }

  lemma {:induction false} DigitRunIsMaximal(s: string, p: nat)
    requires p <= |s|
    ensures forall i :: p <= i < p + DigitRun(s, p) ==> IsDigit(s[i])
    ensures p + DigitRun(s, p) < |s| ==> !IsDigit(s[p + DigitRun(s, p)])
    decreases |s| - p
  {
    if p < |s| && IsDigit(s[p]) {
      DigitRunIsMaximal(s, p + 1);
    }
  }

  /** The lookahead holds exactly where the digit run has a positive length
      divisible by three, so `CommaAt` is the pattern's match condition. */
  lemma LookaheadIsDigitRun(s: string, p: nat)
    requires p <= |s|
    ensures GroupsAhead(s, p) <==> DigitRun(s, p) >= 3 && DigitRun(s, p) % 3 == 0
  {
    var k := DigitRun(s, p);
    DigitRunIsMaximal(s, p);
    if GroupsAhead(s, p) {
      var e :| p < e <= |s| && (e - p) % 3 == 0 && AllDigits(s[p..e]) && (e == |s| || !IsDigit(s[e]));
      forall i | p <= i < e
        ensures IsDigit(s[i])
      {
        assert s[i] == s[p..e][i - p];
      }
      assert e == p + k;
    }
    if k >= 3 && k % 3 == 0 {
      assert AllDigits(s[p..p + k]);
      assert (p + k) - p == k;
    }
  }

  /** `s.replace(/\B(?=(\d{3})+(?!\d))/g, ",")` from position `p` on: a comma
      is inserted in front of every position where the zero-width pattern
      matches, the lookaround reading the original string. */
  function InsertCommas(s: string, p: nat): (r: string)
    requires p <= |s|
    ensures |s| - p <= |r| <= 2 * (|s| - p)
    decreases |s| - p
  {
    if p == |s| then "" else (if CommaAt(s, p) then "," else "") + [s[p]] + InsertCommas(s, p + 1)
  }

  /** The replace only inserts commas: deleting every comma from its output
      gives what deleting every comma from its input gives. */
  lemma {:induction false} InsertCommasOnlyAddsCommas(s: string, p: nat)
    requires p <= |s|
    ensures StripCommas(InsertCommas(s, p)) == StripCommas(s[p..])
    decreases |s| - p
  {
    if p < |s| {
      var sep := if CommaAt(s, p) then "," else "";
      var rest := InsertCommas(s, p + 1);
      InsertCommasOnlyAddsCommas(s, p + 1);
      StripCommasAppend(sep + [s[p]], rest);
      StripCommasAppend(sep, [s[p]]);
      StripCommasAppend([s[p]], s[p + 1..]);
      assert s[p..] == [s[p]] + s[p + 1..];
    }
  }

  /** `formatPrice(price)` for a whole, non-negative price below 10^21. */
  function FormatPrice(price: nat): (r: string)
    ensures |r| >= 6 && r[..2] == "MK" && r[|r| - 3..] == ".00"
  {
    InsertCommasOfFixed(Digits(price), 0);
    "MK" + InsertCommas(ToFixed2(price), 0)
  }

  /** Reference layout: a digit string with a comma in front of every group of
      three digits counted from the right. */
  function Group(d: string): string
    decreases |d|
  {
    if |d| <= 3 then d else Group(d[..|d| - 3]) + "," + d[|d| - 3..]
  }

  /** Left-to-right form of `Group` over a bare digit string `d`, from `p` on. */
  function CommasFrom(d: string, p: nat): string
    requires p <= |d|
    decreases |d| - p
  {
    if p == |d| then "" else Separator(d, p) + [d[p]] + CommasFrom(d, p + 1)
  }

  /** The comma `CommasFrom` writes in front of position `p`. */
  function Separator(d: string, p: nat): string {
    if 0 < p && (|d| - p) % 3 == 0 then "," else ""
  }

  lemma CommasFromStep(d: string, p: nat)
    requires p < |d|
    ensures CommasFrom(d, p) == Separator(d, p) + [d[p]] + CommasFrom(d, p + 1)
  {
  }

  lemma {:induction false} DigitRunOfFixed(d: string, p: nat)
    requires AllDigits(d) && p <= |d|
    ensures DigitRun(d + ".00", p) == |d| - p
    decreases |d| - p
  {
    var s := d + ".00";
    if p < |d| {
      assert s[p] == d[p];
      DigitRunOfFixed(d, p + 1);
    } else {
      assert s[p] == '.';
    }
  }

  /** Where no digit run of three or more starts, nothing is inserted. */
  lemma {:induction false} NoCommasFrom(s: string, p: nat)
    requires p <= |s|
    requires forall q :: p <= q < |s| ==> DigitRun(s, q) < 3
    ensures InsertCommas(s, p) == s[p..]
    decreases |s| - p
  {
    if p < |s| {
      NoCommasFrom(s, p + 1);
      assert s[p..] == [s[p]] + s[p + 1..];
    }
  }

  /** Past the digits, the pattern matches nowhere in ".00". */
  lemma FixedTail(d: string)
    requires AllDigits(d)
    ensures InsertCommas(d + ".00", |d|) == ".00"
  {
    var s, L := d + ".00", |d|;
    assert s[L] == '.' && s[L + 1] == '0' && s[L + 2] == '0';
    assert DigitRun(s, L + 2) == 1;
    assert DigitRun(s, L + 1) == 2;
    assert DigitRun(s, L) == 0;
    NoCommasFrom(s, L);
    assert s[L..] == ".00";
  }

  /** Inside the digits, the pattern matches at every position other than the
      first that is a multiple of three digits from the point. */
  lemma CommaAtFixed(d: string, p: nat)
    requires AllDigits(d) && p < |d|
    ensures CommaAt(d + ".00", p) == (Separator(d, p) == ",")
  {
    var s := d + ".00";
    DigitRunOfFixed(d, p);
    assert s[p] == d[p];
    assert p > 0 ==> s[p - 1] == d[p - 1];
  }

  lemma {:induction false} InsertCommasOfFixed(d: string, p: nat)
    requires AllDigits(d) && p <= |d|
    ensures InsertCommas(d + ".00", p) == CommasFrom(d, p) + ".00"
    decreases |d| - p
  {
    var s := d + ".00";
    if p == |d| {
      FixedTail(d);
    } else {
      var mark := Separator(d, p);
      CommaAtFixed(d, p);
      assert s[p] == d[p];
      InsertCommasOfFixed(d, p + 1);
      calc {
        InsertCommas(s, p);
        mark + [d[p]] + InsertCommas(s, p + 1);
        mark + [d[p]] + (CommasFrom(d, p + 1) + ".00");
        (mark + [d[p]] + CommasFrom(d, p + 1)) + ".00";
        CommasFrom(d, p) + ".00";
      }
    }
  }

  lemma {:induction false} CommasFromShort(d: string, p: nat)
    requires |d| <= 3 && p <= |d|
    ensures CommasFrom(d, p) == d[p..]
    decreases |d| - p
  {
    if p < |d| {
      CommasFromShort(d, p + 1);
    }
  }

  lemma {:induction false} CommasFromLastGroup(d: string)
    requires |d| > 3
    ensures CommasFrom(d, |d| - 3) == "," + d[|d| - 3..]
  {
    var L := |d|;
    CommasFromStep(d, L - 1);
    CommasFromStep(d, L - 2);
    CommasFromStep(d, L - 3);
    assert Separator(d, L - 1) == "" && Separator(d, L - 2) == "" && Separator(d, L - 3) == ",";
    assert CommasFrom(d, L - 1) == [d[L - 1]];
    assert CommasFrom(d, L - 2) == [d[L - 2], d[L - 1]];
    assert d[L - 3..] == [d[L - 3], d[L - 2], d[L - 1]];
  }

  /** Appending a group of three digits to a non-empty digit string appends
      that group, with a comma in front of it, to the layout. */
  lemma {:induction false} CommasFromAppend(a: string, b: string, p: nat)
    requires |b| == 3 && 0 < |a| && p <= |a|
    ensures CommasFrom(a + b, p) == CommasFrom(a, p) + "," + b
    decreases |a| - p
  {
    var d := a + b;
    assert |d| == |a| + 3;
    if p == |a| {
      CommasFromLastGroup(d);
      assert d[|a|..] == b;
    } else {
      assert Separator(d, p) == Separator(a, p) by {
        assert |d| - p == (|a| - p) + 3;
      }
      CommasFromAppend(a, b, p + 1);
      CommasFromStep(d, p);
      CommasFromStep(a, p);
      var lead, rest := Separator(a, p) + [a[p]], CommasFrom(a, p + 1);
      assert d[p] == a[p];
      assert CommasFrom(d, p) == lead + (rest + "," + b);
      assert lead + (rest + "," + b) == (lead + rest) + "," + b;
    }
  }

  lemma {:induction false} GroupIsCommasFrom(d: string)
    ensures Group(d) == CommasFrom(d, 0)
    decreases |d|
  {
    if |d| <= 3 {
      CommasFromShort(d, 0);
    } else {
      GroupIsCommasFrom(d[..|d| - 3]);
      assert d == d[..|d| - 3] + d[|d| - 3..];
      CommasFromAppend(d[..|d| - 3], d[|d| - 3..], 0);
    }
  }

  /** The regular expression in `formatPrice` produces the reference layout:
      "MK", the digits grouped by three from the right, ".00".  For example
      1800 becomes "MK1,800.00". */
  lemma FormatPriceIsGrouped(n: nat)
    ensures FormatPrice(n) == "MK" + Group(Digits(n)) + ".00"
  {
    InsertCommasOfFixed(Digits(n), 0);
    GroupIsCommasFrom(Digits(n));
  }

  /** Besides digits a label body holds commas, standing exactly at the
      positions a positive multiple of four characters from the end, never
      first. */
  predicate Shaped(r: string) {
    forall i :: 0 <= i < |r| ==>
      (r[i] == ',' <==> 0 < i && (|r| - i) % 4 == 0) && (r[i] != ',' ==> IsDigit(r[i]))
  }

  lemma ShapedExtend(r: string, back: string)
    requires Shaped(r) && |r| >= 1 && |back| == 3 && AllDigits(back)
    ensures Shaped(r + "," + back)
  {
    var t := r + "," + back;
    forall i | 0 <= i < |t|
      ensures (t[i] == ',' <==> 0 < i && (|t| - i) % 4 == 0) && (t[i] != ',' ==> IsDigit(t[i]))
    {
      if i < |r| {
        assert t[i] == r[i];
        assert (|t| - i) % 4 == (|r| - i) % 4;
      } else if i > |r| {
        assert t[i] == back[i - |r| - 1];
      }
    }
  }

  /** Shape of the grouping: besides the digits there are (|d| - 1) / 3
      commas, at the positions a multiple of four characters from the end
      (never first), so the leading group holds one to three digits and every
      later group exactly three. */
  lemma {:induction false} GroupShape(d: string)
    requires AllDigits(d) && |d| >= 1
    ensures |Group(d)| == |d| + (|d| - 1) / 3
    ensures Shaped(Group(d))
    decreases |d|
  {
    if |d| > 3 {
      var front, back := d[..|d| - 3], d[|d| - 3..];
      GroupShape(front);
      ShapedExtend(Group(front), back);
    } else {
      assert Group(d) == d;
    }
  }

  /** Deletes every comma. */
  function StripCommas(s: string): (r: string)
    ensures |r| <= |s|
  {
    if s == [] then [] else StripCommas(s[..|s| - 1]) + (if s[|s| - 1] == ',' then "" else [s[|s| - 1]])
  }

  lemma {:induction false} StripCommasAppend(a: string, b: string)
    ensures StripCommas(a + b) == StripCommas(a) + StripCommas(b)
    decreases |b|
  {
    if b == [] {
      assert a + b == a;
    } else {
      var b', last := b[..|b| - 1], b[|b| - 1];
      assert (a + b)[..|a + b| - 1] == a + b';
      assert (a + b)[|a + b| - 1] == last;
      StripCommasAppend(a, b');
    }
  }

  lemma {:induction false} StripCommasOfDigits(d: string)
    requires AllDigits(d)
    ensures StripCommas(d) == d
    decreases |d|
  {
    if d != [] {
      StripCommasOfDigits(d[..|d| - 1]);
    }
  }

  lemma {:induction false} StripGroup(d: string)
    requires AllDigits(d)
    ensures StripCommas(Group(d)) == d
    decreases |d|
  {
    if |d| <= 3 {
      StripCommasOfDigits(d);
    } else {
      var front, back := d[..|d| - 3], d[|d| - 3..];
      var g := Group(front);
      assert Group(d) == (g + ",") + back;
      StripGroup(front);
      StripCommasAppend(g + ",", back);
      StripCommasAppend(g, ",");
      assert StripCommas(",") == "";
      StripCommasOfDigits(back);
      assert front + back == d;
    }
  }

  /** Reads a price label back: strip "MK", ".00" and the commas, then read
      the digits. */
  function ParsePrice(s: string): Option<nat> {
    if |s| >= 5 && s[..2] == "MK" && s[|s| - 3..] == ".00" then
      var body := StripCommas(s[2..|s| - 3]);
      if body != [] && AllDigits(body) then Some(Value(body)) else None
    else
      None
  }

  /** Removing "MK", the commas and ".00" from a label gives back its price,
      so distinct prices never share a label. */
  lemma FormatPriceRoundTrip(n: nat)
    ensures ParsePrice(FormatPrice(n)) == Some(n)
  {
    var d := Digits(n);
    var s := FormatPrice(n);
    FormatPriceIsGrouped(n);
    GroupShape(d);
    assert s[2..|s| - 3] == Group(d);
    StripGroup(d);
    ValueOfDigits(n);
  }

  lemma FormatPriceInjective(a: nat, b: nat)
    requires FormatPrice(a) == FormatPrice(b)
    ensures a == b
  {
    FormatPriceRoundTrip(a);
    FormatPriceRoundTrip(b);
  }

  /** Appending a digit to a numeral multiplies by ten and adds it. */
  lemma DigitsAppend(n: nat, k: nat)
    requires n >= 1 && k < 10
    ensures Digits(10 * n + k) == Digits(n) + [DigitChar(k)]
  {
    assert (10 * n + k) / 10 == n && (10 * n + k) % 10 == k;
  }

  lemma Digits1800()
    ensures Digits(1800) == "1800"
  {
    DigitsAppend(1, 8);
    DigitsAppend(18, 0);
    DigitsAppend(180, 0);
  }

  lemma Group1800()
    ensures Group("1800") == "1,800"
  {
    assert "1800"[..1] == "1" && "1800"[1..] == "800";
  }

  /** Worked example: the catalogue price 1800 is labelled "MK1,800.00". */
  lemma FormatPrice1800()
    ensures FormatPrice(1800) == "MK" + "1,800" + ".00"
  {
    Digits1800();
    Group1800();
    FormatPriceIsGrouped(1800);
  }

  lemma Digits125000()
    ensures Digits(125000) == "125000"
  {
    DigitsAppend(1, 2);
    DigitsAppend(12, 5);
    DigitsAppend(125, 0);
    DigitsAppend(1250, 0);
    DigitsAppend(12500, 0);
  }

  lemma Group125000()
    ensures Group("125000") == "125,000"
  {
    assert "125000"[..3] == "125" && "125000"[3..] == "000";
  }

  /** Worked example: 125000 becomes "MK125,000.00". */
  lemma FormatPrice125000()
    ensures FormatPrice(125000) == "MK" + "125,000" + ".00"
  {
    Digits125000();
    Group125000();
    FormatPriceIsGrouped(125000);
  }

  /** The label the cart shows for an empty cart equals the label of 0. */
  lemma FormatPriceZero()
    ensures FormatPrice(0) == "MK0.00"
  {
    assert Digits(0) == "0";
    FormatPriceIsGrouped(0);
    assert "MK" + Group("0") + ".00" == "MK0.00";
  }
}

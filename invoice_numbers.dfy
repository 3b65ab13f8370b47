/** Sequential invoice numbers and their uniqueness check (`generateNextInvoiceNumber`,
    `isInvoiceNumberUnique` in store/useInvoiceStore.ts). */
module InvoiceNumbers {
  import opened Wrappers
  import opened Text
  import opened InvoiceTypes

  /** `/^INV-\d+$/i.test(s)`: "INV-" in any letter case followed by one or more decimal digits. */
  predicate IsSequentialNumber(s: string) {
    var l := ToLower(s);
    |l| > 4 && l[..4] == "inv-" && AllDigits(l[4..])
  }

  /** `parseInt` of the digits after "INV-" (lower-casing leaves digits as they are). */
  function SuffixValue(s: string): nat
    requires IsSequentialNumber(s)
  {
    DigitsValue(ToLower(s)[4..])
  }

  /** Two invoice numbers that `toLowerCase` makes equal. */
  predicate SameNumber(a: string, b: string) {
    ToLower(a) == ToLower(b)
  }

  /** `invoices.map(number).filter(test).map(parseInt of the digits)`: the suffixes of the sequential
      numbers, in collection order. */
  function SequentialSuffixes(invoices: seq<Invoice>): (xs: seq<nat>)
    ensures |xs| <= |invoices|
  {
    if invoices == [] then []
    else
      var n := invoices[0].invoiceNumber;
      var rest := SequentialSuffixes(invoices[1..]);
      if IsSequentialNumber(n) then [SuffixValue(n)] + rest else rest
  }

  /** Every sequential number of the collection contributes its suffix. */
  lemma {:induction false} SuffixesCollected(invoices: seq<Invoice>)
    ensures forall i :: 0 <= i < |invoices| ==>
      (IsSequentialNumber(invoices[i].invoiceNumber) ==> SuffixValue(invoices[i].invoiceNumber) in SequentialSuffixes(invoices))
  {
    if invoices != [] {
      SuffixesCollected(invoices[1..]);
      assert forall i :: 1 <= i < |invoices| ==> invoices[i] == invoices[1..][i - 1];
    }
  }

  /** Conversely, every collected suffix is that of a stored sequential number. */
  lemma {:induction false} SuffixesFromStored(invoices: seq<Invoice>)
    ensures forall x :: x in SequentialSuffixes(invoices) ==>
      exists i :: 0 <= i < |invoices| && IsSequentialNumber(invoices[i].invoiceNumber)
        && SuffixValue(invoices[i].invoiceNumber) == x
  {
    if invoices != [] {
      SuffixesFromStored(invoices[1..]);
      forall x | x in SequentialSuffixes(invoices)
        ensures exists i :: 0 <= i < |invoices| && IsSequentialNumber(invoices[i].invoiceNumber)
                              && SuffixValue(invoices[i].invoiceNumber) == x
      {
        var n := invoices[0].invoiceNumber;
        if !(IsSequentialNumber(n) && x == SuffixValue(n)) {
          assert x in SequentialSuffixes(invoices[1..]);
          var j :| 0 <= j < |invoices[1..]| && IsSequentialNumber(invoices[1..][j].invoiceNumber)
            && SuffixValue(invoices[1..][j].invoiceNumber) == x;
          assert invoices[1..][j] == invoices[j + 1];
        }
      }
    }
  }

  /** `xs.length > 0 ? Math.max(...xs) : 0`. */
  function MaxOrZero(xs: seq<nat>): nat {
    if xs == [] then 0
    else
      var rest := MaxOrZero(xs[1..]);
      if xs[0] >= rest then xs[0] else rest
  }

  /** The result bounds every element and is one of them, or 0 for an empty list. */
  lemma {:induction false} MaxOrZeroIsMax(xs: seq<nat>)
    ensures forall i :: 0 <= i < |xs| ==> xs[i] <= MaxOrZero(xs)
    ensures if xs == [] then MaxOrZero(xs) == 0 else MaxOrZero(xs) in xs
  {
    if xs != [] {
      MaxOrZeroIsMax(xs[1..]);
      assert forall i :: 1 <= i < |xs| ==> xs[i] == xs[1..][i - 1];
    }
  }

  /** `generateNextInvoiceNumber`: "INV-" and one more than the largest sequential suffix, padded to
      at least three digits and never truncated. Numbers of any other form are ignored. */
  function NextInvoiceNumber(invoices: seq<Invoice>): (r: string)
    ensures |r| >= 7 && r[..4] == "INV-"
    ensures IsSequentialNumber(r) && SuffixValue(r) == MaxOrZero(SequentialSuffixes(invoices)) + 1
  {
    var n := MaxOrZero(SequentialSuffixes(invoices)) + 1;
    FormatRoundTrip(n);
    FormatNumber(n)
  }

  /** The generated number matches the pattern, and its suffix is one more than the largest sequential
      suffix in the collection: above every one of them and one more than one of them, or 1 when the
      collection has no sequential number. */
  lemma NextAboveAll(invoices: seq<Invoice>)
    ensures var r := NextInvoiceNumber(invoices);
      && IsSequentialNumber(r)
      && SuffixValue(r) == MaxOrZero(SequentialSuffixes(invoices)) + 1
      && (forall i :: 0 <= i < |invoices| && IsSequentialNumber(invoices[i].invoiceNumber) ==>
           SuffixValue(invoices[i].invoiceNumber) < SuffixValue(r))
      && ((exists i :: 0 <= i < |invoices| && IsSequentialNumber(invoices[i].invoiceNumber)) ==>
           exists i :: 0 <= i < |invoices| && IsSequentialNumber(invoices[i].invoiceNumber)
             && SuffixValue(invoices[i].invoiceNumber) + 1 == SuffixValue(r))
      && ((forall i :: 0 <= i < |invoices| ==> !IsSequentialNumber(invoices[i].invoiceNumber)) ==>
           SuffixValue(r) == 1)
  {
    var xs := SequentialSuffixes(invoices);
    SuffixesCollected(invoices);
    SuffixesFromStored(invoices);
    MaxOrZeroIsMax(xs);
    if xs != [] {
      assert MaxOrZero(xs) in xs;
    }
    forall i | 0 <= i < |invoices| && IsSequentialNumber(invoices[i].invoiceNumber)
      ensures SuffixValue(invoices[i].invoiceNumber) <= MaxOrZero(xs)
    {
      var k :| 0 <= k < |xs| && xs[k] == SuffixValue(invoices[i].invoiceNumber);
    }
  }

  /** "INV-" and `n` in decimal, padded with zeros to at least three digits. */
  function FormatNumber(n: nat): (r: string)
    ensures |r| >= 7 && r[..4] == "INV-"
  {
    "INV-" + PadStart(NatToString(n), 3, '0')
  }

  /** The formatted number matches the pattern and its suffix reads back as `n`. */
  lemma FormatRoundTrip(n: nat)
    ensures IsSequentialNumber(FormatNumber(n)) && SuffixValue(FormatNumber(n)) == n
  {
    var digits := NatToString(n);
    var padded := PadStart(digits, 3, '0');
    var zeros := |padded| - |digits|;
    assert padded == Repeat('0', zeros) + digits;
    LeadingZeros(zeros, digits);
    NatToStringValue(n);
    assert AllDigits(padded) && DigitsValue(padded) == n && |padded| >= 3;
    PrefixedDigits(padded);
  }

  /** "INV-" followed by digits is a sequential number whose suffix is their value. */
  lemma PrefixedDigits(digits: string)
    requires AllDigits(digits) && |digits| >= 3
    ensures var r := "INV-" + digits;
      |r| >= 7 && r[..4] == "INV-" && IsSequentialNumber(r) && SuffixValue(r) == DigitsValue(digits)
  {
    ToLowerDigits(digits);
    ToLowerAppend("INV-", digits);
    LowerPrefix();
    var r := "INV-" + digits;
    assert ToLower(r) == "inv-" + digits;
    assert ToLower(r)[4..] == digits;
    assert r[..4] == "INV-";
  }

  lemma LowerPrefix()
    ensures ToLower("INV-") == "inv-"
  {
  }

  /** Lower-casing leaves a digit string unchanged. */
  lemma ToLowerDigits(s: string)
    requires AllDigits(s)
    ensures ToLower(s) == s
  {
  }

  /** `isInvoiceNumberUnique`: no invoice other than the excluded one carries the same number up to
      letter case (with no exclusion, `inv.id !== undefined` holds of every invoice). */
  function IsInvoiceNumberUnique(invoices: seq<Invoice>, number: string, excludeId: Option<string>): (r: bool)
    ensures r <==> forall i :: 0 <= i < |invoices| ==>
      !(SameNumber(invoices[i].invoiceNumber, number) && excludeId != Some(invoices[i].id))
  {
    if invoices == [] then true
    else
      var inv := invoices[0];
      !(SameNumber(inv.invoiceNumber, number) && excludeId != Some(inv.id))
      && IsInvoiceNumberUnique(invoices[1..], number, excludeId)
  }

  /** The generated number is never reported as taken, whichever invoice is excluded. */
  lemma NextNumberIsUnique(invoices: seq<Invoice>)
    ensures forall excludeId :: IsInvoiceNumberUnique(invoices, NextInvoiceNumber(invoices), excludeId)
  {
    var r := NextInvoiceNumber(invoices);
    NextAboveAll(invoices);
    forall i | 0 <= i < |invoices|
      ensures !SameNumber(invoices[i].invoiceNumber, r)
    {
      var s := invoices[i].invoiceNumber;
      assert SameNumber(s, r) ==> IsSequentialNumber(s);
    }
  }

  /** An invoice carrying only what the numbering looks at. */
  function Numbered(id: string, number: string): Invoice {
    Invoice(id, None, "Client", number, "2026-01-20", None, [], 0.0, 0.0, 0.0, 0.0, 0.0, None, "", "")
  }

  /** A number of the form "INV-" + three digits, as the tests write them. */
  lemma ThreeDigitNumber(s: string, d0: char, d1: char, d2: char)
    requires s == "INV-" + [d0, d1, d2] || s == "inv-" + [d0, d1, d2]
    requires IsDigit(d0) && IsDigit(d1) && IsDigit(d2)
    ensures IsSequentialNumber(s)
    ensures SuffixValue(s) == 100 * DigitValue(d0) + 10 * DigitValue(d1) + DigitValue(d2)
  {
    var l := ToLower(s);
    assert l == "inv-" + [d0, d1, d2];
    var ds := l[4..];
    assert ds == [d0, d1, d2];
    ThreeDigitsValue(d0, d1, d2);
  }

  lemma ThreeDigitsValue(d0: char, d1: char, d2: char)
    requires IsDigit(d0) && IsDigit(d1) && IsDigit(d2)
    ensures DigitsValue([d0, d1, d2]) == 100 * DigitValue(d0) + 10 * DigitValue(d1) + DigitValue(d2)
  {
    assert [d0][..0] == [];
    assert DigitsValue([d0]) == DigitValue(d0);
    assert [d0, d1][..1] == [d0];
    assert DigitsValue([d0, d1]) == 10 * DigitValue(d0) + DigitValue(d1);
    assert [d0, d1, d2][..2] == [d0, d1];
  }

  /** A one-digit number is written with two leading zeros. */
  lemma FormatsAs(n: nat, digits: string)
    requires 1 <= n <= 9 && digits == ['0', '0', DigitChar(n)]
    ensures FormatNumber(n) == "INV-" + digits
  {
    assert NatToString(n) == [DigitChar(n)];
    assert Repeat('0', 2) == "00";
  }

  lemma OneFormatted()
    ensures FormatNumber(1) == "INV-001"
  {
    FormatsAs(1, "001");
  }

  /** An empty store starts the sequence at INV-001. */
  lemma NextOnEmpty(invoices: seq<Invoice>)
    requires invoices == []
    ensures NextInvoiceNumber(invoices) == "INV-001"
  {
    assert SequentialSuffixes(invoices) == [];
    NextFromMax(invoices, 0);
    OneFormatted();
  }

  /** The suffix list of a store whose numbers are `a` then `rest`. */
  lemma SuffixesCons(a: Invoice, rest: seq<Invoice>)
    ensures SequentialSuffixes([a] + rest) ==
      (if IsSequentialNumber(a.invoiceNumber) then [SuffixValue(a.invoiceNumber)] else []) + SequentialSuffixes(rest)
  {
    assert ([a] + rest)[1..] == rest;
  }

  /** The generated number for a store whose largest sequential suffix is `n`. */
  lemma NextFromMax(invoices: seq<Invoice>, n: nat)
    requires MaxOrZero(SequentialSuffixes(invoices)) == n
    ensures NextInvoiceNumber(invoices) == FormatNumber(n + 1)
  {
  }

  lemma SuffixesOfGap(one: Invoice, five: Invoice)
    requires one.invoiceNumber == "INV-001" && five.invoiceNumber == "INV-005"
    ensures SequentialSuffixes([one, five]) == [1, 5]
  {
    ThreeDigitNumber(one.invoiceNumber, '0', '0', '1');
    ThreeDigitNumber(five.invoiceNumber, '0', '0', '5');
    SuffixesCons(five, []);
    SuffixesCons(one, [five]);
    assert [one] + [five] == [one, five];
  }

  /** Gaps are not filled: the next number follows the largest. */
  lemma NextAfterGap(one: Invoice, five: Invoice)
    requires one.invoiceNumber == "INV-001" && five.invoiceNumber == "INV-005"
    ensures NextInvoiceNumber([one, five]) == "INV-006"
  {
    SuffixesOfGap(one, five);
    assert MaxOrZero([1, 5]) == 5 by { assert [1, 5][1..] == [5]; }
    NextFromMax([one, five], 5);
    FormatsAs(6, "006");
  }

  lemma SuffixesOfMixed(three: Invoice, custom: Invoice, abc: Invoice)
    requires three.invoiceNumber == "INV-003" && custom.invoiceNumber == "CUSTOM-001" && abc.invoiceNumber == "ABC123"
    ensures SequentialSuffixes([three, custom, abc]) == [3]
  {
    ThreeDigitNumber(three.invoiceNumber, '0', '0', '3');
    NotSequential(custom.invoiceNumber);
    NotSequential(abc.invoiceNumber);
    calc {
      SequentialSuffixes([three, custom, abc]);
    == { assert [three, custom, abc] == [three] + [custom, abc]; SuffixesCons(three, [custom, abc]); }
      [3] + SequentialSuffixes([custom, abc]);
    == { assert [custom, abc] == [custom] + [abc]; SuffixesCons(custom, [abc]); }
      [3] + SequentialSuffixes([abc]);
    == { assert [abc] == [abc] + []; SuffixesCons(abc, []); }
      [3];
    }
  }

  /** A number that does not start with "inv-" in any case is not sequential. */
  lemma NotSequential(s: string)
    requires s != [] && LowerChar(s[0]) != 'i'
    ensures !IsSequentialNumber(s)
  {
    assert |ToLower(s)| > 4 ==> ToLower(s)[..4][0] == LowerChar(s[0]);
  }

  /** Numbers of another form neither block nor influence the sequence. */
  lemma NextIgnoresForeignNumbers(three: Invoice, custom: Invoice, abc: Invoice)
    requires three.invoiceNumber == "INV-003" && custom.invoiceNumber == "CUSTOM-001" && abc.invoiceNumber == "ABC123"
    ensures NextInvoiceNumber([three, custom, abc]) == "INV-004"
  {
    SuffixesOfMixed(three, custom, abc);
    NextFromMax([three, custom, abc], 3);
    FormatsAs(4, "004");
  }

  lemma SuffixesOfOne(inv: Invoice, s: string, d0: char, d1: char, d2: char)
    requires inv.invoiceNumber == s && (s == "INV-" + [d0, d1, d2] || s == "inv-" + [d0, d1, d2])
    requires IsDigit(d0) && IsDigit(d1) && IsDigit(d2)
    ensures SequentialSuffixes([inv]) == [100 * DigitValue(d0) + 10 * DigitValue(d1) + DigitValue(d2)]
  {
    ThreeDigitNumber(s, d0, d1, d2);
    SuffixesCons(inv, []);
    assert [inv] + [] == [inv];
  }

  /** Lower-case numbers take part in the sequence. */
  lemma NextCaseInsensitive(inv: Invoice)
    requires inv.invoiceNumber == "inv-005"
    ensures NextInvoiceNumber([inv]) == "INV-006"
  {
    calc {
      NextInvoiceNumber([inv]);
    == { LowerCaseSuffix(inv); NextFromMax([inv], 5); }
      FormatNumber(6);
    == { FormatsAs(6, "006"); }
      "INV-006";
    }
  }

  lemma LowerCaseSuffix(inv: Invoice)
    requires inv.invoiceNumber == "inv-005"
    ensures MaxOrZero(SequentialSuffixes([inv])) == 5
  {
    SuffixesOfOne(inv, "inv-005", '0', '0', '5');
    assert MaxOrZero([5]) == 5;
  }

  /** Past INV-999 the number grows to four digits; nothing is truncated. */
  lemma NextGrowsPastThreeDigits(inv: Invoice)
    requires inv.invoiceNumber == "INV-999"
    ensures NextInvoiceNumber([inv]) == "INV-1000"
  {
    SuffixesOfOne(inv, "INV-999", '9', '9', '9');
    NextFromMax([inv], 999);
    ThousandFormatted();
  }

  /** Four digits need no padding. */
  lemma ThousandFormatted()
    ensures FormatNumber(1000) == "INV-1000"
  {
    assert NatToString(10) == "10";
    assert NatToString(100) == "100";
    assert NatToString(1000) == "1000";
    assert PadStart("1000", 3, '0') == "1000";
  }

  /** The uniqueness cases the store's tests check. */
  lemma IsInvoiceNumberUniqueExamples()
    ensures var invs := [Numbered("1", "INV-001"), Numbered("2", "INV-002")];
      && IsInvoiceNumberUnique(invs, "INV-003", None)
      && !IsInvoiceNumberUnique(invs, "INV-001", None)
      && !IsInvoiceNumberUnique(invs, "inv-001", None)
      && IsInvoiceNumberUnique(invs, "INV-001", Some("1"))
      && !IsInvoiceNumberUnique(invs, "INV-001", Some("2"))
  {
    var invs := [Numbered("1", "INV-001"), Numbered("2", "INV-002")];
    assert ToLower("INV-001")[6] == '1' && ToLower("INV-002")[6] == '2' && ToLower("INV-003")[6] == '3';
    assert ToLower("INV-001") == ToLower("inv-001");
    assert !SameNumber("INV-002", "INV-001") && !SameNumber("INV-001", "INV-003");
    assert !SameNumber("INV-002", "INV-003");
  }
}

/** The sums of a ZUGFeRD (EN 16931) invoice as `create_zugferd_xml`
    computes them: one document line per line item, a tax breakdown with
    one entry per distinct rate text, and the monetary summation. The
    document itself (parties, payment means, notes, XML) is not modelled;
    amounts are exact rationals. */
module Zugferd {
  import opened Wrappers
  import opened PyInt
  import opened PyDecimal

  /** One entry of `line_items`; a missing `tax_rate` or `unit` is `None`. */
  datatype LineItem = LineItem(description: string, quantity: Decimal, unitPrice: Decimal,
                               taxRate: Option<Decimal>, unit: Option<string>)

  /** `Decimal("19.00")`, the rate of a line item without `tax_rate`. */
  const DefaultTaxRate: Decimal := Decimal(false, 1900, -2)

  /** `"C62"` (pieces), the unit of a line item without `unit`. */
  const DefaultUnit: string := "C62"

  /** `Decimal("1.000")`, the basis quantity of every net price. */
  const BasisQuantity: Decimal := Decimal(false, 1000, -3)

  function RateOf(item: LineItem): Decimal
  {
    item.taxRate.GetOr(DefaultTaxRate)
  }

  function UnitOf(item: LineItem): string
  {
    item.unit.GetOr(DefaultUnit)
  }

  /** `quantity * unit_price`. */
  function LineTotal(item: LineItem): real
  {
    Value(item.quantity) * Value(item.unitPrice)
  }

  /** `amount * rate / Decimal("100")`: `rate` percent of `amount`. */
  function Percent(amount: real, rate: Decimal): real
  {
    amount * Value(rate) / 100.0
  }

  /** The tax of a line item, `line_total * tax_rate / Decimal("100")`. */
  function LineTax(item: LineItem): real
  {
    Percent(LineTotal(item), RateOf(item))
  }

  /** `str(tax_rate)`, the key the taxes are collected under. */
  function RateKey(item: LineItem): string
  {
    ToString(RateOf(item))
  }

  /** A `LineItem` of the document. */
  datatype Line = Line(lineId: string, name: string, netPrice: Decimal, basisQuantity: Decimal,
                       billedQuantity: Decimal, unit: string, ratePercent: Decimal, total: real)

  /** An entry of `tax_amounts`: a rate text with its basis and its tax. */
  datatype TaxEntry = TaxEntry(rateKey: string, basis: real, tax: real)

  /** The monetary summation of the settlement. */
  datatype Summation = Summation(lineTotal: real, chargeTotal: real, allowanceTotal: real,
                                 taxBasisTotal: real, taxTotal: real, grandTotal: real,
                                 prepaidTotal: real, duePayable: real)

  datatype Settlement = Settlement(lines: seq<Line>, breakdown: seq<TaxEntry>, sums: Summation)

  /** The `ValueError` raised when no buyer is configured. */
  datatype InvoiceError = BuyerNotConfigured

  /** The document line for the item at (1-based) position `id`. */
  function LineOf(id: nat, item: LineItem): Line
  {
    Line(NatToString(id), item.description, item.unitPrice, BasisQuantity, item.quantity,
         UnitOf(item), RateOf(item), LineTotal(item))
  }

  /** The document lines of `items`, numbered from 1. */
  function Lines(items: seq<LineItem>): (r: seq<Line>)
    ensures |r| == |items|
  {
    seq(|items|, k requires 0 <= k < |items| => LineOf(k + 1, items[k]))
  }

  /** What one line item adds to the tax breakdown: its rate text, its
      line total and its tax. */
  datatype Charge = Charge(rateKey: string, amount: real, tax: real)

  function ChargeOf(item: LineItem): Charge
  {
    Charge(RateKey(item), LineTotal(item), LineTax(item))
  }

  function Charges(items: seq<LineItem>): (r: seq<Charge>)
    ensures |r| == |items|
  {
    seq(|items|, i requires 0 <= i < |items| => ChargeOf(items[i]))
  }

  // Reference definitions of the sums.

  function Amounts(charges: seq<Charge>): real
  {
    if charges == [] then 0.0 else Amounts(charges[..|charges| - 1]) + charges[|charges| - 1].amount
  }

  function Taxes(charges: seq<Charge>): real
  {
    if charges == [] then 0.0 else Taxes(charges[..|charges| - 1]) + charges[|charges| - 1].tax
  }

  /** The sum of the line totals. */
  function Net(items: seq<LineItem>): real
  {
    Amounts(Charges(items))
  }

  /** The sum of the line taxes. */
  function TaxSum(items: seq<LineItem>): real
  {
    Taxes(Charges(items))
  }

  /** The sum of the totals of the lines whose rate is written `key`. */
  function BasisFor(charges: seq<Charge>, key: string): real
  {
    if charges == [] then 0.0
    else
      var c := charges[|charges| - 1];
      BasisFor(charges[..|charges| - 1], key) + (if c.rateKey == key then c.amount else 0.0)
  }

  /** The sum of the taxes of the lines whose rate is written `key`. */
  function TaxFor(charges: seq<Charge>, key: string): real
  {
    if charges == [] then 0.0
    else
      var c := charges[|charges| - 1];
      TaxFor(charges[..|charges| - 1], key) + (if c.rateKey == key then c.tax else 0.0)
  }

  /** The distinct rate texts in the order they first occur. */
  function Keys(charges: seq<Charge>): seq<string>
  {
    if charges == [] then []
    else
      var keys := Keys(charges[..|charges| - 1]);
      var key := charges[|charges| - 1].rateKey;
      if key in keys then keys else keys + [key]
  }

  /** The tax breakdown: for each distinct rate text, in order of first
      occurrence, the basis and the tax of its lines. */
  function Breakdown(charges: seq<Charge>): (r: seq<TaxEntry>)
    ensures |r| == |Keys(charges)|
  {
    var keys := Keys(charges);
    seq(|keys|, j requires 0 <= j < |keys| => TaxEntry(keys[j], BasisFor(charges, keys[j]), TaxFor(charges, keys[j])))
  }

  function SumBases(entries: seq<TaxEntry>): real
  {
    if entries == [] then 0.0 else SumBases(entries[..|entries| - 1]) + entries[|entries| - 1].basis
  }

  function SumTaxes(entries: seq<TaxEntry>): real
  {
    if entries == [] then 0.0 else SumTaxes(entries[..|entries| - 1]) + entries[|entries| - 1].tax
  }

  /** The position of the first line whose rate is written `key`, or
      `|charges|` when there is none. */
  function FirstIndex(charges: seq<Charge>, key: string): (i: nat)
    ensures i <= |charges|
    ensures i < |charges| ==> charges[i].rateKey == key
    ensures forall j :: 0 <= j < i ==> charges[j].rateKey != key
  {
    if charges == [] then 0
    else if charges[0].rateKey == key then 0
    else
      var i := 1 + FirstIndex(charges[1..], key);
      assert forall j :: 1 <= j < i ==> charges[j] == charges[1..][j - 1];
      i
  }

  // The dictionary `tax_amounts`.

  /** `rate_key in tax_amounts`: the position of `key` in the dictionary,
      or `|entries|`. */
  function Find(entries: seq<TaxEntry>, key: string): (i: nat)
    ensures i <= |entries|
    ensures i < |entries| ==> entries[i].rateKey == key
    ensures forall j :: 0 <= j < i ==> entries[j].rateKey != key
  {
    if entries == [] then 0
    else if entries[0].rateKey == key then 0
    else
      var i := 1 + Find(entries[1..], key);
      assert forall j :: 1 <= j < i ==> entries[j] == entries[1..][j - 1];
      i
  }

  /** `tax_amounts[rate_key] = (basis + line_total, tax + tax_amount)` when
      the key is present, `tax_amounts[rate_key] = (line_total, tax_amount)`
      otherwise; a new key goes last, as in a Python dictionary. */
  function Accumulate(entries: seq<TaxEntry>, key: string, amount: real, tax: real): seq<TaxEntry>
  {
    var i := Find(entries, key);
    if i < |entries| then entries[i := TaxEntry(key, entries[i].basis + amount, entries[i].tax + tax)]
    else entries + [TaxEntry(key, amount, tax)]
  }

  /** The loop over `line_items`: each item becomes a document line
      numbered from 1, its total is added to `total_net` and its total and
      tax to the entry of its rate text in `tax_amounts`. */
  method CollectLines(items: seq<LineItem>) returns (lines: seq<Line>, totalNet: real, taxAmounts: seq<TaxEntry>)
    ensures |lines| == |items|
    ensures forall i :: 0 <= i < |items| ==> lines[i] == LineOf(i + 1, items[i])
    ensures totalNet == Net(items)
    ensures taxAmounts == Breakdown(Charges(items))
  {
    totalNet := 0.0;
    taxAmounts := [];
    lines := [];
    var i := 0;
    while i < |items|
      invariant 0 <= i <= |items|
      invariant lines == Lines(items[..i])
      invariant totalNet == Amounts(Charges(items[..i]))
      invariant taxAmounts == Breakdown(Charges(items[..i]))
    {
      var item := items[i];
      var lineTotal := LineTotal(item);
      var line := Line(NatToString(i + 1), item.description, item.unitPrice, BasisQuantity,
                       item.quantity, UnitOf(item), RateOf(item), lineTotal);
      assert line == LineOf(i + 1, item);
      totalNet := totalNet + lineTotal;
      var rateKey := RateKey(item);
      var taxAmount := Percent(lineTotal, RateOf(item));
      SettleStep(items, i);
      taxAmounts := Accumulate(taxAmounts, rateKey, lineTotal, taxAmount);
      lines := lines + [line];
      i := i + 1;
    }
    assert items[..i] == items;
    assert lines == Lines(items);
    forall k | 0 <= k < |items|
      ensures lines[k] == LineOf(k + 1, items[k])
    {
      assert lines[k] == Lines(items)[k];
    }
  }

  /** The loop over the breakdown: `total_tax` is the sum of its taxes. */
  method TotalTax(taxAmounts: seq<TaxEntry>) returns (totalTax: real)
    ensures totalTax == SumTaxes(taxAmounts)
  {
    totalTax := 0.0;
    var j := 0;
    while j < |taxAmounts|
      invariant 0 <= j <= |taxAmounts|
      invariant totalTax == SumTaxes(taxAmounts[..j])
    {
      assert taxAmounts[..j + 1][..j] == taxAmounts[..j];
      totalTax := totalTax + taxAmounts[j].tax;
      j := j + 1;
    }
    assert taxAmounts[..j] == taxAmounts;
  }

  /** The settlement of `create_zugferd_xml`: nothing is computed when
      no buyer is configured; otherwise the lines are numbered from 1 in
      input order, the breakdown collects basis and tax per rate text in
      order of first occurrence, and the document sums follow from the
      net total and the tax total. */
  method Settle(buyerConfigured: bool, items: seq<LineItem>) returns (result: Result<Settlement, InvoiceError>)
    ensures !buyerConfigured <==> result == Failure(BuyerNotConfigured)
    ensures result.Success? ==>
      |result.value.lines| == |items| &&
      forall i :: 0 <= i < |items| ==> result.value.lines[i] == LineOf(i + 1, items[i])
    ensures result.Success? ==> result.value.breakdown == Breakdown(Charges(items))
    ensures result.Success? ==>
      result.value.sums == Summation(Net(items), 0.0, 0.0, Net(items), TaxSum(items),
                                     Net(items) + TaxSum(items), 0.0, Net(items) + TaxSum(items))
  {
    if !buyerConfigured {
      return Failure(BuyerNotConfigured);
    }
    var lines, totalNet, taxAmounts := CollectLines(items);
    var totalTax := TotalTax(taxAmounts);
    BreakdownAddsUp(Charges(items));
    result := Success(Settlement(lines, taxAmounts,
      Summation(totalNet, 0.0, 0.0, totalNet, totalTax, totalNet + totalTax, 0.0, totalNet + totalTax)));
  }

  // Properties of the reference definitions.

  /** What the loop of `Settle` adds for the item at position `i`. */
  lemma SettleStep(items: seq<LineItem>, i: nat)
    requires i < |items|
    ensures Lines(items[..i + 1]) == Lines(items[..i]) + [LineOf(i + 1, items[i])]
    ensures Amounts(Charges(items[..i + 1])) == Amounts(Charges(items[..i])) + LineTotal(items[i])
    ensures Breakdown(Charges(items[..i + 1])) ==
            Accumulate(Breakdown(Charges(items[..i])), RateKey(items[i]), LineTotal(items[i]), LineTax(items[i]))
  {
    assert items[..i + 1] == items[..i] + [items[i]];
    ChargesAppend(items[..i], items[i]);
    LinesAppend(items[..i], items[i]);
    NextLine(Charges(items[..i]), ChargeOf(items[i]));
  }

  lemma LinesAppend(items: seq<LineItem>, item: LineItem)
    ensures Lines(items + [item]) == Lines(items) + [LineOf(|items| + 1, item)]
  {
  }

  lemma ChargesAppend(items: seq<LineItem>, item: LineItem)
    ensures Charges(items + [item]) == Charges(items) + [ChargeOf(item)]
  {
  }

  /** One more line adds its amounts to the running sums and, through the
      dictionary update, to the breakdown. */
  lemma NextLine(charges: seq<Charge>, c: Charge)
    ensures Amounts(charges + [c]) == Amounts(charges) + c.amount
    ensures Accumulate(Breakdown(charges), c.rateKey, c.amount, c.tax) == Breakdown(charges + [c])
  {
    assert (charges + [c])[..|charges|] == charges;
    AccumulateStep(charges, c);
  }

  lemma SumsAppend(charges: seq<Charge>, c: Charge)
    ensures Amounts(charges + [c]) == Amounts(charges) + c.amount
    ensures Taxes(charges + [c]) == Taxes(charges) + c.tax
  {
    assert (charges + [c])[..|charges|] == charges;
  }

  /** A line counts towards the entry of its own rate text and of no other. */
  lemma EntryStep(charges: seq<Charge>, c: Charge, key: string)
    ensures BasisFor(charges + [c], key) == BasisFor(charges, key) + (if c.rateKey == key then c.amount else 0.0)
    ensures TaxFor(charges + [c], key) == TaxFor(charges, key) + (if c.rateKey == key then c.tax else 0.0)
  {
    assert (charges + [c])[..|charges|] == charges;
  }

  /** The rate texts of the breakdown are distinct. */
  lemma {:induction false} KeysDistinct(charges: seq<Charge>)
    ensures forall a, b :: 0 <= a < b < |Keys(charges)| ==> Keys(charges)[a] != Keys(charges)[b]
  {
    if charges != [] {
      KeysDistinct(charges[..|charges| - 1]);
    }
  }

  /** A rate text is in the breakdown exactly when some line has it. */
  lemma {:induction false} KeysMembers(charges: seq<Charge>, key: string)
    ensures key in Keys(charges) <==> exists i :: 0 <= i < |charges| && charges[i].rateKey == key
  {
    if charges != [] {
      var init := charges[..|charges| - 1];
      KeysMembers(init, key);
      if key in Keys(charges) && key != charges[|charges| - 1].rateKey {
        var i :| 0 <= i < |init| && init[i].rateKey == key;
        assert charges[i] == init[i];
      }
      if exists i :: 0 <= i < |charges| && charges[i].rateKey == key {
        var i :| 0 <= i < |charges| && charges[i].rateKey == key;
        if i < |init| {
          assert init[i] == charges[i];
        }
      }
    }
  }

  /** A rate text that no line has collects nothing. */
  lemma {:induction false} AbsentKey(charges: seq<Charge>, key: string)
    requires forall i :: 0 <= i < |charges| ==> charges[i].rateKey != key
    ensures BasisFor(charges, key) == 0.0 && TaxFor(charges, key) == 0.0
  {
    if charges != [] {
      var init := charges[..|charges| - 1];
      assert forall i :: 0 <= i < |init| ==> init[i] == charges[i];
      AbsentKey(init, key);
    }
  }

  /** An entry that was in the breakdown before one more line is still
      there, at the same place, with the line's amounts added when the
      line has its rate text. */
  lemma EntryAfter(charges: seq<Charge>, c: Charge, k: nat)
    requires k < |Keys(charges)|
    ensures k < |Breakdown(charges + [c])|
    ensures var key := Keys(charges)[k];
            Breakdown(charges + [c])[k] ==
            if c.rateKey == key then TaxEntry(key, BasisFor(charges, key) + c.amount, TaxFor(charges, key) + c.tax)
            else TaxEntry(key, BasisFor(charges, key), TaxFor(charges, key))
  {
    var all := charges + [c];
    var key := Keys(charges)[k];
    assert all[..|all| - 1] == charges;
    assert Keys(all)[k] == key;
    assert Breakdown(all)[k] == TaxEntry(key, BasisFor(all, key), TaxFor(all, key));
    EntryStep(charges, c, key);
  }

  /** When the line's rate text is the `m`-th entry, that entry and only
      that one takes up the line's amounts. */
  lemma PresentEntry(charges: seq<Charge>, c: Charge, m: nat, k: nat)
    requires m < |Keys(charges)| && Keys(charges)[m] == c.rateKey && k < |Keys(charges)|
    ensures k < |Breakdown(charges + [c])|
    ensures Breakdown(charges + [c])[k] ==
            Breakdown(charges)[m := TaxEntry(c.rateKey, Breakdown(charges)[m].basis + c.amount,
                                             Breakdown(charges)[m].tax + c.tax)][k]
  {
    KeysDistinct(charges);
    EntryAfter(charges, c, k);
  }

  /** Processing one more line updates the breakdown of the lines before
      it exactly as the dictionary update does. */
  lemma AccumulateStep(charges: seq<Charge>, c: Charge)
    ensures Accumulate(Breakdown(charges), c.rateKey, c.amount, c.tax) == Breakdown(charges + [c])
  {
    var keys := Keys(charges);
    if c.rateKey in keys {
      var m :| 0 <= m < |keys| && keys[m] == c.rateKey;
      PresentFind(charges, c.rateKey, m);
      PresentBreakdown(charges, c, m);
      AccumulateAt(Breakdown(charges), Breakdown(charges + [c]), c.rateKey, c.amount, c.tax, m);
    } else {
      AbsentStep(charges, c);
    }
  }

  /** A rate text that is the `m`-th key is found at the `m`-th entry of
      the dictionary. */
  lemma PresentFind(charges: seq<Charge>, key: string, m: nat)
    requires m < |Keys(charges)| && Keys(charges)[m] == key
    ensures Find(Breakdown(charges), key) == m
  {
    var entries := Breakdown(charges);
    var keys := Keys(charges);
    assert forall j :: 0 <= j < |entries| ==> entries[j].rateKey == keys[j];
    KeysDistinct(charges);
    FindUnique(entries, key, m);
  }

  /** In a dictionary without repeated keys, a key at `m` is found at `m`. */
  lemma FindUnique(entries: seq<TaxEntry>, key: string, m: nat)
    requires m < |entries| && entries[m].rateKey == key
    requires forall a, b :: 0 <= a < b < |entries| ==> entries[a].rateKey != entries[b].rateKey
    ensures Find(entries, key) == m
  {
  }

  /** A key found at `m` adds the amounts to the `m`-th entry. */
  lemma AccumulateAt(entries: seq<TaxEntry>, after: seq<TaxEntry>, key: string, amount: real, tax: real, m: nat)
    requires m < |entries| && Find(entries, key) == m
    requires after == entries[m := TaxEntry(key, entries[m].basis + amount, entries[m].tax + tax)]
    ensures Accumulate(entries, key, amount, tax) == after
  {
  }

  /** A key not found opens a new entry at the end. */
  lemma AccumulateEnd(entries: seq<TaxEntry>, after: seq<TaxEntry>, key: string, amount: real, tax: real)
    requires Find(entries, key) == |entries|
    requires after == entries + [TaxEntry(key, amount, tax)]
    ensures Accumulate(entries, key, amount, tax) == after
  {
  }

  /** The breakdown of the lines with one more whose rate text is the
      `m`-th entry differs from the one before only in that entry. */
  lemma PresentBreakdown(charges: seq<Charge>, c: Charge, m: nat)
    requires m < |Keys(charges)| && Keys(charges)[m] == c.rateKey
    ensures Breakdown(charges + [c]) ==
            Breakdown(charges)[m := TaxEntry(c.rateKey, Breakdown(charges)[m].basis + c.amount,
                                             Breakdown(charges)[m].tax + c.tax)]
  {
    PresentEntries(charges, c, m);
    var entries := Breakdown(charges);
    var after := Breakdown(charges + [c]);
    var acc := entries[m := TaxEntry(c.rateKey, entries[m].basis + c.amount, entries[m].tax + c.tax)];
    assert |after| == |acc|;
    assert forall k :: 0 <= k < |after| ==> after[k] == acc[k];
  }

  /** Entry by entry: one more line whose rate text is the `m`-th key keeps
      the number of entries and changes only the `m`-th. */
  lemma PresentEntries(charges: seq<Charge>, c: Charge, m: nat)
    requires m < |Keys(charges)| && Keys(charges)[m] == c.rateKey
    ensures |Breakdown(charges + [c])| == |Breakdown(charges)|
    ensures forall k :: 0 <= k < |Breakdown(charges)| ==>
              Breakdown(charges + [c])[k] ==
              Breakdown(charges)[m := TaxEntry(c.rateKey, Breakdown(charges)[m].basis + c.amount,
                                               Breakdown(charges)[m].tax + c.tax)][k]
  {
    var all := charges + [c];
    assert all[..|all| - 1] == charges;
    assert Keys(all) == Keys(charges);
    forall k | 0 <= k < |Keys(charges)|
      ensures Breakdown(all)[k] ==
              Breakdown(charges)[m := TaxEntry(c.rateKey, Breakdown(charges)[m].basis + c.amount,
                                               Breakdown(charges)[m].tax + c.tax)][k]
    {
      PresentEntry(charges, c, m, k);
    }
  }

  /** A line with a new rate text leaves the entries before it alone and
      opens an entry of its own at the end. */
  lemma AbsentStep(charges: seq<Charge>, c: Charge)
    requires c.rateKey !in Keys(charges)
    ensures Accumulate(Breakdown(charges), c.rateKey, c.amount, c.tax) == Breakdown(charges) + [TaxEntry(c.rateKey, c.amount, c.tax)]
    ensures Breakdown(charges + [c]) == Breakdown(charges) + [TaxEntry(c.rateKey, c.amount, c.tax)]
  {
    AbsentFind(charges, c.rateKey);
    AbsentBreakdown(charges, c);
    AccumulateEnd(Breakdown(charges), Breakdown(charges + [c]), c.rateKey, c.amount, c.tax);
  }

  /** A rate text that is not a key is not found in the dictionary. */
  lemma AbsentFind(charges: seq<Charge>, key: string)
    requires key !in Keys(charges)
    ensures Find(Breakdown(charges), key) == |Breakdown(charges)|
  {
    var entries := Breakdown(charges);
    var keys := Keys(charges);
    assert forall j :: 0 <= j < |entries| ==> entries[j].rateKey == keys[j];
  }

  /** The breakdown with one more line of a new rate text is the one before
      with that line's entry appended. */
  lemma AbsentBreakdown(charges: seq<Charge>, c: Charge)
    requires c.rateKey !in Keys(charges)
    ensures Breakdown(charges + [c]) == Breakdown(charges) + [TaxEntry(c.rateKey, c.amount, c.tax)]
  {
    var keys := Keys(charges);
    var key := c.rateKey;
    var entries := Breakdown(charges);
    var acc := entries + [TaxEntry(key, c.amount, c.tax)];
    var all := charges + [c];
    var after := Breakdown(all);
    assert all[..|all| - 1] == charges;
    assert Keys(all) == keys + [key];
    forall k | 0 <= k < |keys|
      ensures after[k] == acc[k]
    {
      EntryAfter(charges, c, k);
    }
    KeysMembers(charges, key);
    AbsentKey(charges, key);
    EntryStep(charges, c, key);
    assert after[|keys|] == acc[|keys|];
    assert |after| == |acc|;
    assert after == acc;
  }

  /** Changing one entry changes the sums by the difference. */
  lemma {:induction false} SumsUpdate(entries: seq<TaxEntry>, i: nat, e: TaxEntry)
    requires i < |entries|
    ensures SumBases(entries[i := e]) == SumBases(entries) - entries[i].basis + e.basis
    ensures SumTaxes(entries[i := e]) == SumTaxes(entries) - entries[i].tax + e.tax
  {
    var n := |entries|;
    var updated := entries[i := e];
    if i == n - 1 {
      assert updated[..n - 1] == entries[..n - 1];
    } else {
      assert updated[..n - 1] == entries[..n - 1][i := e];
      SumsUpdate(entries[..n - 1], i, e);
    }
  }

  /** The dictionary update adds the line's amounts to the sums. */
  lemma AccumulateSums(entries: seq<TaxEntry>, key: string, amount: real, tax: real)
    ensures SumBases(Accumulate(entries, key, amount, tax)) == SumBases(entries) + amount
    ensures SumTaxes(Accumulate(entries, key, amount, tax)) == SumTaxes(entries) + tax
  {
    var i := Find(entries, key);
    var acc := Accumulate(entries, key, amount, tax);
    if i < |entries| {
      var e := TaxEntry(key, entries[i].basis + amount, entries[i].tax + tax);
      assert acc == entries[i := e];
      SumsUpdate(entries, i, e);
    } else {
      var e := TaxEntry(key, amount, tax);
      assert acc == entries + [e];
      assert (entries + [e])[..|entries|] == entries;
    }
  }

  /** The bases of the breakdown add up to the net total, and its taxes
      to the sum of the line taxes. */
  lemma {:induction false} BreakdownAddsUp(charges: seq<Charge>)
    ensures SumBases(Breakdown(charges)) == Amounts(charges)
    ensures SumTaxes(Breakdown(charges)) == Taxes(charges)
  {
    if charges != [] {
      var init := charges[..|charges| - 1];
      var c := charges[|charges| - 1];
      assert charges == init + [c];
      BreakdownAddsUp(init);
      AccumulateStep(init, c);
      AccumulateSums(Breakdown(init), c.rateKey, c.amount, c.tax);
      SumsAppend(init, c);
    }
  }

  /** The entry of a rate text that first occurs at position `m`. */
  lemma FirstIndexAt(charges: seq<Charge>, key: string, m: nat)
    requires m < |charges| && charges[m].rateKey == key
    requires forall j :: 0 <= j < m ==> charges[j].rateKey != key
    ensures FirstIndex(charges, key) == m
  {
  }

  /** A rate text that occurs before the last line first occurs at the
      same place with or without that line. */
  lemma FirstIndexKept(charges: seq<Charge>, key: string)
    requires |charges| > 0 && FirstIndex(charges[..|charges| - 1], key) < |charges| - 1
    ensures FirstIndex(charges, key) == FirstIndex(charges[..|charges| - 1], key)
  {
    var init := charges[..|charges| - 1];
    var m := FirstIndex(init, key);
    assert forall j :: 0 <= j < m ==> charges[j] == init[j];
    FirstIndexAt(charges, key, m);
  }

  /** The breakdown lists the rate texts in the order in which they first
      occur among the lines. */
  lemma {:induction false} KeysOrder(charges: seq<Charge>)
    ensures forall k :: 0 <= k < |Keys(charges)| ==> FirstIndex(charges, Keys(charges)[k]) < |charges|
    ensures forall a, b :: 0 <= a < b < |Keys(charges)| ==>
              FirstIndex(charges, Keys(charges)[a]) < FirstIndex(charges, Keys(charges)[b])
  {
    if charges != [] {
      var n := |charges|;
      var init := charges[..n - 1];
      var keys := Keys(init);
      KeysOrder(init);
      forall k | 0 <= k < |keys|
        ensures FirstIndex(charges, keys[k]) == FirstIndex(init, keys[k])
      {
        FirstIndexKept(charges, keys[k]);
      }
      var key := charges[n - 1].rateKey;
      if key !in keys {
        KeysMembers(init, key);
        assert forall j :: 0 <= j < n - 1 ==> charges[j] == init[j];
        FirstIndexAt(charges, key, n - 1);
        assert Keys(charges) == keys + [key];
      }
    }
  }

  /** Each breakdown entry carries the rate of the line item where its
      text first occurs, and `Decimal(rate_str)` reads that rate back
      when it is written in plain notation. */
  lemma BreakdownRate(items: seq<LineItem>, k: nat)
    requires k < |Breakdown(Charges(items))|
    ensures FirstIndex(Charges(items), Breakdown(Charges(items))[k].rateKey) < |items|
    ensures var rate := RateOf(items[FirstIndex(Charges(items), Breakdown(Charges(items))[k].rateKey)]);
            Breakdown(Charges(items))[k].rateKey == ToString(rate) &&
            (Plain(rate) ==> Parse(Breakdown(Charges(items))[k].rateKey) == Some(rate))
  {
    var charges := Charges(items);
    KeysOrder(charges);
    var m := FirstIndex(charges, Breakdown(charges)[k].rateKey);
    assert charges[m] == ChargeOf(items[m]);
    var rate := RateOf(items[m]);
    if Plain(rate) {
      ParseToString(rate);
    }
  }

  /** A line item without `tax_rate` is taxed at 19 percent under the key
      `"19.00"`, and one without `unit` is counted in pieces. */
  lemma Defaults(item: LineItem)
    ensures item.taxRate.None? ==> RateKey(item) == "19.00" && LineTax(item) == LineTotal(item) * 19.0 / 100.0
    ensures item.unit.None? ==> UnitOf(item) == "C62"
  {
    DefaultRateText();
  }

  lemma DefaultRateText()
    ensures ToString(DefaultTaxRate) == "19.00"
    ensures Value(DefaultTaxRate) == 19.0
  {
    assert NatToString(1900) == "1900";
  }

  /** The breakdown is keyed by the text of the rate, not by its value:
      a line at `Decimal("19")` and a line without `tax_rate` are taxed
      alike but get two entries. */
  lemma SameRateTwoEntries(a: LineItem, b: LineItem)
    requires a.taxRate == Some(Decimal(false, 19, 0)) && b.taxRate.None?
    ensures Value(RateOf(a)) == Value(RateOf(b))
    ensures |Breakdown(Charges([a, b]))| == 2
  {
    DefaultRateText();
    assert NatToString(19) == "19";
    var charges := Charges([a, b]);
    assert RateKey(a) == "19";
    assert RateKey(b) == "19.00";
    assert charges[0].rateKey == "19" && charges[1].rateKey == "19.00";
    assert charges[..1][..0] == [];
    assert Keys(charges[..1]) == ["19"];
    assert Keys(charges) == ["19", "19.00"];
  }
}

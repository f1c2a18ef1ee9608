/**
 * The demo seeding script: twelve catalogue items, three invoices and three quotations whose
 * totals are accumulated line by line before each insert. The script inlines the base-price
 * formula instead of calling a shared helper; the loop below is proved to agree with the
 * tax engine, and the sample documents give concrete values of it.
 */
module Demo {
  import opened Money
  import opened Records

  /** The sample catalogue as (name, gst, price), in insertion order. */
  const SampleItems: seq<(string, real, real)> := [
    ("Cotton Bedsheet Set (King Size)", 18.0, 2500.0),
    ("Premium Duvet Cover (Queen)", 18.0, 1800.0),
    ("Silk Pillow Covers (Pair)", 12.0, 1200.0),
    ("Cotton Blanket (Double)", 18.0, 3200.0),
    ("Bath Towel Set (4 Pieces)", 12.0, 1500.0),
    ("Cotton Curtains (Pair)", 18.0, 2800.0),
    ("Mattress Protector (King)", 12.0, 950.0),
    ("Bed Runner (Queen)", 12.0, 850.0),
    ("Table Linen Set (6 Pieces)", 12.0, 2200.0),
    ("Cotton Quilt Cover (King)", 18.0, 2100.0),
    ("Bath Mat Set (3 Pieces)", 12.0, 750.0),
    ("Premium Bedspread (King)", 18.0, 4500.0)
  ]

  /**
   * A sample line: the `k`-th catalogue item (its id, which the database assigns, is taken
   * as `id`) bought `quantity` times at its catalogue price and rate.
   */
  function Pick(k: nat, id: int, quantity: int): (line: Line)
    requires k < |SampleItems|
    ensures line.name == SampleItems[k].0 && line.gst == SampleItems[k].1 && line.price == SampleItems[k].2
    ensures line.id == id && line.quantity == quantity && line.extra == Plain
  {
    Line(id, SampleItems[k].0, SampleItems[k].2, SampleItems[k].1, quantity, Plain)
  }

  /**
   * The totals the script computes for one sample document: the three accumulators over
   * the lines with the inline base-price formula, then cgst = sgst = half the GST and
   * total = max(0, inclusive - discount). Agrees with the shared tax engine.
   */
  method SampleTotals(lines: seq<Line>, discount: real) returns (s: Summary)
    ensures s == DocumentSummary(AsPriced(lines), discount)
    ensures s.subtotal + s.cgst + s.sgst == Accumulate(AsPriced(lines)).totalInclusive
    ensures s.cgst == s.sgst && s.total >= 0.0
  {
    var subtotal := 0.0;
    var totalGst := 0.0;
    var totalInclusive := 0.0;
    ghost var priced := AsPriced(lines);
    var i := 0;
    while i < |lines|
      invariant 0 <= i <= |lines|
      invariant Accumulate(priced[..i]) == Totals(subtotal, totalGst, totalInclusive)
    {
      var line := lines[i];
      var inclusiveTotal := line.price * line.quantity as real;
      var basePrice := line.price * (100.0 - line.gst) / 100.0;
      var baseTotal := basePrice * line.quantity as real;
      var gstAmount := inclusiveTotal - baseTotal;
      assert Split(priced[i]) == LineSplit(baseTotal, gstAmount, inclusiveTotal);
      AccumulateSnoc(priced[..i], priced[i]);
      assert priced[..i + 1] == priced[..i] + [priced[i]];
      subtotal := subtotal + baseTotal;
      totalGst := totalGst + gstAmount;
      totalInclusive := totalInclusive + inclusiveTotal;
      i := i + 1;
    }
    assert priced[..|lines|] == priced;
    var cgst := totalGst / 2.0;
    var sgst := totalGst / 2.0;
    var total := if 0.0 >= totalInclusive - discount then 0.0 else totalInclusive - discount;
    s := Summary(subtotal, cgst, sgst, discount, total);
  }

  /** Summing two lines with the engine. */
  lemma TwoLines(a: Priced, b: Priced)
    ensures Accumulate([a, b]) == AddSplit(AddSplit(Totals(0.0, 0.0, 0.0), Split(a)), Split(b))
  {
    assert [a, b][..1] == [a];
    assert [a][..0] == [];
  }

  /** Summing three lines with the engine. */
  lemma ThreeLines(a: Priced, b: Priced, c: Priced)
    ensures Accumulate([a, b, c]) == AddSplit(Accumulate([a, b]), Split(c))
  {
    assert [a, b, c][..2] == [a, b];
  }

  /** Invoice for Rajesh Kumar: 2 bedsheet sets and 1 pair of silk pillow covers, discount 200. */
  lemma RajeshKumarInvoice(id0: int, id2: int)
    ensures DocumentSummary(AsPriced([Pick(0, id0, 2), Pick(2, id2, 1)]), 200.0)
         == Summary(5156.0, 522.0, 522.0, 200.0, 6000.0)
  {
    var ps := AsPriced([Pick(0, id0, 2), Pick(2, id2, 1)]);
    assert ps == [Priced(2500.0, 18.0, 2), Priced(1200.0, 12.0, 1)];
    TwoLines(ps[0], ps[1]);
  }

  /** Invoice for Priya Sharma: 1 duvet cover and 2 towel sets, no discount. */
  lemma PriyaSharmaInvoice(id1: int, id4: int)
    ensures DocumentSummary(AsPriced([Pick(1, id1, 1), Pick(4, id4, 2)]), 0.0)
         == Summary(4116.0, 342.0, 342.0, 0.0, 4800.0)
  {
    var ps := AsPriced([Pick(1, id1, 1), Pick(4, id4, 2)]);
    assert ps == [Priced(1800.0, 18.0, 1), Priced(1500.0, 12.0, 2)];
    TwoLines(ps[0], ps[1]);
  }

  /** Invoice for Amit Patel: a blanket, a mattress protector and a bed runner, discount 150. */
  lemma AmitPatelInvoice(id3: int, id6: int, id7: int)
    ensures DocumentSummary(AsPriced([Pick(3, id3, 1), Pick(6, id6, 1), Pick(7, id7, 1)]), 150.0)
         == Summary(4208.0, 396.0, 396.0, 150.0, 4850.0)
  {
    var ps := AsPriced([Pick(3, id3, 1), Pick(6, id6, 1), Pick(7, id7, 1)]);
    assert ps == [Priced(3200.0, 18.0, 1), Priced(950.0, 12.0, 1), Priced(850.0, 12.0, 1)];
    ThreeLines(ps[0], ps[1], ps[2]);
    TwoLines(ps[0], ps[1]);
  }

  /** Quotation for Sunita Reddy: a bedspread and 2 quilt covers, discount 300. */
  lemma SunitaReddyQuotation(id11: int, id9: int)
    ensures DocumentSummary(AsPriced([Pick(11, id11, 1), Pick(9, id9, 2)]), 300.0)
         == Summary(7134.0, 783.0, 783.0, 300.0, 8400.0)
  {
    var ps := AsPriced([Pick(11, id11, 1), Pick(9, id9, 2)]);
    assert ps == [Priced(4500.0, 18.0, 1), Priced(2100.0, 18.0, 2)];
    TwoLines(ps[0], ps[1]);
  }

  /** Quotation for Vikram Singh: 2 pairs of curtains and a table linen set, no discount. */
  lemma VikramSinghQuotation(id5: int, id8: int)
    ensures DocumentSummary(AsPriced([Pick(5, id5, 2), Pick(8, id8, 1)]), 0.0)
         == Summary(6528.0, 636.0, 636.0, 0.0, 7800.0)
  {
    var ps := AsPriced([Pick(5, id5, 2), Pick(8, id8, 1)]);
    assert ps == [Priced(2800.0, 18.0, 2), Priced(2200.0, 12.0, 1)];
    TwoLines(ps[0], ps[1]);
  }

  /** Quotation for Meera Krishnan: 3 bedsheet sets, a towel set and 2 bath mat sets, discount 500. */
  lemma MeeraKrishnanQuotation(id0: int, id4: int, id10: int)
    ensures DocumentSummary(AsPriced([Pick(0, id0, 3), Pick(4, id4, 1), Pick(10, id10, 2)]), 500.0)
         == Summary(8790.0, 855.0, 855.0, 500.0, 10000.0)
  {
    var ps := AsPriced([Pick(0, id0, 3), Pick(4, id4, 1), Pick(10, id10, 2)]);
    assert ps == [Priced(2500.0, 18.0, 3), Priced(1500.0, 12.0, 1), Priced(750.0, 12.0, 2)];
    ThreeLines(ps[0], ps[1], ps[2]);
    TwoLines(ps[0], ps[1]);
  }
}

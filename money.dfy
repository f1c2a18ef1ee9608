/**
 * The inclusive-GST tax engine that every page repeats: a unit price already contains
 * its GST, the GST is `gstRate` percent of that inclusive price, and the document's GST
 * is split into two equal halves (CGST and SGST). Amounts are exact reals.
 */
module Money {
  import opened Wrappers

  /** `calculateBasePrice`: the price without GST, when GST is `gstRate` percent of the inclusive price. */
  function BasePrice(inclusive: real, gstRate: real): (base: real)
    ensures base + inclusive * gstRate / 100.0 == inclusive
  {
    inclusive * (100.0 - gstRate) / 100.0
  }

  /** For a rate between 0 and 100 the base price lies between 0 and the inclusive price. */
  lemma BasePriceBounds(inclusive: real, gstRate: real)
    requires inclusive >= 0.0 && 0.0 <= gstRate <= 100.0
    ensures 0.0 <= BasePrice(inclusive, gstRate) <= inclusive
  {
    assert inclusive * gstRate >= 0.0;
    assert inclusive * (100.0 - gstRate) >= 0.0;
  }

  /** What the engine needs of a line: its (effective) inclusive unit price, rate and quantity. */
  datatype Priced = Priced(unitPrice: real, gstRate: real, quantity: int)

  datatype LineSplit = LineSplit(baseTotal: real, gstAmount: real, inclusiveTotal: real)

  /** One line of the forEach bodies: base total, GST amount and inclusive total. */
  function Split(line: Priced): (s: LineSplit)
    ensures s.baseTotal + s.gstAmount == s.inclusiveTotal
    ensures s.inclusiveTotal == line.unitPrice * line.quantity as real
  {
    var inclusiveTotal := line.unitPrice * line.quantity as real;
    var baseTotal := BasePrice(line.unitPrice, line.gstRate) * line.quantity as real;
    LineSplit(baseTotal, inclusiveTotal - baseTotal, inclusiveTotal)
  }

  /** A line's GST amount is `gstRate` percent of its inclusive total. */
  lemma GstIsRateOfInclusive(line: Priced)
    ensures Split(line).gstAmount == Split(line).inclusiveTotal * line.gstRate / 100.0
  {
    var q := line.quantity as real;
    var p := line.unitPrice;
    var b := BasePrice(p, line.gstRate);
    assert b * q + p * line.gstRate / 100.0 * q == p * q;
  }

  datatype Totals = Totals(subtotal: real, totalGst: real, totalInclusive: real)

  function AddSplit(t: Totals, s: LineSplit): Totals {
    Totals(t.subtotal + s.baseTotal, t.totalGst + s.gstAmount, t.totalInclusive + s.inclusiveTotal)
  }

  /**
   * The three accumulators after the forEach has visited every line, defined over the
   * last line so that a loop over a prefix extends it one line at a time.
   */
  function Accumulate(lines: seq<Priced>): (t: Totals)
    ensures t.subtotal + t.totalGst == t.totalInclusive
    ensures lines == [] ==> t == Totals(0.0, 0.0, 0.0)
  {
    if lines == [] then Totals(0.0, 0.0, 0.0)
    else AddSplit(Accumulate(lines[..|lines| - 1]), Split(lines[|lines| - 1]))
  }

  /** One more line extends the accumulated totals by that line's split. */
  lemma AccumulateSnoc(lines: seq<Priced>, line: Priced)
    ensures Accumulate(lines + [line]) == AddSplit(Accumulate(lines), Split(line))
  {
    assert (lines + [line])[..|lines|] == lines;
  }

  /** Lines with non-negative prices and quantities and rates within 0..100 give 0 <= subtotal <= inclusive. */
  lemma {:induction false} AccumulateBounds(lines: seq<Priced>)
    requires forall k :: 0 <= k < |lines| ==>
      lines[k].unitPrice >= 0.0 && 0.0 <= lines[k].gstRate <= 100.0 && lines[k].quantity >= 0
    ensures var t := Accumulate(lines); 0.0 <= t.subtotal <= t.totalInclusive && t.totalGst >= 0.0
  {
    if lines != [] {
      var last := lines[|lines| - 1];
      AccumulateBounds(lines[..|lines| - 1]);
      BasePriceBounds(last.unitPrice, last.gstRate);
      var b := BasePrice(last.unitPrice, last.gstRate);
      var q := last.quantity as real;
      assert 0.0 <= b * q <= last.unitPrice * q by {
        assert (last.unitPrice - b) * q >= 0.0;
      }
    }
  }

  datatype Summary = Summary(subtotal: real, cgst: real, sgst: real, discount: real, total: real)

  /** CGST = SGST = half the GST; total = max(0, inclusive - discount). */
  function Summarize(t: Totals, discount: real): (s: Summary)
    ensures s.subtotal == t.subtotal && s.discount == discount
    ensures s.cgst == s.sgst && s.cgst + s.sgst == t.totalGst
    ensures s.total >= 0.0 && s.total >= t.totalInclusive - discount
    ensures s.total == 0.0 || s.total == t.totalInclusive - discount
  {
    Summary(t.subtotal, t.totalGst / 2.0, t.totalGst / 2.0, discount, Max(0.0, t.totalInclusive - discount))
  }

  /** The totals of a document's lines and discount, as every page computes them. */
  function DocumentSummary(lines: seq<Priced>, discount: real): (s: Summary)
    ensures s.subtotal + s.cgst + s.sgst == Accumulate(lines).totalInclusive
    ensures s.cgst == s.sgst && s.total >= 0.0
  {
    Summarize(Accumulate(lines), discount)
  }

  /** An empty line list has zero subtotal and taxes, and a total of max(0, -discount). */
  lemma EmptySummary(discount: real)
    ensures var s := DocumentSummary([], discount);
      s.subtotal == 0.0 && s.cgst == 0.0 && s.sgst == 0.0 && s.total == Max(0.0, -discount)
  {
  }
}

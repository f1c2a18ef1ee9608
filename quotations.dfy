/**
 * The quotation page's draft (`quotationItems`): like the bill, plus a per-unit discount
 * on each line. The on-screen totals use the discounted (effective) unit price, while
 * `createQuotation` accumulates the listed price and ignores the per-unit discount.
 */
module Quotations {
  import opened Wrappers
  import opened Text
  import opened Sequences
  import opened Money
  import opened Records

  /** `parseFloat(item.discountPerUnit) || 0`. */
  function DiscountPerUnit(line: Line): real {
    if line.extra.Quoted? then line.extra.discountPerUnit else 0.0
  }

  /** `Math.max(item.price - discountPerUnit, 0)`. */
  function EffectivePrice(line: Line): (p: real)
    ensures p >= 0.0
    ensures p >= line.price - DiscountPerUnit(line)
    ensures p == 0.0 || p == line.price - DiscountPerUnit(line)
    ensures DiscountPerUnit(line) >= 0.0 && line.price >= 0.0 ==> p <= line.price
  {
    Max(line.price - DiscountPerUnit(line), 0.0)
  }

  /** The lines as the on-screen totals see them: at their effective unit price. */
  function EffectivePriced(lines: seq<Line>): (ps: seq<Priced>)
    ensures |ps| == |lines|
    ensures forall k :: 0 <= k < |lines| ==> ps[k] == Priced(EffectivePrice(lines[k]), lines[k].gst, lines[k].quantity)
  {
    seq(|lines|, k requires 0 <= k < |lines| => Priced(EffectivePrice(lines[k]), lines[k].gst, lines[k].quantity))
  }

  /** The line `addItemToQuotation` pushes for an item not yet in the draft. */
  function NewQuotationLine(item: CatalogItem): Line {
    Line(item.id, item.name, item.price, item.gst, 1, Quoted(0.0))
  }

  /**
   * `updateQuotationItemDiscount`'s clamping: a negative value becomes 0, a value at or
   * above the price becomes price - 0.01, anything else is kept.
   */
  function ClampDiscount(price: real, value: real): (d: real)
    ensures value < 0.0 ==> d == 0.0
    ensures 0.0 <= value && value >= price ==> d == price - 0.01
    ensures 0.0 <= value < price ==> d == value
    ensures d != value ==> value < 0.0 || value >= price
    ensures d < price || (value < 0.0 && price <= 0.0)
    ensures price >= 0.01 ==> 0.0 <= d < price
  {
    if value < 0.0 then 0.0
    else if value >= price then price - 0.01
    else value
  }

  /**
   * Below one paisa the clamp overshoots: for 0 <= price < 0.01 a non-negative entry
   * is stored as a negative per-unit discount, so the effective price exceeds the price.
   */
  lemma ClampBelowOnePaisa(line: Line, value: real)
    requires 0.0 <= line.price < 0.01 && value >= line.price
    ensures ClampDiscount(line.price, value) < 0.0
    ensures EffectivePrice(line.(extra := Quoted(ClampDiscount(line.price, value)))) > line.price
  {
  }

  /** The draft's totals loop in `calculateTotal`, at the effective unit price. */
  method SumEffective(lines: seq<Line>) returns (t: Totals)
    ensures t == Accumulate(EffectivePriced(lines))
  {
    var subtotal, totalGst, totalInclusive := 0.0, 0.0, 0.0;
    var priced := EffectivePriced(lines);
    var i := 0;
    while i < |lines|
      invariant 0 <= i <= |lines|
      invariant Totals(subtotal, totalGst, totalInclusive) == Accumulate(priced[..i])
    {
      var item := lines[i];
      var discountPerUnit := DiscountPerUnit(item);
      var effectiveUnitPrice := Max(item.price - discountPerUnit, 0.0);
      var inclusiveTotal := effectiveUnitPrice * item.quantity as real;
      var basePrice := BasePrice(effectiveUnitPrice, item.gst);
      var baseTotal := basePrice * item.quantity as real;
      var gstAmount := inclusiveTotal - baseTotal;
      assert LineSplit(baseTotal, gstAmount, inclusiveTotal) == Split(priced[i]);
      subtotal, totalGst, totalInclusive := subtotal + baseTotal, totalGst + gstAmount, totalInclusive + inclusiveTotal;
      AccumulateSnoc(priced[..i], priced[i]);
      assert priced[..i + 1] == priced[..i] + [priced[i]];
      i := i + 1;
    }
    assert priced[..i] == priced;
    t := Totals(subtotal, totalGst, totalInclusive);
  }

  /** `customerGst || null` after trimming. */
  function NullIfEmpty(s: string): (r: Option<string>)
    ensures r.None? <==> s == ""
    ensures r.Some? ==> r.value == s
  {
    if s == "" then None else Some(s)
  }

  /** The body `createQuotation` posts. */
  function QuotationBody(name: string, mobile: string, gst: string, address: string, lines: seq<Line>, s: Summary): DocumentRequest {
    DocumentRequest(name, mobile, NullIfEmpty(gst), NullIfEmpty(address), Array(lines),
                    s.subtotal, s.cgst, s.sgst, Some(s.discount), s.total)
  }

  /** With no per-unit discounts (and no negative prices) the submitted and displayed totals agree. */
  lemma SubmittedMatchesDisplayed(lines: seq<Line>, discount: real)
    requires forall k :: 0 <= k < |lines| ==> lines[k].price >= 0.0 && DiscountPerUnit(lines[k]) == 0.0
    ensures EffectivePriced(lines) == AsPriced(lines)
    ensures DocumentSummary(AsPriced(lines), discount) == DocumentSummary(EffectivePriced(lines), discount)
  {
    assert forall k :: 0 <= k < |lines| ==> EffectivePriced(lines)[k] == AsPriced(lines)[k];
  }

  /** A line's inclusive total on screen (at its effective price) and as submitted (at its listed price). */
  function DisplayedGross(line: Line): real {
    EffectivePrice(line) * line.quantity as real
  }

  function SubmittedGross(line: Line): real {
    line.price * line.quantity as real
  }

  /** The inclusive total on screen, one line at a time from the end. */
  function DisplayedInclusive(lines: seq<Line>): real {
    if lines == [] then 0.0 else DisplayedInclusive(lines[..|lines| - 1]) + DisplayedGross(lines[|lines| - 1])
  }

  /** The inclusive total submitted, one line at a time from the end. */
  function SubmittedInclusive(lines: seq<Line>): real {
    if lines == [] then 0.0 else SubmittedInclusive(lines[..|lines| - 1]) + SubmittedGross(lines[|lines| - 1])
  }

  function Gross(p: Priced): real {
    p.unitPrice * p.quantity as real
  }

  /** The inclusive accumulator grows by the last line's price times quantity. */
  lemma InclusiveOfLast(ps: seq<Priced>)
    requires ps != []
    ensures Accumulate(ps).totalInclusive == Accumulate(ps[..|ps| - 1]).totalInclusive + Gross(ps[|ps| - 1])
  {
  }

  lemma EffectivePricedPrefix(lines: seq<Line>)
    requires lines != []
    ensures EffectivePriced(lines)[..|lines| - 1] == EffectivePriced(lines[..|lines| - 1])
  {
  }

  lemma AsPricedPrefix(lines: seq<Line>)
    requires lines != []
    ensures AsPriced(lines)[..|lines| - 1] == AsPriced(lines[..|lines| - 1])
  {
  }

  lemma EffectivePricedLast(lines: seq<Line>)
    requires lines != []
    ensures Gross(EffectivePriced(lines)[|lines| - 1]) == DisplayedGross(lines[|lines| - 1])
  {
  }

  lemma AsPricedLast(lines: seq<Line>)
    requires lines != []
    ensures Gross(AsPriced(lines)[|lines| - 1]) == SubmittedGross(lines[|lines| - 1])
  {
  }

  /** The engine's inclusive total at effective prices is the on-screen sum. */
  lemma {:induction false} DisplayedInclusiveIsAccumulated(lines: seq<Line>)
    ensures Accumulate(EffectivePriced(lines)).totalInclusive == DisplayedInclusive(lines)
  {
    if lines != [] {
      var n := |lines|;
      var ps := EffectivePriced(lines);
      DisplayedInclusiveIsAccumulated(lines[..n - 1]);
      EffectivePricedPrefix(lines);
      InclusiveOfLast(ps);
      EffectivePricedLast(lines);
    }
  }

  /** The engine's inclusive total at listed prices is the submitted sum. */
  lemma {:induction false} SubmittedInclusiveIsAccumulated(lines: seq<Line>)
    ensures Accumulate(AsPriced(lines)).totalInclusive == SubmittedInclusive(lines)
  {
    if lines != [] {
      var n := |lines|;
      var ps := AsPriced(lines);
      SubmittedInclusiveIsAccumulated(lines[..n - 1]);
      AsPricedPrefix(lines);
      InclusiveOfLast(ps);
      AsPricedLast(lines);
    }
  }

  /** One line's inclusive total at the effective price is at most, and with a discount below, the listed one. */
  lemma LineBelowListed(line: Line)
    requires line.price > 0.0 && line.quantity >= 1 && DiscountPerUnit(line) >= 0.0
    ensures DisplayedGross(line) <= SubmittedGross(line)
    ensures DiscountPerUnit(line) > 0.0 ==> DisplayedGross(line) < SubmittedGross(line)
  {
    var q := line.quantity as real;
    var e := EffectivePrice(line);
    assert (line.price - e) * q >= 0.0;
    if DiscountPerUnit(line) > 0.0 {
      assert (line.price - e) * q > 0.0;
    }
  }

  lemma {:induction false} DisplayedAtMostSubmitted(lines: seq<Line>)
    requires forall k :: 0 <= k < |lines| ==>
      lines[k].price > 0.0 && lines[k].quantity >= 1 && DiscountPerUnit(lines[k]) >= 0.0
    ensures DisplayedInclusive(lines) <= SubmittedInclusive(lines)
  {
    if lines != [] {
      var n := |lines|;
      DisplayedAtMostSubmitted(lines[..n - 1]);
      LineBelowListed(lines[n - 1]);
    }
  }

  lemma {:induction false} DisplayedBelowSubmitted(lines: seq<Line>, k: nat)
    requires forall j :: 0 <= j < |lines| ==>
      lines[j].price > 0.0 && lines[j].quantity >= 1 && DiscountPerUnit(lines[j]) >= 0.0
    requires k < |lines| && DiscountPerUnit(lines[k]) > 0.0
    ensures DisplayedInclusive(lines) < SubmittedInclusive(lines)
  {
    var n := |lines|;
    var init := lines[..n - 1];
    if k == n - 1 {
      DisplayedAtMostSubmitted(init);
    } else {
      assert init[k] == lines[k];
      DisplayedBelowSubmitted(init, k);
    }
    LineBelowListed(lines[n - 1]);
  }

  /**
   * For positive prices, positive quantities and non-negative per-unit discounts the
   * displayed inclusive total never exceeds the submitted one.
   */
  lemma EffectiveInclusiveBelowListed(lines: seq<Line>)
    requires forall k :: 0 <= k < |lines| ==>
      lines[k].price > 0.0 && lines[k].quantity >= 1 && DiscountPerUnit(lines[k]) >= 0.0
    ensures Accumulate(EffectivePriced(lines)).totalInclusive <= Accumulate(AsPriced(lines)).totalInclusive
  {
    DisplayedInclusiveIsAccumulated(lines);
    SubmittedInclusiveIsAccumulated(lines);
    DisplayedAtMostSubmitted(lines);
  }

  /** ... and is strictly smaller as soon as one line (here line `k`) carries a discount. */
  lemma DiscountedInclusiveBelowListed(lines: seq<Line>, k: nat)
    requires forall j :: 0 <= j < |lines| ==>
      lines[j].price > 0.0 && lines[j].quantity >= 1 && DiscountPerUnit(lines[j]) >= 0.0
    requires k < |lines| && DiscountPerUnit(lines[k]) > 0.0
    ensures Accumulate(EffectivePriced(lines)).totalInclusive < Accumulate(AsPriced(lines)).totalInclusive
  {
    DisplayedInclusiveIsAccumulated(lines);
    SubmittedInclusiveIsAccumulated(lines);
    DisplayedBelowSubmitted(lines, k);
  }

  /**
   * For positive prices and quantities and non-negative per-unit discounts, the
   * submitted inclusive total equals the displayed one exactly when no line is discounted.
   */
  lemma SubmittedEqualsDisplayedIff(lines: seq<Line>)
    requires forall k :: 0 <= k < |lines| ==>
      lines[k].price > 0.0 && lines[k].quantity >= 1 && DiscountPerUnit(lines[k]) >= 0.0
    ensures Accumulate(EffectivePriced(lines)).totalInclusive == Accumulate(AsPriced(lines)).totalInclusive
      <==> forall k :: 0 <= k < |lines| ==> DiscountPerUnit(lines[k]) == 0.0
  {
    if forall k :: 0 <= k < |lines| ==> DiscountPerUnit(lines[k]) == 0.0 {
      SubmittedMatchesDisplayed(lines, 0.0);
    } else {
      var k :| 0 <= k < |lines| && DiscountPerUnit(lines[k]) != 0.0;
      DiscountedInclusiveBelowListed(lines, k);
    }
  }

  class QuotationDraft {
    var lines: seq<Line>

    /** Ids are distinct and every quantity is at least 1. */
    ghost predicate Valid()
      reads this
    {
      UniqueIds(lines) && forall k :: 0 <= k < |lines| ==> lines[k].quantity >= 1
    }

    constructor ()
      ensures Valid() && lines == []
    {
      lines := [];
    }

    /** `addItemToQuotation`: merge by id (+1), or append a line with quantity 1 and no per-unit discount. */
    method AddItem(item: CatalogItem)
      requires Valid()
      modifies this
      ensures Valid()
      ensures HasId(old(lines), item.id) ==>
        |lines| == |old(lines)| &&
        forall k :: 0 <= k < |lines| ==>
          lines[k] == if old(lines)[k].id == item.id then old(lines)[k].(quantity := old(lines)[k].quantity + 1)
                      else old(lines)[k]
      ensures !HasId(old(lines), item.id) ==> lines == old(lines) + [NewQuotationLine(item)]
    {
      var found := FindById(lines, item.id);
      match found
      case Some(k) =>
        BumpKeepsIds(lines, k);
        lines := lines[k := lines[k].(quantity := lines[k].quantity + 1)];
      case None =>
        lines := lines + [NewQuotationLine(item)];
    }

    /** `removeItemFromQuotation`: `quotationItems.splice(index, 1)`. */
    method RemoveItem(index: int)
      requires Valid()
      modifies this
      ensures Valid()
      ensures lines == SpliceOne(old(lines), index)
    {
      var k := SpliceStart(|lines|, index);
      if k < |lines| {
        RemoveKeepsIds(lines, k);
      }
      lines := SpliceOne(lines, index);
    }

    /** `increaseQuotationQuantity`. */
    method IncreaseQuantity(index: nat)
      requires Valid() && index < |lines|
      modifies this
      ensures Valid()
      ensures lines == old(lines)[index := old(lines)[index].(quantity := old(lines)[index].quantity + 1)]
    {
      BumpKeepsIds(lines, index);
      lines := lines[index := lines[index].(quantity := lines[index].quantity + 1)];
    }

    /** `decreaseQuotationQuantity`: never below 1. */
    method DecreaseQuantity(index: nat)
      requires Valid() && index < |lines|
      modifies this
      ensures Valid()
      ensures old(lines)[index].quantity == 1 ==> lines == old(lines)
      ensures old(lines)[index].quantity > 1 ==>
        lines == old(lines)[index := old(lines)[index].(quantity := old(lines)[index].quantity - 1)]
    {
      if lines[index].quantity > 1 {
        lines := lines[index := lines[index].(quantity := lines[index].quantity - 1)];
      }
    }

    /** `updateQuotationItemDiscount`: only line `index` changes, and only its per-unit discount. */
    method UpdateDiscount(index: nat, valueField: Option<real>)
      requires Valid() && index < |lines|
      modifies this
      ensures Valid()
      ensures lines == old(lines)[index := old(lines)[index].(extra := Quoted(ClampDiscount(old(lines)[index].price, OrZero(valueField))))]
    {
      var discount := OrZero(valueField);
      var item := lines[index];
      var stored: real;
      if discount < 0.0 {
        stored := 0.0;
      } else if discount >= item.price {
        stored := item.price - 0.01;
      } else {
        stored := discount;
      }
      lines := lines[index := lines[index].(extra := Quoted(stored))];
    }

    /** `calculateTotal`: the totals shown under the draft, at effective unit prices. */
    method CalculateTotal(discountField: Option<real>) returns (s: Summary)
      ensures s == DocumentSummary(EffectivePriced(lines), OrZero(discountField))
    {
      var t := SumEffective(lines);
      var discount := OrZero(discountField);
      var total := t.totalInclusive - discount;
      s := Summary(t.subtotal, t.totalGst / 2.0, t.totalGst / 2.0, discount, Max(0.0, total));
    }

    /**
     * `createQuotation`: refuses an empty draft, then an empty trimmed name, then an empty
     * trimmed mobile; otherwise posts the lines with totals accumulated at the listed price.
     */
    method Create(nameField: string, mobileField: string, gstField: string, addressField: string,
                  discountField: Option<real>)
      returns (r: Result<DocumentRequest, SubmitError>)
      ensures lines == [] ==> r == Failure(NoLines)
      ensures lines != [] && Trim(nameField) == "" ==> r == Failure(NameRequired)
      ensures lines != [] && Trim(nameField) != "" && Trim(mobileField) == "" ==> r == Failure(MobileRequired)
      ensures r.Success? <==> lines != [] && Trim(nameField) != "" && Trim(mobileField) != ""
      ensures r.Success? ==>
        r.value == QuotationBody(Trim(nameField), Trim(mobileField), Trim(gstField), Trim(addressField), lines,
                                 DocumentSummary(AsPriced(lines), OrZero(discountField)))
    {
      if |lines| == 0 {
        return Failure(NoLines);
      }
      var customerName := Trim(nameField);
      var customerMobile := Trim(mobileField);
      var customerGst := Trim(gstField);
      var customerAddress := Trim(addressField);
      if customerName == "" {
        return Failure(NameRequired);
      }
      if customerMobile == "" {
        return Failure(MobileRequired);
      }
      var discount := OrZero(discountField);
      var t := SumLines(lines);
      var total := Max(0.0, t.totalInclusive - discount);
      var s := Summary(t.subtotal, t.totalGst / 2.0, t.totalGst / 2.0, discount, total);
      r := Success(QuotationBody(customerName, customerMobile, customerGst, customerAddress, lines, s));
    }
  }
}

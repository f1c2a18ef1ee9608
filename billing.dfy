/**
 * The billing page's draft bill (`billItems`): a list of lines edited in place by
 * clicks on catalogue cards and quantity buttons, its on-screen totals, and the
 * validation and totals of submitting it as an invoice.
 */
module Billing {
  import opened Wrappers
  import opened Text
  import opened Sequences
  import opened Money
  import opened Records

  /** The line `addItemToBill` pushes for an item not yet in the bill. */
  function NewBillLine(item: CatalogItem): Line {
    Line(item.id, item.name, item.price, item.gst, 1, Billed(OrElse(item.mrp, item.price), OrElse(item.discount, 0.0)))
  }

  /** A catalogue item without mrp and discount members gets mrp = price and discount 0. */
  lemma NewBillLineDefaults(item: CatalogItem)
    requires item.mrp.None? && item.discount.None?
    ensures NewBillLine(item).extra == Billed(item.price, 0.0)
    ensures NewBillLine(item).quantity == 1
  {
  }

  /** The body `submitBill` posts: no GST number or address, the bill's lines as they are. */
  function InvoiceBody(name: string, mobile: string, lines: seq<Line>, s: Summary): DocumentRequest {
    DocumentRequest(name, mobile, None, None, Array(lines), s.subtotal, s.cgst, s.sgst, Some(s.discount), s.total)
  }

  class Bill {
    var lines: seq<Line>

    /** Ids are distinct (adding an id already present merges) and every quantity is at least 1. */
    ghost predicate Valid()
      reads this
    {
      UniqueIds(lines) && forall k :: 0 <= k < |lines| ==> lines[k].quantity >= 1
    }

    constructor ()
      ensures Valid() && lines == []
    {
      lines := [];
    }

    /** `addItemToBill`: an id already in the bill gets one more unit, a new id a new line of quantity 1. */
    method AddItem(item: CatalogItem)
      requires Valid()
      modifies this
      ensures Valid()
      ensures HasId(old(lines), item.id) ==>
        |lines| == |old(lines)| &&
        forall k :: 0 <= k < |lines| ==>
          lines[k] == if old(lines)[k].id == item.id then old(lines)[k].(quantity := old(lines)[k].quantity + 1)
                      else old(lines)[k]
      ensures !HasId(old(lines), item.id) ==> lines == old(lines) + [NewBillLine(item)]
    {
      var found := FindById(lines, item.id);
      match found
      case Some(k) =>
        BumpKeepsIds(lines, k);
        lines := lines[k := lines[k].(quantity := lines[k].quantity + 1)];
      case None =>
        lines := lines + [NewBillLine(item)];
    }

    /** `removeItemFromBill`: `billItems.splice(index, 1)`. */
    method RemoveItem(index: int)
      requires Valid()
      modifies this
      ensures Valid()
      ensures lines == SpliceOne(old(lines), index)
    {
      var k := SpliceStart(|lines|, index);
      if k < |lines| {
        RemoveKeepsIds(lines, k);
      }
      lines := SpliceOne(lines, index);
    }

    /** `increaseQuantity`: one more unit on line `index`, nothing else changes. */
    method IncreaseQuantity(index: nat)
      requires Valid() && index < |lines|
      modifies this
      ensures Valid()
      ensures lines == old(lines)[index := old(lines)[index].(quantity := old(lines)[index].quantity + 1)]
    {
      BumpKeepsIds(lines, index);
      lines := lines[index := lines[index].(quantity := lines[index].quantity + 1)];
    }

    /** `decreaseQuantity`: one unit less on line `index`, except that a quantity of 1 stays 1. */
    method DecreaseQuantity(index: nat)
      requires Valid() && index < |lines|
      modifies this
      ensures Valid()
      ensures old(lines)[index].quantity == 1 ==> lines == old(lines)
      ensures old(lines)[index].quantity > 1 ==>
        lines == old(lines)[index := old(lines)[index].(quantity := old(lines)[index].quantity - 1)]
    {
      if lines[index].quantity > 1 {
        lines := lines[index := lines[index].(quantity := lines[index].quantity - 1)];
      }
    }

    /** `calculateTotal`: the totals shown under the bill, for the discount field's value. */
    method CalculateTotal(discountField: Option<real>) returns (s: Summary)
      ensures s == DocumentSummary(AsPriced(lines), OrZero(discountField))
    {
      var t := SumLines(lines);
      var discount := OrZero(discountField);
      var total := t.totalInclusive - discount;
      s := Summary(t.subtotal, t.totalGst / 2.0, t.totalGst / 2.0, discount, Max(0.0, total));
    }

    /**
     * `submitBill`: refuses an empty bill, then an empty trimmed name, then an empty
     * trimmed mobile; otherwise builds the invoice body with freshly accumulated totals.
     */
    method Submit(nameField: string, mobileField: string, discountField: Option<real>)
      returns (r: Result<DocumentRequest, SubmitError>)
      ensures lines == [] ==> r == Failure(NoLines)
      ensures lines != [] && Trim(nameField) == "" ==> r == Failure(NameRequired)
      ensures lines != [] && Trim(nameField) != "" && Trim(mobileField) == "" ==> r == Failure(MobileRequired)
      ensures r.Success? <==> lines != [] && Trim(nameField) != "" && Trim(mobileField) != ""
      ensures r.Success? ==>
        r.value == InvoiceBody(Trim(nameField), Trim(mobileField), lines,
                               DocumentSummary(AsPriced(lines), OrZero(discountField)))
    {
      if |lines| == 0 {
        return Failure(NoLines);
      }
      var customerName := Trim(nameField);
      var customerMobile := Trim(mobileField);
      if customerName == "" {
        return Failure(NameRequired);
      }
      if customerMobile == "" {
        return Failure(MobileRequired);
      }
      var discount := OrZero(discountField);
      var t := SumLines(lines);
      var total := Max(0.0, t.totalInclusive - discount);
      var s := Summary(t.subtotal, t.totalGst / 2.0, t.totalGst / 2.0, discount, total);
      r := Success(InvoiceBody(customerName, customerMobile, lines, s));
    }
  }
}

/** The records the pages and the server exchange as JSON: catalogue items, document lines and request bodies. */
module Records {
  import opened Wrappers
  import opened Money

  /** The per-page extra fields a line carries: billing adds mrp and discount%, quotations a per-unit discount. */
  datatype Extra = Plain | Billed(mrp: real, discountPercent: real) | Quoted(discountPerUnit: real)

  datatype Line = Line(id: int, name: string, price: real, gst: real, quantity: int, extra: Extra)

  /** A catalogue item as the pages read it; `mrp` and `discount` are optional members. */
  datatype CatalogItem = CatalogItem(id: int, name: string, price: real, gst: real, mrp: Option<real>, discount: Option<real>)

  datatype ItemsField = Missing | NotAnArray | Array(lines: seq<Line>)

  /** The body of POST /api/invoices and POST /api/quotations. */
  datatype DocumentRequest = DocumentRequest(
    customerName: string, customerMobile: string,
    customerGst: Option<string>, customerAddress: Option<string>,
    items: ItemsField,
    subtotal: real, cgst: real, sgst: real, discount: Option<real>, total: real)

  /** Why a page refuses to submit a draft, in the order it checks. */
  datatype SubmitError = NoLines | NameRequired | MobileRequired

  /** The lines as the tax engine sees them when the stored `price` is used as is. */
  function AsPriced(lines: seq<Line>): (ps: seq<Priced>)
    ensures |ps| == |lines|
    ensures forall k :: 0 <= k < |lines| ==> ps[k] == Priced(lines[k].price, lines[k].gst, lines[k].quantity)
  {
    seq(|lines|, k requires 0 <= k < |lines| => Priced(lines[k].price, lines[k].gst, lines[k].quantity))
  }

  predicate HasId(lines: seq<Line>, id: int) {
    exists k :: 0 <= k < |lines| && lines[k].id == id
  }

  ghost predicate UniqueIds(lines: seq<Line>) {
    forall i, j :: 0 <= i < j < |lines| ==> lines[i].id != lines[j].id
  }

  /** `lines.find(l => l.id === id)`, as the index of the first match. */
  method FindById(lines: seq<Line>, id: int) returns (found: Option<nat>)
    ensures found.None? <==> !HasId(lines, id)
    ensures found.Some? ==> found.value < |lines| && lines[found.value].id == id
    ensures found.Some? ==> forall k :: 0 <= k < found.value ==> lines[k].id != id
  {
    var i := 0;
    while i < |lines|
      invariant 0 <= i <= |lines|
      invariant forall k :: 0 <= k < i ==> lines[k].id != id
    {
      if lines[i].id == id {
        return Some(i);
      }
      i := i + 1;
    }
    return None;
  }

  /**
   * The forEach that `calculateTotal` and `submitBill` (billing page) and `createQuotation`
   * run over a draft's lines at their listed price.
   */
  method SumLines(lines: seq<Line>) returns (t: Totals)
    ensures t == Accumulate(AsPriced(lines))
  {
    var subtotal, totalGst, totalInclusive := 0.0, 0.0, 0.0;
    var priced := AsPriced(lines);
    var i := 0;
    while i < |lines|
      invariant 0 <= i <= |lines|
      invariant Totals(subtotal, totalGst, totalInclusive) == Accumulate(priced[..i])
    {
      var item := lines[i];
      var inclusiveTotal := item.price * item.quantity as real;
      var basePrice := BasePrice(item.price, item.gst);
      var baseTotal := basePrice * item.quantity as real;
      var gstAmount := inclusiveTotal - baseTotal;
      assert LineSplit(baseTotal, gstAmount, inclusiveTotal) == Split(priced[i]);
      subtotal, totalGst, totalInclusive := subtotal + baseTotal, totalGst + gstAmount, totalInclusive + inclusiveTotal;
      AccumulateSnoc(priced[..i], priced[i]);
      assert priced[..i + 1] == priced[..i] + [priced[i]];
      i := i + 1;
    }
    assert priced[..i] == priced;
    t := Totals(subtotal, totalGst, totalInclusive);
  }

  /** Incrementing one line's quantity keeps the ids. */
  lemma BumpKeepsIds(lines: seq<Line>, k: nat)
    requires k < |lines| && UniqueIds(lines)
    ensures UniqueIds(lines[k := lines[k].(quantity := lines[k].quantity + 1)])
  {
  }

  /** Removing one line keeps the remaining ids distinct. */
  lemma RemoveKeepsIds(lines: seq<Line>, k: nat)
    requires k < |lines| && UniqueIds(lines)
    ensures UniqueIds(lines[..k] + lines[k + 1..])
  {
    var r := lines[..k] + lines[k + 1..];
    forall i, j | 0 <= i < j < |r| ensures r[i].id != r[j].id {
      var i' := if i < k then i else i + 1;
      var j' := if j < k then j else j + 1;
      assert r[i] == lines[i'] && r[j] == lines[j'];
    }
  }
}

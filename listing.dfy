/**
 * The invoice and quotation list pages: the search box, the per-line breakdown in the
 * detail view, the WhatsApp number of an invoice, and the convert and delete buttons of
 * the quotation list. Both list pages use the same search filter and the same breakdown.
 */
module Listing {
  import opened Wrappers
  import opened Sequences
  import opened Text
  import opened Money
  import opened Records
  import opened Store

  /** A document matches when its lower-cased name or mobile contains the (already lower-cased) term. */
  predicate Matches(doc: Document, term: string) {
    Contains(Lower(doc.data.customerName), term) || Contains(Lower(doc.data.customerMobile), term)
  }

  function Filter(docs: seq<Document>, term: string): (r: seq<Document>)
    ensures forall x :: x in r <==> x in docs && Matches(x, term)
    ensures forall x :: multiset(r)[x] == if Matches(x, term) then multiset(docs)[x] else 0
    ensures IsSubsequence(r, docs)
  {
    if docs == [] then []
    else
      var rest := Filter(docs[1..], term);
      assert docs == [docs[0]] + docs[1..];
      if Matches(docs[0], term) then
        assert ([docs[0]] + rest)[1..] == rest;
        [docs[0]] + rest
      else
        SubsequenceOfTail(rest, docs);
        rest
  }

  /**
   * The search box: a blank entry shows the whole list; otherwise exactly the documents whose
   * name or mobile contains the trimmed, lower-cased entry, in list order.
   */
  function Search(docs: seq<Document>, input: string): (r: seq<Document>)
    ensures Trim(input) == "" ==> r == docs
    ensures Trim(input) != "" ==> forall x :: x in r <==> x in docs && Matches(x, Lower(Trim(input)))
    ensures Trim(input) != "" ==> forall x :: multiset(r)[x] == if Matches(x, Lower(Trim(input))) then multiset(docs)[x] else 0
    ensures IsSubsequence(r, docs) && |r| <= |docs|
  {
    var term := Lower(Trim(input));
    if term == "" then
      SubsequenceReflexive(docs);
      docs
    else
      Filter(docs, term)
  }

  /** The detail view's rows: per line, the base and GST parts of the line's inclusive total at its listed price. */
  function BreakdownRows(items: seq<Line>): (rows: seq<LineSplit>)
    ensures |rows| == |items|
    ensures forall k :: 0 <= k < |items| ==>
      && rows[k].inclusiveTotal == items[k].price * items[k].quantity as real
      && rows[k].baseTotal == BasePrice(items[k].price, items[k].gst) * items[k].quantity as real
      && rows[k].baseTotal + rows[k].gstAmount == rows[k].inclusiveTotal
  {
    var ps := AsPriced(items);
    seq(|items|, k requires 0 <= k < |items| => Split(ps[k]))
  }

  /** `sendViaWhatsApp`'s number: the digits of the stored mobile, or nothing when there are none. */
  function WhatsAppTarget(mobile: string): (r: Option<string>)
    ensures r.None? <==> forall i :: 0 <= i < |mobile| ==> !IsDigit(mobile[i])
    ensures r.Some? ==> r.value != [] && AllDigits(r.value) && IsSubsequence(r.value, mobile)
    ensures r.Some? ==> r.value == Digits(mobile) && |r.value| == DigitCount(mobile)
  {
    DigitsFacts(mobile);
    DigitsKeepsEvery(mobile);
    var digits := Digits(mobile);
    if digits == [] then None else Some(digits)
  }

  /** What a button sends once the confirmation dialog is answered. */
  datatype ListRequest = ConvertRequest(id: int, deleteQuotation: bool) | DeleteRequest(id: int)

  /** The convert button: nothing unless confirmed, and then always with `deleteQuotation: true`. */
  function ConvertAction(id: int, confirmed: bool): (r: Option<ListRequest>)
    ensures r.None? <==> !confirmed
    ensures r.Some? ==> r.value.ConvertRequest? && r.value.id == id && r.value.deleteQuotation
  {
    if confirmed then Some(ConvertRequest(id, true)) else None
  }

  /** The delete button: nothing unless confirmed. */
  function DeleteAction(id: int, confirmed: bool): (r: Option<ListRequest>)
    ensures r.None? <==> !confirmed
    ensures r.Some? ==> r.value == DeleteRequest(id)
  {
    if confirmed then Some(DeleteRequest(id)) else None
  }

  /**
   * The convert button against the server: a declined dialog changes nothing; an accepted one
   * turns an existing quotation into a new invoice and removes the quotation.
   */
  method ConvertFromList(store: Store, id: int, confirmed: bool, now: int) returns (r: Option<Result<int, ApiError>>)
    requires store.Valid()
    modifies store
    ensures store.Valid()
    ensures !confirmed ==> r.None? && unchanged(store)
    ensures confirmed && HasRow(old(store.quotations), id) ==>
      && r == Some(Success(old(store.nextInvoiceId)))
      && !HasRow(store.quotations, id)
      && store.invoices == old(store.invoices) + [Row(old(store.nextInvoiceId), now, Lookup(old(store.quotations), id).value.data)]
    ensures confirmed && !HasRow(old(store.quotations), id) ==>
      r == Some(Failure(NotFound(QuotationNotFound))) && store.quotations == old(store.quotations) && store.invoices == old(store.invoices)
  {
    var request := ConvertAction(id, confirmed);
    if request.None? {
      return None;
    }
    var answer := store.Convert(request.value.id, request.value.deleteQuotation, now);
    r := Some(answer);
  }

  /** The delete button against the server: a declined dialog changes nothing; an accepted one removes the quotation. */
  method DeleteFromList(store: Store, id: int, confirmed: bool) returns (r: Option<Result<int, ApiError>>)
    requires store.Valid()
    modifies store
    ensures store.Valid()
    ensures !confirmed ==> r.None? && unchanged(store)
    ensures confirmed && HasRow(old(store.quotations), id) ==>
      r == Some(Success(id)) && !HasRow(store.quotations, id) && store.quotations == WithoutRow(old(store.quotations), id)
    ensures confirmed && !HasRow(old(store.quotations), id) ==>
      r == Some(Failure(NotFound(QuotationNotFound))) && store.quotations == old(store.quotations)
    ensures store.invoices == old(store.invoices) && store.items == old(store.items)
  {
    var request := DeleteAction(id, confirmed);
    if request.None? {
      return None;
    }
    WithoutRowInOrder(store.quotations, id);
    var answer := store.DeleteQuotation(request.value.id);
    r := Some(answer);
  }
}

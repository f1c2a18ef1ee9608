/**
 * The server's three tables (items, invoices, quotations) and the request handlers that
 * read and change them. Each table is kept in id order; ids come from a per-table
 * AUTOINCREMENT counter, so they are never reused, and `created_at` is the `now`
 * the caller passes in.
 */
module Store {
  import opened Wrappers
  import opened Text
  import opened Sequences
  import opened Records

  datatype Row<T> = Row(id: int, createdAt: int, data: T)

  datatype ItemData = ItemData(name: string, gst: real, price: real)

  datatype DocumentData = DocumentData(
    customerName: string, customerMobile: string, items: seq<Line>,
    subtotal: real, cgst: real, sgst: real, discount: real, total: real)

  type Document = Row<DocumentData>

  /** The body of POST /api/items and PUT /api/items/:id; an absent member is `None`. */
  datatype ItemRequest = ItemRequest(name: string, gst: Option<real>, price: Option<real>)

  /** A 400 or a 404 answer, with its message. */
  datatype ApiError = BadRequest(message: string) | NotFound(message: string)

  const ItemFieldsRequired := "Name, GST, and Price are required"
  const CustomerRequired := "Customer name and mobile number are required"
  const ItemsRequired := "Items are required"
  const ItemNotFound := "Item not found"
  const InvoiceNotFound := "Invoice not found"
  const QuotationNotFound := "Quotation not found"

  predicate HasRow<T>(rows: seq<Row<T>>, id: int) {
    exists k :: 0 <= k < |rows| && rows[k].id == id
  }

  ghost predicate Ascending<T>(rows: seq<Row<T>>) {
    forall i, j :: 0 <= i < j < |rows| ==> rows[i].id < rows[j].id
  }

  ghost predicate Descending<T>(rows: seq<Row<T>>) {
    forall i, j :: 0 <= i < j < |rows| ==> rows[i].id > rows[j].id
  }

  /** A table in id order whose ids are positive and below the next id the counter hands out. */
  ghost predicate TableValid<T>(rows: seq<Row<T>>, nextId: int) {
    1 <= nextId && Ascending(rows) && forall k :: 0 <= k < |rows| ==> 1 <= rows[k].id < nextId
  }

  /** `SELECT * FROM t WHERE id = ?`. */
  function Lookup<T>(rows: seq<Row<T>>, id: int): (r: Option<Row<T>>)
    ensures r.None? <==> !HasRow(rows, id)
    ensures r.Some? ==> r.value.id == id && r.value in rows
  {
    if rows == [] then None
    else if rows[0].id == id then Some(rows[0])
    else
      var r := Lookup(rows[1..], id);
      assert r.Some? ==> r.value in rows;
      assert HasRow(rows[1..], id) ==> HasRow(rows, id);
      r
  }

  /** A row appended with an id above every other id is what a lookup of that id finds. */
  lemma {:induction false} LookupAppended<T>(rows: seq<Row<T>>, row: Row<T>)
    requires forall k :: 0 <= k < |rows| ==> rows[k].id < row.id
    ensures Lookup(rows + [row], row.id) == Some(row)
  {
    if rows != [] {
      assert (rows + [row])[1..] == rows[1..] + [row];
      LookupAppended(rows[1..], row);
    }
  }

  /** `DELETE FROM t WHERE id = ?`: every other row, in the same order. */
  function WithoutRow<T(!new)>(rows: seq<Row<T>>, id: int): (r: seq<Row<T>>)
    ensures forall x :: x in r <==> x in rows && x.id != id
    ensures IsSubsequence(r, rows)
    ensures !HasRow(rows, id) ==> r == rows
  {
    if rows == [] then []
    else
      var rest := WithoutRow(rows[1..], id);
      assert !HasRow(rows, id) ==> !HasRow(rows[1..], id);
      if rows[0].id == id then
        SubsequenceOfTail(rest, rows);
        rest
      else
        assert ([rows[0]] + rest)[1..] == rest;
        assert forall x :: x in rest ==> x in rows[1..];
        [rows[0]] + rest
  }

  /** On a table in id order, deleting keeps the order, leaves no row with that id and removes one row iff one existed. */
  lemma {:induction false} WithoutRowInOrder<T(!new)>(rows: seq<Row<T>>, id: int)
    requires Ascending(rows)
    ensures Ascending(WithoutRow(rows, id))
    ensures !HasRow(WithoutRow(rows, id), id)
    ensures |WithoutRow(rows, id)| == |rows| - (if HasRow(rows, id) then 1 else 0)
  {
    var r := WithoutRow(rows, id);
    SubsequenceAscending(r, rows);
    if rows != [] {
      WithoutRowInOrder(rows[1..], id);
      if rows[0].id == id {
        assert !HasRow(rows[1..], id);
      } else {
        assert HasRow(rows, id) <==> HasRow(rows[1..], id);
      }
    }
  }

  /** An insert with the counter's id keeps the table valid and is found by that id. */
  lemma AppendKeepsValid<T>(rows: seq<Row<T>>, nextId: int, row: Row<T>)
    requires TableValid(rows, nextId) && row.id == nextId
    ensures TableValid(rows + [row], nextId + 1)
    ensures Lookup(rows + [row], nextId) == Some(row)
  {
    LookupAppended(rows, row);
  }

  /** A delete keeps the table valid, and afterwards no row has the id. */
  lemma RemoveKeepsValid<T(!new)>(rows: seq<Row<T>>, nextId: int, id: int)
    requires TableValid(rows, nextId)
    ensures TableValid(WithoutRow(rows, id), nextId)
    ensures !HasRow(WithoutRow(rows, id), id)
    ensures |WithoutRow(rows, id)| == |rows| - (if HasRow(rows, id) then 1 else 0)
  {
    var r := WithoutRow(rows, id);
    WithoutRowInOrder(rows, id);
    forall k | 0 <= k < |r| ensures 1 <= r[k].id < nextId {
      assert r[k] in rows;
    }
  }

  /** `UPDATE t SET ... WHERE id = ?`: the row with that id gets the new data, every row keeps its id and date. */
  function Updated<T>(rows: seq<Row<T>>, id: int, data: T): (r: seq<Row<T>>)
    ensures |r| == |rows|
    ensures forall k :: 0 <= k < |rows| ==> r[k].id == rows[k].id && r[k].createdAt == rows[k].createdAt
    ensures forall k :: 0 <= k < |rows| ==> r[k].data == (if rows[k].id == id then data else rows[k].data)
  {
    seq(|rows|, k requires 0 <= k < |rows| => if rows[k].id == id then rows[k].(data := data) else rows[k])
  }

  /** `... ORDER BY id DESC` over a table kept in id order. */
  function NewestFirst<T(!new)>(rows: seq<Row<T>>): (r: seq<Row<T>>)
    ensures |r| == |rows|
    ensures forall k :: 0 <= k < |rows| ==> r[k] == rows[|rows| - 1 - k]
    ensures forall x :: x in r <==> x in rows
    ensures Ascending(rows) ==> Descending(r)
  {
    var r := seq(|rows|, k requires 0 <= k < |rows| => rows[|rows| - 1 - k]);
    assert forall x :: x in rows ==> x in r by {
      forall x | x in rows ensures x in r {
        var k :| 0 <= k < |rows| && rows[k] == x;
        assert r[|rows| - 1 - k] == x;
      }
    }
    r
  }

  /** `name LIKE '%search%'` (case-insensitive for ASCII letters); an empty search matches every item. */
  predicate ItemMatches(row: Row<ItemData>, search: string) {
    search == "" || Contains(Lower(row.data.name), Lower(search))
  }

  /** GET /api/items: the items whose name contains the search, in id order. */
  function MatchingItems(rows: seq<Row<ItemData>>, search: string): (r: seq<Row<ItemData>>)
    ensures forall x :: x in r <==> x in rows && ItemMatches(x, search)
    ensures forall x :: multiset(r)[x] == if ItemMatches(x, search) then multiset(rows)[x] else 0
    ensures IsSubsequence(r, rows)
    ensures search == "" ==> r == rows
  {
    if rows == [] then []
    else
      var rest := MatchingItems(rows[1..], search);
      assert rows == [rows[0]] + rows[1..];
      if ItemMatches(rows[0], search) then [rows[0]] + rest
      else
        SubsequenceOfTail(rest, rows);
        rest
  }

  /** The order of a table survives any filtering that keeps a subsequence. */
  lemma {:induction false} SubsequenceAscending<T>(r: seq<Row<T>>, rows: seq<Row<T>>)
    requires IsSubsequence(r, rows)
    ensures Ascending(rows) ==> Ascending(r)
    decreases |rows|
  {
    if r != [] && Ascending(rows) {
      if r[0] == rows[0] {
        SubsequenceAscending(r[1..], rows[1..]);
        forall j | 0 < j < |r| ensures r[0].id < r[j].id {
          assert r[j] in r[1..];
          SubsequenceElements(r[1..], rows[1..], r[j]);
        }
      } else {
        SubsequenceAscending(r, rows[1..]);
      }
    }
  }

  /** The item handlers' 400 check: `!name || gst === undefined || price === undefined`. */
  predicate ValidItemRequest(req: ItemRequest) {
    req.name != "" && req.gst.Some? && req.price.Some?
  }

  /** The document handlers' 400 checks, in the order they run. */
  function CheckDocument(req: DocumentRequest): (e: Option<ApiError>)
    ensures e.None? <==> req.customerName != "" && req.customerMobile != "" && req.items.Array? && req.items.lines != []
    ensures (req.customerName == "" || req.customerMobile == "") ==> e == Some(BadRequest(CustomerRequired))
    ensures req.customerName != "" && req.customerMobile != "" && !(req.items.Array? && req.items.lines != []) ==>
      e == Some(BadRequest(ItemsRequired))
  {
    if req.customerName == "" || req.customerMobile == "" then Some(BadRequest(CustomerRequired))
    else if !req.items.Array? || req.items.lines == [] then Some(BadRequest(ItemsRequired))
    else None
  }

  /** The row data inserted for a valid request: the client's totals as sent, a missing discount as 0. */
  function StoredDocument(req: DocumentRequest): DocumentData
    requires req.items.Array?
  {
    DocumentData(req.customerName, req.customerMobile, req.items.lines,
                 req.subtotal, req.cgst, req.sgst, OrElse(req.discount, 0.0), req.total)
  }

  class Store {
    var items: seq<Row<ItemData>>
    var invoices: seq<Document>
    var quotations: seq<Document>
    var nextItemId: int
    var nextInvoiceId: int
    var nextQuotationId: int

    ghost predicate Valid()
      reads this
    {
      TableValid(items, nextItemId) && TableValid(invoices, nextInvoiceId) && TableValid(quotations, nextQuotationId)
    }

    constructor ()
      ensures Valid()
      ensures items == [] && invoices == [] && quotations == []
      ensures nextItemId == 1 && nextInvoiceId == 1 && nextQuotationId == 1
    {
      items, invoices, quotations := [], [], [];
      nextItemId, nextInvoiceId, nextQuotationId := 1, 1, 1;
    }

    /** GET /api/items[?search=]: the matching items in ascending id order. */
    function ListItems(search: string): (r: seq<Row<ItemData>>)
      reads this
      ensures forall x :: x in r <==> x in items && ItemMatches(x, search)
      ensures Ascending(items) ==> Ascending(r)
      ensures search == "" ==> r == items
    {
      var r := MatchingItems(items, search);
      SubsequenceAscending(r, items);
      r
    }

    /** POST /api/items: 400 unless name, gst and price are present; otherwise one new row with a fresh id. */
    method AddItem(req: ItemRequest, now: int) returns (r: Result<int, ApiError>)
      requires Valid()
      modifies this
      ensures Valid()
      ensures !ValidItemRequest(req) ==>
        r == Failure(BadRequest(ItemFieldsRequired)) && items == old(items) && nextItemId == old(nextItemId)
      ensures ValidItemRequest(req) ==>
        && r == Success(old(nextItemId))
        && items == old(items) + [Row(old(nextItemId), now, ItemData(req.name, req.gst.value, req.price.value))]
        && nextItemId == old(nextItemId) + 1
      ensures invoices == old(invoices) && quotations == old(quotations)
      ensures nextInvoiceId == old(nextInvoiceId) && nextQuotationId == old(nextQuotationId)
    {
      if !ValidItemRequest(req) {
        return Failure(BadRequest(ItemFieldsRequired));
      }
      r := Success(nextItemId);
      items := items + [Row(nextItemId, now, ItemData(req.name, req.gst.value, req.price.value))];
      nextItemId := nextItemId + 1;
    }

    /** PUT /api/items/:id: 400 for a bad body, then 404 when no row changed, else that row's fields replaced. */
    method UpdateItem(id: int, req: ItemRequest) returns (r: Result<int, ApiError>)
      requires Valid()
      modifies this
      ensures Valid()
      ensures !ValidItemRequest(req) ==> r == Failure(BadRequest(ItemFieldsRequired)) && items == old(items)
      ensures ValidItemRequest(req) && !HasRow(old(items), id) ==> r == Failure(NotFound(ItemNotFound)) && items == old(items)
      ensures ValidItemRequest(req) && HasRow(old(items), id) ==>
        r == Success(id) && items == Updated(old(items), id, ItemData(req.name, req.gst.value, req.price.value))
      ensures nextItemId == old(nextItemId) && invoices == old(invoices) && quotations == old(quotations)
      ensures nextInvoiceId == old(nextInvoiceId) && nextQuotationId == old(nextQuotationId)
    {
      if !ValidItemRequest(req) {
        return Failure(BadRequest(ItemFieldsRequired));
      }
      if !HasRow(items, id) {
        return Failure(NotFound(ItemNotFound));
      }
      items := Updated(items, id, ItemData(req.name, req.gst.value, req.price.value));
      r := Success(id);
    }

    /** DELETE /api/items/:id: 404 when absent, else exactly that row removed. */
    method DeleteItem(id: int) returns (r: Result<int, ApiError>)
      requires Valid()
      modifies this
      ensures Valid()
      ensures !HasRow(old(items), id) ==> r == Failure(NotFound(ItemNotFound)) && items == old(items)
      ensures HasRow(old(items), id) ==> r == Success(id) && items == WithoutRow(old(items), id)
      ensures nextItemId == old(nextItemId) && invoices == old(invoices) && quotations == old(quotations)
      ensures nextInvoiceId == old(nextInvoiceId) && nextQuotationId == old(nextQuotationId)
    {
      if !HasRow(items, id) {
        return Failure(NotFound(ItemNotFound));
      }
      WithoutRowInOrder(items, id);
      items := WithoutRow(items, id);
      r := Success(id);
    }

    /** POST /api/invoices: 400 for a missing name/mobile or items, else one new row holding the client's totals. */
    method CreateInvoice(req: DocumentRequest, now: int) returns (r: Result<int, ApiError>)
      requires Valid()
      modifies this
      ensures Valid()
      ensures CheckDocument(req).Some? ==>
        r == Failure(CheckDocument(req).value) && invoices == old(invoices) && nextInvoiceId == old(nextInvoiceId)
      ensures CheckDocument(req).None? ==>
        && r == Success(old(nextInvoiceId))
        && invoices == old(invoices) + [Row(old(nextInvoiceId), now, StoredDocument(req))]
        && nextInvoiceId == old(nextInvoiceId) + 1
        && Lookup(invoices, r.value) == Some(Row(r.value, now, StoredDocument(req)))
      ensures items == old(items) && quotations == old(quotations)
      ensures nextItemId == old(nextItemId) && nextQuotationId == old(nextQuotationId)
    {
      var e := CheckDocument(req);
      if e.Some? {
        return Failure(e.value);
      }
      var row := Row(nextInvoiceId, now, StoredDocument(req));
      AppendKeepsValid(invoices, nextInvoiceId, row);
      invoices := invoices + [row];
      r := Success(nextInvoiceId);
      nextInvoiceId := nextInvoiceId + 1;
    }

    /** GET /api/invoices: every invoice, newest id first. */
    function ListInvoices(): (r: seq<Document>)
      reads this
      ensures forall x :: x in r <==> x in invoices
      ensures Ascending(invoices) ==> Descending(r)
    {
      NewestFirst(invoices)
    }

    /** GET /api/invoices/:id: 404 exactly when no row has that id. */
    function GetInvoice(id: int): (r: Result<Document, ApiError>)
      reads this
      ensures r.Failure? <==> !HasRow(invoices, id)
      ensures r.Failure? ==> r.error == NotFound(InvoiceNotFound)
      ensures r.Success? ==> r.value in invoices && r.value.id == id
    {
      match Lookup(invoices, id)
      case None => Failure(NotFound(InvoiceNotFound))
      case Some(row) => Success(row)
    }

    /** POST /api/quotations: the same checks and insert as invoices, into the quotations table. */
    method CreateQuotation(req: DocumentRequest, now: int) returns (r: Result<int, ApiError>)
      requires Valid()
      modifies this
      ensures Valid()
      ensures CheckDocument(req).Some? ==>
        r == Failure(CheckDocument(req).value) && quotations == old(quotations) && nextQuotationId == old(nextQuotationId)
      ensures CheckDocument(req).None? ==>
        && r == Success(old(nextQuotationId))
        && quotations == old(quotations) + [Row(old(nextQuotationId), now, StoredDocument(req))]
        && nextQuotationId == old(nextQuotationId) + 1
        && Lookup(quotations, r.value) == Some(Row(r.value, now, StoredDocument(req)))
      ensures items == old(items) && invoices == old(invoices)
      ensures nextItemId == old(nextItemId) && nextInvoiceId == old(nextInvoiceId)
    {
      var e := CheckDocument(req);
      if e.Some? {
        return Failure(e.value);
      }
      var row := Row(nextQuotationId, now, StoredDocument(req));
      AppendKeepsValid(quotations, nextQuotationId, row);
      quotations := quotations + [row];
      r := Success(nextQuotationId);
      nextQuotationId := nextQuotationId + 1;
    }

    /** GET /api/quotations: every quotation, newest id first. */
    function ListQuotations(): (r: seq<Document>)
      reads this
      ensures forall x :: x in r <==> x in quotations
      ensures Ascending(quotations) ==> Descending(r)
    {
      NewestFirst(quotations)
    }

    /** GET /api/quotations/:id: 404 exactly when no row has that id. */
    function GetQuotation(id: int): (r: Result<Document, ApiError>)
      reads this
      ensures r.Failure? <==> !HasRow(quotations, id)
      ensures r.Failure? ==> r.error == NotFound(QuotationNotFound)
      ensures r.Success? ==> r.value in quotations && r.value.id == id
    {
      match Lookup(quotations, id)
      case None => Failure(NotFound(QuotationNotFound))
      case Some(row) => Success(row)
    }

    /**
     * POST /api/quotations/:id/convert: 404 when the quotation is absent; otherwise a new
     * invoice with the quotation's data, and the quotation removed iff `deleteQuotation`.
     */
    method Convert(id: int, deleteQuotation: bool, now: int) returns (r: Result<int, ApiError>)
      requires Valid()
      modifies this
      ensures Valid()
      ensures !HasRow(old(quotations), id) ==>
        && r == Failure(NotFound(QuotationNotFound))
        && invoices == old(invoices) && quotations == old(quotations) && nextInvoiceId == old(nextInvoiceId)
      ensures HasRow(old(quotations), id) ==>
        && r == Success(old(nextInvoiceId))
        && invoices == old(invoices) + [Row(old(nextInvoiceId), now, Lookup(old(quotations), id).value.data)]
        && nextInvoiceId == old(nextInvoiceId) + 1
        && quotations == (if deleteQuotation then WithoutRow(old(quotations), id) else old(quotations))
        && (HasRow(quotations, id) <==> !deleteQuotation)
      ensures items == old(items) && nextItemId == old(nextItemId) && nextQuotationId == old(nextQuotationId)
    {
      var quotation := Lookup(quotations, id);
      if quotation.None? {
        return Failure(NotFound(QuotationNotFound));
      }
      AppendKeepsValid(invoices, nextInvoiceId, Row(nextInvoiceId, now, quotation.value.data));
      invoices := invoices + [Row(nextInvoiceId, now, quotation.value.data)];
      r := Success(nextInvoiceId);
      nextInvoiceId := nextInvoiceId + 1;
      if deleteQuotation {
        RemoveKeepsValid(quotations, nextQuotationId, id);
        quotations := WithoutRow(quotations, id);
      }
    }

    /** DELETE /api/quotations/:id: 404 when absent, else exactly that row removed. */
    method DeleteQuotation(id: int) returns (r: Result<int, ApiError>)
      requires Valid()
      modifies this
      ensures Valid()
      ensures !HasRow(old(quotations), id) ==> r == Failure(NotFound(QuotationNotFound)) && quotations == old(quotations)
      ensures HasRow(old(quotations), id) ==>
        r == Success(id) && quotations == WithoutRow(old(quotations), id) && |quotations| == |old(quotations)| - 1
      ensures items == old(items) && invoices == old(invoices)
      ensures nextItemId == old(nextItemId) && nextInvoiceId == old(nextInvoiceId) && nextQuotationId == old(nextQuotationId)
    {
      if !HasRow(quotations, id) {
        return Failure(NotFound(QuotationNotFound));
      }
      WithoutRowInOrder(quotations, id);
      quotations := WithoutRow(quotations, id);
      r := Success(id);
    }
  }
}

/**
 * The item catalogue page: the price preview computed from MRP and discount, the add and
 * edit forms' checks and request bodies, and the table cells. A form field is `None` when
 * `parseFloat` gives NaN.
 */
module ItemsPage {
  import opened Wrappers
  import opened Text
  import opened Records
  import opened Store

  /** `calculateItemPrice` / `calculateEditItemPrice`: MRP less the discount percentage, unparsable fields read as 0. */
  function ItemPrice(mrpField: Option<real>, discountField: Option<real>): (price: real)
    ensures OrZero(discountField) == 0.0 ==> price == OrZero(mrpField)
    ensures OrZero(mrpField) >= 0.0 && 0.0 <= OrZero(discountField) <= 100.0 ==> 0.0 <= price <= OrZero(mrpField)
    ensures price + OrZero(mrpField) * OrZero(discountField) / 100.0 == OrZero(mrpField)
  {
    var mrp := OrZero(mrpField);
    var discount := OrZero(discountField);
    assert 0.0 <= discount <= 100.0 && mrp >= 0.0 ==> mrp * discount / 100.0 <= mrp by {
      if 0.0 <= discount <= 100.0 && mrp >= 0.0 {
        assert mrp * discount <= mrp * 100.0;
      }
    }
    assert 0.0 <= discount && mrp >= 0.0 ==> mrp * discount >= 0.0;
    mrp * (1.0 - discount / 100.0)
  }

  /** The price box: the computed price when it is positive, otherwise left empty. */
  function PriceField(mrpField: Option<real>, discountField: Option<real>): (r: Option<real>)
    ensures r.Some? <==> ItemPrice(mrpField, discountField) > 0.0
    ensures r.Some? ==> r.value == ItemPrice(mrpField, discountField)
  {
    var price := ItemPrice(mrpField, discountField);
    if price > 0.0 then Some(price) else None
  }

  /** The add and edit forms as read: `gst` and `mrp` parsed, `discount` parsed with `|| 0` applied later. */
  datatype ItemForm = ItemForm(name: string, gst: Option<real>, mrp: Option<real>, discount: Option<real>)

  /** The JSON body the page sends: name, gst, mrp and a discount that is null unless positive; no price. */
  datatype ItemPayload = ItemPayload(name: string, gst: real, mrp: real, discount: Option<real>)

  /**
   * `addItem` / `updateItem` before the request: nothing is sent for an empty trimmed name or
   * an unparsable GST or MRP; otherwise the body carries the trimmed name and a positive discount only.
   */
  function FormPayload(form: ItemForm): (r: Option<ItemPayload>)
    ensures r.None? <==> Trim(form.name) == "" || form.gst.None? || form.mrp.None?
    ensures r.Some? ==> r.value.name == Trim(form.name) && r.value.gst == form.gst.value && r.value.mrp == form.mrp.value
    ensures r.Some? ==> (r.value.discount.Some? <==> OrZero(form.discount) > 0.0)
    ensures r.Some? && r.value.discount.Some? ==> r.value.discount.value == form.discount.value
  {
    var name := Trim(form.name);
    if name == "" || form.gst.None? || form.mrp.None? then None
    else
      var discount := OrZero(form.discount);
      Some(ItemPayload(name, form.gst.value, form.mrp.value, if discount > 0.0 then Some(discount) else None))
  }

  /** What the item handlers read from that body: `name`, `gst`, and a `price` member that is absent. */
  function AsItemRequest(p: ItemPayload): (req: ItemRequest)
    ensures req.name == p.name && req.gst == Some(p.gst) && req.price.None?
  {
    ItemRequest(p.name, Some(p.gst), None)
  }

  /** Every body the forms send lacks `price`, so the item handlers answer 400 to each of them. */
  lemma FormPayloadRejected(form: ItemForm)
    requires FormPayload(form).Some?
    ensures !ValidItemRequest(AsItemRequest(FormPayload(form).value))
  {
  }

  /**
   * The add form against the server: an incomplete form sends nothing; a complete one is
   * answered 400, and the catalogue stays as it was either way.
   */
  method AddItemFromPage(store: Store, form: ItemForm, now: int) returns (r: Option<Result<int, ApiError>>)
    requires store.Valid()
    modifies store
    ensures store.Valid()
    ensures r.None? <==> FormPayload(form).None?
    ensures r.Some? ==> r.value == Failure(BadRequest(ItemFieldsRequired))
    ensures store.items == old(store.items) && store.nextItemId == old(store.nextItemId)
  {
    var payload := FormPayload(form);
    if payload.None? {
      return None;
    }
    var answer := store.AddItem(AsItemRequest(payload.value), now);
    r := Some(answer);
  }

  /** The edit form against the server: the same outcome as the add form, for any item id. */
  method UpdateItemFromPage(store: Store, id: int, form: ItemForm) returns (r: Option<Result<int, ApiError>>)
    requires store.Valid()
    modifies store
    ensures store.Valid()
    ensures r.None? <==> FormPayload(form).None?
    ensures r.Some? ==> r.value == Failure(BadRequest(ItemFieldsRequired))
    ensures store.items == old(store.items)
  {
    var payload := FormPayload(form);
    if payload.None? {
      return None;
    }
    var answer := store.UpdateItem(id, AsItemRequest(payload.value));
    r := Some(answer);
  }

  /** The MRP cell: `item.mrp || item.price`. */
  function MrpCell(item: CatalogItem): (r: real)
    ensures item.mrp.Some? && item.mrp.value != 0.0 ==> r == item.mrp.value
    ensures (item.mrp.None? || item.mrp.value == 0.0) ==> r == item.price
  {
    OrElse(item.mrp, item.price)
  }

  /** The discount cell: the percentage when positive, otherwise '-' (`None`). */
  function DiscountCell(item: CatalogItem): (r: Option<real>)
    ensures r.Some? <==> OrZero(item.discount) > 0.0
    ensures r.Some? ==> r.value == item.discount.value
  {
    var discount := OrElse(item.discount, 0.0);
    if discount > 0.0 then Some(discount) else None
  }

  /** An item as GET /api/items returns it: the table has no MRP or discount column. */
  function CatalogOf(row: Row<ItemData>): CatalogItem {
    CatalogItem(row.id, row.data.name, row.data.price, row.data.gst, None, None)
  }

  /** So a stored item shows its price in the MRP column and '-' for its discount. */
  lemma StoredItemCells(row: Row<ItemData>)
    ensures MrpCell(CatalogOf(row)) == row.data.price
    ensures DiscountCell(CatalogOf(row)).None?
  {
  }
}

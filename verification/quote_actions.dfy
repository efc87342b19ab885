/**
 * The quote server actions: totals computed from the item list (item taxes
 * go into the tax total, not the subtotal), the quote header row and the item
 * rows written to the hosted database. Money is in cents.
 *
 * Database calls are not executed: each call's reply is a parameter, and
 * `writes` lists the requests issued, in order.
 */
module QuoteActions {
  import opened Wrappers

  /** An item as the form sends it. */
  datatype Item = Item(
    product_id: string,
    name: string,
    description: string,
    ncm: string,
    qty: int,
    unit: string,
    unit_price: int,
    discounts: Option<int>,
    taxes: Option<int>)

  /**
   * The header fields the action reads. The notes are `None` when the caller
   * does not send them under these names (the quote form does not).
   */
  datatype QuoteData = QuoteData(
    status: string,
    valid_until: Option<string>,
    discount_total: Option<int>,
    tax_total: Option<int>,
    shipping_total: Option<int>,
    payment_terms: string,
    delivery_time: string,
    freight_type: string,
    carrier: string,
    notes_commercial: Option<string>,
    notes_fiscal: Option<string>)

  datatype Totals = Totals(subtotal: int, discount_total: int, tax_total: int, shipping_total: int, total: int)

  /**
   * The `quotes` row. A `None` note is a key whose value is `undefined`: the
   * bulk insert still lists it as a column and so writes null, while the
   * update leaves that column unwritten. `created_by` is sent on insert only;
   * on update it is `None`, not written.
   */
  datatype QuoteRow = QuoteRow(
    client_id: string,
    status: string,
    valid_until: Option<string>,
    totals: Totals,
    payment_terms: string,
    delivery_time: string,
    freight_type: string,
    carrier: string,
    notes_commercial: Option<string>,
    notes_fiscal: Option<string>,
    created_by: Option<string>)

  datatype ItemRow = ItemRow(
    quote_id: string,
    product_id: Option<string>,
    name: string,
    description: string,
    ncm: string,
    qty: int,
    unit: string,
    unit_price: int,
    discounts: int,
    taxes: int,
    total: int)

  datatype Write =
    | InsertQuote(company_id: string, row: QuoteRow)
    | UpdateQuote(quote_id: string, row: QuoteRow)
    | DeleteItems(quote_id: string)
    | InsertItems(rows: seq<ItemRow>)

  datatype ActionResult = Failure(error: string) | Success(quoteId: string)

  const NotAuthenticated := "Não autenticado."
  const CreateFailed := "Erro ao criar orçamento."
  const UpdateFailed := "Erro ao atualizar orçamento."
  const SaveItemsFailed := "Erro ao salvar itens do orçamento."

  /** An item's contribution to the subtotal: quantity times unit price, less its discounts. */
  function NetLine(item: Item): int
  {
    item.qty * item.unit_price - item.discounts.GetOr(0)
  }

  function Subtotal(items: seq<Item>): int
  {
    if items == [] then 0 else Subtotal(items[..|items| - 1]) + NetLine(items[|items| - 1])
  }

  /** The item taxes, which the actions add to the header's tax total. */
  function ItemTaxes(items: seq<Item>): int
  {
    if items == [] then 0 else ItemTaxes(items[..|items| - 1]) + items[|items| - 1].taxes.GetOr(0)
  }

  /** The totals block of both actions: one loop feeding the subtotal and the tax total. */
  method ComputeTotals(items: seq<Item>, data: QuoteData) returns (t: Totals)
    ensures t.subtotal == Subtotal(items)
    ensures t.discount_total == data.discount_total.GetOr(0)
    ensures t.tax_total == data.tax_total.GetOr(0) + ItemTaxes(items)
    ensures t.shipping_total == data.shipping_total.GetOr(0)
    ensures t.total == t.subtotal - t.discount_total + t.tax_total + t.shipping_total
  {
    var subtotal := 0;
    var discount_total := data.discount_total.GetOr(0);
    var tax_total := data.tax_total.GetOr(0);
    var shipping_total := data.shipping_total.GetOr(0);
    for i := 0 to |items|
      invariant subtotal == Subtotal(items[..i])
      invariant tax_total == data.tax_total.GetOr(0) + ItemTaxes(items[..i])
    {
      assert items[..i + 1][..i] == items[..i];
      subtotal := subtotal + (items[i].qty * items[i].unit_price - items[i].discounts.GetOr(0));
      tax_total := tax_total + items[i].taxes.GetOr(0);
    }
    assert items[..|items|] == items;
    t := Totals(subtotal, discount_total, tax_total, shipping_total,
                subtotal - discount_total + tax_total + shipping_total);
  }

  /**
   * The quote header both actions write: an empty status becomes "draft", an
   * empty or absent validity date becomes null, and the totals follow the items.
   */
  function HeaderRow(clientId: string, items: seq<Item>, data: QuoteData, createdBy: Option<string>): (row: QuoteRow)
    ensures data.status == "" ==> row.status == "draft"
    ensures data.status != "" ==> row.status == data.status
    ensures row.client_id == clientId
    ensures row.valid_until.None? <==> data.valid_until.None? || data.valid_until.value == ""
    ensures row.valid_until.Some? ==> row.valid_until == data.valid_until
    ensures row.totals.subtotal == Subtotal(items)
    ensures row.totals.discount_total == data.discount_total.GetOr(0)
    ensures row.totals.shipping_total == data.shipping_total.GetOr(0)
    ensures row.totals.tax_total == data.tax_total.GetOr(0) + ItemTaxes(items)
    ensures row.totals.total == row.totals.subtotal - data.discount_total.GetOr(0)
                                + row.totals.tax_total + data.shipping_total.GetOr(0)
    ensures row.payment_terms == data.payment_terms && row.delivery_time == data.delivery_time
    ensures row.freight_type == data.freight_type && row.carrier == data.carrier
    ensures row.notes_commercial == data.notes_commercial && row.notes_fiscal == data.notes_fiscal
    ensures row.created_by == createdBy
  {
    var d := data.discount_total.GetOr(0);
    var tax := data.tax_total.GetOr(0) + ItemTaxes(items);
    var s := data.shipping_total.GetOr(0);
    QuoteRow(
      clientId,
      if data.status == "" then "draft" else data.status,
      if data.valid_until.None? || data.valid_until.value == "" then None else data.valid_until,
      Totals(Subtotal(items), d, tax, s, Subtotal(items) - d + tax + s),
      data.payment_terms, data.delivery_time, data.freight_type, data.carrier,
      data.notes_commercial, data.notes_fiscal,
      createdBy)
  }

  /** An item row: an empty product id is stored as null; the row total includes the item's taxes. */
  function Row(quoteId: string, item: Item): ItemRow
  {
    ItemRow(quoteId, if item.product_id == "" then None else Some(item.product_id),
            item.name, item.description, item.ncm, item.qty, item.unit, item.unit_price,
            item.discounts.GetOr(0), item.taxes.GetOr(0), NetLine(item) + item.taxes.GetOr(0))
  }

  /** `items.map(...)`: one row per item, in the same order. */
  function ItemRows(quoteId: string, items: seq<Item>): (rows: seq<ItemRow>)
    ensures |rows| == |items|
    ensures forall i :: 0 <= i < |items| ==> rows[i] == Row(quoteId, items[i])
  {
    if items == [] then [] else ItemRows(quoteId, items[..|items| - 1]) + [Row(quoteId, items[|items| - 1])]
  }

  function SumRowTotals(rows: seq<ItemRow>): int
  {
    if rows == [] then 0 else SumRowTotals(rows[..|rows| - 1]) + rows[|rows| - 1].total
  }

  /** The stored row totals add up to the subtotal plus the item taxes. */
  lemma {:induction false} RowTotalsMatch(quoteId: string, items: seq<Item>)
    ensures SumRowTotals(ItemRows(quoteId, items)) == Subtotal(items) + ItemTaxes(items)
  {
    if items != [] {
      var rows := ItemRows(quoteId, items);
      assert rows[..|rows| - 1] == ItemRows(quoteId, items[..|items| - 1]);
      RowTotalsMatch(quoteId, items[..|items| - 1]);
    }
  }

  /**
   * `createQuoteAction`: `user` is the signed-in user's id, `inserted` the id
   * of the new quote (or `None` when the insert fails), `itemsSaved` the reply
   * to the item insert.
   */
  method CreateQuoteAction(
    user: Option<string>, companyId: string, clientId: string, items: seq<Item>, data: QuoteData,
    inserted: Option<string>, itemsSaved: bool)
    returns (result: ActionResult, writes: seq<Write>)
    ensures user.None? ==> result == Failure(NotAuthenticated) && writes == []
    ensures user.Some? ==> |writes| >= 1 && writes[0] == InsertQuote(companyId, HeaderRow(clientId, items, data, user))
    ensures user.Some? && inserted.None? ==> result == Failure(CreateFailed) && |writes| == 1
    ensures user.Some? && inserted.Some? ==>
              && writes == [writes[0], InsertItems(ItemRows(inserted.value, items))]
              && result == (if itemsSaved then Success(inserted.value) else Failure(SaveItemsFailed))
  {
    if user.None? {
      return Failure(NotAuthenticated), [];
    }
    var totals := ComputeTotals(items, data);
    var header := QuoteRow(
      clientId,
      if data.status == "" then "draft" else data.status,
      if data.valid_until.None? || data.valid_until.value == "" then None else data.valid_until,
      totals,
      data.payment_terms, data.delivery_time, data.freight_type, data.carrier,
      data.notes_commercial, data.notes_fiscal,
      user);
    writes := [InsertQuote(companyId, header)];
    if inserted.None? {
      return Failure(CreateFailed), writes;
    }
    var quoteId := inserted.value;
    writes := writes + [InsertItems(ItemRows(quoteId, items))];
    if !itemsSaved {
      return Failure(SaveItemsFailed), writes;
    }
    result := Success(quoteId);
  }

  /**
   * `updateQuoteAction`: no user is checked and nothing is recorded as the
   * author; the reply to the deletion of the old items is not consulted, so it
   * is not a parameter. `updated` and `itemsSaved` are the other two replies.
   */
  method UpdateQuoteAction(
    quoteId: string, companyId: string, clientId: string, items: seq<Item>, data: QuoteData,
    updated: bool, itemsSaved: bool)
    returns (result: ActionResult, writes: seq<Write>)
    ensures |writes| >= 1 && writes[0] == UpdateQuote(quoteId, HeaderRow(clientId, items, data, None))
    ensures !updated ==> result == Failure(UpdateFailed) && |writes| == 1
    ensures updated ==>
              && writes == [writes[0], DeleteItems(quoteId), InsertItems(ItemRows(quoteId, items))]
              && result == (if itemsSaved then Success(quoteId) else Failure(SaveItemsFailed))
  {
    var totals := ComputeTotals(items, data);
    var header := QuoteRow(
      clientId,
      if data.status == "" then "draft" else data.status,
      if data.valid_until.None? || data.valid_until.value == "" then None else data.valid_until,
      totals,
      data.payment_terms, data.delivery_time, data.freight_type, data.carrier,
      data.notes_commercial, data.notes_fiscal,
      None);
    writes := [UpdateQuote(quoteId, header)];
    if !updated {
      return Failure(UpdateFailed), writes;
    }
    writes := writes + [DeleteItems(quoteId)];
    writes := writes + [InsertItems(ItemRows(quoteId, items))];
    if !itemsSaved {
      return Failure(SaveItemsFailed), writes;
    }
    result := Success(quoteId);
  }
}

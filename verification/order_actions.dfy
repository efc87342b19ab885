/**
 * The order server actions: totals computed from the item list, the order
 * header row and the item rows written to the hosted database, and the
 * early returns on a missing user or a failed write. Money is in cents.
 *
 * Database calls are not executed: each call's reply (success, error, the new
 * row's id) is a parameter, and `writes` lists the requests issued, in order.
 */
module OrderActions {
  import opened Wrappers

  /** An item as the form sends it. */
  datatype Item = Item(product_id: string, name: string, qty: int, unit_price: int, discount_value: Option<int>)

  /** The header fields the form sends; the two amounts may be absent. */
  datatype OrderData = OrderData(
    name: string,
    status: string,
    discount_total: Option<int>,
    shipping_total: Option<int>,
    payment_method: string,
    payment_terms: string,
    notes_internal: string,
    notes_client: string)

  datatype Totals = Totals(subtotal: int, discount_total: int, shipping_total: int, total: int)

  /** The `orders` row; `author` is `created_by` on insert and `updated_by` on update. */
  datatype OrderRow = OrderRow(
    client_id: string,
    name: Option<string>,
    status: string,
    totals: Totals,
    payment_method: string,
    payment_terms: string,
    notes_internal: string,
    notes_client: string,
    author: string)

  /** An `order_items` row; `product_id` is `None` for SQL null. */
  datatype ItemRow = ItemRow(
    order_id: string,
    product_id: Option<string>,
    description_snapshot: string,
    qty: int,
    unit_price: int,
    discount_value: int,
    total: int)

  datatype Write =
    | InsertOrder(company_id: string, row: OrderRow)
    | UpdateOrder(order_id: string, row: OrderRow)
    | DeleteItems(order_id: string)
    | InsertItems(rows: seq<ItemRow>)

  datatype ActionResult = Failure(error: string) | Success(orderId: string)

  const NotAuthenticated := "Não autenticado."
  const CreateFailed := "Erro ao criar pedido."
  const UpdateFailed := "Erro ao atualizar pedido."
  const DeleteItemsFailed := "Erro ao remover itens antigos."
  const SaveItemsFailed := "Erro ao salvar itens do pedido."

  /** One item's contribution: quantity times unit price, less its discount (absent counts as 0). */
  function LineTotal(item: Item): int
  {
    item.qty * item.unit_price - item.discount_value.GetOr(0)
  }

  /** The sum of the line totals, accumulated left to right as the action's loop does. */
  function Subtotal(items: seq<Item>): int
  {
    if items == [] then 0 else Subtotal(items[..|items| - 1]) + LineTotal(items[|items| - 1])
  }

  lemma {:induction false} SubtotalAppend(a: seq<Item>, b: seq<Item>)
    ensures Subtotal(a + b) == Subtotal(a) + Subtotal(b)
    decreases |b|
  {
    if b == [] {
      assert a + b == a;
    } else {
      assert (a + b)[..|a + b| - 1] == a + b[..|b| - 1];
      SubtotalAppend(a, b[..|b| - 1]);
    }
  }

  /** The totals block of both actions: the item loop, then the order-level discount and shipping. */
  method ComputeTotals(items: seq<Item>, data: OrderData) returns (t: Totals)
    ensures t.subtotal == Subtotal(items)
    ensures t.discount_total == data.discount_total.GetOr(0)
    ensures t.shipping_total == data.shipping_total.GetOr(0)
    ensures t.total == t.subtotal - t.discount_total + t.shipping_total
  {
    var subtotal := 0;
    var discount_total := data.discount_total.GetOr(0);
    var shipping_total := data.shipping_total.GetOr(0);
    for i := 0 to |items|
      invariant subtotal == Subtotal(items[..i])
    {
      assert items[..i + 1][..i] == items[..i];
      subtotal := subtotal + (items[i].qty * items[i].unit_price - items[i].discount_value.GetOr(0));
    }
    assert items[..|items|] == items;
    t := Totals(subtotal, discount_total, shipping_total, subtotal - discount_total + shipping_total);
  }

  /**
   * The order header both actions write: an empty name becomes null, an empty
   * status becomes "rascunho", and the totals follow the items.
   */
  function HeaderRow(clientId: string, items: seq<Item>, data: OrderData, author: string): (row: OrderRow)
    ensures row.client_id == clientId
    ensures row.name.None? <==> data.name == ""
    ensures data.name != "" ==> row.name == Some(data.name)
    ensures data.status == "" ==> row.status == "rascunho"
    ensures data.status != "" ==> row.status == data.status
    ensures row.totals.subtotal == Subtotal(items)
    ensures row.totals.discount_total == data.discount_total.GetOr(0)
    ensures row.totals.shipping_total == data.shipping_total.GetOr(0)
    ensures row.totals.total == Subtotal(items) - data.discount_total.GetOr(0) + data.shipping_total.GetOr(0)
    ensures row.payment_method == data.payment_method && row.payment_terms == data.payment_terms
    ensures row.notes_internal == data.notes_internal && row.notes_client == data.notes_client
    ensures row.author == author
  {
    var d := data.discount_total.GetOr(0);
    var s := data.shipping_total.GetOr(0);
    OrderRow(
      clientId,
      if data.name == "" then None else Some(data.name),
      if data.status == "" then "rascunho" else data.status,
      Totals(Subtotal(items), d, s, Subtotal(items) - d + s),
      data.payment_method, data.payment_terms, data.notes_internal, data.notes_client,
      author)
  }

  /** How an item's product id reaches its row: as given on create, empty as null on update. */
  datatype ProductIdRule = AsGiven | EmptyAsNull

  function ProductRef(rule: ProductIdRule, productId: string): Option<string>
  {
    if rule.EmptyAsNull? && productId == "" then None else Some(productId)
  }

  function Row(orderId: string, rule: ProductIdRule, item: Item): ItemRow
  {
    ItemRow(orderId, ProductRef(rule, item.product_id), item.name, item.qty, item.unit_price,
            item.discount_value.GetOr(0), LineTotal(item))
  }

  /** `items.map(...)`: one row per item, in the same order. */
  function ItemRows(orderId: string, rule: ProductIdRule, items: seq<Item>): (rows: seq<ItemRow>)
    ensures |rows| == |items|
    ensures forall i :: 0 <= i < |items| ==> rows[i] == Row(orderId, rule, items[i])
  {
    if items == [] then [] else ItemRows(orderId, rule, items[..|items| - 1]) + [Row(orderId, rule, items[|items| - 1])]
  }

  function SumRowTotals(rows: seq<ItemRow>): int
  {
    if rows == [] then 0 else SumRowTotals(rows[..|rows| - 1]) + rows[|rows| - 1].total
  }

  /** The stored row totals add up to the stored subtotal. */
  lemma {:induction false} RowTotalsMatchSubtotal(orderId: string, rule: ProductIdRule, items: seq<Item>)
    ensures SumRowTotals(ItemRows(orderId, rule, items)) == Subtotal(items)
  {
    if items != [] {
      var rows := ItemRows(orderId, rule, items);
      assert rows[..|rows| - 1] == ItemRows(orderId, rule, items[..|items| - 1]);
      RowTotalsMatchSubtotal(orderId, rule, items[..|items| - 1]);
    }
  }

  /**
   * `createOrderAction`: `user` is the signed-in user's id, `inserted` the id of
   * the new order (or `None` when the insert fails), `itemsSaved` the reply to
   * the item insert.
   */
  method CreateOrderAction(
    user: Option<string>, companyId: string, clientId: string, items: seq<Item>, data: OrderData,
    inserted: Option<string>, itemsSaved: bool)
    returns (result: ActionResult, writes: seq<Write>)
    ensures user.None? ==> result == Failure(NotAuthenticated) && writes == []
    ensures user.Some? ==> |writes| >= 1 && writes[0] == InsertOrder(companyId, HeaderRow(clientId, items, data, user.value))
    ensures user.Some? && inserted.None? ==> result == Failure(CreateFailed) && |writes| == 1
    ensures user.Some? && inserted.Some? ==>
              && writes == [writes[0], InsertItems(ItemRows(inserted.value, AsGiven, items))]
              && result == (if itemsSaved then Success(inserted.value) else Failure(SaveItemsFailed))
  {
    if user.None? {
      return Failure(NotAuthenticated), [];
    }
    var totals := ComputeTotals(items, data);
    var header := OrderRow(
      clientId,
      if data.name == "" then None else Some(data.name),
      if data.status == "" then "rascunho" else data.status,
      totals,
      data.payment_method, data.payment_terms, data.notes_internal, data.notes_client,
      user.value);
    writes := [InsertOrder(companyId, header)];
    if inserted.None? {
      return Failure(CreateFailed), writes;
    }
    var orderId := inserted.value;
    writes := writes + [InsertItems(ItemRows(orderId, AsGiven, items))];
    if !itemsSaved {
      return Failure(SaveItemsFailed), writes;
    }
    result := Success(orderId);
  }

  /**
   * `updateOrderAction`: `updated`, `deleted` and `itemsSaved` are the replies
   * to the header update, the deletion of the old items and the new insert.
   * The company id is accepted and not used.
   */
  method UpdateOrderAction(
    user: Option<string>, orderId: string, companyId: string, clientId: string, items: seq<Item>, data: OrderData,
    updated: bool, deleted: bool, itemsSaved: bool)
    returns (result: ActionResult, writes: seq<Write>)
    ensures user.None? ==> result == Failure(NotAuthenticated) && writes == []
    ensures user.Some? ==> |writes| >= 1 && writes[0] == UpdateOrder(orderId, HeaderRow(clientId, items, data, user.value))
    ensures user.Some? && !updated ==> result == Failure(UpdateFailed) && |writes| == 1
    ensures user.Some? && updated ==> |writes| >= 2 && writes[1] == DeleteItems(orderId)
    ensures user.Some? && updated && !deleted ==> result == Failure(DeleteItemsFailed) && |writes| == 2
    ensures user.Some? && updated && deleted ==>
              && writes == [writes[0], writes[1], InsertItems(ItemRows(orderId, EmptyAsNull, items))]
              && result == (if itemsSaved then Success(orderId) else Failure(SaveItemsFailed))
  {
    if user.None? {
      return Failure(NotAuthenticated), [];
    }
    var totals := ComputeTotals(items, data);
    var header := OrderRow(
      clientId,
      if data.name == "" then None else Some(data.name),
      if data.status == "" then "rascunho" else data.status,
      totals,
      data.payment_method, data.payment_terms, data.notes_internal, data.notes_client,
      user.value);
    writes := [UpdateOrder(orderId, header)];
    if !updated {
      return Failure(UpdateFailed), writes;
    }
    writes := writes + [DeleteItems(orderId)];
    if !deleted {
      return Failure(DeleteItemsFailed), writes;
    }
    writes := writes + [InsertItems(ItemRows(orderId, EmptyAsNull, items))];
    if !itemsSaved {
      return Failure(SaveItemsFailed), writes;
    }
    result := Success(orderId);
  }
}

/**
 * The quote editor: the item list the user edits (add, remove, change one
 * field, with product auto-fill), the totals shown live, the initial state
 * taken from an existing quote, and the submit handler's checks, payload and
 * choice of server action.
 */
module QuoteFormComponent {
  import opened Wrappers
  import opened Strings
  import opened Seqs
  import opened AppProviderComponent
  import ProductListComponent
  import QuoteActions

  type Product = ProductListComponent.Product

  /** An editable item; amounts in cents. */
  datatype Item = Item(
    id: string,
    product_id: string,
    name: string,
    description: string,
    ncm: string,
    unit: string,
    qty: int,
    unit_price: int,
    discounts: int,
    taxes: int)

  /** `handleItemChange(id, field, value)`: the field named and its new value. */
  datatype Change =
    | ProductId(productId: string)
    | Name(name: string)
    | Description(description: string)
    | Ncm(ncm: string)
    | Unit(unit: string)
    | Qty(qty: int)
    | UnitPrice(unitPrice: int)
    | Discounts(discounts: int)
    | Taxes(taxes: int)

  /** The quote being edited, as its page hands it to the form. */
  datatype InitialQuote = InitialQuote(
    id: string,
    status: Option<string>,
    client_id: Option<string>,
    quote_items: seq<Item>,
    discount_total: Option<int>,
    tax_total: Option<int>,
    shipping_total: Option<int>,
    payment_terms: Option<string>,
    delivery_time: Option<string>,
    freight_type: Option<string>,
    carrier: Option<string>,
    notes_internal: Option<string>,
    notes_external: Option<string>,
    valid_until: Option<string>)

  datatype Submission =
    | Rejected(message: string)
    | CallCreate(companyId: string, clientId: string, items: seq<QuoteActions.Item>, data: QuoteActions.QuoteData)
    | CallUpdate(quoteId: string, companyId: string, clientId: string, items: seq<QuoteActions.Item>, data: QuoteActions.QuoteData)

  const NoCompany := "Nenhuma empresa ativa."
  const NoClient := "Selecione um cliente."
  const NoItems := "Adicione pelo menos um item."

  /** The row `handleAddItem` appends. */
  function BlankItem(id: string): Item
  {
    Item(id, "", "", "", "", "UN", 1, 0, 0, 0)
  }

  /**
   * One item after a change: the named field takes the value; choosing a
   * non-empty product id that names a known product also fills in the name,
   * the short description, the unit price and the NCM code (empty or 0 when
   * the product has none).
   */
  function ApplyChange(item: Item, change: Change, products: seq<Product>): (r: Item)
    ensures r.id == item.id
    ensures change.Name? ==> r == item.(name := change.name)
    ensures change.Description? ==> r == item.(description := change.description)
    ensures change.Ncm? ==> r == item.(ncm := change.ncm)
    ensures change.Unit? ==> r == item.(unit := change.unit)
    ensures change.Qty? ==> r == item.(qty := change.qty)
    ensures change.UnitPrice? ==> r == item.(unit_price := change.unitPrice)
    ensures change.Discounts? ==> r == item.(discounts := change.discounts)
    ensures change.Taxes? ==> r == item.(taxes := change.taxes)
    ensures change.ProductId? ==>
              && r.product_id == change.productId && r.unit == item.unit && r.qty == item.qty
              && r.discounts == item.discounts && r.taxes == item.taxes
              && (change.productId != "" && ProductListComponent.FindProduct(products, change.productId).Some? ==>
                    var p := ProductListComponent.FindProduct(products, change.productId).value;
                    && r.name == p.name
                    && r.description == OrDefault(p.descricao_curta, "")
                    && r.unit_price == p.preco_base.GetOr(0)
                    && r.ncm == OrDefault(p.ncm, ""))
              && (change.productId == "" || ProductListComponent.FindProduct(products, change.productId).None? ==>
                    r == item.(product_id := change.productId))
  {
    match change
    case ProductId(productId) =>
      var updated := item.(product_id := productId);
      if productId != "" && ProductListComponent.FindProduct(products, productId).Some? then
        var p := ProductListComponent.FindProduct(products, productId).value;
        updated.(name := p.name, description := OrDefault(p.descricao_curta, ""),
                 unit_price := p.preco_base.GetOr(0), ncm := OrDefault(p.ncm, ""))
      else updated
    case Name(name) => item.(name := name)
    case Description(description) => item.(description := description)
    case Ncm(ncm) => item.(ncm := ncm)
    case Unit(unit) => item.(unit := unit)
    case Qty(qty) => item.(qty := qty)
    case UnitPrice(unitPrice) => item.(unit_price := unitPrice)
    case Discounts(discounts) => item.(discounts := discounts)
    case Taxes(taxes) => item.(taxes := taxes)
  }

  /** The `prev.map(...)` updater: items with the id are changed, the others kept, positions unchanged. */
  function ChangedItems(items: seq<Item>, id: string, change: Change, products: seq<Product>): (r: seq<Item>)
    ensures |r| == |items|
    ensures forall i :: 0 <= i < |items| && items[i].id != id ==> r[i] == items[i]
    ensures forall i :: 0 <= i < |items| && items[i].id == id ==> r[i] == ApplyChange(items[i], change, products)
    ensures forall i :: 0 <= i < |items| ==> r[i].id == items[i].id
  {
    seq(|items|, i requires 0 <= i < |items| => if items[i].id == id then ApplyChange(items[i], change, products) else items[i])
  }

  /** The `prev.filter(...)` updater: exactly the items with another id, in order. */
  function WithoutItem(items: seq<Item>, id: string): (r: seq<Item>)
    ensures forall i :: 0 <= i < |r| ==> r[i].id != id
    ensures forall i :: 0 <= i < |items| && items[i].id != id ==> items[i] in r
    ensures forall i :: 0 <= i < |r| ==> r[i] in items
    ensures forall it :: multiset(r)[it] == if it.id != id then multiset(items)[it] else 0
    ensures IsSubsequence(r, items)
  {
    FilterIsSubsequence(items, (it: Item) => it.id != id);
    FilterCounts(items, (it: Item) => it.id != id);
    Filter(items, (it: Item) => it.id != id)
  }

  /** Items loaded from an existing quote keep their id; a missing (empty) id is replaced by a generated one. */
  function InitialItems(loaded: seq<Item>, freshId: nat -> string): (r: seq<Item>)
    ensures |r| == |loaded|
    ensures forall i :: 0 <= i < |loaded| ==>
              r[i] == loaded[i].(id := if loaded[i].id != "" then loaded[i].id else freshId(i))
  {
    seq(|loaded|, i requires 0 <= i < |loaded| => loaded[i].(id := if loaded[i].id != "" then loaded[i].id else freshId(i)))
  }

  /** The date field's text: the first ten characters of the stored validity (its `YYYY-MM-DD` part), or "". */
  function ValidUntilText(validUntil: Option<string>): (r: string)
    ensures |r| <= 10
    ensures validUntil.None? ==> r == ""
    ensures validUntil.Some? ==> |r| <= |validUntil.value| && r == validUntil.value[..|r|]
    ensures validUntil.Some? ==> (|r| == 10 || r == validUntil.value)
  {
    if validUntil.None? || validUntil.value == "" then ""
    else if |validUntil.value| <= 10 then validUntil.value
    else validUntil.value[..10]
  }

  /** The live subtotal: the `reduce` over the items, which adds each item's taxes. */
  function FormSubtotal(items: seq<Item>): int
  {
    if items == [] then 0
    else
      var last := items[|items| - 1];
      FormSubtotal(items[..|items| - 1]) + last.qty * last.unit_price - last.discounts + last.taxes
  }

  function ToActionItem(item: Item): QuoteActions.Item
  {
    QuoteActions.Item(item.product_id, item.name, item.description, item.ncm, item.qty, item.unit,
                      item.unit_price, Some(item.discounts), Some(item.taxes))
  }

  function ToActionItems(items: seq<Item>): (r: seq<QuoteActions.Item>)
    ensures |r| == |items|
    ensures forall i :: 0 <= i < |items| ==> r[i] == ToActionItem(items[i])
  {
    seq(|items|, i requires 0 <= i < |items| => ToActionItem(items[i]))
  }

  /**
   * The form folds item taxes into its subtotal; the action keeps them apart
   * and adds them to the tax total. Per item list the two split the same sum.
   */
  lemma {:induction false} FormSubtotalSplits(items: seq<Item>)
    ensures FormSubtotal(items) == QuoteActions.Subtotal(ToActionItems(items)) + QuoteActions.ItemTaxes(ToActionItems(items))
  {
    if items != [] {
      var n := |items|;
      assert ToActionItems(items)[..n - 1] == ToActionItems(items[..n - 1]);
      FormSubtotalSplits(items[..n - 1]);
    }
  }

  /** A freshly added row (quantity 1, price 0, no discount, no tax) leaves the subtotal unchanged. */
  lemma BlankItemAddsNothing(items: seq<Item>, id: string)
    ensures FormSubtotal(items + [BlankItem(id)]) == FormSubtotal(items)
  {
    assert (items + [BlankItem(id)])[..|items|] == items;
  }

  class QuoteForm {
    /** Present when editing an existing quote. */
    const initialQuote: Option<InitialQuote>
    var clientId: string
    var items: seq<Item>
    var discountTotal: int
    var taxTotal: int
    var shippingTotal: int
    var paymentTerms: string
    var deliveryTime: string
    var freightType: string
    var carrier: string
    var notesInternal: string
    var notesExternal: string
    var validUntil: string

    /** The initial state: the edited quote's values, with "" / "CIF" / 0 where they are missing. */
    constructor(initial: Option<InitialQuote>, freshId: nat -> string)
      ensures initialQuote == initial
      ensures initial.None? ==> clientId == "" && items == [] && discountTotal == 0 && taxTotal == 0
                                && shippingTotal == 0 && freightType == "CIF" && validUntil == ""
                                && paymentTerms == "" && deliveryTime == "" && carrier == ""
                                && notesInternal == "" && notesExternal == ""
      ensures initial.Some? ==>
                && clientId == OrDefault(initial.value.client_id, "")
                && items == InitialItems(initial.value.quote_items, freshId)
                && discountTotal == initial.value.discount_total.GetOr(0)
                && taxTotal == initial.value.tax_total.GetOr(0)
                && shippingTotal == initial.value.shipping_total.GetOr(0)
                && paymentTerms == OrDefault(initial.value.payment_terms, "")
                && deliveryTime == OrDefault(initial.value.delivery_time, "")
                && freightType == OrDefault(initial.value.freight_type, "CIF")
                && carrier == OrDefault(initial.value.carrier, "")
                && notesInternal == OrDefault(initial.value.notes_internal, "")
                && notesExternal == OrDefault(initial.value.notes_external, "")
                && validUntil == ValidUntilText(initial.value.valid_until)
    {
      initialQuote := initial;
      if initial.None? {
        clientId, items := "", [];
        discountTotal, taxTotal, shippingTotal := 0, 0, 0;
        paymentTerms, deliveryTime, freightType, carrier := "", "", "CIF", "";
        notesInternal, notesExternal, validUntil := "", "", "";
      } else {
        var q := initial.value;
        clientId, items := OrDefault(q.client_id, ""), InitialItems(q.quote_items, freshId);
        discountTotal, taxTotal, shippingTotal := q.discount_total.GetOr(0), q.tax_total.GetOr(0), q.shipping_total.GetOr(0);
        paymentTerms, deliveryTime := OrDefault(q.payment_terms, ""), OrDefault(q.delivery_time, "");
        freightType, carrier := OrDefault(q.freight_type, "CIF"), OrDefault(q.carrier, "");
        notesInternal, notesExternal := OrDefault(q.notes_internal, ""), OrDefault(q.notes_external, "");
        validUntil := ValidUntilText(q.valid_until);
      }
    }

    /** `handleAddItem`, with `freshId` standing for the generated UUID. */
    method AddItem(freshId: string)
      modifies this`items
      ensures items == old(items) + [BlankItem(freshId)]
      ensures Total() == old(Total())
    {
      BlankItemAddsNothing(items, freshId);
      items := items + [BlankItem(freshId)];
    }

    /** `handleRemoveItem`. */
    method RemoveItem(id: string)
      modifies this`items
      ensures items == WithoutItem(old(items), id)
    {
      items := WithoutItem(items, id);
    }

    /** `handleItemChange`. */
    method ChangeItem(id: string, change: Change, products: seq<Product>)
      modifies this`items
      ensures items == ChangedItems(old(items), id, change, products)
    {
      items := ChangedItems(items, id, change, products);
    }

    function Subtotal(): int
      reads this
    {
      FormSubtotal(items)
    }

    function Total(): int
      reads this
    {
      Subtotal() - discountTotal + taxTotal + shippingTotal
    }

    /**
     * The payload sent with either action. It carries the notes under the
     * keys `notes_internal` and `notes_external`, which the action does not
     * read, so the action sees no notes at all.
     */
    function Payload(status: string): (data: QuoteActions.QuoteData)
      reads this
    {
      QuoteActions.QuoteData(
        status,
        if validUntil == "" then None else Some(validUntil),
        Some(discountTotal), Some(taxTotal), Some(shippingTotal),
        paymentTerms, deliveryTime, freightType, carrier,
        None, None)
    }

    /**
     * `handleSubmit`: the checks run in order (active company, client, at
     * least one item) and the first failure stops; a new quote is created as
     * "draft", an existing one is updated keeping its status; the total the
     * action stores is the total on screen.
     */
    function Submit(active: Option<Company>): (s: Submission)
      reads this
      ensures active.None? ==> s == Rejected(NoCompany)
      ensures active.Some? && clientId == "" ==> s == Rejected(NoClient)
      ensures active.Some? && clientId != "" && items == [] ==> s == Rejected(NoItems)
      ensures s.Rejected? <==> active.None? || clientId == "" || items == []
      ensures s.CallUpdate? <==> !s.Rejected? && initialQuote.Some?
      ensures s.CallUpdate? ==>
                s.quoteId == initialQuote.value.id && s.data.status == OrDefault(initialQuote.value.status, "")
      ensures s.CallCreate? ==> s.data.status == "draft"
      ensures !s.Rejected? ==>
                && s.companyId == active.value.id && s.clientId == clientId
                && s.items == ToActionItems(items)
                && s.data == Payload(if initialQuote.Some? then OrDefault(initialQuote.value.status, "") else "draft")
                && s.data.discount_total == Some(discountTotal)
                && s.data.tax_total == Some(taxTotal)
                && s.data.shipping_total == Some(shippingTotal)
                && s.data.payment_terms == paymentTerms && s.data.delivery_time == deliveryTime
                && s.data.freight_type == freightType && s.data.carrier == carrier
                && (s.data.valid_until.None? <==> validUntil == "")
                && (validUntil != "" ==> s.data.valid_until == Some(validUntil))
                && s.data.notes_commercial.None? && s.data.notes_fiscal.None?
                && QuoteActions.Subtotal(s.items) - s.data.discount_total.GetOr(0)
                   + (s.data.tax_total.GetOr(0) + QuoteActions.ItemTaxes(s.items))
                   + s.data.shipping_total.GetOr(0) == Total()
    {
      if active.None? then Rejected(NoCompany)
      else if clientId == "" then Rejected(NoClient)
      else if items == [] then Rejected(NoItems)
      else
        FormSubtotalSplits(items);
        if initialQuote.Some? then
          CallUpdate(initialQuote.value.id, active.value.id, clientId, ToActionItems(items),
                     Payload(OrDefault(initialQuote.value.status, "")))
        else
          CallCreate(active.value.id, clientId, ToActionItems(items), Payload("draft"))
    }
  }
}

/**
 * The order editor: the item list the user edits (add, remove, change one
 * field, with product auto-fill), the totals shown live, and the submit
 * handler's checks and choice of server action.
 */
module OrderFormComponent {
  import opened Wrappers
  import opened Strings
  import opened Seqs
  import opened AppProviderComponent
  import ProductListComponent
  import OrderActions

  type Product = ProductListComponent.Product

  /** An editable item; amounts in cents. */
  datatype Item = Item(id: string, product_id: string, name: string, qty: int, unit_price: int, discount_value: int)

  /** `handleItemChange(id, field, value)`: the field named and its new value. */
  datatype Change =
    | ProductId(productId: string)
    | Name(name: string)
    | Qty(qty: int)
    | UnitPrice(unitPrice: int)
    | DiscountValue(discountValue: int)

  /** The order as the edit page hands it to the form; fields the database may leave null are optional. */
  datatype InitialOrder = InitialOrder(
    name: Option<string>,
    status: Option<string>,
    client_id: Option<string>,
    items: seq<Item>,
    discount_total: Option<int>,
    shipping_total: Option<int>,
    payment_method: Option<string>,
    payment_terms: Option<string>,
    notes_client: Option<string>,
    notes_internal: Option<string>)

  /** What submitting does: show an error, or call one of the two server actions. */
  datatype Submission =
    | Rejected(message: string)
    | CallCreate(companyId: string, clientId: string, items: seq<OrderActions.Item>, data: OrderActions.OrderData)
    | CallUpdate(orderId: string, companyId: string, clientId: string, items: seq<OrderActions.Item>, data: OrderActions.OrderData)

  const NoCompany := "Nenhuma empresa ativa."
  const NoClient := "Selecione um cliente."
  const NoItems := "Adicione pelo menos um item."

  /** The row `handleAddItem` appends. */
  function BlankItem(id: string): Item
  {
    Item(id, "", "", 1, 0, 0)
  }

  /**
   * One item after a change: the named field takes the value; choosing a
   * non-empty product id that names a known product also fills in the name
   * and the unit price (0 when the product has none).
   */
  function ApplyChange(item: Item, change: Change, products: seq<Product>): (r: Item)
    ensures r.id == item.id
    ensures change.Name? ==> r == item.(name := change.name)
    ensures change.Qty? ==> r == item.(qty := change.qty)
    ensures change.UnitPrice? ==> r == item.(unit_price := change.unitPrice)
    ensures change.DiscountValue? ==> r == item.(discount_value := change.discountValue)
    ensures change.ProductId? ==>
              && r.product_id == change.productId && r.qty == item.qty && r.discount_value == item.discount_value
              && (change.productId != "" && ProductListComponent.FindProduct(products, change.productId).Some? ==>
                    var p := ProductListComponent.FindProduct(products, change.productId).value;
                    r.name == p.name && r.unit_price == p.preco_base.GetOr(0))
              && (change.productId == "" || ProductListComponent.FindProduct(products, change.productId).None? ==>
                    r == item.(product_id := change.productId))
  {
    match change
    case ProductId(productId) =>
      var updated := item.(product_id := productId);
      if productId != "" && ProductListComponent.FindProduct(products, productId).Some? then
        var p := ProductListComponent.FindProduct(products, productId).value;
        updated.(name := p.name, unit_price := p.preco_base.GetOr(0))
      else updated
    case Name(name) => item.(name := name)
    case Qty(qty) => item.(qty := qty)
    case UnitPrice(unitPrice) => item.(unit_price := unitPrice)
    case DiscountValue(discountValue) => item.(discount_value := discountValue)
  }

  /** The `prev.map(...)` updater: items with the id are changed, the others kept, positions unchanged. */
  function ChangedItems(items: seq<Item>, id: string, change: Change, products: seq<Product>): (r: seq<Item>)
    ensures |r| == |items|
    ensures forall i :: 0 <= i < |items| && items[i].id != id ==> r[i] == items[i]
    ensures forall i :: 0 <= i < |items| && items[i].id == id ==> r[i] == ApplyChange(items[i], change, products)
    ensures forall i :: 0 <= i < |items| ==> r[i].id == items[i].id
  {
    seq(|items|, i requires 0 <= i < |items| => if items[i].id == id then ApplyChange(items[i], change, products) else items[i])
  }

  /** The `prev.filter(...)` updater: exactly the items with another id, in order. */
  function WithoutItem(items: seq<Item>, id: string): (r: seq<Item>)
    ensures forall i :: 0 <= i < |r| ==> r[i].id != id
    ensures forall i :: 0 <= i < |items| && items[i].id != id ==> items[i] in r
    ensures forall i :: 0 <= i < |r| ==> r[i] in items
    ensures forall it :: multiset(r)[it] == if it.id != id then multiset(items)[it] else 0
    ensures IsSubsequence(r, items)
  {
    FilterIsSubsequence(items, (it: Item) => it.id != id);
    FilterCounts(items, (it: Item) => it.id != id);
    Filter(items, (it: Item) => it.id != id)
  }

  /** The live subtotal: the `reduce` over the items. */
  function FormSubtotal(items: seq<Item>): int
  {
    if items == [] then 0
    else
      var last := items[|items| - 1];
      FormSubtotal(items[..|items| - 1]) + last.qty * last.unit_price - last.discount_value
  }

  /** A form item as the server action receives it (the client-side id is ignored there). */
  function ToActionItem(item: Item): OrderActions.Item
  {
    OrderActions.Item(item.product_id, item.name, item.qty, item.unit_price, Some(item.discount_value))
  }

  function ToActionItems(items: seq<Item>): (r: seq<OrderActions.Item>)
    ensures |r| == |items|
    ensures forall i :: 0 <= i < |items| ==> r[i] == ToActionItem(items[i])
  {
    seq(|items|, i requires 0 <= i < |items| => ToActionItem(items[i]))
  }

  /** The subtotal on screen is the subtotal the server action computes from the same items. */
  lemma {:induction false} FormSubtotalAgrees(items: seq<Item>)
    ensures FormSubtotal(items) == OrderActions.Subtotal(ToActionItems(items))
  {
    if items != [] {
      var n := |items|;
      assert ToActionItems(items)[..n - 1] == ToActionItems(items[..n - 1]);
      FormSubtotalAgrees(items[..n - 1]);
    }
  }

  /** A freshly added row (quantity 1, price 0, no discount) leaves the subtotal unchanged. */
  lemma BlankItemAddsNothing(items: seq<Item>, id: string)
    ensures FormSubtotal(items + [BlankItem(id)]) == FormSubtotal(items)
  {
    assert (items + [BlankItem(id)])[..|items|] == items;
  }

  class OrderForm {
    /** Present when editing an existing order. */
    const orderId: Option<string>
    var name: string
    var status: string
    var clientId: string
    var items: seq<Item>
    var discountTotal: int
    var shippingTotal: int
    var paymentMethod: string
    var paymentTerms: string
    var notesClient: string
    var notesInternal: string

    /** The initial state: the edited order's values, with "" / "rascunho" / 0 where they are missing. */
    constructor(initial: Option<InitialOrder>, orderId: Option<string>)
      ensures this.orderId == orderId
      ensures initial.None? ==> name == "" && status == "rascunho" && clientId == "" && items == []
                                && discountTotal == 0 && shippingTotal == 0
                                && paymentMethod == "" && paymentTerms == ""
                                && notesClient == "" && notesInternal == ""
      ensures initial.Some? ==>
                && name == OrDefault(initial.value.name, "")
                && status == OrDefault(initial.value.status, "rascunho")
                && clientId == OrDefault(initial.value.client_id, "")
                && items == initial.value.items
                && discountTotal == initial.value.discount_total.GetOr(0)
                && shippingTotal == initial.value.shipping_total.GetOr(0)
                && paymentMethod == OrDefault(initial.value.payment_method, "")
                && paymentTerms == OrDefault(initial.value.payment_terms, "")
                && notesClient == OrDefault(initial.value.notes_client, "")
                && notesInternal == OrDefault(initial.value.notes_internal, "")
    {
      this.orderId := orderId;
      if initial.None? {
        name, status, clientId, items := "", "rascunho", "", [];
        discountTotal, shippingTotal := 0, 0;
        paymentMethod, paymentTerms, notesClient, notesInternal := "", "", "", "";
      } else {
        var d := initial.value;
        name, status, clientId, items := OrDefault(d.name, ""), OrDefault(d.status, "rascunho"), OrDefault(d.client_id, ""), d.items;
        discountTotal, shippingTotal := d.discount_total.GetOr(0), d.shipping_total.GetOr(0);
        paymentMethod, paymentTerms := OrDefault(d.payment_method, ""), OrDefault(d.payment_terms, "");
        notesClient, notesInternal := OrDefault(d.notes_client, ""), OrDefault(d.notes_internal, "");
      }
    }

    /** `handleAddItem`, with `freshId` standing for the generated UUID. */
    method AddItem(freshId: string)
      modifies this`items
      ensures items == old(items) + [BlankItem(freshId)]
      ensures Total() == old(Total())
    {
      BlankItemAddsNothing(items, freshId);
      items := items + [BlankItem(freshId)];
    }

    /** `handleRemoveItem`. */
    method RemoveItem(id: string)
      modifies this`items
      ensures items == WithoutItem(old(items), id)
    {
      items := WithoutItem(items, id);
    }

    /** `handleItemChange`. */
    method ChangeItem(id: string, change: Change, products: seq<Product>)
      modifies this`items
      ensures items == ChangedItems(old(items), id, change, products)
    {
      items := ChangedItems(items, id, change, products);
    }

    function Subtotal(): int
      reads this
    {
      FormSubtotal(items)
    }

    function Total(): int
      reads this
    {
      Subtotal() - discountTotal + shippingTotal
    }

    /** The payload sent with either action. */
    function Payload(): (data: OrderActions.OrderData)
      reads this
    {
      OrderActions.OrderData(name, status, Some(discountTotal), Some(shippingTotal),
                             paymentMethod, paymentTerms, notesInternal, notesClient)
    }

    /**
     * `handleSubmit`: the checks run in order (active company, client, at
     * least one item) and the first failure stops; otherwise the update
     * action is called when an order id is present, the create action when
     * not, and the total that action stores is the total on screen.
     */
    function Submit(active: Option<Company>): (s: Submission)
      reads this
      ensures active.None? ==> s == Rejected(NoCompany)
      ensures active.Some? && clientId == "" ==> s == Rejected(NoClient)
      ensures active.Some? && clientId != "" && items == [] ==> s == Rejected(NoItems)
      ensures s.Rejected? <==> active.None? || clientId == "" || items == []
      ensures s.CallUpdate? <==> !s.Rejected? && orderId.Some? && orderId.value != ""
      ensures s.CallUpdate? ==> s.orderId == orderId.value
      ensures !s.Rejected? ==>
                && s.companyId == active.value.id && s.clientId == clientId
                && s.items == ToActionItems(items) && s.data == Payload()
                && OrderActions.Subtotal(s.items) - s.data.discount_total.GetOr(0) + s.data.shipping_total.GetOr(0) == Total()
    {
      if active.None? then Rejected(NoCompany)
      else if clientId == "" then Rejected(NoClient)
      else if items == [] then Rejected(NoItems)
      else
        FormSubtotalAgrees(items);
        if orderId.Some? && orderId.value != "" then
          CallUpdate(orderId.value, active.value.id, clientId, ToActionItems(items), Payload())
        else
          CallCreate(active.value.id, clientId, ToActionItems(items), Payload())
    }
  }
}

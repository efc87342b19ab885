/** The order table: company and search filter, status badge colours and the delete-dialog label. */
module OrderListComponent {
  import opened Wrappers
  import opened Strings
  import opened Seqs
  import opened AppProviderComponent

  /** An order row as the table receives it, with the joined client's name. */
  datatype Order = Order(
    id: string,
    company_id: string,
    number: Option<nat>,
    name: Option<string>,
    clientName: Option<string>,
    status: string)

  /** The search test: the lower-cased term occurs in the lower-cased client name or order name. */
  predicate MatchesTerm(order: Order, searchTerm: string)
  {
    var term := Lower(searchTerm);
    || (order.clientName.Some? && Contains(Lower(order.clientName.value), term))
    || (order.name.Some? && Contains(Lower(order.name.value), term))
  }

  predicate Shown(order: Order, active: Option<Company>, searchTerm: string)
  {
    && active.Some?
    && order.company_id == active.value.id
    && (searchTerm == "" || MatchesTerm(order, searchTerm))
  }

  function FilteredOrders(orders: seq<Order>, active: Option<Company>, searchTerm: string): (r: seq<Order>)
    ensures active.None? ==> r == []
    ensures forall i :: 0 <= i < |r| ==> active.Some? && r[i].company_id == active.value.id
    ensures forall i :: 0 <= i < |orders| ==>
              (orders[i] in r <==> Shown(orders[i], active, searchTerm))
    ensures forall o :: multiset(r)[o] == if Shown(o, active, searchTerm) then multiset(orders)[o] else 0
    ensures IsSubsequence(r, orders)
  {
    var r := Filter(orders, o => Shown(o, active, searchTerm));
    FilterIsSubsequence(orders, o => Shown(o, active, searchTerm));
    FilterCounts(orders, o => Shown(o, active, searchTerm));
    r
  }

  /** With an empty search box the table lists exactly the active company's orders, in order. */
  lemma EmptyTermListsCompany(orders: seq<Order>, company: Company)
    ensures FilteredOrders(orders, Some(company), "") == Filter(orders, (o: Order) => o.company_id == company.id)
  {
    FilterCongruent(orders, o => Shown(o, Some(company), ""), (o: Order) => o.company_id == company.id);
  }

  const KnownStatuses: set<string> := {"aprovado", "faturado", "enviado", "cancelado"}

  /** The badge colour of an order status. */
  function StatusColor(status: string): (c: string)
    ensures c == "bg-gray-500" <==> status !in KnownStatuses
    ensures status == "aprovado" <==> c == "bg-green-500"
    ensures status == "faturado" <==> c == "bg-blue-500"
    ensures status == "enviado" <==> c == "bg-yellow-500"
    ensures status == "cancelado" <==> c == "bg-red-500"
  {
    match status
    case "aprovado" => "bg-green-500"
    case "faturado" => "bg-blue-500"
    case "enviado" => "bg-yellow-500"
    case "cancelado" => "bg-red-500"
    case _ => "bg-gray-500"
  }

  /**
   * The name shown in the delete confirmation: `#` and the order number when it
   * is set (0 counts as unset), else the order name when non-empty, else "Desconhecido".
   */
  function DeleteLabel(order: Order): (shown: string)
    ensures |shown| > 0
    ensures order.number.Some? && order.number.value != 0 ==>
              shown[0] == '#' && IsDigits(shown[1..]) && ParseDecimal(shown[1..]) == order.number.value
    ensures !(order.number.Some? && order.number.value != 0) ==>
              shown == (if order.name.Some? && order.name.value != "" then order.name.value else "Desconhecido")
  {
    if order.number.Some? && order.number.value != 0 then
      DecimalRoundTrip(order.number.value);
      assert ("#" + Decimal(order.number.value))[1..] == Decimal(order.number.value);
      "#" + Decimal(order.number.value)
    else if order.name.Some? && order.name.value != "" then order.name.value
    else "Desconhecido"
  }
}

/** The product table: the rows of the active company that match the search box. */
module ProductListComponent {
  import opened Wrappers
  import opened Strings
  import opened Seqs
  import opened AppProviderComponent

  /** A product row; the price is in cents. The order and quote forms read the same rows. */
  datatype Product = Product(
    id: string,
    company_id: string,
    name: string,
    sku: Option<string>,
    preco_base: Option<int>,
    descricao_curta: Option<string>,
    ncm: Option<string>)

  /**
   * `products.find(p => p.id === id)`, as both item editors use it: the
   * first product with that id, or None when there is none.
   */
  function FindProduct(products: seq<Product>, id: string): (r: Option<Product>)
    ensures r.Some? ==> exists i :: 0 <= i < |products| && products[i] == r.value && r.value.id == id
                                    && forall j :: 0 <= j < i ==> products[j].id != id
    ensures r.None? ==> forall i :: 0 <= i < |products| ==> products[i].id != id
  {
    match FindFirst(products, (p: Product) => p.id == id)
    case None => None
    case Some(i) => Some(products[i])
  }

  /** The search test: the lower-cased term occurs in the lower-cased name or SKU. */
  predicate MatchesTerm(product: Product, searchTerm: string)
  {
    var term := Lower(searchTerm);
    || Contains(Lower(product.name), term)
    || (product.sku.Some? && Contains(Lower(product.sku.value), term))
  }

  predicate Shown(product: Product, active: Option<Company>, searchTerm: string)
  {
    && active.Some?
    && product.company_id == active.value.id
    && (searchTerm == "" || MatchesTerm(product, searchTerm))
  }

  function FilteredProducts(products: seq<Product>, active: Option<Company>, searchTerm: string): (r: seq<Product>)
    ensures active.None? ==> r == []
    ensures forall i :: 0 <= i < |r| ==> active.Some? && r[i].company_id == active.value.id
    ensures forall i :: 0 <= i < |products| ==>
              (products[i] in r <==> Shown(products[i], active, searchTerm))
    ensures forall p :: multiset(r)[p] == if Shown(p, active, searchTerm) then multiset(products)[p] else 0
    ensures IsSubsequence(r, products)
  {
    var r := Filter(products, p => Shown(p, active, searchTerm));
    FilterIsSubsequence(products, p => Shown(p, active, searchTerm));
    FilterCounts(products, p => Shown(p, active, searchTerm));
    r
  }

  /** With an empty search box the table lists exactly the active company's products, in order. */
  lemma EmptyTermListsCompany(products: seq<Product>, company: Company)
    ensures FilteredProducts(products, Some(company), "") == Filter(products, (p: Product) => p.company_id == company.id)
  {
    FilterCongruent(products, p => Shown(p, Some(company), ""), (p: Product) => p.company_id == company.id);
  }
}

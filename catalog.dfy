/**
 * The read-only product catalog and the category filter that decides which
 * products the storefront shows.
 */
module Catalog {
  import opened Wrappers
  import opened Seqs

  /** One entry of the catalog data file; the price is in whole rupiah. */
  datatype Product = Product(
    id: int,
    name: string,
    category: string,
    price: nat,
    image: string,
    size: string,
    description: string,
    notes: seq<string>)

  /** The filter value under which every product is shown. */
  const AllCategories := "all"

  function HasProductId(id: int): Product -> bool
  {
    (p: Product) => p.id == id
  }

  function InCategory(category: string): Product -> bool
  {
    (p: Product) => p.category == category
  }

  /** The catalog holds a product with identifier `id`. */
  predicate InCatalog(products: seq<Product>, id: int)
  {
    exists k :: 0 <= k < |products| && products[k].id == id
  }

  /** `products[k]` is the first catalog entry carrying `id`. */
  predicate FirstProduct(products: seq<Product>, id: int, k: int)
  {
    0 <= k < |products| && products[k].id == id && forall j :: 0 <= j < k ==> products[j].id != id
  }

  /** There is only one first catalog entry carrying `id`. */
  lemma FirstProductUnique(products: seq<Product>, id: int, k: int)
    requires FirstProduct(products, id, k)
    ensures forall j :: FirstProduct(products, id, j) ==> j == k
  {
  }

  /** Where `products.find` stops: the index of the first product carrying `id`, if any. */
  function ProductIndex(products: seq<Product>, id: int): (r: Option<nat>)
    ensures r.None? <==> !InCatalog(products, id)
    ensures r.Some? ==> FirstProduct(products, id, r.value)
  {
    FindIndex(products, HasProductId(id))
  }

  /** The product `addToCart` looks up: the first one carrying `id`, if any. */
  function FindProduct(products: seq<Product>, id: int): (r: Option<Product>)
    ensures r.None? <==> !InCatalog(products, id)
    ensures r.Some? ==> exists k :: FirstProduct(products, id, k) && products[k] == r.value
  {
    match ProductIndex(products, id)
    case None => None
    case Some(k) => Some(products[k])
  }

  /** The products shown under the filter `currentFilter`. */
  function VisibleProducts(products: seq<Product>, currentFilter: string): (r: seq<Product>)
    ensures currentFilter == AllCategories ==> r == products
    ensures currentFilter != AllCategories ==>
      (forall j :: 0 <= j < |r| ==> r[j] in products && r[j].category == currentFilter)
    ensures currentFilter != AllCategories ==>
      (forall k :: 0 <= k < |products| && products[k].category == currentFilter ==> products[k] in r)
  {
    if currentFilter == AllCategories then products else Filter(products, InCategory(currentFilter))
  }

  /**
   * Under a category filter the shown list is built product by product in
   * catalog order: the filter of a concatenation is the concatenation of the
   * filters, and one product is kept exactly when its category matches.
   */
  lemma VisibleProductsInCatalogOrder(a: seq<Product>, b: seq<Product>, currentFilter: string)
    requires currentFilter != AllCategories
    ensures VisibleProducts(a + b, currentFilter) == VisibleProducts(a, currentFilter) + VisibleProducts(b, currentFilter)
    ensures forall p: Product :: VisibleProducts([p], currentFilter) == if p.category == currentFilter then [p] else []
  {
    FilterAppend(a, b, InCategory(currentFilter));
    forall p: Product ensures VisibleProducts([p], currentFilter) == if p.category == currentFilter then [p] else [] {
      assert [p][1..] == [];
    }
  }
}

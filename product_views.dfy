/**
 * The catalogue endpoints (backend/apps/products/views.py): the filtered and
 * sorted product list and the lookup by slug. The rows arrive as a sequence
 * in table order.
 */
module ProductViews {
  import opened Wrappers
  import opened Text
  import opened Query
  import opened Catalog

  /** A query parameter is applied only when present and not blank. */
  predicate Given(param: Option<string>) {
    param.Some? && param.value != ""
  }

  /** `icontains`, with case folded on the ASCII letters. */
  predicate ContainsIgnoringCase(s: string, sub: string) {
    Contains(ToLower(s), ToLower(sub))
  }

  predicate Available(p: Product) {
    p.isAvailable
  }

  predicate InCategory(p: Product, category: string) {
    p.categoryId == category
  }

  predicate MatchesSearch(p: Product, search: string) {
    ContainsIgnoringCase(p.name, search) || ContainsIgnoringCase(p.description, search)
  }

  function CategoryFilter(category: string): Product -> bool {
    p => InCategory(p, category)
  }

  function SearchFilter(search: string): Product -> bool {
    p => MatchesSearch(p, search)
  }

  /** The three filters `product_list_view` chains, each one only when its parameter is given. */
  function FilterProducts(products: seq<Product>, category: Option<string>, search: Option<string>): (r: seq<Product>)
    ensures forall p :: p in r <==> p in products && Listed(p, category, search)
  {
    var available := Filter(products, Available);
    var byCategory := if Given(category) then Filter(available, CategoryFilter(category.value)) else available;
    if Given(search) then Filter(byCategory, SearchFilter(search.value)) else byCategory
  }

  /** The sort key chosen by `sort`: `price_low`, `price_high`, or newest first for anything else. */
  function SortKey(sort: Option<string>): Product -> Key {
    var s := if sort.Some? then sort.value else "newest";
    if s == "price_low" then (p: Product) => Key(p.price, 0)
    else if s == "price_high" then (p: Product) => Key(-p.price, 0)
    else (p: Product) => Key(-p.createdAt, 0)
  }

  /** What a product must satisfy to be listed. */
  predicate Listed(p: Product, category: Option<string>, search: Option<string>) {
    Available(p) && (Given(category) ==> InCategory(p, category.value))
    && (Given(search) ==> MatchesSearch(p, search.value))
  }

  function ListedFilter(category: Option<string>, search: Option<string>): Product -> bool {
    p => Listed(p, category, search)
  }

  /** The chained filters keep exactly the rows that pass every given filter, in table order. */
  lemma {:induction false} FilterChainIsConjunction(products: seq<Product>, category: Option<string>, search: Option<string>)
    ensures FilterProducts(products, category, search) == Filter(products, ListedFilter(category, search))
  {
    var listed := ListedFilter(category, search);
    if Given(category) && Given(search) {
      var c, s := CategoryFilter(category.value), SearchFilter(search.value);
      var ac := (x: Product) => Available(x) && c(x);
      FilterFilter(products, Available, c, ac);
      FilterFilter(products, ac, s, listed);
    } else if Given(category) {
      FilterFilter(products, Available, CategoryFilter(category.value), listed);
    } else if Given(search) {
      FilterFilter(products, Available, SearchFilter(search.value), listed);
    } else {
      FilterExtensional(products, Available, listed);
    }
  }

  /** `product_list_view`. */
  function ProductList(products: seq<Product>, category: Option<string>, search: Option<string>,
                       sort: Option<string>): (r: seq<Product>)
    ensures forall p :: p in r <==> p in products && Listed(p, category, search)
    ensures multiset(r) == multiset(Filter(products, ListedFilter(category, search)))
    ensures SortedBy(r, SortKey(sort))
  {
    FilterChainIsConjunction(products, category, search);
    var kept := Filter(products, ListedFilter(category, search));
    var r := SortBy(FilterProducts(products, category, search), SortKey(sort));
    assert forall p :: p in r <==> p in kept by {
      forall p ensures p in r <==> p in kept {
        assert p in r <==> p in multiset(r);
        assert p in kept <==> p in multiset(kept);
      }
    }
    r
  }

  /** `price_low` lists cheaper products first and `price_high` dearer ones first. */
  lemma PriceOrder(products: seq<Product>, category: Option<string>, search: Option<string>)
    ensures var r := ProductList(products, category, search, Some("price_low"));
      forall i, j :: 0 <= i < j < |r| ==> r[i].price <= r[j].price
    ensures var r := ProductList(products, category, search, Some("price_high"));
      forall i, j :: 0 <= i < j < |r| ==> r[i].price >= r[j].price
  {
    var low := ProductList(products, category, search, Some("price_low"));
    forall i, j | 0 <= i < j < |low| ensures low[i].price <= low[j].price {
      assert KeyLe(SortKey(Some("price_low"))(low[i]), SortKey(Some("price_low"))(low[j]));
    }
    var high := ProductList(products, category, search, Some("price_high"));
    forall i, j | 0 <= i < j < |high| ensures high[i].price >= high[j].price {
      assert KeyLe(SortKey(Some("price_high"))(high[i]), SortKey(Some("price_high"))(high[j]));
    }
  }

  /** Without `sort`, or with any other value, the newest products come first. */
  lemma NewestFirst(products: seq<Product>, category: Option<string>, search: Option<string>, sort: Option<string>)
    requires sort.None? || (sort.value != "price_low" && sort.value != "price_high")
    ensures var r := ProductList(products, category, search, sort);
      forall i, j :: 0 <= i < j < |r| ==> r[i].createdAt >= r[j].createdAt
  {
    var r := ProductList(products, category, search, sort);
    forall i, j | 0 <= i < j < |r| ensures r[i].createdAt >= r[j].createdAt {
      assert KeyLe(SortKey(sort)(r[i]), SortKey(sort)(r[j]));
    }
  }

  /** `get_object_or_404(Product, slug=slug)`: the first row with that slug, whether available or not. */
  function ProductDetail(products: seq<Product>, slug: string): (r: Option<Product>)
    ensures r.None? <==> forall i :: 0 <= i < |products| ==> products[i].slug != slug
    ensures r.Some? ==> r.value in products && r.value.slug == slug
  {
    if products == [] then None
    else if products[0].slug == slug then Some(products[0])
    else ProductDetail(products[1..], slug)
  }

  /** Slugs are unique, so the detail view returns the one row with that slug, even an unavailable one. */
  lemma {:induction false} DetailFindsUnavailable(products: seq<Product>, i: nat)
    requires i < |products|
    requires forall j, k :: 0 <= j < k < |products| ==> products[j].slug != products[k].slug
    ensures ProductDetail(products, products[i].slug) == Some(products[i])
  {
    if i > 0 {
      DetailFindsUnavailable(products[1..], i - 1);
    }
  }
}

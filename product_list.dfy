/** The product list: category extraction, the category and search filters, and their handlers. */
module ProductList {
  import opened Sequences
  import opened Strings
  import opened Catalog

  /** The category of each product, in catalog order. */
  function Categories(products: seq<Product>): seq<string> {
    seq(|products|, i requires 0 <= i < |products| => products[i].category)
  }

  /**
   * The category buttons: the distinct categories of the products. There are
   * no duplicates, exactly the categories the products carry, in the order in
   * which each first appears.
   */
  function UniqueCategories(products: seq<Product>): (unique: seq<string>)
    ensures NoDuplicates(unique)
    ensures forall c :: c in unique <==> c in Categories(products)
    ensures forall c :: c in unique <==> exists i :: 0 <= i < |products| && products[i].category == c
    ensures forall i, j :: 0 <= i < j < |unique| ==>
      FirstIndex(Categories(products), unique[i]) < FirstIndex(Categories(products), unique[j])
  {
    DedupeSpec(Categories(products));
    CategoriesCarried(products);
    Dedupe(Categories(products))
  }

  /** A category is listed exactly when some product carries it. */
  lemma CategoriesCarried(products: seq<Product>)
    ensures forall c :: c in Categories(products) <==> exists i :: 0 <= i < |products| && products[i].category == c
  {
    var cs := Categories(products);
    forall c ensures c in cs <==> exists i :: 0 <= i < |products| && products[i].category == c {
      if c in cs {
        var i :| 0 <= i < |cs| && cs[i] == c;
        assert products[i].category == c;
      }
      if exists i :: 0 <= i < |products| && products[i].category == c {
        var i :| 0 <= i < |products| && products[i].category == c;
        assert cs[i] == c;
      }
    }
  }

  /** The search test of one product, against an already lowercased query. */
  predicate MatchesQuery(product: Product, loweredQuery: string) {
    || Includes(ToLower(product.title), loweredQuery)
    || Includes(ToLower(product.description), loweredQuery)
  }

  /** What a product must satisfy to stay listed. */
  predicate Passes(product: Product, category: string, query: string) {
    && (category == "" || product.category == category)
    && (query == "" || MatchesQuery(product, ToLower(query)))
  }

  /**
   * The filter effect: the category filter when one is selected, then the
   * search filter when there is a query. The listed products are exactly
   * those that pass both filters, in catalog order.
   */
  function FilterProducts(products: seq<Product>, category: string, query: string): (listed: seq<Product>)
    ensures listed == Filter(products, (p: Product) => Passes(p, category, query))
  {
    var passes := (p: Product) => Passes(p, category, query);
    var inCategory := (p: Product) => p.category == category;
    var lowered := ToLower(query);
    var matches := (p: Product) => MatchesQuery(p, lowered);
    var byCategory := if category != "" then Filter(products, inCategory) else products;
    if query != "" then
      var found := Filter(byCategory, matches);
      if category != "" then
        FilterFusion(products, inCategory, matches, passes);
        found
      else
        FilterExtensional(products, matches, passes);
        found
    else if category != "" then
      FilterExtensional(products, inCategory, passes);
      byCategory
    else
      byCategory
  }

  /**
   * The filtered list is a subsequence of the catalog; it holds every product
   * that passes, as often as the catalog does, and nothing else; with no
   * category and no query it is the whole catalog.
   */
  lemma FilterProductsSpec(products: seq<Product>, category: string, query: string)
    ensures SubsequenceOf(FilterProducts(products, category, query), products)
    ensures forall p :: multiset(FilterProducts(products, category, query))[p]
                     == if Passes(p, category, query) then multiset(products)[p] else 0
    ensures category == "" && query == "" ==> FilterProducts(products, category, query) == products
  {
  }

  /** Every listed product has the selected category and, under a query, matches it case-insensitively. */
  lemma FilterProductsSound(products: seq<Product>, category: string, query: string, p: Product)
    requires p in FilterProducts(products, category, query)
    ensures category != "" ==> p.category == category
    ensures query != "" ==> Includes(ToLower(p.title), ToLower(query)) || Includes(ToLower(p.description), ToLower(query))
  {
  }

  /** No product of the catalog that passes both filters is dropped. */
  lemma FilterProductsComplete(products: seq<Product>, category: string, query: string, p: Product)
    requires p in products && Passes(p, category, query)
    ensures p in FilterProducts(products, category, query)
  {
    FilterProductsSpec(products, category, query);
  }

  /** Queries that lowercase alike list the same products. */
  lemma SearchIgnoresCase(products: seq<Product>, category: string, q1: string, q2: string)
    requires ToLower(q1) == ToLower(q2)
    ensures FilterProducts(products, category, q1) == FilterProducts(products, category, q2)
  {
    ToLowerIdempotent(q1);
    ToLowerIdempotent(q2);
    FilterExtensional(products, (p: Product) => Passes(p, category, q1), (p: Product) => Passes(p, category, q2));
  }

  /** The category handler: clicking the selected category clears it, any other selects it. */
  function NextCategory(selected: string, clicked: string): (next: string)
    ensures next == "" <==> clicked == selected || clicked == ""
    ensures next != "" ==> next == clicked
  {
    if clicked == selected then "" else clicked
  }

  /** "All" always clears; clicking one category twice ends where the first click undid or made the selection. */
  lemma NextCategoryTwice(selected: string, clicked: string)
    ensures NextCategory(selected, "") == ""
    ensures NextCategory(NextCategory(selected, clicked), clicked) == if selected == clicked then clicked else ""
  {
  }

  /** The component's list state. */
  class ProductListState {
    var products: seq<Product>
    var filteredProducts: seq<Product>
    var categories: seq<string>
    var selectedCategory: string
    var searchQuery: string

    /** The filter effect has run for the current products, category and query. */
    ghost predicate Filtered()
      reads this
    {
      filteredProducts == FilterProducts(products, selectedCategory, searchQuery)
    }

    constructor ()
      ensures products == [] && filteredProducts == [] && categories == []
      ensures selectedCategory == "" && searchQuery == ""
      ensures Filtered()
    {
      products, filteredProducts, categories := [], [], [];
      selectedCategory, searchQuery := "", "";
    }

    /** The filter effect, run whenever the products, the category or the query change. */
    method ApplyFilters()
      modifies this`filteredProducts
      ensures Filtered()
    {
      filteredProducts := FilterProducts(products, selectedCategory, searchQuery);
    }

    /** The products arrive: stored, listed, their categories extracted, then the filters re-applied. */
    method ReceiveProducts(data: seq<Product>)
      modifies this
      ensures products == data && categories == UniqueCategories(data)
      ensures selectedCategory == old(selectedCategory) && searchQuery == old(searchQuery)
      ensures Filtered()
    {
      products := data;
      filteredProducts := data;
      categories := UniqueCategories(data);
      ApplyFilters();
    }

    /** Typing in the search box. */
    method SetSearchQuery(query: string)
      modifies this
      ensures searchQuery == query
      ensures products == old(products) && categories == old(categories) && selectedCategory == old(selectedCategory)
      ensures Filtered()
    {
      searchQuery := query;
      ApplyFilters();
    }

    method HandleCategoryChange(category: string)
      modifies this
      ensures selectedCategory == NextCategory(old(selectedCategory), category)
      ensures products == old(products) && categories == old(categories) && searchQuery == old(searchQuery)
      ensures Filtered()
    {
      selectedCategory := NextCategory(selectedCategory, category);
      ApplyFilters();
    }

    /** "Clear filters": both reset, so the whole catalog is listed again. */
    method ClearFilters()
      modifies this
      ensures searchQuery == "" && selectedCategory == ""
      ensures products == old(products) && categories == old(categories)
      ensures filteredProducts == products
      ensures Filtered()
    {
      searchQuery := "";
      selectedCategory := "";
      ApplyFilters();
      FilterProductsSpec(products, "", "");
    }
  }
}

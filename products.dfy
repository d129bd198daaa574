/**
 * The product collection store: the user store's shape plus the category list
 * and the selected category. fetchProducts lists within the selected category
 * when one is set and unscoped otherwise; selecting a category and searching
 * each clear the other's filter and go back to page 1.
 */
module Products {
  import opened Wrappers
  import opened JsonValue
  import opened Api

  const Limit: int := 10
  const FetchProductsFallback: string := "Failed to fetch products."
  const SearchProductsFallback: string := "Search failed."

  datatype ProductState = ProductState(
    products: seq<Json>,
    total: int,
    categories: seq<Json>,
    selectedCategory: string,
    searchQuery: string,
    page: int,
    limit: int,
    loading: bool,
    error: Option<string>)

  function Initial(): ProductState {
    ProductState([], 0, [], "", "", 1, Limit, false, None)
  }

  /** One synchronous step of the store: an issue step, a completion, or a setter. */
  datatype ProductEvent =
    | FetchIssued                            // fetchProducts, before the await
    | SearchIssued(query: string)            // searchProducts(query), before the await
    | ListReceived(data: Listing)            // fetchProducts or searchProducts succeeded
    | FetchFailed(serverMsg: Option<string>)
    | SearchFailed(serverMsg: Option<string>)
    | CategoriesReceived(list: seq<Json>)    // fetchCategories succeeded
    | CategoriesFailed                       // fetchCategories failed (swallowed)
    | CategorySet(category: string)          // setCategory(category)
    | PageSet(n: int)                        // setPage(n)
    | QuerySet(query: string)                // setSearchQuery(query)
    | FiltersReset                           // resetFilters()

  /** The completions of the actions that raise the loading flag. */
  predicate IsCompletion(e: ProductEvent) {
    e.ListReceived? || e.FetchFailed? || e.SearchFailed?
  }

  function Apply(s: ProductState, e: ProductEvent): ProductState {
    match e
    case FetchIssued => s.(loading := true, error := None)
    case SearchIssued(q) => s.(loading := true, error := None, searchQuery := q, page := 1, selectedCategory := "")
    case ListReceived(d) => s.(products := d.items, total := d.total, loading := false)
    case FetchFailed(m) => s.(error := Some(FailureMessage(m, FetchProductsFallback)), loading := false)
    case SearchFailed(m) => s.(error := Some(FailureMessage(m, SearchProductsFallback)), loading := false)
    case CategoriesReceived(cs) => s.(categories := cs)
    case CategoriesFailed => s
    case CategorySet(c) => s.(selectedCategory := c, page := 1, searchQuery := "")
    case PageSet(n) => s.(page := n)
    case QuerySet(q) => s.(searchQuery := q)
    case FiltersReset => s.(searchQuery := "", selectedCategory := "", page := 1)
  }

  /** The state after a sequence of steps, applied in call order. */
  function Run(s: ProductState, es: seq<ProductEvent>): ProductState
    decreases |es|
  {
    if es == [] then s else Run(Apply(s, es[0]), es[1..])
  }

  lemma RunCons(s: ProductState, e: ProductEvent, es: seq<ProductEvent>)
    ensures Run(s, [e] + es) == Run(Apply(s, e), es)
  {
    assert ([e] + es)[1..] == es;
  }

  /**
   * The request fetchProducts sends: the category listing when a category is
   * selected (a non-empty slug is truthy), the unscoped listing otherwise;
   * both with the current limit and the offset of the current page.
   */
  function FetchProductsRequest(s: ProductState): Request {
    var skip := (s.page - 1) * s.limit;
    if s.selectedCategory != "" then GetProductsByCategory(s.selectedCategory, s.limit, skip)
    else GetProducts(s.limit, skip)
  }

  class ProductStore {
    var products: seq<Json>
    var total: int
    var categories: seq<Json>
    var selectedCategory: string
    var searchQuery: string
    var page: int
    var limit: int
    var loading: bool
    var error: Option<string>

    function State(): ProductState
      reads this
    {
      ProductState(products, total, categories, selectedCategory, searchQuery, page, limit, loading, error)
    }

    constructor ()
      ensures State() == Initial()
    {
      products, total, categories := [], 0, [];
      selectedCategory, searchQuery := "", "";
      page, limit := 1, Limit;
      loading, error := false, None;
    }

    method BeginFetchProducts() returns (req: Request)
      modifies this
      ensures req == FetchProductsRequest(old(State()))
      ensures State() == Apply(old(State()), FetchIssued)
    {
      var skip := (page - 1) * limit;
      var category := selectedCategory;
      loading, error := true, None;
      if category != "" {
        req := GetProductsByCategory(category, limit, skip);
      } else {
        req := GetProducts(limit, skip);
      }
    }

    /** The success step shared by fetchProducts and searchProducts. */
    method CompleteListOk(data: Listing)
      modifies this
      ensures State() == Apply(old(State()), ListReceived(data))
    {
      products, total, loading := data.items, data.total, false;
    }

    method CompleteFetchProductsErr(serverMsg: Option<string>)
      modifies this
      ensures State() == Apply(old(State()), FetchFailed(serverMsg))
    {
      error, loading := Some(FailureMessage(serverMsg, FetchProductsFallback)), false;
    }

    method BeginSearchProducts(query: string) returns (req: Request)
      modifies this
      ensures req == SearchProducts(query)
      ensures State() == Apply(old(State()), SearchIssued(query))
    {
      loading, error, searchQuery, page, selectedCategory := true, None, query, 1, "";
      req := SearchProducts(query);
    }

    method CompleteSearchProductsErr(serverMsg: Option<string>)
      modifies this
      ensures State() == Apply(old(State()), SearchFailed(serverMsg))
    {
      error, loading := Some(FailureMessage(serverMsg, SearchProductsFallback)), false;
    }

    /** fetchCategories sets nothing before its await. */
    method BeginFetchCategories() returns (req: Request)
      ensures req == GetCategories
    {
      req := GetCategories;
    }

    method CompleteFetchCategoriesOk(list: seq<Json>)
      modifies this
      ensures State() == Apply(old(State()), CategoriesReceived(list))
    {
      categories := list;
    }

    /**
     * The failure is swallowed: nothing changes. The missing `modifies` clause
     * is what guarantees that; the ensures only records that the step it
     * performs is CategoriesFailed, which Apply maps to the identity.
     */
    method CompleteFetchCategoriesErr()
      ensures State() == Apply(State(), CategoriesFailed)
    {
    }

    method SetCategory(category: string)
      modifies this
      ensures State() == Apply(old(State()), CategorySet(category))
    {
      selectedCategory, page, searchQuery := category, 1, "";
    }

    method SetPage(n: int)
      modifies this
      ensures State() == Apply(old(State()), PageSet(n))
    {
      page := n;
    }

    method SetSearchQuery(query: string)
      modifies this
      ensures State() == Apply(old(State()), QuerySet(query))
    {
      searchQuery := query;
    }

    method ResetFilters()
      modifies this
      ensures State() == Apply(old(State()), FiltersReset)
    {
      searchQuery, selectedCategory, page := "", "", 1;
    }
  }

  // ---------------------------------------------------------------------------
  // Properties of single steps

  /** The initial store asks for the first ten products, unscoped. */
  lemma InitialRequest()
    ensures Initial().limit == 10 && Initial().page == 1
    ensures FetchProductsRequest(Initial()) == GetProducts(10, 0)
  {
  }

  /**
   * fetchProducts is category-scoped exactly when a category is selected, and
   * both branches carry the current limit and the offset (page - 1) * limit.
   */
  lemma FetchRequestBranch(s: ProductState)
    ensures FetchProductsRequest(s).GetProductsByCategory? <==> s.selectedCategory != ""
    ensures FetchProductsRequest(s).GetProducts? <==> s.selectedCategory == ""
    ensures s.selectedCategory != "" ==>
      FetchProductsRequest(s) == GetProductsByCategory(s.selectedCategory, s.limit, (s.page - 1) * s.limit)
    ensures s.selectedCategory == "" ==>
      FetchProductsRequest(s) == GetProducts(s.limit, (s.page - 1) * s.limit)
  {
  }

  /**
   * Issuing fetchProducts raises loading and clears the error, touching
   * nothing else; its request ignores the search text.
   */
  lemma FetchIssuedEffect(s: ProductState, q: string)
    ensures Apply(s, FetchIssued) == s.(loading := true, error := None)
    ensures FetchProductsRequest(s.(searchQuery := q)) == FetchProductsRequest(s)
  {
  }

  /**
   * setCategory(c) selects c, goes back to page 1 and clears the search text;
   * it leaves the data, the loading flag and the error alone.
   */
  lemma CategorySetEffect(s: ProductState, c: string)
    ensures var t := Apply(s, CategorySet(c));
      && t.selectedCategory == c && t.page == 1 && t.searchQuery == ""
      && t.products == s.products && t.total == s.total && t.loading == s.loading
      && t.error == s.error && t.categories == s.categories && t.limit == s.limit
  {
  }

  /**
   * setCategory followed by fetchProducts asks for the first page, whatever
   * page was shown before; with a non-empty slug the request is category-scoped.
   */
  lemma CategoryThenFetchFromStart(s: ProductState, c: string)
    ensures FetchProductsRequest(Apply(s, CategorySet(c))).skip == 0
    ensures c != "" ==> FetchProductsRequest(Apply(s, CategorySet(c))) == GetProductsByCategory(c, s.limit, 0)
    ensures c == "" ==> FetchProductsRequest(Apply(s, CategorySet(c))) == GetProducts(s.limit, 0)
  {
  }

  /** Selecting "beauty" on page 3 and fetching lists beauty products from offset 0. */
  lemma BeautyScenario(s: ProductState)
    requires s.page == 3 && s.limit == 10
    ensures var t := Apply(s, CategorySet("beauty"));
      t.page == 1 && FetchProductsRequest(t) == GetProductsByCategory("beauty", 10, 0)
  {
  }

  /**
   * Issuing searchProducts(q) records q, goes back to page 1, clears the
   * category, raises loading and clears the error. Failures report the
   * server's message or "Search failed."; the request carries no limit or skip.
   */
  lemma SearchEffects(s: ProductState, q: string, m: Option<string>)
    ensures var t := Apply(s, SearchIssued(q));
      && t.searchQuery == q && t.page == 1 && t.selectedCategory == ""
      && t.loading && t.error == None && t.products == s.products && t.total == s.total
    ensures var t := Apply(s, SearchFailed(m));
      && t.error.Some? && t.error.value != ""
      && (if m.Some? && m.value != "" then t.error == m else t.error == Some("Search failed."))
      && !t.loading && t.products == s.products && t.total == s.total
  {
  }

  /**
   * A failed fetchProducts reports the server's message or "Failed to fetch
   * products.", ends loading and keeps the previously shown products and total.
   */
  lemma FetchFailedEffect(s: ProductState, m: Option<string>)
    ensures var t := Apply(s, FetchFailed(m));
      && t.error.Some? && t.error.value != ""
      && (if m.Some? && m.value != "" then t.error == m else t.error == Some("Failed to fetch products."))
      && !t.loading && t.products == s.products && t.total == s.total
      && t.selectedCategory == s.selectedCategory && t.page == s.page
  {
  }

  /** A successful list or search replaces products and total and ends loading. */
  lemma ListReceivedEffect(s: ProductState, d: Listing)
    ensures Apply(s, ListReceived(d)) == s.(products := d.items, total := d.total, loading := false)
  {
  }

  /**
   * fetchCategories: success replaces the category list and nothing else;
   * failure changes nothing at all, not even the error or the loading flag.
   */
  lemma CategoriesEffects(s: ProductState, cs: seq<Json>)
    ensures Apply(s, CategoriesReceived(cs)) == s.(categories := cs)
    ensures Apply(s, CategoriesFailed) == s
  {
  }

  /** resetFilters clears both filters and goes back to page 1, and does nothing else. */
  lemma FiltersResetEffect(s: ProductState)
    ensures Apply(s, FiltersReset) == s.(searchQuery := "", selectedCategory := "", page := 1)
  {
  }

  /** Every completion of a loading action, success or failure, ends with loading false. */
  lemma CompletionEndsLoading(s: ProductState, e: ProductEvent)
    requires IsCompletion(e)
    ensures !Apply(s, e).loading
  {
  }

  // ---------------------------------------------------------------------------
  // Properties of runs

  /** What every reachable state satisfies: the page size never changes and an error is never blank. */
  ghost predicate Inv(s: ProductState) {
    s.limit == Limit && (s.error.Some? ==> s.error.value != "")
  }

  lemma {:induction false} RunPreservesInv(s: ProductState, es: seq<ProductEvent>)
    requires Inv(s)
    ensures Inv(Run(s, es))
    decreases |es|
  {
    if es != [] {
      RunPreservesInv(Apply(s, es[0]), es[1..]);
    }
  }

  lemma ReachableInv(es: seq<ProductEvent>)
    ensures Inv(Run(Initial(), es))
  {
    RunPreservesInv(Initial(), es);
  }

  /** The search text and the category are not both set. */
  predicate FiltersExclusive(s: ProductState) {
    s.searchQuery == "" || s.selectedCategory == ""
  }

  /**
   * setCategory and searchProducts each clear the other's filter, so no run
   * that avoids the plain setSearchQuery setter ever has both filters set.
   */
  lemma {:induction false} FiltersStayExclusive(s: ProductState, es: seq<ProductEvent>)
    requires FiltersExclusive(s)
    requires forall i :: 0 <= i < |es| ==> !es[i].QuerySet?
    ensures FiltersExclusive(Run(s, es))
    decreases |es|
  {
    if es != [] {
      assert !es[0].QuerySet?;
      FiltersStayExclusive(Apply(s, es[0]), es[1..]);
    }
  }

  /**
   * setSearchQuery is the one setter that can leave both filters set, and the
   * next fetchProducts then lists by category and ignores the search text.
   */
  lemma QuerySetAfterCategory(s: ProductState, c: string, q: string)
    requires c != "" && q != ""
    ensures var t := Run(s, [CategorySet(c), QuerySet(q)]);
      && !FiltersExclusive(t)
      && FetchProductsRequest(t) == GetProductsByCategory(c, s.limit, 0)
  {
    RunCons(s, CategorySet(c), [QuerySet(q)]);
    RunCons(Apply(s, CategorySet(c)), QuerySet(q), []);
  }

  /**
   * No request fencing: a listing for category a issued before the user
   * switches to category b still commits if it answers last, so b is selected
   * while a's products are shown.
   */
  lemma StaleCategoryListing(s: ProductState, b: string, forB: Listing, forA: Listing)
    ensures var t := Run(s, [FetchIssued, CategorySet(b), FetchIssued, ListReceived(forB), ListReceived(forA)]);
      && t.selectedCategory == b && t.products == forA.items && t.total == forA.total && !t.loading
  {
    var s1 := Apply(s, FetchIssued);
    var s2 := Apply(s1, CategorySet(b));
    var s3 := Apply(s2, FetchIssued);
    var s4 := Apply(s3, ListReceived(forB));
    RunCons(s, FetchIssued, [CategorySet(b), FetchIssued, ListReceived(forB), ListReceived(forA)]);
    RunCons(s1, CategorySet(b), [FetchIssued, ListReceived(forB), ListReceived(forA)]);
    RunCons(s2, FetchIssued, [ListReceived(forB), ListReceived(forA)]);
    RunCons(s3, ListReceived(forB), [ListReceived(forA)]);
    RunCons(s4, ListReceived(forA), []);
  }
}

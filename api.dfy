/**
 * The HTTP adapter seen from the stores: the request each action issues and
 * the listing record a successful list or search returns. The transport itself
 * is not modelled; responses and failures are inputs to the completion steps.
 */
module Api {
  import opened Wrappers
  import opened JsonValue

  datatype Request =
    | GetUsers(limit: int, skip: int)                                  // GET /users?limit&skip
    | SearchUsers(q: string)                                           // GET /users/search?q
    | GetUserById(id: string)                                          // GET /users/{id}
    | GetProducts(limit: int, skip: int)                               // GET /products?limit&skip
    | SearchProducts(q: string)                                        // GET /products/search?q
    | GetCategories                                                    // GET /products/categories
    | GetProductsByCategory(category: string, limit: int, skip: int)  // GET /products/category/{slug}?limit&skip

  /** `{ users | products, total }` of a list or search response. */
  datatype Listing = Listing(items: seq<Json>, total: int)

  /**
   * `err?.response?.data?.message || fallback`: the server's message when it
   * sent a non-empty one, the store's fixed text otherwise (an empty message
   * is falsy and falls back too).
   */
  function FailureMessage(serverMsg: Option<string>, fallback: string): (m: string)
    ensures m == fallback || (serverMsg == Some(m) && m != "")
    ensures serverMsg.Some? && serverMsg.value != "" ==> m == serverMsg.value
    ensures fallback != "" ==> m != ""
  {
    if serverMsg.Some? && serverMsg.value != "" then serverMsg.value else fallback
  }
}

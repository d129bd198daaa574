/**
 * The user collection store: the current page of users, the total count, the
 * user opened on the detail screen, the loading and error flags, the page
 * cursor, the page size and the search text.
 *
 * Each asynchronous action is two steps: the synchronous `set` before the
 * `await` (an *Issued event, which also yields the request sent) and the `set`
 * after it (a *Received or *Failed event). Completions commit unconditionally:
 * there is no check that the response belongs to the latest request.
 */
module Users {
  import opened Wrappers
  import opened JsonValue
  import opened Api

  const Limit: int := 10
  const FetchUsersFallback: string := "Failed to fetch users."
  const SearchUsersFallback: string := "Search failed."
  const FetchUserFallback: string := "Failed to fetch user details."

  datatype UserState = UserState(
    users: seq<Json>,
    total: int,
    selectedUser: Option<Json>,
    loading: bool,
    error: Option<string>,
    page: int,
    limit: int,
    searchQuery: string)

  function Initial(): UserState {
    UserState([], 0, None, false, None, 1, Limit, "")
  }

  /** One synchronous step of the store: an issue step, a completion, or a setter. */
  datatype UserEvent =
    | FetchIssued                            // fetchUsers, before the await
    | SearchIssued(query: string)            // searchUsers(query), before the await
    | ByIdIssued(id: string)                 // fetchUserById(id), before the await
    | ListReceived(data: Listing)            // fetchUsers or searchUsers succeeded
    | FetchFailed(serverMsg: Option<string>) // fetchUsers failed
    | SearchFailed(serverMsg: Option<string>)
    | UserReceived(user: Json)               // fetchUserById succeeded
    | ByIdFailed(serverMsg: Option<string>)
    | PageSet(n: int)                        // setPage(n)
    | QuerySet(query: string)                // setSearchQuery(query)
    | SearchReset                            // resetSearch()
    | SelectionCleared                       // clearSelectedUser()
    | ErrorCleared                           // clearError()

  predicate IsCompletion(e: UserEvent) {
    e.ListReceived? || e.FetchFailed? || e.SearchFailed? || e.UserReceived? || e.ByIdFailed?
  }

  function Apply(s: UserState, e: UserEvent): UserState {
    match e
    case FetchIssued => s.(loading := true, error := None)
    case SearchIssued(q) => s.(loading := true, error := None, searchQuery := q, page := 1)
    case ByIdIssued(_) => s.(loading := true, error := None, selectedUser := None)
    case ListReceived(d) => s.(users := d.items, total := d.total, loading := false)
    case FetchFailed(m) => s.(error := Some(FailureMessage(m, FetchUsersFallback)), loading := false)
    case SearchFailed(m) => s.(error := Some(FailureMessage(m, SearchUsersFallback)), loading := false)
    case UserReceived(u) => s.(selectedUser := Some(u), loading := false)
    case ByIdFailed(m) => s.(error := Some(FailureMessage(m, FetchUserFallback)), loading := false)
    case PageSet(n) => s.(page := n)
    case QuerySet(q) => s.(searchQuery := q)
    case SearchReset => s.(searchQuery := "", page := 1)
    case SelectionCleared => s.(selectedUser := None)
    case ErrorCleared => s.(error := None)
  }

  /** The state after a sequence of steps, applied in call order. */
  function Run(s: UserState, es: seq<UserEvent>): UserState
    decreases |es|
  {
    if es == [] then s else Run(Apply(s, es[0]), es[1..])
  }

  lemma RunCons(s: UserState, e: UserEvent, es: seq<UserEvent>)
    ensures Run(s, [e] + es) == Run(Apply(s, e), es)
  {
    assert ([e] + es)[1..] == es;
  }

  /** The listing request fetchUsers sends: the current limit, and the offset of the current page. */
  function FetchUsersRequest(s: UserState): Request {
    GetUsers(s.limit, (s.page - 1) * s.limit)
  }

  class UserStore {
    var users: seq<Json>
    var total: int
    var selectedUser: Option<Json>
    var loading: bool
    var error: Option<string>
    var page: int
    var limit: int
    var searchQuery: string

    function State(): UserState
      reads this
    {
      UserState(users, total, selectedUser, loading, error, page, limit, searchQuery)
    }

    constructor ()
      ensures State() == Initial()
    {
      users, total, selectedUser := [], 0, None;
      loading, error := false, None;
      page, limit, searchQuery := 1, Limit, "";
    }

    method BeginFetchUsers() returns (req: Request)
      modifies this
      ensures req == FetchUsersRequest(old(State()))
      ensures State() == Apply(old(State()), FetchIssued)
    {
      var skip := (page - 1) * limit;
      loading, error := true, None;
      req := GetUsers(limit, skip);
    }

    /** The success step shared by fetchUsers and searchUsers. */
    method CompleteListOk(data: Listing)
      modifies this
      ensures State() == Apply(old(State()), ListReceived(data))
    {
      users, total, loading := data.items, data.total, false;
    }

    method CompleteFetchUsersErr(serverMsg: Option<string>)
      modifies this
      ensures State() == Apply(old(State()), FetchFailed(serverMsg))
    {
      error, loading := Some(FailureMessage(serverMsg, FetchUsersFallback)), false;
    }

    method BeginSearchUsers(query: string) returns (req: Request)
      modifies this
      ensures req == SearchUsers(query)
      ensures State() == Apply(old(State()), SearchIssued(query))
    {
      loading, error, searchQuery, page := true, None, query, 1;
      req := SearchUsers(query);
    }

    method CompleteSearchUsersErr(serverMsg: Option<string>)
      modifies this
      ensures State() == Apply(old(State()), SearchFailed(serverMsg))
    {
      error, loading := Some(FailureMessage(serverMsg, SearchUsersFallback)), false;
    }

    method BeginFetchUserById(id: string) returns (req: Request)
      modifies this
      ensures req == GetUserById(id)
      ensures State() == Apply(old(State()), ByIdIssued(id))
    {
      loading, error, selectedUser := true, None, None;
      req := GetUserById(id);
    }

    method CompleteFetchUserByIdOk(user: Json)
      modifies this
      ensures State() == Apply(old(State()), UserReceived(user))
    {
      selectedUser, loading := Some(user), false;
    }

    method CompleteFetchUserByIdErr(serverMsg: Option<string>)
      modifies this
      ensures State() == Apply(old(State()), ByIdFailed(serverMsg))
    {
      error, loading := Some(FailureMessage(serverMsg, FetchUserFallback)), false;
    }

    method SetPage(n: int)
      modifies this
      ensures State() == Apply(old(State()), PageSet(n))
    {
      page := n;
    }

    method SetSearchQuery(query: string)
      modifies this
      ensures State() == Apply(old(State()), QuerySet(query))
    {
      searchQuery := query;
    }

    method ResetSearch()
      modifies this
      ensures State() == Apply(old(State()), SearchReset)
    {
      searchQuery, page := "", 1;
    }

    method ClearSelectedUser()
      modifies this
      ensures State() == Apply(old(State()), SelectionCleared)
    {
      selectedUser := None;
    }

    method ClearError()
      modifies this
      ensures State() == Apply(old(State()), ErrorCleared)
    {
      error := None;
    }
  }

  // ---------------------------------------------------------------------------
  // Properties of single steps

  /** The initial store asks for the first ten users. */
  lemma InitialRequest()
    ensures Initial().limit == 10 && Initial().page == 1
    ensures FetchUsersRequest(Initial()) == GetUsers(10, 0)
  {
  }

  /**
   * For a page number of at least 1 and a positive limit, the offset sent is a
   * non-negative multiple of the limit, namely page - 1 pages: the first item
   * of page `page`.
   */
  lemma FetchOffsetIsPageStart(s: UserState)
    requires s.page >= 1 && s.limit > 0
    ensures FetchUsersRequest(s).limit == s.limit
    ensures FetchUsersRequest(s).skip >= 0
    ensures exists k: nat {:trigger k * s.limit} :: FetchUsersRequest(s).skip == k * s.limit && k == s.page - 1
  {
    var k: nat := s.page - 1;
    assert FetchUsersRequest(s).skip == k * s.limit;
  }

  /**
   * Issuing fetchUsers raises loading and clears the error, and leaves the
   * data, the cursor and the search text alone; its request ignores the search
   * text, so after a search it lists unfiltered.
   */
  lemma FetchIssuedEffect(s: UserState, q: string)
    ensures var t := Apply(s, FetchIssued);
      && t.loading && t.error == None
      && t.users == s.users && t.total == s.total && t.page == s.page
      && t.searchQuery == s.searchQuery && t.selectedUser == s.selectedUser && t.limit == s.limit
    ensures FetchUsersRequest(s.(searchQuery := q)) == FetchUsersRequest(s)
  {
  }

  /** A successful list or search replaces users and total with the response and ends loading. */
  lemma ListReceivedEffect(s: UserState, d: Listing)
    ensures var t := Apply(s, ListReceived(d));
      && t.users == d.items && t.total == d.total && !t.loading
      && t.error == s.error && t.page == s.page && t.searchQuery == s.searchQuery
      && t.selectedUser == s.selectedUser
  {
  }

  /**
   * A failed fetchUsers reports the server's message or "Failed to fetch
   * users.", ends loading and keeps the previously shown users and total.
   */
  lemma FetchFailedEffect(s: UserState, m: Option<string>)
    ensures var t := Apply(s, FetchFailed(m));
      && t.error.Some? && t.error.value != ""
      && (if m.Some? && m.value != "" then t.error == m else t.error == Some("Failed to fetch users."))
      && !t.loading && t.users == s.users && t.total == s.total
      && t.page == s.page && t.searchQuery == s.searchQuery
  {
  }

  /**
   * Issuing searchUsers(q) records q, goes back to page 1, raises loading and
   * clears the error; its failure reports the server's message or "Search failed.".
   */
  lemma SearchEffects(s: UserState, q: string, m: Option<string>)
    ensures var t := Apply(s, SearchIssued(q));
      && t.searchQuery == q && t.page == 1 && t.loading && t.error == None
      && t.users == s.users && t.total == s.total
    ensures var t := Apply(s, SearchFailed(m));
      && t.error.Some? && t.error.value != ""
      && (if m.Some? && m.value != "" then t.error == m else t.error == Some("Search failed."))
      && !t.loading && t.users == s.users && t.total == s.total
  {
  }

  /**
   * fetchUserById clears the selected user when issued and sets it on success;
   * on failure the selection stays empty and the error is the server's message
   * or "Failed to fetch user details.".
   */
  lemma FetchUserByIdLifecycle(s: UserState, id: string, u: Json, m: Option<string>)
    ensures Apply(s, ByIdIssued(id)).selectedUser == None
    ensures Run(s, [ByIdIssued(id), UserReceived(u)]).selectedUser == Some(u)
    ensures var t := Run(s, [ByIdIssued(id), ByIdFailed(m)]);
      && t.selectedUser == None && !t.loading
      && t.error.Some? && t.error.value != ""
      && (if m.Some? && m.value != "" then t.error == m else t.error == Some("Failed to fetch user details."))
  {
    var s1 := Apply(s, ByIdIssued(id));
    RunCons(s, ByIdIssued(id), [UserReceived(u)]);
    RunCons(s1, UserReceived(u), []);
    RunCons(s, ByIdIssued(id), [ByIdFailed(m)]);
    RunCons(s1, ByIdFailed(m), []);
  }

  /**
   * The setters: setPage stores its argument without clamping, resetSearch
   * touches only the search text and the page, clearError only the error.
   */
  lemma SetterEffects(s: UserState, n: int)
    ensures Apply(s, PageSet(n)).page == n
    ensures Apply(s, PageSet(n)) == s.(page := n)
    ensures Apply(s, SearchReset) == s.(searchQuery := "", page := 1)
    ensures Apply(s, ErrorCleared) == s.(error := None)
    ensures Apply(s, SelectionCleared) == s.(selectedUser := None)
  {
  }

  /** Every completion, success or failure, ends with loading false. */
  lemma CompletionEndsLoading(s: UserState, e: UserEvent)
    requires IsCompletion(e)
    ensures !Apply(s, e).loading
  {
  }

  // ---------------------------------------------------------------------------
  // Properties of runs

  /** What every reachable state satisfies: the page size never changes and an error is never blank. */
  ghost predicate Inv(s: UserState) {
    s.limit == Limit && (s.error.Some? ==> s.error.value != "")
  }

  lemma {:induction false} RunPreservesInv(s: UserState, es: seq<UserEvent>)
    requires Inv(s)
    ensures Inv(Run(s, es))
    decreases |es|
  {
    if es != [] {
      RunPreservesInv(Apply(s, es[0]), es[1..]);
    }
  }

  lemma ReachableInv(es: seq<UserEvent>)
    ensures Inv(Run(Initial(), es))
  {
    RunPreservesInv(Initial(), es);
  }

  function PageSets(pages: seq<int>): (es: seq<UserEvent>)
    ensures |es| == |pages|
    ensures forall i :: 0 <= i < |pages| ==> es[i] == PageSet(pages[i])
  {
    if pages == [] then [] else [PageSet(pages[0])] + PageSets(pages[1..])
  }

  /**
   * Any sequence of setPage calls followed by fetchUsers requests the offset
   * of the last page set: (n - 1) * limit.
   */
  lemma {:induction false} SetPagesThenFetch(s: UserState, pages: seq<int>)
    requires pages != []
    ensures var t := Run(s, PageSets(pages));
      FetchUsersRequest(t) == GetUsers(s.limit, (pages[|pages| - 1] - 1) * s.limit)
    decreases |pages|
  {
    var es := PageSets(pages);
    assert es[1..] == PageSets(pages[1..]);
    if |pages| > 1 {
      SetPagesThenFetch(s.(page := pages[0]), pages[1..]);
    } else {
      assert es[1..] == [];
    }
  }

  /**
   * No request fencing: when a list request is issued, then a search, and the
   * search answers first, the older list response still lands last. The store
   * then shows the unfiltered users under the new search text.
   */
  lemma StaleListOverwritesSearch(s: UserState, q: string, found: Listing, listed: Listing)
    ensures var t := Run(s, [FetchIssued, SearchIssued(q), ListReceived(found), ListReceived(listed)]);
      && t.users == listed.items && t.total == listed.total
      && t.searchQuery == q && t.page == 1 && !t.loading
  {
    var s1 := Apply(s, FetchIssued);
    var s2 := Apply(s1, SearchIssued(q));
    var s3 := Apply(s2, ListReceived(found));
    RunCons(s, FetchIssued, [SearchIssued(q), ListReceived(found), ListReceived(listed)]);
    RunCons(s1, SearchIssued(q), [ListReceived(found), ListReceived(listed)]);
    RunCons(s2, ListReceived(found), [ListReceived(listed)]);
    RunCons(s3, ListReceived(listed), []);
  }

  /**
   * Loading ends on the first completion, even while a second request is still
   * outstanding: the flag does not track outstanding requests.
   */
  lemma LoadingClearedWhileOutstanding(s: UserState, q: string, listed: Listing)
    ensures !Run(s, [FetchIssued, SearchIssued(q), ListReceived(listed)]).loading
  {
    var s1 := Apply(s, FetchIssued);
    var s2 := Apply(s1, SearchIssued(q));
    RunCons(s, FetchIssued, [SearchIssued(q), ListReceived(listed)]);
    RunCons(s1, SearchIssued(q), [ListReceived(listed)]);
    RunCons(s2, ListReceived(listed), []);
  }
}

# Study-abroad dashboard stores, in Dafny

This project models the client-side state logic of a Next.js dashboard. The
dashboard lists users and products from a REST backend, signs a user in with a
bearer token, and searches with a debounced search bar. Four pieces hold that
logic:

- **User collection store** (`Users`). It holds the current page of users, the
  total, the user opened on the detail screen, the loading and error flags, the
  page cursor, the page size (10) and the search text.
- **Product collection store** (`Products`). It has the same shape plus the
  category list and the selected category.
- **Session store** (`Auth`). It holds the signed-in user and the bearer token
  in memory, mirrored into the browser's key-value storage under `"token"` and
  `"user"`.
- **Search bar debounce** (`Debounce`). Each keystroke is forwarded at once. It
  also replaces the single pending timer with one that hands the trimmed value
  to the search callback after `delay` milliseconds (400 by default).

Each store is a state datatype plus an event datatype. A pure `Apply` function
gives one synchronous step and `Run` gives a sequence of steps. A class with
the store's own fields has one method per action, and each method `ensures
State() == Apply(old(State()), <event>)`.

An asynchronous action is split into two steps:

- a `Begin…` method, which is the `set` before the `await` and returns the
  request the action sends;
- a `Complete…Ok` or `Complete…Err` method, which is the `set` after it.

Interleavings of several outstanding requests can therefore be written down
and proved about. Completions commit unconditionally, because the stores have
no request fencing.

Supporting modules:

- `Wrappers`: `Option`.
- `Text`: ECMAScript `String.prototype.trim`, with a reference definition and a
  uniqueness proof.
- `JsonValue`: JSON values, JavaScript truthiness, and the `String(v)` coercion
  that `Storage.setItem` applies. It also holds an abstract JSON codec whose only
  assumed laws are that `parse` undoes `stringify` and rejects `""`.
- `Api`: the requests the stores issue, the listing response, and the
  `err?.response?.data?.message || fallback` error-message rule.

## Model

| member | source | states |
|---|---|---|
| Api.FailureMessage | store/userStore.js:36 | the error text is the server's message when it sent a non-empty one and the store's fallback otherwise (an empty message is falsy and falls back too); with a non-empty fallback it is never blank |
| Text.Trim | components/searchBar.js:31 | `value.trim()` meets the reference meaning of trimming (an infix with only whitespace outside it and no whitespace at its ends) and is empty exactly when the input is all whitespace |
| Text.TrimUnique | components/searchBar.js:31 | any string meeting the reference meaning of trimming is `Trim(s)`, so `Trim` is fully specified by it |
| Text.TrimIdempotent | components/searchBar.js:31 | trimming twice equals trimming once |
| Text.TrimWhitespaceOnly | components/searchBar.js:31 | a whitespace-only value trims to the empty string |
| JsonValue.Digits | store/authStore.js:11 | the exact decimal text of a natural number (what `String(n)` gives for integers below 2^53) is a non-empty run of digits with no leading zero |
| JsonValue.DigitsRoundTrip | store/authStore.js:11 | reading the stored decimal text back gives the number |
| JsonValue.StringifyNonEmpty | store/authStore.js:12 | under a lawful codec a serialised user is never the empty string, so hydrate's truthiness test accepts it |
| Users.UserStore.constructor | store/userStore.js:12-19 | the store starts empty: no users, total 0, no selection, not loading, no error, page 1, limit 10, empty search text |
| Users.UserStore.BeginFetchUsers | store/userStore.js:27-30 | fetchUsers' pre-await step requests (limit, (page - 1) * limit) from the state before it, raises loading and clears the error |
| Users.UserStore.CompleteListOk | store/userStore.js:33 | a successful fetchUsers or searchUsers stores the response's users and total and ends loading |
| Users.UserStore.CompleteFetchUsersErr | store/userStore.js:34-38 | a failed fetchUsers stores the server message or "Failed to fetch users." and ends loading |
| Users.UserStore.BeginSearchUsers | store/userStore.js:46-49 | searchUsers' pre-await step requests the search for q, records q, goes to page 1, raises loading, clears the error |
| Users.UserStore.CompleteSearchUsersErr | store/userStore.js:51-55 | a failed search stores the server message or "Search failed." and ends loading |
| Users.UserStore.BeginFetchUserById | store/userStore.js:63-66 | fetchUserById's pre-await step requests the user by id, clears the selection, raises loading, clears the error |
| Users.UserStore.CompleteFetchUserByIdOk | store/userStore.js:67 | success selects the returned user and ends loading |
| Users.UserStore.CompleteFetchUserByIdErr | store/userStore.js:68-72 | failure stores the server message or "Failed to fetch user details." and ends loading |
| Users.UserStore.SetPage | store/userStore.js:79 | setPage stores its argument as the page |
| Users.UserStore.SetSearchQuery | store/userStore.js:82 | setSearchQuery stores its argument as the search text |
| Users.UserStore.ResetSearch | store/userStore.js:85 | resetSearch empties the search text and goes to page 1 |
| Users.UserStore.ClearSelectedUser | store/userStore.js:88 | clearSelectedUser drops the selection |
| Users.UserStore.ClearError | store/userStore.js:91 | clearError drops the error |
| Users.InitialRequest | store/userStore.js:8-19 | the initial store has limit 10 and page 1, so its first fetch asks for 10 users from offset 0 |
| Users.FetchOffsetIsPageStart | store/userStore.js:28-29 | for page >= 1 and a positive limit, fetchUsers sends the current limit and an offset that is a non-negative multiple of it, namely (page - 1) times the limit |
| Users.FetchIssuedEffect | store/userStore.js:28-30 | issuing fetchUsers raises loading, clears the error and keeps users, total, page, search text, selection and limit; the request does not depend on the search text |
| Users.ListReceivedEffect | store/userStore.js:33-50 | a successful list or search replaces users and total with the response, ends loading and keeps error, page, search text and selection |
| Users.FetchFailedEffect | store/userStore.js:34-38 | a failed fetchUsers leaves a non-blank error: the server message when it is non-empty, "Failed to fetch users." otherwise; ends loading and keeps the users and total shown before |
| Users.SearchEffects | store/userStore.js:47-55 | issuing a search sets the text, page 1, loading and no error and keeps the data; a failed search reports the server message when it is non-empty and "Search failed." otherwise, and keeps the data |
| Users.FetchUserByIdLifecycle | store/userStore.js:64-71 | issuing clears the selection, success sets it to the returned user, failure leaves it empty with the server message when it is non-empty and "Failed to fetch user details." otherwise |
| Users.SetterEffects | store/userStore.js:79-91 | setPage stores its argument unclamped and nothing else; resetSearch, clearError and clearSelectedUser each change only their own fields |
| Users.CompletionEndsLoading | store/userStore.js:33-71 | every completion, success or failure, leaves loading false |
| Users.RunPreservesInv | store/userStore.js:18-70 | every sequence of steps keeps the page size at 10 and never stores a blank error |
| Users.ReachableInv | store/userStore.js:12-19 | every state reachable from the initial store has limit 10 and no blank error |
| Users.PageSets | store/userStore.js:79 | the steps of a sequence of setPage calls, one per argument, in order |
| Users.SetPagesThenFetch | store/userStore.js:28-79 | after any sequence of setPage calls, fetchUsers requests the offset of the last page set |
| Users.StaleListOverwritesSearch | store/userStore.js:27-50 | with no fencing, a list response that lands after a search response overwrites it: the store shows unfiltered users under the new search text |
| Users.LoadingClearedWhileOutstanding | store/userStore.js:30-47 | loading goes false at the first completion even while another request is still outstanding |
| Products.ProductStore.constructor | store/productStore.js:13-21 | the store starts empty: no products or categories, total 0, no category or search text, page 1, limit 10, not loading, no error |
| Products.ProductStore.BeginFetchProducts | store/productStore.js:26-36 | fetchProducts' pre-await step requests the category listing when a category is selected and the unscoped listing otherwise, raises loading and clears the error |
| Products.ProductStore.CompleteListOk | store/productStore.js:37-53 | a successful list or search stores the response's products and total and ends loading |
| Products.ProductStore.CompleteFetchProductsErr | store/productStore.js:38-42 | failure stores the server message or "Failed to fetch products." and ends loading |
| Products.ProductStore.BeginSearchProducts | store/productStore.js:49-52 | searchProducts' pre-await step requests the search, records q, page 1, clears the category, raises loading, clears the error |
| Products.ProductStore.CompleteSearchProductsErr | store/productStore.js:54-58 | failure stores the server message or "Search failed." and ends loading |
| Products.ProductStore.BeginFetchCategories | store/productStore.js:65-67 | fetchCategories sets nothing before its await and requests the category list |
| Products.ProductStore.CompleteFetchCategoriesOk | store/productStore.js:68 | success replaces the category list |
| Products.ProductStore.CompleteFetchCategoriesErr | store/productStore.js:69-71 | a failure is swallowed and changes nothing |
| Products.ProductStore.SetCategory | store/productStore.js:75-77 | setCategory selects the category, goes to page 1 and empties the search text |
| Products.ProductStore.SetPage | store/productStore.js:80 | setPage stores its argument as the page |
| Products.ProductStore.SetSearchQuery | store/productStore.js:83 | setSearchQuery stores its argument as the search text |
| Products.ProductStore.ResetFilters | store/productStore.js:86-88 | resetFilters empties both filters and goes to page 1 |
| Products.InitialRequest | store/productStore.js:9-21 | the initial store's first fetch asks for 10 unscoped products from offset 0 |
| Products.FetchRequestBranch | store/productStore.js:27-36 | fetchProducts is category-scoped if and only if a category is selected, and each branch sends the current limit and the offset (page - 1) * limit |
| Products.FetchIssuedEffect | store/productStore.js:27-29 | issuing fetchProducts changes only loading (true) and error (none); the request does not depend on the search text |
| Products.CategorySetEffect | store/productStore.js:75-77 | setCategory(c) selects c, page 1, empty search text, and leaves products, total, loading, error, categories and limit alone |
| Products.CategoryThenFetchFromStart | store/productStore.js:27-76 | setCategory followed by fetchProducts requests offset 0 whatever the page before, scoped to c when c is non-empty |
| Products.BeautyScenario | store/productStore.js:27-76 | choosing "beauty" on page 3 resets to page 1 and fetches beauty products (10 from offset 0) |
| Products.SearchEffects | store/productStore.js:50-58 | issuing a search sets the text, page 1, no category, loading and no error and keeps the data; a failed search reports the server message when it is non-empty and "Search failed." otherwise |
| Products.FetchFailedEffect | store/productStore.js:38-42 | a failed fetchProducts leaves a non-blank error: the server message when it is non-empty, "Failed to fetch products." otherwise; ends loading and keeps products, total, category and page |
| Products.ListReceivedEffect | store/productStore.js:37-53 | a successful list or search replaces products and total, ends loading and changes nothing else |
| Products.CategoriesEffects | store/productStore.js:65-72 | category success replaces only the category list; failure changes nothing, not the error and not the loading flag |
| Products.FiltersResetEffect | store/productStore.js:86-88 | resetFilters empties the search text and category, goes to page 1 and changes nothing else |
| Products.CompletionEndsLoading | store/productStore.js:37-57 | every completion of fetchProducts or searchProducts leaves loading false |
| Products.RunPreservesInv | store/productStore.js:19-56 | every sequence of steps keeps the page size at 10 and never stores a blank error |
| Products.ReachableInv | store/productStore.js:13-21 | every state reachable from the initial store has limit 10 and no blank error |
| Products.FiltersStayExclusive | store/productStore.js:50-87 | runs without setSearchQuery never have both the search text and the category set |
| Products.QuerySetAfterCategory | store/productStore.js:32-83 | setSearchQuery after setCategory leaves both filters set, and the next fetch lists by category, ignoring the text |
| Products.StaleCategoryListing | store/productStore.js:26-76 | with no fencing, a listing for the previous category that answers last is shown under the newly selected category |
| Auth.UserOf | store/authStore.js:9 | the login record minus its access token: an object without `accessToken` that has every other field of the record, unchanged |
| Auth.AuthStore.constructor | store/authStore.js:4-5 | a fresh store has no user and no token in memory over the storage as found |
| Auth.AuthStore.Login | store/authStore.js:8-15 | login's new state is LoggedIn: storage (with a window) gets the token text and the serialised user, memory gets both |
| Auth.AuthStore.Logout | store/authStore.js:18-24 | logout's new state is LoggedOut: both keys removed (with a window), memory cleared |
| Auth.AuthStore.Hydrate | store/authStore.js:27-41 | hydrate's new state is Hydrated: restore, drop a corrupt pair, or do nothing |
| Auth.LoginEffect | store/authStore.js:9-14 | after login, memory holds the access token and the record without it, storage holds the token under "token" and the serialised user under "user", and every other key keeps its value |
| Auth.LoginWithoutToken | store/authStore.js:9-14 | a record without an access token leaves no token in memory and the text "undefined" under "token" |
| Auth.LogoutEffect | store/authStore.js:18-24 | after logout neither key is stored, user and token are null, and the storage is the old one minus exactly those two keys |
| Auth.LogoutIdempotent | store/authStore.js:18-24 | logging out twice equals logging out once |
| Auth.NoWindowTouchesNoStorage | store/authStore.js:10-28 | without a window, login and logout change memory only and hydrate does nothing |
| Auth.HydrateRestores | store/authStore.js:29-34 | with both keys non-empty and a parseable user, memory becomes (parsed user, stored token) and storage is unchanged |
| Auth.HydrateDropsCorrupt | store/authStore.js:35-38 | with both keys non-empty and an unparseable user, both keys go, every other key stays, and memory is unchanged |
| Auth.HydrateIncompleteIsNoop | store/authStore.js:31 | with either key missing or empty nothing changes, and a half-present pair stays |
| Auth.HydrateIdempotent | store/authStore.js:27-41 | hydrating again gives the same state |
| Auth.LoginThenHydrate | store/authStore.js:11-34 | under a lawful codec and a non-empty string token, hydrating a fresh store over the storage login left restores exactly login's state |
| Auth.HydrateNullUser | store/authStore.js:31-34 | a stored user text that parses to null is adopted, leaving a truthy token with no user |
| Auth.GuardAfterLoginAndLogout | components/ProtectedRoute.js:19-23 | the route guard lets a session through after login with a non-empty token and redirects to the login screen after logout |
| Auth.RunKeepsKeysPaired | store/authStore.js:11-37 | any sequence of login, logout and hydrate keeps "token" and "user" stored together or not at all |
| Debounce.SearchBar.constructor | components/searchBar.js:20-22 | the delay is the prop, 400 when absent; no timer is pending |
| Debounce.SearchBar.HandleChange | components/searchBar.js:24-35 | a keystroke reports the raw value to onChange when there is one and replaces the pending timer with one for this value, due one delay later; the timer stays within one delay of the clock |
| Debounce.SearchBar.Wait | components/searchBar.js:30-32 | letting time pass fires the pending timer if it falls due, handing its trimmed value to onSearch at its due time, which lies within this pause and never before it |
| Debounce.DefaultDelayIs400 | components/searchBar.js:20 | the delay is 400 when the prop is absent and the prop otherwise |
| Debounce.KeystrokeReplacesTimer | components/searchBar.js:26-32 | a keystroke forwards the untrimmed value at once, fires nothing, and leaves exactly one pending timer, for this value, in place of any earlier one |
| Debounce.StepKeepsWellTimed | components/searchBar.js:29-32 | every input keeps the pending timer due between now and one delay from now |
| Debounce.ElapseFiresPendingOnly | components/searchBar.js:30-32 | a pause fires at most once, exactly when the pending timer falls due, with that timer's trimmed value, and leaves nothing pending |
| Debounce.RunKeepsWellTimed | components/searchBar.js:29-32 | every sequence of inputs keeps the pending timer within one delay of the clock |
| Debounce.ChangedAll | components/searchBar.js:27 | the immediate callbacks of a sequence of keystrokes, one per value, in order |
| Debounce.KeystrokeThenPause | components/searchBar.js:26-32 | a keystroke and a pause fire the trimmed value one delay after the keystroke if the pause reaches it, and otherwise leave it pending |
| Debounce.BurstSettlesOnce | components/searchBar.js:29-32 | when every pause between keystrokes is shorter than the delay and the final pause reaches it, onSearch runs exactly once, one delay after the last keystroke, with its trimmed value, and every keystroke was forwarded raw |
| Debounce.ThreeKeystrokeSchedule | components/searchBar.js:20-32 | keystrokes at t = 0, 100 and 200 with the default delay fire onSearch once, at t = 600, with the trimmed value typed at t = 200 |
| Debounce.WhitespaceOnlyStillDelivered | components/searchBar.js:31 | a whitespace-only value is still delivered to onSearch, as the empty string |

## Left out

- HTTP transport (services/api.js): the adapter is reduced to the `Request` each action sends. Responses and failures are parameters of the completion methods. The response's extra fields (`skip`, `limit`) are not modelled.
- `err?.response?.data?.message` is taken as an `Option<string>` already extracted. A non-string message is not modelled.
- Real asynchrony: an action is two explicit steps, and concurrency is any interleaving of those steps. Neither the promise scheduler nor the React rendering cycle is modelled.
- Request fencing, and "an empty search clears the filters": neither exists in the stores. Searches are issued for `""` too. The lemmas about stale responses show the consequence.
- Page bounds: setPage stores any integer. The stores do no clamping, so none is modelled; a page below 1 gives a negative offset.
- Hydrate leaves a half-present key pair in place, because that is what the store does. It does not remove it.
- Debounce teardown: the component has no cleanup effect, so a pending timer survives unmount. Nothing is claimed about cancellation on teardown.
- Debounce.SearchBar.constructor: the `delay` and `onChange` props are fixed for the component's life. Re-rendering with different props (which rebuilds the callback but keeps the timer handle) is not modelled.
- Auth.AuthStore.Login: storage calls are assumed to succeed. In the source `localStorage.setItem` can throw (a quota error, or storage blocked by the browser). If the second write throws after the first succeeded, storage holds the new token with no user or with the old one, memory is not updated, and the exception reaches the caller. That path is not modelled.
- Auth.RunKeepsKeysPaired: the two keys stay paired only under the assumption above that every storage write succeeds. A failing second `setItem` in login leaves them unpaired.
- JsonValue.Digits: turning a number into the text that storage keeps is modelled as its exact decimal digits. JavaScript's `String(n)` rounds integers above 2^53 and switches to exponent form from 10^21 (`"1e+21"`); neither is modelled. Only a numeric access token reaches this code.
- Page arithmetic: `page`, `limit`, `skip` and `total` are JavaScript numbers, which are doubles. The model keeps them as unbounded integers. A fractional page such as `setPage(2.5)` cannot be expressed, and precision loss above 2^53 is not modelled.
- Timers: time is an integer millisecond clock advanced by explicit pauses. Browsers run delays above 2^31 - 1 ms at once, which is not modelled. Non-numeric delays are not modelled either.
- JSON.stringify and JSON.parse are an abstract codec constrained only by the laws in `Lawful`. JSON numbers are integers.
- Auth.AuthStore.Login: JavaScript `undefined` and `null` are both `JNull` in memory. They differ only in storage, where a missing access token is stored as the text "undefined".
- The route guard (components/ProtectedRoute.js) is reduced to the predicate `RedirectsToLogin`. Its effects and the navigation are not modelled.
- The login page, the cards, the navigation bar, the category filter and the list and detail pages are presentation. The login page's extra store fields (`loginUser`, `loading`, `error`, `clearError`) are not defined by the session store, so they are not modelled.

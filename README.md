# Product-feed client: a verified model of its client-side logic

This project models the small pieces of real logic in a React Native
shopping client. The client has splash, login, product-feed and
product-detail screens. It talks to the `dummyjson.com` REST service
through an RTK Query API and keeps its session in a Redux store. Each
piece is modelled in the form the source gives it:

- **`FeedScreen`** (`feed_screen.dfy`): the feed's pagination state
  machine. The state is `products`, `skip`, `hasMore` and `refreshing`, and
  every request asks for `LIMIT = 10` items. The class `Feed` holds the
  state cells that the React setters update. Its methods `LoadProducts`,
  `InitialLoad`, `HandleLoadMore` and `HandleRefresh` are each proved equal
  to a pure transition function: `Load`, `LoadMore` or `Refresh`. The
  properties are lemmas about those functions. A fetch is one atomic step,
  and its outcome (a page plus the server's `total`, or a failure) is a
  parameter. `isFetching` is an input flag. The field `requests` logs every
  `fetchProducts` call and stands in for the network.
- **`LoginScreen`** (`login_screen.dfy`): the form fields, the trimming
  input handlers, and `handleLogin`. JavaScript's `String.prototype.trim`
  is modelled with ECMAScript's own set of whitespace and line-terminator
  code points. The login mutation's answer is a parameter. The outcome
  says whether a request was made with which body, plus either the
  `setCredentials` payload (followed by the move to the feed) or the alert
  that was shown.
- **`FcmSlice`** (`fcm_slice.dfy`): the push-token slice. It has the
  slice's reducer as a function, and a class whose three methods are the
  in-place case reducers.
- **`ProductsApi`** (`products_api.dfy`): the `getProducts` query path
  `/products?limit=<n>&skip=<m>`. A strict parser inverts it, and the
  endpoint's cache tags are included.
- **`BaseApi`** (`base_api.dfy`): `prepareHeaders`, which adds
  `authorization: Bearer <token>` only when the session token is truthy.
  It is modelled as a method on a mutable header object, specified by a
  function on the header map. The declared tag types are here too.
- `Common` (`common.dfy`): `Option` for JavaScript's nullable values, and
  `Min`.

Behaviour of the code worth noting:

- Refresh does not clear the list before fetching. A failed refresh leaves
  the old list, `skip` and `hasMore` in place.
- `skip` is not monotone: a successful refresh sets it back to `LIMIT`.
- A failed initial load leaves the list as it was (empty), and `hasMore`
  stays `true`.
- Logout and late responses have no stale-response guard, and the model
  adds none.

## Model

| member | source | states |
|---|---|---|
| FeedScreen.InitialState | src/screens/FeedScreen.tsx:35-38 | the feed starts with no products, `skip` 0, `hasMore` true, not refreshing, and no request issued |
| FeedScreen.Load | src/screens/FeedScreen.tsx:47-62 | one request for `LIMIT` items at `skipValue`; on success the page is appended after the old list, in order, or replaces it; `skip = skipValue + LIMIT` and `hasMore = skipValue + LIMIT < total`; a failure leaves products, `skip` and `hasMore` unchanged |
| FeedScreen.Mounted | src/screens/FeedScreen.tsx:42-45 | the mount effect issues exactly one request, at skip 0, and replaces the list with the first page |
| FeedScreen.LoadMore | src/screens/FeedScreen.tsx:64-68 | while a fetch is in flight or once `hasMore` is false nothing changes and no request is issued; otherwise it is a load at the current `skip` that appends |
| FeedScreen.Refresh | src/screens/FeedScreen.tsx:70-74 | a refresh issues one request at skip 0 that is flagged as made while refreshing; the list is replaced, not appended to; `refreshing` is false afterwards whether or not the fetch succeeded; a failure keeps products, `skip` and `hasMore` |
| FeedScreen.StepKeepsSettled | src/screens/FeedScreen.tsx:47-74 | each user event keeps `skip` a whole number of pages, leaves no refresh in progress, and issues only whole-page requests of `LIMIT` items |
| FeedScreen.RunKeepsSettled | src/screens/FeedScreen.tsx:42-74 | every state reachable from the mount through any sequence of load-more and refresh events has `skip` a multiple of `LIMIT`, `refreshing` false and every request at a whole-page offset |
| FeedScreen.InFlightEndReachedIgnored | src/screens/FeedScreen.tsx:65 | any number of end-of-list triggers while a fetch is in flight change nothing and issue no request |
| FeedScreen.PageRequests | src/screens/FeedScreen.tsx:49 | the request log of an uninterrupted scroll: one request per page, the i-th at offset `i * LIMIT` |
| FeedScreen.ScrollShape | src/screens/FeedScreen.tsx:29-68 | against a server that pages honestly through a catalog, mounting and then n load-more triggers leave exactly the first `min(skip, total)` products in order; `skip` grows by one page per fetch; `hasMore` is false exactly when `skip >= total`, and `skip` is then the first page boundary at or past `total`; one request was made per page |
| FeedScreen.ScrollHasNoDuplicates | src/screens/FeedScreen.tsx:51-53 | with distinct catalog ids, the accumulated list never shows a product twice |
| FeedScreen.WorkedExample | src/screens/FeedScreen.tsx:29-68 | with 25 products, skips 0, 10 and 20 give `skip` 10, 20, 30, lists of 10, 20 and 25 products, `hasMore` true, true, false; three requests in all; a further trigger changes nothing |
| FeedScreen.RefreshRestartsFeed | src/screens/FeedScreen.tsx:70-74 | a successful refresh discards all pages loaded before it and leaves the same list, `skip` and `hasMore` as a fresh mount |
| FeedScreen.Feed.constructor | src/screens/FeedScreen.tsx:35-38 | the state cells start at their `useState` values, which satisfy the settled invariant |
| FeedScreen.Feed.LoadProducts | src/screens/FeedScreen.tsx:47-62 | the setters leave the state that `Load` describes |
| FeedScreen.Feed.InitialLoad | src/screens/FeedScreen.tsx:43-45 | the effect is `loadProducts(0, false)`; keeps the settled invariant |
| FeedScreen.Feed.HandleLoadMore | src/screens/FeedScreen.tsx:64-68 | reports whether the guard let a load through; leaves the state `LoadMore` describes; keeps the settled invariant |
| FeedScreen.Feed.HandleRefresh | src/screens/FeedScreen.tsx:70-74 | sets `refreshing`, loads at 0 without appending, clears `refreshing`; leaves the state `Refresh` describes; keeps the settled invariant |
| LoginScreen.TrimStartSpec | src/screens/LoginScreen.tsx:42 | removing leading whitespace keeps a suffix, drops only whitespace, and leaves a non-whitespace first character |
| LoginScreen.TrimEndSpec | src/screens/LoginScreen.tsx:42 | removing trailing whitespace keeps a prefix, drops only whitespace, and leaves a non-whitespace last character |
| LoginScreen.TrimSpec | src/screens/LoginScreen.tsx:42-54 | `trim()` yields a slice of its input with no whitespace at either end and only whitespace outside it; the result is empty exactly when the input is all whitespace |
| LoginScreen.TrimIdempotent | src/screens/LoginScreen.tsx:104 | trimming a trimmed string changes nothing |
| LoginScreen.FieldError | src/screens/LoginScreen.tsx:42-54 | a field's error is its message when the value is only whitespace, and `''` otherwise |
| LoginScreen.Validate | src/screens/LoginScreen.tsx:40-56 | the username error is 'Username is required' or `''` and the password error is 'Password is required' or `''`, each decided on its own field, so both can be set at once; the form is valid exactly when neither field is all whitespace |
| LoginScreen.ToCredentials | src/screens/LoginScreen.tsx:62-75 | the payload's user has the seven fields `id`, `username`, `email`, `firstName`, `lastName`, `gender`, `image` of the response, and its token is the response's token |
| LoginScreen.CredentialsMappingIsBijective | src/screens/LoginScreen.tsx:62-75 | the credential mapping loses no response field and invents none: it is inverted by reading the fields back |
| LoginScreen.AlertMessage | src/screens/LoginScreen.tsx:79-84 | the alert shows `error.data.message` when it is present and not empty, and 'Invalid username or password' otherwise; it is never empty |
| LoginScreen.LoginEffectOf | src/screens/LoginScreen.tsx:39-85 | there is no request exactly when validation fails; a request carries the stored username and password; credentials are dispatched exactly when the form is valid and the server accepts, and they are the mapped response; a rejection shows the 'Login Failed' alert with the fallback message and dispatches nothing |
| LoginScreen.PasswordSentUntrimmed | src/screens/LoginScreen.tsx:49-59 | a space-padded password passes validation in trimmed form but is sent padded |
| LoginScreen.BlankPasswordNotSubmitted | src/screens/LoginScreen.tsx:49-56 | a blank password sets 'Password is required' and makes no request |
| LoginScreen.LoginForm.constructor | src/screens/LoginScreen.tsx:31-34 | all four fields start empty, and the stored username is trimmed |
| LoginScreen.LoginForm.OnChangeUsername | src/screens/LoginScreen.tsx:104 | stores the typed text trimmed, so the stored username stays trimmed; nothing else changes |
| LoginScreen.LoginForm.OnChangePassword | src/screens/LoginScreen.tsx:112 | stores the typed text unchanged; nothing else changes |
| LoginScreen.LoginForm.HandleLogin | src/screens/LoginScreen.tsx:39-85 | keeps the field values, sets both error fields as `Validate` decides, and returns the effect `LoginEffectOf` gives |
| FcmSlice.InitialState | src/store/slices/fcmSlice.ts:8-11 | the slice starts with a `null` token and permission not granted |
| FcmSlice.Reduce | src/store/slices/fcmSlice.ts:16-27 | `setFcmToken` sets the token, `setPermissionGranted` sets the flag, `clearFcmToken` sets the token to `null`; each leaves the other field unchanged; any other action leaves the state as it is |
| FcmSlice.ClearIdempotent | src/store/slices/fcmSlice.ts:23-25 | clearing the token twice equals clearing it once |
| FcmSlice.LastTokenWins | src/store/slices/fcmSlice.ts:17-19 | after `setFcmToken(a)` then `setFcmToken(b)` the state is that of `setFcmToken(b)` alone |
| FcmSlice.TokenAndPermissionCommute | src/store/slices/fcmSlice.ts:17-25 | token actions and permission actions may be swapped without changing the result |
| FcmSlice.PermissionIsLastGranted | src/store/slices/fcmSlice.ts:17-25 | after any sequence of actions, the permission flag is the payload of the last `setPermissionGranted`, or its old value if there was none |
| FcmSlice.FcmStore.constructor | src/store/slices/fcmSlice.ts:8-11 | the store's slice starts in the initial state |
| FcmSlice.FcmStore.SetToken | src/store/slices/fcmSlice.ts:17-19 | assigns the token and leaves the permission flag |
| FcmSlice.FcmStore.SetPermission | src/store/slices/fcmSlice.ts:20-22 | assigns the permission flag and leaves the token |
| FcmSlice.FcmStore.ClearToken | src/store/slices/fcmSlice.ts:23-25 | sets the token to `null` and leaves the permission flag |
| ProductsApi.Decimal | src/store/services/productsApi.ts:27 | the interpolated number is canonical decimal text: non-empty, digits only, no leading zero |
| ProductsApi.DecimalRoundTrip | src/store/services/productsApi.ts:27 | reading the decimal text of n gives back n, and canonical text that reads as n is exactly the decimal text of n |
| ProductsApi.QueryPath | src/store/services/productsApi.ts:27 | the path always begins with `/products?limit=` |
| ProductsApi.SplitQueryPath | src/store/services/productsApi.ts:27 | a path that splits is the fixed head, the limit digits, `&skip=`, and the skip text, in that order |
| ProductsApi.SplitBuiltPath | src/store/services/productsApi.ts:27 | a built path splits into the decimal texts of `limit` and `skip` |
| ProductsApi.QueryPathRoundTrip | src/store/services/productsApi.ts:27 | parsing the built path recovers `(limit, skip)` |
| ProductsApi.ParsedPathIsQueryPath | src/store/services/productsApi.ts:27 | every text the parser accepts is exactly the path built from what it parses to |
| ProductsApi.QueryPathInjective | src/store/services/productsApi.ts:27 | distinct argument pairs give distinct paths |
| ProductsApi.LimitBeforeSkip | src/store/services/productsApi.ts:27 | `limit`'s digits follow the head, `&skip=` follows them, and `skip`'s digits end the path |
| ProductsApi.ProvidedTags | src/store/services/productsApi.ts:28 | the endpoint provides exactly one tag, `Products`, and it is one of the API's declared tag types |
| BaseApi.BearerValue | src/store/services/baseApi.ts:13 | the header value is `Bearer ` followed by the token itself |
| BaseApi.PreparedHeaders | src/store/services/baseApi.ts:10-16 | with a truthy token `authorization` holds `Bearer <token>`; with a `null`, missing or empty token the headers are exactly as before; every other header keeps its presence and value |
| BaseApi.PreparedHeadersIdempotent | src/store/services/baseApi.ts:12-15 | preparing the headers twice with the same token equals preparing them once |
| BaseApi.OnlyAuthorizationChanges | src/store/services/baseApi.ts:13 | a header whose value changed is `authorization`, and only when the token is truthy |
| BaseApi.Headers.constructor | src/store/services/baseApi.ts:10 | the header object holds the given entries |
| BaseApi.Headers.Set | src/store/services/baseApi.ts:13 | `headers.set` replaces or adds exactly one entry |
| BaseApi.PrepareHeaders | src/store/services/baseApi.ts:10-16 | updates the given header object in place, as `PreparedHeaders` describes, and returns that same object |

## Left out

- Rendering and styling: the JSX, `StyleSheet` blocks, list header, footer and empty components, product cards and the detail screen. They only display state.
- Prices, discounts and ratings: the model's `Product` omits these floating-point fields. The feed logic never reads them. The product card shows `price` and `discountPercentage` as they are, shows the discount badge only when `discountPercentage > 0`, and shows `rating` through `toFixed(1)`; all of this is display.
- Asynchrony: each fetch and each login call is one atomic step, and its outcome is a parameter. Interleavings of in-flight requests are not modelled. `isFetching` is an input, not derived from RTK Query.
- The RTK Query client itself is a library that cannot be seen, so the model leaves out its request cache, tag invalidation, `fetchBaseQuery`'s joining of the base URL `https://dummyjson.com` with the path, the `isLoading` flag and the `unwrap` mechanics.
- `authSlice` and `authApi` are not part of this model. `setCredentials` is recorded as the payload in the `LoggedIn` effect. `logout` (and the feed's logout button) is not modelled.
- Navigation: `navigation.replace('Feed')` is implied by the `LoggedIn` effect, and the splash redirect, the navigator and the product-detail navigation are left out.
- Store wiring: redux-persist rehydration, AsyncStorage, the debug subscriber and the `useFcm` selector hook are left out.
- Push-notification registration is left out. It is calls into Firebase and notifee.
- The login button's `disabled={isLoading}` is not modelled.
- Failure logging: the `console.error` call made when a product fetch fails is left out. It is output only and changes no state.
- ProductsApi.Decimal: writes every natural number as plain decimal digits. JavaScript writes numbers of 10^21 and above in exponent form, and could be given negative or fractional arguments. The screen only ever passes `LIMIT = 10` and whole-page offsets.
- BaseApi.PreparedHeaders: header names are taken as already lower-cased. The real `Headers` object matches names case-insensitively.
- LoginScreen.AlertMessage: `error.data.message` is taken to be a string when present. JavaScript would also show any other truthy value.

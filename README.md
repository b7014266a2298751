# TeleEcom storefront: a Dafny model of its client-side logic

TeleEcom is a React storefront that talks to a Spring backend. This project models the part of the
client that is logic rather than rendering, and proves properties of that model:

- the shared **application context** (`src/Context/Context.jsx`). It holds the session (token,
  user, admin flag), the ordered cart with its merge-or-append `addToCart`, the cart total, and the
  order request built by `placeOrder`. The cart operations are pure functions in `CartOps`; the
  context is the class `Context.AppState`, which changes them in place;
- the **HTTP client** (`src/axios.jsx`): the base-URL choice, the request interceptor that adds a
  bearer credential (section 2.1 of RFC 6750), and the 401 response handling. That handling wipes
  the session keys and redirects to the login page;
- the **route table and the admin guard** (`src/App.jsx`), and the **OAuth2 landing page**
  (`src/components/auth/OAuth2Success.jsx`);
- the **cart screens** (`src/components/pages/Cart.jsx`, `src/components/Cart.jsx`,
  `src/components/CheckoutPopup.jsx`): the stock-bounded quantity buttons, shipping, the 18% tax and
  the grand total, and checkout sequencing;
- the **catalogue screens** (the Home, Product and SearchResults views, old and new): category
  filters, stock predicates and labels, the base64 data-URL builder. That builder is checked
  against the data URL syntax of section 3 of RFC 2397. Also related products, excerpts, and the
  per-card image effect;
- the **order screens** (`src/components/pages/Order.jsx`, `src/components/Order.jsx`,
  `src/components/pages/MyOrders.jsx`, `src/components/MyOrders.jsx`): array coercion, the
  expand toggle, the local status update, search and status filters, summary counts, the status
  timeline, and taxed totals;
- the **product forms** (`src/components/pages/AddProduct.jsx`,
  `src/components/pages/UpdateProduct.jsx`): the error maps, the image checks, the drag state, and
  the `imageChanged` gate on the upload;
- the two **navigation bars**: the theme schemes, the category menu, the visible links, search and
  logout.

Each component's state is a class whose methods are its handlers and effects. Each method states
the new value of every field its handler writes, and what becomes of the session it may touch: the
context's token, user and admin flag, and the browser's storage after every call through the
shared client, whatever its outcome. The browser globals (local storage, the current path and the router's
navigation state) are one shared `Env.Browser` object. Every component holds the same object, just
as they all share the same globals. A network call is an input: its outcome is `Success(data)`,
`Failed` or `Unauthorized` (`Wrappers.Outcome`). Calls made through the shared client pass through
`HttpClient.Respond`, which applies the 401 rules. A response body that the source checks with
`Array.isArray` is a `Wrappers.Payload`. Prices are exact reals, and `Math.round` is
`Numeric.Round`. `parseFloat`, `parseInt` and `Number` are given as partial functions (`None` is
NaN). So is the JSON codec of the stored cart.

Behaviour of the source that the model keeps, and that a reader may not expect:

- `addToCart` applies no stock bound, and the context has no `updateCartQuantity`.
  `src/components/Cart.jsx` nevertheless calls one, so its buttons are modelled as the
  call they would make (`CartView.IncreaseCall`, `CartView.DecreaseCall`); that the call
  throws, and what it was evidently meant to do, is under "## Findings".
- The 401 handler removes the token, the username and the admin flag, but not the cart. It does not
  redirect from `/login` or `/register`.
- After `logout`, the context's persist effect writes the empty cart back under `"cart"`
  (`Context.AppState.PersistCart` runs after `Context.AppState.Logout`).
- `src/components/pages/Cart.jsx` reads an `isLoggedIn` that the context does not provide. Its form
  prefill effect therefore never runs, and the model leaves it out.
- The layout navigation bar's "My Orders" link has no route and falls back to the home page
  (`AppRoutes.MyOrdersLinkUnrouted`).
- The route table in `src/App.jsx` mounts the older views (`src/components/*.jsx`) and the older
  navigation bar. It has no route for the OAuth2 landing page or for either order history. The
  newer `pages/` screens, the layout bar and the landing page are modelled on their own terms.
- `processImage` records a type or size error, but `validateForm` rebuilds the error map and
  only asks for an image to be present (`AddProductPage.ValidationForgetsImageCheck`).
- A non-numeric price parses to NaN and passes the price rule (`ProductForm.UnparsablePriceAccepted`).
  The two forms' stock rules differ (`UpdateProductPage.StockRulesDiffer`).
- The cart row's "Only n left" badge in `src/components/pages/Cart.jsx` has no `> 0` guard
  (`CartPage.CartBadgeWiderThanLowStock`).
- `src/components/pages/MyOrders.jsx` stores the response body unchecked and keeps the old list on
  failure. The older history resets the list to `[]` instead.

## Model

| member | source | states |
|---|---|---|
| Wrappers.AsArray | src/components/pages/Order.jsx:28 | `Array.isArray(data) ? data : []`: an array body gives its items and any other body gives no items |
| Text.Contains | src/components/pages/Order.jsx:97-99 | `includes` holds exactly when the text occurs at some position of the string |
| Text.StartsWith | src/components/SearchResults.jsx:29-30 | definition: `startsWith` holds exactly when the prefix is no longer than the string and its first characters are the prefix |
| Text.ToLower | src/components/pages/Order.jsx:97-98 | lower-casing keeps the length and maps each character on its own |
| Text.TrimEmptyIffBlank | src/components/pages/AddProduct.jsx:98-100 | a string trims to "" exactly when it is all whitespace |
| Text.TrimStart | src/components/pages/AddProduct.jsx:98-100 | the result is a suffix of the string, what it drops is all whitespace, and it does not start with whitespace |
| Text.TrimEnd | src/components/pages/AddProduct.jsx:98-100 | the result is a prefix of the string, what it drops is all whitespace, and it does not end with whitespace |
| Text.Trim | src/components/pages/AddProduct.jsx:98-100 | `trim` gives the middle of the string between an all-whitespace start and an all-whitespace end, itself neither starting nor ending with whitespace (ECMAScript whitespace and line terminators) |
| Text.IntToString | src/components/pages/Order.jsx:99 | `toString` of an id starts with "-" exactly when the id is negative, and what follows is the canonical decimal spelling of its magnitude, whose digit value is that magnitude |
| Text.NatToString | src/components/pages/Order.jsx:99 | the decimal text of a natural number is a canonical digit string (one digit, or no leading zero) whose digit value is the number |
| Text.DigitsRoundTrip | src/components/pages/Order.jsx:99 | every canonical digit string is the text of the number it denotes, so the decimal text is a bijection onto canonical digit strings |
| Text.IntToStringInjective | src/components/pages/Order.jsx:99 | two integers with the same text are equal, so an id search by full id text singles out the id |
| Seqs.Filter | src/components/pages/Order.jsx:95-102 | `filter` keeps exactly the elements satisfying the predicate and is no longer than its input |
| Seqs.FilterIdempotent | src/components/pages/Order.jsx:95-102 | filtering a filtered list again with the same predicate changes nothing |
| Seqs.Count | src/components/pages/Order.jsx:106-109 | a count of matching elements never exceeds the length |
| Seqs.CountDisjoint | src/components/pages/Order.jsx:105-110 | three predicates no element satisfies twice count, together, at most the whole list |
| Seqs.Take | src/components/pages/UpdateProduct.jsx:288 | `slice(0, n)` gives the first n elements, or all of them when there are fewer |
| Seqs.SumAppend | src/Context/Context.jsx:108-111 | the sum over two concatenated lists is the sum of the two sums |
| Seqs.Sum | src/Context/Context.jsx:108-111 | definition: the `reduce` with `+` from 0, the sum of f over the list; Seqs.SumAppend splits it over concatenation |
| Seqs.Dedup | src/components/layout/Navbar.jsx:34 | `[...new Set(s)]` has no repeated element and holds exactly the elements of s |
| Seqs.DedupKeepsFirstOccurrenceOrder | src/components/layout/Navbar.jsx:34 | the deduplicated list keeps the order in which elements first occur |
| Numeric.Round | src/components/pages/Cart.jsx:103 | `Math.round` lands within one half of its argument, with halves rounding up |
| Env.Browser.GetItem | src/Context/Context.jsx:10-13 | `getItem` finds a value exactly for a stored key, and it is the stored value |
| Env.Browser.SetItem | src/Context/Context.jsx:66-68 | `setItem` stores the value under its key and leaves the other keys, the path and the navigation state alone |
| Env.Browser.RemoveItem | src/Context/Context.jsx:76-77 | `removeItem` drops only that key |
| Env.Browser.Navigate | src/axios.jsx:47 | a navigation sets the path and the navigation state and leaves storage alone |
| Text.TrimTrailingSlashesIdempotent | src/axios.jsx:9 | cleaning twice equals cleaning once |
| Text.UnslashedIsTrimmed | src/axios.jsx:9 | a value that does not end in "/" is left unchanged |
| HttpClient.BaseUrl | src/axios.jsx:12-21 | VITE_API_URL (cleaned) wins when set; otherwise a cleaned VITE_BASE_URL gets "/api" appended; otherwise the fixed Render host |
| HttpClient.BaseUrlHasNoTrailingSlash | src/axios.jsx:12-21 | whichever branch is taken, the base URL never ends in "/" |
| HttpClient.BearerCredentials | src/axios.jsx:31 | the header value is "Bearer " followed by exactly the token |
| HttpClient.WithBearer | src/axios.jsx:28-34 | a non-empty stored token sets Authorization to its bearer value; without one the headers are untouched |
| HttpClient.NoTokenNoBearer | src/axios.jsx:29-32 | once the token key is gone from storage, the interceptor adds no header |
| HttpClient.AfterUnauthorized | src/axios.jsx:40-44 | a 401 removes the token, username and isAdmin keys and keeps every other key with its value |
| HttpClient.UnauthorizedKeepsCart | src/axios.jsx:40-44 | a 401 keeps the stored cart, and a second 401 changes nothing more |
| HttpClient.RedirectOn401 | src/axios.jsx:46-48 | a redirect to /login happens exactly when the current path is neither /login nor /register |
| HttpClient.RedirectOnce | src/axios.jsx:46-48 | after the redirect, a further 401 does not redirect again |
| HttpClient.OnRequest | src/axios.jsx:28-34 | the request headers become WithBearer of the old headers and the current storage |
| HttpClient.Respond | src/axios.jsx:37-52 | the outcome is passed on unchanged; a 401 leaves the storage as AfterUnauthorized and the path as RedirectOn401 says, and other outcomes leave the browser alone |
| CartOps.Find | src/Context/Context.jsx:90 | `find` finds nothing exactly when no line has the id; otherwise it returns a line of the cart with that id |
| CartOps.HasId | src/Context/Context.jsx:88-100 | definition: some line carries the id, the test `cart.find` answers; CartOps.Find is None exactly when it fails |
| CartOps.DistinctIds | src/Context/Context.jsx:88-100 | definition: no two lines carry one product id, the invariant CartOps.AddKeepsDistinct and CartOps.RemoveKeepsDistinct preserve |
| CartOps.QuantityOf | src/Context/Context.jsx:88-103 | definition: the units of a product over all its lines; CartOps.AddQuantity and CartOps.RemoveQuantity state how add and remove move it |
| CartOps.FindUnique | src/Context/Context.jsx:90 | with unique ids, the line found is the one line carrying the id |
| CartOps.Bump | src/Context/Context.jsx:92-96 | same length and products; exactly the lines with the id gain qty |
| CartOps.WithAdded | src/Context/Context.jsx:88-100 | an existing id gains qty in place, with the length and products unchanged; a new id is appended as a line of qty |
| CartOps.WithoutId | src/Context/Context.jsx:102-104 | no line with the id is left, every other line survives, and nothing new appears |
| CartOps.BumpAbsent | src/Context/Context.jsx:92-96 | bumping an id no line carries changes nothing |
| CartOps.AddKeepsDistinct | src/Context/Context.jsx:88-100 | adding keeps product ids unique |
| CartOps.AddTwice | src/Context/Context.jsx:88-100 | adding a then b of a product equals adding a + b |
| CartOps.BumpTwice | src/Context/Context.jsx:92-96 | two in-place bumps of one id are one bump by their sum |
| CartOps.AddTwiceAbsent | src/Context/Context.jsx:98 | a product appended and then added again is a single last line carrying the summed quantity |
| CartOps.AddQuantity | src/Context/Context.jsx:88-100 | the added product's quantity grows by qty and every other product's stays |
| CartOps.RemoveQuantity | src/Context/Context.jsx:102-104 | after removal the product's quantity is 0 and every other product's stays |
| CartOps.RemoveKeepsOrder | src/Context/Context.jsx:103 | the surviving lines keep their order (a subsequence of the cart) |
| CartOps.RemoveKeepsDistinct | src/Context/Context.jsx:103 | removing keeps product ids unique |
| CartOps.RemoveAbsentAndTwice | src/Context/Context.jsx:103 | removing an absent id changes nothing, and removing twice equals removing once |
| CartOps.RemoveUndoesAdd | src/Context/Context.jsx:98-103 | removing a product that was just appended restores the cart |
| CartOps.LineTotal | src/Context/Context.jsx:109 | definition: `Number(item.price) * item.quantity` for one line |
| CartOps.CartTotal | src/Context/Context.jsx:108-111 | definition: the sum of the line totals; CartOps.AddTotal, CartOps.BumpTotal and CartOps.RemoveTotal state how it moves |
| CartOps.AddTotal | src/Context/Context.jsx:88-111 | adding qty grows cartTotal by qty units priced as the stored line's product (or as the new product when it is appended) |
| CartOps.BumpTotal | src/Context/Context.jsx:92-111 | bumping a product's one line changes the total by exactly that line's change |
| CartOps.RemoveTotal | src/Context/Context.jsx:103-111 | removing a product takes exactly its line total off cartTotal |
| CartOps.OrderItems | src/Context/Context.jsx:126-129 | one item per line, in order, with the line's id and quantity |
| CartOps.OrderRequestFor | src/Context/Context.jsx:116-135 | a request exists iff there is a token and the cart is non-empty; it carries the name, the email and every line's id and quantity in order |
| CartOps.OrderItemsDistinct | src/Context/Context.jsx:126-129 | a cart with unique ids gives order items with unique product ids |
| Context.RestoredCart | src/Context/Context.jsx:21-28 | an absent or empty stored cart gives []; a stored cart that parses gives the parsed cart; one that fails to parse gives [] |
| Context.PersistedCartRestores | src/Context/Context.jsx:21-42 | with a faithful JSON codec, the cart the persist effect wrote is the cart restored at the next start |
| Context.OrNull | src/Context/Context.jsx:10-11 | `getItem(key) \|\| null` is present exactly when the stored value is a non-empty string, and is then that value |
| Context.AdminFlagText | src/Context/Context.jsx:68 | the stored admin flag is "true" exactly when the flag is set |
| Context.AppState.constructor | src/Context/Context.jsx:10-28 | user and token from storage (empty counts as absent), isAdmin iff the stored flag is exactly "true", no products, not loading, the restored cart |
| Context.AppState.IsAuthenticated | src/Context/Context.jsx:152 | authenticated exactly when a non-empty token is held |
| Context.AppState.Login | src/Context/Context.jsx:65-73 | writes the token, username and admin-flag keys and nothing else; sets the three session fields; the session is authenticated iff the token is non-empty; the cart and products are untouched |
| Context.AppState.Logout | src/Context/Context.jsx:75-85 | removes the three session keys and the cart key; clears the session and the cart; the session is no longer authenticated |
| Context.AppState.AddToCart | src/Context/Context.jsx:88-100 | the cart becomes `CartOps.WithAdded` of the old cart and keeps ids unique; the session and products stay |
| Context.AppState.RemoveFromCart | src/Context/Context.jsx:102-104 | the cart becomes `CartOps.WithoutId` of the old cart and keeps ids unique; the session and products stay |
| Context.AppState.ClearCart | src/Context/Context.jsx:106 | the cart is empty and nothing else changes |
| Context.AppState.Total | src/Context/Context.jsx:108-111 | the total is the cart total, 0 for an empty cart |
| Context.AppState.PersistCart | src/Context/Context.jsx:40-42 | storage gains the encoded cart under "cart" and nothing else changes |
| Context.AppState.SyncAuthHeader | src/Context/Context.jsx:31-37 | the default Authorization header is the bearer value of the token while authenticated, and absent otherwise |
| Context.AppState.FetchProducts | src/Context/Context.jsx:45-58 | products become the array body, or [] for a non-array body or a failure; loading ends false; the call passes the 401 interceptor |
| Context.AppState.PlaceOrder | src/Context/Context.jsx:114-145 | without a token or with an empty cart nothing is sent and it resolves to nothing; otherwise it sends every line in order; success clears the cart and returns the data; failure rejects and keeps the cart |
| Context.ReloadAfter | src/axios.jsx:40-48 | a 401 away from /login and /register clears the session keys and reloads: the rebuilt context is signed out (no token, no user, not admin) and holds the stored cart; otherwise nothing is reloaded |
| AppRoutes.UpdatePath | src/components/Product.jsx:67 | the edit path is "/product/update/" followed by the id, which is the route-table path of the edit page |
| AppRoutes.UpdatePathJoined | src/components/Product.jsx:67 | the edit page's segments join to "/product/update/" followed by the id |
| AppRoutes.EditPathGuarded | src/App.jsx:60-67 | the edit path renders the edit page for an admin, and sends a signed-in customer home |
| Text.TrimTrailingSlashes | src/axios.jsx:9 | the result is a prefix of the input, everything after it is a slash, and it does not end in a slash (the client's `clean`, also used for route matching since every route pattern of src/App.jsx:36-78 accepts trailing slashes) |
| Text.TrimUnique | src/App.jsx:36-78 | that prefix is unique: any prefix followed only by slashes and not ending in one is the trimmed path |
| AppRoutes.SplitFrom | src/App.jsx:36-78 | splitting at every "/" yields at least one piece and no piece holds a "/"; a doubled slash gives an empty piece |
| AppRoutes.JoinOfSplit | src/App.jsx:36-78 | joining the pieces of a split gives back the text that was split |
| AppRoutes.JoinOfPieces | src/App.jsx:36-78 | a path starting with "/" is the join of the pieces after it |
| AppRoutes.Segments | src/App.jsx:36-78 | a path has segments only when, trailing slashes aside, it is "/" followed by non-empty "/"-separated segments: the segments are non-empty and slash-free, and joined they give exactly the trimmed path |
| AppRoutes.SplitFromWord | src/App.jsx:36-78 | characters without a separator extend the piece being read |
| AppRoutes.SplitOfJoin | src/App.jsx:36-78 | splitting the path joined from non-empty segments, after its leading "/", gives those segments |
| AppRoutes.JoinEnds | src/App.jsx:36-78 | a path joined from segments never ends in a slash |
| AppRoutes.TrailingSlashesKeepSegments | src/App.jsx:36-78 | appending slashes to a path never changes its segments |
| AppRoutes.JoinHasNoDoubledSlash | src/App.jsx:36-78 | a path joined from segments never has two slashes in a row |
| AppRoutes.Join | src/App.jsx:36-78 | joining no segments gives "", and any other path starts with "/" |
| AppRoutes.SegmentsOfJoin | src/App.jsx:36-78 | the segments of the path joined from segments are those segments; with Segments' contract, a path has segments exactly when it is such a join followed by slashes |
| AppRoutes.MatchedPagePath | src/App.jsx:38-75 | the route table maps each page's own segments back to that page |
| AppRoutes.PageAt | src/App.jsx:36-78 | a page matched at a location is linked at exactly that location, trailing slashes aside |
| AppRoutes.PageAtJoin | src/App.jsx:36-78 | the path joined from segments shows the page those segments match |
| AppRoutes.RouteAtPage | src/App.jsx:51-75 | a matched page renders when its guard, if any, lets the session through |
| AppRoutes.Matched | src/App.jsx:38-75 | a matched route's page has exactly these segments as its path, so matching loses nothing |
| AppRoutes.PagePath | src/App.jsx:38-75 | definition: the route pattern each page is declared at, with `:id` filled in; AppRoutes.RouteRoundTrip proves each page renders at it |
| AppRoutes.RequireAdmin | src/App.jsx:86-96 | it renders its children exactly when the session is authenticated and admin; an anonymous visitor goes to /login whatever the flag; a signed-in non-admin goes to "/" |
| AppRoutes.AdminOnly | src/App.jsx:51-75 | definition: the three routes wrapped in `RequireAdmin` (add product, product update, orders); AppRoutes.Route renders them only for an authenticated admin |
| AppRoutes.Route | src/App.jsx:36-78 | a path no pattern matches (a doubled slash included) redirects to "/"; a rendered page is the matched page and is linked at the path with its trailing slashes dropped; a matched admin-only page gets exactly the admin guard's outcome (the login page when signed out, home for a non-admin, the page for an admin); a public page always renders; every redirect goes to "/" or "/login" |
| AppRoutes.PathOf | src/App.jsx:38-75 | only the home page has the empty path |
| AppRoutes.RouteRoundTrip | src/App.jsx:38-75 | every page renders at its own path, for any session if it is public and for an admin if it is guarded |
| AppRoutes.TrailingSlashesIgnored | src/App.jsx:36-78 | appending slashes to a location never changes what it renders |
| AppRoutes.DoubledSlashHasNoSegments | src/App.jsx:36-78 | a path with two slashes in a row, trailing slashes aside, has no segments |
| AppRoutes.DoubledSlashUnrouted | src/App.jsx:78 | such a path falls to the fallback and redirects to "/" |
| AppRoutes.DoubledAndTrailingSlashes | src/App.jsx:36-78 | "//cart" and "/product//7" redirect to "/", while "/cart/" renders the cart |
| AppRoutes.CartLinkRouted | src/components/Navbar.jsx:263 | the navigation bar's cart link renders the cart for every session |
| AppRoutes.AdminLinksRouted | src/components/Navbar.jsx:230-240 | an admin's "Add Product" and "Orders" links render those pages |
| AppRoutes.AddProductLinkRouted | src/components/Navbar.jsx:230-240 | an admin's "Add Product" link renders the add-product page |
| AppRoutes.OrdersLinkRouted | src/components/Navbar.jsx:230-240 | an admin's "Orders" link renders the orders page |
| AppRoutes.MyOrdersLinkUnrouted | src/components/Navbar.jsx:216 | the "My Orders" link matches no route and falls back to "/" |
| AppRoutes.MyOrdersPathUnmatched | src/App.jsx:38-75 | no route pattern matches "/my-orders" |
| AppRoutes.MyOrdersJoined | src/components/Navbar.jsx:216 | the segment "my-orders" joins to the link's path "/my-orders" |
| AppRoutes.MyOrdersSegmentUnmatched | src/App.jsx:38-75 | the route table has no entry for the segment "my-orders" |
| OAuth2Success.AdminParam | src/components/auth/OAuth2Success.jsx:15 | the admin flag is set exactly when the parameter is the text "true" |
| OAuth2Success.Complete | src/components/auth/OAuth2Success.jsx:11-23 | the last call is a navigation and no earlier call navigates; a login happens iff both the token and the username are non-empty, with those values and the parsed flag; the target is "/" after a login and "/login" otherwise |
| OAuth2Success.OneNavigation | src/components/auth/OAuth2Success.jsx:17-22 | each run navigates exactly once |
| OAuth2Success.AdminTextIsExact | src/components/auth/OAuth2Success.jsx:15 | "True", "1" and a missing value do not grant admin; "true" does |
| OAuth2Success.SignedInSessionMeetsGuard | src/components/auth/OAuth2Success.jsx:17-19 | a session opened here is authenticated, so the admin guard renders exactly when isAdmin was "true" and otherwise sends the user to "/" |
| Display.ToDataUrl | src/components/Home.jsx:27-39 | a missing or empty string gives the fallback image; a "data:" or "http" string is returned as is; anything else becomes a base64 data URL of the given type (Cart.jsx, SearchResults.jsx and the three pages/ screens use the same converter with their own fallback image) |
| Display.IndexOfChar | src/components/Home.jsx:38 | the first position of a character, or -1 exactly when it is absent |
| Display.ParseDataUrl | src/components/Home.jsx:38 | only a "data:" string with a comma parses; the media type read back contains no comma |
| Display.WrappedParses | src/components/Home.jsx:38 | a wrapped string parses back, under the data URL syntax of section 3 of RFC 2397, as base64 data of the given media type whose data is the original string |
| Display.ConvertIdempotent | src/components/Home.jsx:27-39 | converting an already converted URL changes nothing |
| Display.StockLabel | src/components/Home.jsx:184 | the label reads "Out of Stock" exactly when the stock is 0, and "Add to Cart" otherwise (the older product view uses the same rule) |
| Display.OutOfStock | src/components/pages/Home.jsx:161 | definition: unavailable or zero stock, the overlay and disabled-button test; Display.LabelAndDisabledDisagree compares it with the label |
| Display.LowStock | src/components/pages/Home.jsx:223 | definition: stock from 1 to 5, the "Only n left" badge; Display.LowStockIsBuyable relates it to OutOfStock |
| Display.LowStockIsBuyable | src/components/pages/Home.jsx:223 | an available product that shows the "Only n left" badge is not out of stock |
| Display.LabelAndDisabledDisagree | src/components/Home.jsx:182-184 | an "Out of Stock" label always sits on a disabled button, but a disabled button can read "Add to Cart" (an unavailable product that has stock) |
| Display.CardImage | src/components/Home.jsx:138-157 | base64 data is converted; otherwise, with an image name, the fetched object URL is used or the fallback if the fetch fails; with neither, the fallback |
| Display.FetchesImage | src/components/Home.jsx:138-141 | definition: no base64 data but an image name, the case in which a card fetches its image; Display.FetchingCard.LoadImage fetches exactly then |
| Display.CardImageIgnoresUnfetched | src/components/Home.jsx:139-156 | when nothing is fetched, the outcome of the fetch cannot affect the image |
| Display.FetchingCard.constructor | src/components/Home.jsx:136 | a card starts with no image |
| Display.FetchingCard.Src | src/components/Home.jsx:164 | the image shown is the card's image when it is non-empty, else the bundled fallback |
| Display.FetchingCard.LoadImage | src/components/Home.jsx:138-157 | the card settles on `Display.CardImage` for the fetch outcome; the image is requested only when there is no base64 data but an image name (pages/SearchResults.jsx runs the same effect for its cards) |
| CheckoutPopup.ItemImage | src/components/CheckoutPopup.jsx:32-39 | a missing image gives the remote placeholder; any other value converts exactly as the shared converter does |
| CheckoutPopup.CheckoutPopupState.constructor | src/components/CheckoutPopup.jsx:5-8 | empty name and email, not validated, not submitting |
| CheckoutPopup.CheckoutPopupState.EditName | src/components/CheckoutPopup.jsx:78 | the name takes the typed value |
| CheckoutPopup.CheckoutPopupState.EditEmail | src/components/CheckoutPopup.jsx:92 | the email takes the typed value |
| CheckoutPopup.CheckoutPopupState.ButtonsDisabled | src/components/CheckoutPopup.jsx:103-106 | both buttons are disabled exactly while submitting |
| CheckoutPopup.CheckoutPopupState.OnConfirm | src/components/CheckoutPopup.jsx:10-30 | the form is always marked validated; an invalid form calls nothing and leaves the flag alone; a valid form calls the handler with the name and email while submitting, then clears the flag and passes on any rejection |
| CartPage.Increased | src/components/pages/Cart.jsx:45-56 | same products and length; exactly the lines with the id that are below their stock gain one unit |
| CartPage.Decreased | src/components/pages/Cart.jsx:58-64 | same products; lines with other ids are untouched; the id's lines lose one unit but never drop below 1 |
| CartPage.WithinStock | src/components/pages/Cart.jsx:45-64 | definition: every line holds from 1 unit up to its stock, the invariant CartPage.QuantityButtonsKeepBounds proves both buttons keep |
| CartPage.QuantityButtonsKeepBounds | src/components/pages/Cart.jsx:45-64 | both buttons keep every line within [1, stock] |
| CartPage.IncreaseUndoesDecrease | src/components/pages/Cart.jsx:45-64 | away from the bounds, increase after decrease restores the items |
| CartPage.Shipping | src/components/pages/Cart.jsx:102 | shipping is 0 or 99, and 0 exactly when the subtotal is above 999 |
| CartPage.Tax | src/components/pages/Cart.jsx:103 | tax is 18% of the subtotal rounded to the nearest integer (within one half), and never negative for a non-negative subtotal |
| CartPage.GrandTotal | src/components/pages/Cart.jsx:104 | the grand total is the subtotal plus shipping plus tax, and never below the subtotal |
| CartPage.ShowsHint | src/components/pages/Cart.jsx:216-222 | definition: the free-shipping hint shows while shipping is charged; CartPage.HintEarnsFreeShipping proves that is exactly a subtotal of at most 999 |
| CartPage.HintAmount | src/components/pages/Cart.jsx:222 | definition: `1000 - subtotal`, which CartPage.HintEarnsFreeShipping proves is at least 1 and earns free shipping |
| CartPage.HintEarnsFreeShipping | src/components/pages/Cart.jsx:216-222 | the hint shows exactly when the subtotal is at most 999; it then asks for at least 1, and adding that amount makes shipping free |
| CartPage.ShowsOnlyLeft | src/components/pages/Cart.jsx:432 | definition: the cart row badge for a stock of at most 5 with no lower bound; CartPage.CartBadgeWiderThanLowStock compares it with the product badge |
| CartPage.CartBadgeWiderThanLowStock | src/components/pages/Cart.jsx:432-436 | the cart row's "Only n left" badge shows wherever the product pages' badge does, and additionally exactly when the stock is 0 or below |
| CartPage.CartPageState.constructor | src/components/pages/Cart.jsx:12-21 | no local items, a zero total, the dialog closed, not processing, an empty form |
| CartPage.CartPageState.SyncFromContext | src/components/pages/Cart.jsx:24-26 | the local items become the context cart, and nothing else changes |
| CartPage.CartPageState.SyncTotal | src/components/pages/Cart.jsx:29-32 | the total becomes the sum of price times quantity over the local items |
| CartPage.CartPageState.IncreaseQuantity | src/components/pages/Cart.jsx:45-56 | only the local items change, to `Increased`; the context cart is not touched |
| CartPage.CartPageState.DecreaseQuantity | src/components/pages/Cart.jsx:58-64 | only the local items change, to `Decreased` |
| CartPage.CartPageState.RemoveFromCart | src/components/pages/Cart.jsx:66-69 | the id is removed from both the context cart and the local items; the session, the total, the dialog flags and the form fields are kept |
| CartPage.CartPageState.ClearAll | src/components/pages/Cart.jsx:120-123 | both the context cart and the local items are empty |
| CartPage.CartPageState.OpenCheckout | src/components/pages/Cart.jsx:231 | the dialog opens and nothing else changes |
| CartPage.CartPageState.EditName | src/components/pages/Cart.jsx:280 | the name field takes the typed value and the email is kept |
| CartPage.CartPageState.EditEmail | src/components/pages/Cart.jsx:294 | the email field takes the typed value and the name is kept |
| CartPage.CartPageState.Checkout | src/components/pages/Cart.jsx:78-99 | with no items nothing is sent and the browser is untouched; otherwise the context's request is sent; whenever placeOrder resolves (even without sending) both carts empty and the dialog closes; a rejection keeps both carts; a sent request has the client's 401 effects on the browser and an unsent one leaves it untouched; processing ends false; the form, the total, the session and the products are kept |
| CartPage.CheckoutWithoutTokenEmptiesCart | src/components/pages/Cart.jsx:88-91 | a signed-out shopper with one line checks out: no order is sent, yet the cart is empty afterwards |
| CartPage.CartPageState.CheckoutGuarded | src/components/pages/Cart.jsx:78-99 | the corrected checkout: the carts are emptied and the dialog closed only when an order was sent and accepted, and otherwise both carts and the dialog are kept; with no items the browser is untouched; a sent request has the client's 401 effects on the browser; processing ends false; the form, the total, the session and the products are kept |
| CartView.IncreaseCall | src/components/Cart.jsx:17-24 | a call is made exactly for an existing line below its stock, and asks for one more unit |
| CartView.DecreaseCall | src/components/Cart.jsx:26-31 | a call is made exactly for an existing line above 1, and asks for one unit fewer |
| CartView.RequestedQuantitiesInRange | src/components/Cart.jsx:17-31 | a requested quantity targets a line of the cart, never exceeds its stock on increase, and is never below 1 on decrease |
| CartView.ButtonAsWritten | src/components/Cart.jsx:9-31 | a handler that makes no call does nothing; one that calls `updateCartQuantity` throws exactly because the context value has no such key |
| CartView.QuantityButtonsThrow | src/components/Cart.jsx:9-31 | every click of either quantity button that reaches the call ends in a TypeError, so the buttons never change the cart |
| CartView.SetQuantity | src/components/Cart.jsx:20 | the evidently intended `updateCartQuantity(id, q)`: same length and products, the lines with the id take quantity q and the others keep theirs |
| CartView.ButtonIntended | src/components/Cart.jsx:17-31 | the corrected buttons: no call leaves the cart alone, and a call yields an updated cart of the same length |
| CartView.IntendedButtonsMatchCartPage | src/components/Cart.jsx:17-31 | on a cart with distinct ids and every line within [1, stock], the corrected increase writes exactly `CartPage.Increased` and the corrected decrease exactly `CartPage.Decreased`, and a click that makes no call is one those would not change anything for |
| CartView.IntendedButtonsKeepBounds | src/components/Cart.jsx:17-31 | the corrected buttons keep every line of such a cart within [1, stock] |
| CartView.CartViewState.constructor | src/components/Cart.jsx:11 | the dialog starts closed |
| CartView.CartViewState.Items | src/components/Cart.jsx:14 | the items shown are the context cart itself |
| CartView.CartViewState.TotalPrice | src/components/Cart.jsx:15 | the total shown is the context's cart total of those items |
| CartView.CartViewState.OpenModal | src/components/Cart.jsx:179 | the dialog opens |
| CartView.CartViewState.CloseModal | src/components/Cart.jsx:193 | the dialog closes |
| CartView.CartViewState.RemoveFromCart | src/components/Cart.jsx:33-35 | the context cart loses every line with the id |
| CartView.CartViewState.Checkout | src/components/Cart.jsx:48-61 | an empty cart sends nothing; otherwise the context's request; success empties the cart and closes the dialog; a failure keeps both and is swallowed; a silent resolve without a token closes the dialog, keeps the cart and leaves the browser untouched; a sent request has the client's 401 effects on the browser; the session and the products are kept |
| ProductPage.AddedTimesIsOneAdd | src/components/pages/Product.jsx:77-82 | calling `addToCart(product)` n times is adding n units at once |
| ProductPage.AddedTimes | src/components/pages/Product.jsx:77-82 | definition: the cart after n calls of `addToCart(product)`, which ProductPage.AddedTimesIsOneAdd proves is one addition of n units |
| ProductPage.Decrement | src/components/pages/Product.jsx:221 | the minus button takes one unit off above 1 and gives exactly 1 at or below 1, so it never goes below 1 |
| ProductPage.Increment | src/components/pages/Product.jsx:232 | the plus button adds one unit below the stock and gives exactly the stock at or above it, so it never exceeds the stock |
| ProductPage.SelectorStaysInRange | src/components/pages/Product.jsx:221-232 | from a quantity in [1, stock], both buttons stay in [1, stock] |
| ProductPage.IsOutOfStock | src/components/pages/Product.jsx:84 | definition: out of stock while no product is loaded, else Display.OutOfStock of the product |
| ProductPage.RelatedTo | src/components/pages/Product.jsx:88 | definition: same category and a different id, the filter ProductPage.RelatedProducts applies |
| ProductPage.RelatedProducts | src/components/pages/Product.jsx:87-89 | the strip is the first min(4, n) of the n other products of the same category, in catalogue order; with fewer than four, every such product is included |
| ProductPage.RelatedKeepOrder | src/components/pages/Product.jsx:87-89 | the related products keep their catalogue order |
| ProductPage.ProductPageState.constructor | src/components/pages/Product.jsx:15-20 | nothing loaded, an empty image, loading, one unit selected, no dialog, not deleting |
| ProductPage.ProductPageState.Mount | src/components/pages/Product.jsx:23-59 | without an id: go home and change nothing; a loaded product is stored and its image fetched iff it has an image name; a failed fetch goes home with no navigation state; an image fetch failure shows the unplugged picture; a 401 from either request clears the stored session and redirects to "/login" where the client would, and otherwise the storage is kept; with the product loaded and no 401 the location is kept; loading ends |
| ProductPage.ProductPageState.DecrementQuantity | src/components/pages/Product.jsx:221 | the quantity becomes `Decrement` of the old one |
| ProductPage.ProductPageState.IncrementQuantity | src/components/pages/Product.jsx:232 | the quantity becomes `Increment` of the old one, bounded by the product's stock |
| ProductPage.ProductPageState.HandleAddToCart | src/components/pages/Product.jsx:77-82 | the loop leaves the cart as one addition of `quantity` units, and unchanged when the quantity is below 1 |
| ProductPage.ProductPageState.EditProduct | src/components/pages/Product.jsx:167 | the browser goes to the product's edit path |
| ProductPage.ProductPageState.OpenDeleteModal | src/components/pages/Product.jsx:177 | the confirmation dialog opens |
| ProductPage.ProductPageState.CloseDeleteModal | src/components/pages/Product.jsx:417 | the confirmation dialog closes |
| ProductPage.ProductPageState.DeleteProduct | src/components/pages/Product.jsx:61-75 | on success the numeric id leaves the cart, the page goes home with no navigation state and the storage is kept; on failure the cart is kept; the dialog closes and the deleting flag is false either way |
| ProductView.ProductViewState.constructor | src/components/Product.jsx:11-13 | nothing loaded, an empty image, and the spinner showing |
| ProductView.ProductViewState.ShowsSpinner | src/components/Product.jsx:75 | definition: the spinner shows while loading or with no product; the constructor starts with it showing |
| ProductView.ProductViewState.Mount | src/components/Product.jsx:17-52 | without an id: go home and change nothing; a loaded product is stored and its image fetched iff it has an image name; a failed product fetch only ends the loading; a failed image fetch keeps the empty image; a 401 from either request clears the stored session and redirects to "/login" where the client would, and otherwise the storage and the location are kept |
| ProductView.ProductViewState.HandleAddToCart | src/components/Product.jsx:70-73 | the cart gains exactly one unit of the product |
| ProductView.ProductViewState.HandleEditClick | src/components/Product.jsx:66-68 | the browser goes to the product's edit path, and storage is untouched |
| ProductView.ProductViewState.DeleteProduct | src/components/Product.jsx:54-64 | on success the numeric id leaves the cart, the view goes home with no navigation state and the storage is kept; on failure the cart is kept |
| HomePage.FilteredProducts | src/components/pages/Home.jsx:35-37 | with no category selected every product is shown; otherwise exactly the products whose category equals the selection up to letter case |
| HomePage.InCategoryIgnoringCase | src/components/pages/Home.jsx:35-37 | definition: a product with a category equal to the selection after lower-casing both; HomePage.FilterIgnoresCase proves the selection's case does not matter |
| HomePage.FilteredKeepsOrder | src/components/pages/Home.jsx:35-37 | the shown products keep their catalogue order |
| HomePage.FilterIgnoresCase | src/components/pages/Home.jsx:36 | two selections that differ only in letter case show the same products |
| HomePage.HomePageState.constructor | src/components/pages/Home.jsx:10-11 | no toast showing and no toast product |
| HomePage.HomePageState.HandleAddToCart | src/components/pages/Home.jsx:27-33 | the cart gains one unit of the product, and the toast shows that product |
| HomePage.HomePageState.HideToast | src/components/pages/Home.jsx:13-18 | the toast hides (by its close button or its timer), and its product is kept |
| HomeView.FilteredProducts | src/components/Home.jsx:48-50 | with no category selected every product is shown; otherwise exactly the products whose category is the selection |
| HomeView.InCategory | src/components/Home.jsx:48-50 | definition: a product whose category is exactly the selection; HomeView.ExactWithinIgnoringCase compares it with the case-insensitive filter |
| HomeView.FilteredKeepsOrder | src/components/Home.jsx:48-50 | the shown products keep their catalogue order |
| HomeView.ExactWithinIgnoringCase | src/components/Home.jsx:49 | every product this view shows, the newer home page shows too; the converse fails for a category differing only in letter case |
| HomeView.HomeViewState.constructor | src/components/Home.jsx:9-10 | no toast showing and no toast product |
| HomeView.HomeViewState.HandleAddToCart | src/components/Home.jsx:41-46 | the cart gains one unit of the product, and the toast shows that product |
| HomeView.HomeViewState.HideToast | src/components/Home.jsx:16-24 | the toast hides and its product is kept |
| SearchResultsPage.QueryOrEmpty | src/components/pages/SearchResults.jsx:22 | the query shown is the given query when it is non-empty, and "" exactly when none was given |
| SearchResultsPage.CountNoun | src/components/pages/SearchResults.jsx:82 | the noun is "product" exactly for a count of one, "products" otherwise |
| SearchResultsPage.SearchResultsPageState.constructor | src/components/pages/SearchResults.jsx:15-17 | no results, loading, and an empty query |
| SearchResultsPage.SearchResultsPageState.OnLocation | src/components/pages/SearchResults.jsx:19-27 | navigation state with search data is shown (an empty list included) with its query, loading ends and the browser is untouched; without it the page goes home and its own state is unchanged |
| SearchResultsPage.SearchResultsPageState.HandleAddToCart | src/components/pages/SearchResults.jsx:36-41 | the cart gains one unit of the product |
| SearchResultsView.Excerpt | src/components/SearchResults.jsx:95-97 | a missing description stays missing; one of at most 100 characters is kept; a longer one becomes its first 100 characters followed by "..." |
| SearchResultsView.ExcerptIdempotent | src/components/SearchResults.jsx:95-97 | shortening an excerpt again changes nothing |
| SearchResultsView.AddLabel | src/components/SearchResults.jsx:115-123 | the button reads "Add to Cart" exactly when it is enabled (available and stock above 0), "Out of Stock" otherwise |
| SearchResultsView.CanAdd | src/components/SearchResults.jsx:115-121 | definition: available with stock above 0, the enabled button; SearchResultsView.StricterThanOutOfStock compares it with Display.OutOfStock |
| SearchResultsView.StricterThanOutOfStock | src/components/SearchResults.jsx:115-118 | an enabled button here is never out of stock elsewhere; the two tests disagree exactly on an available product with negative stock |
| SearchResultsView.SettledImage | src/components/SearchResults.jsx:39-57 | base64 data is converted; otherwise a fetched non-empty image is used, while an empty one or a failure leaves the unplugged picture |
| SearchResultsView.FetchesWithoutImageName | src/components/SearchResults.jsx:43-51 | unlike the other cards, a product with no image name is fetched too and can show a fetched image |
| SearchResultsView.ProductPath | src/components/SearchResults.jsx:133 | the path is "/product/" followed by the id, which is the route-table path of that product's page |
| SearchResultsView.ProductCard.constructor | src/components/SearchResults.jsx:37 | a card starts with the unplugged picture |
| SearchResultsView.ProductCard.LoadImage | src/components/SearchResults.jsx:39-65 | the card settles on `SettledImage` for the fetch outcome; any product without base64 data is fetched |
| SearchResultsView.SearchResultsViewState.constructor | src/components/SearchResults.jsx:13-14 | no results, loading |
| SearchResultsView.SearchResultsViewState.OnLocation | src/components/SearchResults.jsx:16-24 | navigation state with search data is shown and loading ends; without it the view goes home and its own state is unchanged |
| SearchResultsView.SearchResultsViewState.ViewProduct | src/components/SearchResults.jsx:132-134 | the browser goes to the product's path and storage is untouched |
| SearchResultsView.SearchResultsViewState.HandleAddToCart | src/components/SearchResults.jsx:136-139 | the cart gains one unit of the product |
| Orders.OrderTotal | src/components/pages/Order.jsx:73-75 | the total of no items is 0, and every further item adds its price to the running total, in the reduce's left-to-right order (Order.jsx, MyOrders.jsx and pages/MyOrders.jsx sum the same way) |
| Orders.OrderTotalAppend | src/components/Order.jsx:69-71 | the total over two item lists put together is the sum of the two totals |
| Orders.OrderTotalNonNegative | src/components/pages/Order.jsx:73-75 | when no item has a negative price, the order total is not negative |
| Orders.WithStatus | src/components/pages/Order.jsx:83-87 | the list keeps its length; every order with the given id gets the new status and every other order is unchanged |
| Orders.WithStatusLastWins | src/components/Order.jsx:81-85 | a second status update of the same order overrides the first |
| Orders.WithStatusCommutes | src/components/pages/Order.jsx:83-87 | status updates of two different orders can be applied in either order |
| Orders.WithStatusNoOp | src/components/pages/Order.jsx:83-87 | setting the status an order already has, or an id no order has, leaves the list as it was |
| Orders.Toggle | src/components/pages/Order.jsx:42-44 | the table collapses exactly when the clicked row was the open one; otherwise the clicked row opens |
| Orders.ToggleTwice | src/components/Order.jsx:38-40 | clicking one row twice restores a collapsed table or that row open, and collapses a table where another row was open |
| OrderPage.StatusVariant | src/components/pages/Order.jsx:46-63 | every badge variant is one of the six Bootstrap variants, and an unknown status gets "secondary" (pages/MyOrders.jsx uses the same mapping) |
| OrderPage.VariantsDistinguishStatuses | src/components/pages/Order.jsx:46-63 | the six known statuses get six different variants, while any unknown status looks like PACKED |
| OrderPage.MatchesSearch | src/components/pages/Order.jsx:96-99 | definition: the name or e-mail contains the term ignoring letter case, or the id's decimal text contains the term; OrderPage.SearchFindsOwnIdAndName and OrderPage.EmptySearchShowsAll state what it finds |
| OrderPage.SearchFindsOwnIdAndName | src/components/pages/Order.jsx:96-99 | searching for an order's full id text, or for its customer name as stored, finds that order |
| OrderPage.MatchesStatus | src/components/pages/Order.jsx:100 | definition: the filter is "all" or equals the order's status |
| OrderPage.Shown | src/components/pages/Order.jsx:95-102 | definition: both the search and the status test pass, the filter OrderPage.FilteredOrders applies |
| OrderPage.FilteredOrders | src/components/pages/Order.jsx:95-102 | an order is shown exactly when it matches the search (name, e-mail ignoring case, or id digits) and the status filter |
| OrderPage.FilteredKeepsOrder | src/components/pages/Order.jsx:95-102 | the shown orders keep the order in which they were fetched |
| OrderPage.EmptySearchShowsAll | src/components/pages/Order.jsx:12-13 | with the initial empty search and the "all" filter, every fetched order is shown |
| OrderPage.IsPending | src/components/pages/Order.jsx:108 | definition: placed, accepted or packed, the pending card's test |
| OrderPage.IsShipped | src/components/pages/Order.jsx:109 | definition: the shipped card's test |
| OrderPage.IsDelivered | src/components/pages/Order.jsx:110 | definition: the delivered card's test; OrderPage.StatsOf proves the three tests never count an order twice |
| OrderPage.StatsOf | src/components/pages/Order.jsx:105-110 | the cards count all orders, the pending (placed, accepted or packed), the shipped and the delivered ones, and the last three add up to no more than the total |
| OrderPage.OrderPageState.constructor | src/components/pages/Order.jsx:8-13 | the screen starts with no orders, loading, no error, no row open, an empty search and the "all" filter |
| OrderPage.OrderPageState.FetchOrders | src/components/pages/Order.jsx:24-36 | a success stores the body when it is an array and no orders otherwise; a failure stores no orders and the error message; loading ends in both cases |
| OrderPage.OrderPageState.ToggleOrderDetails | src/components/pages/Order.jsx:42-44 | the open row becomes Toggle of the previous one, and nothing else changes |
| OrderPage.OrderPageState.SetSearchTerm | src/components/pages/Order.jsx:228 | the search term becomes the typed text, and nothing else changes |
| OrderPage.OrderPageState.SetStatusFilter | src/components/pages/Order.jsx:234 | the status filter becomes the chosen value, and nothing else changes |
| OrderPage.OrderPageState.HandleStatusChange | src/components/pages/Order.jsx:77-92 | only a successful PUT updates that order's status in the local list; a 401 goes through the shared response handling |
| OrderView.StatusClass | src/components/Order.jsx:42-59 | every badge class is one of the six listed classes, and an unknown status gets "bg-secondary" |
| OrderView.ClassesDistinguishStatuses | src/components/Order.jsx:42-59 | the six known statuses get six different classes, while any unknown status looks like PACKED |
| OrderView.OrderViewState.constructor | src/components/Order.jsx:6-9 | the table starts with no orders, loading, no error and no row open |
| OrderView.OrderViewState.FetchOrders | src/components/Order.jsx:20-32 | a success stores the body when it is an array and no orders otherwise; a failure stores no orders and the error message; loading ends in both cases |
| OrderView.OrderViewState.ToggleOrderDetails | src/components/Order.jsx:38-40 | the open row becomes Toggle of the previous one, and nothing else changes |
| OrderView.OrderViewState.HandleStatusChange | src/components/Order.jsx:73-90 | only a successful PUT updates that order's status in the local list |
| MyOrdersPage.IndexOf | src/components/pages/MyOrders.jsx:279 | `indexOf` gives -1 exactly when the status is not a step, and otherwise the first position holding it |
| MyOrdersPage.Completed | src/components/pages/MyOrders.jsx:279-280 | definition: the step is at or before the order's position on the timeline and the order is not cancelled; MyOrdersPage.ProgressIsAPrefix and MyOrdersPage.NoProgressOffTheSteps state what it draws |
| MyOrdersPage.Current | src/components/pages/MyOrders.jsx:281 | definition: the step is the order's status; MyOrdersPage.ProgressIsAPrefix proves exactly one step is current for a status on the timeline |
| MyOrdersPage.HasConnector | src/components/pages/MyOrders.jsx:299 | definition: the first four steps have a connector after them; MyOrdersPage.ConnectorsFollowSteps counts them |
| MyOrdersPage.ConnectorLit | src/components/pages/MyOrders.jsx:301 | definition: the step is before the order's position and the order is not cancelled; MyOrdersPage.ConnectorsFollowSteps proves it is lit exactly when the next step is reached |
| MyOrdersPage.NoProgressOffTheSteps | src/components/pages/MyOrders.jsx:277-305 | a status that is not one of the five steps reaches no step, marks no step current and lights no connector |
| MyOrdersPage.CancelledShowsNoProgress | src/components/pages/MyOrders.jsx:280 | a cancelled order shows no step reached and none current |
| MyOrdersPage.ProgressIsAPrefix | src/components/pages/MyOrders.jsx:279-281 | for a status on the timeline, the reached steps are exactly those up to it, and it is the one current step |
| MyOrdersPage.ConnectorsFollowSteps | src/components/pages/MyOrders.jsx:299-305 | there are four connectors, and the one after a step is lit exactly when the next step is reached |
| MyOrdersPage.MyOrdersPageState.constructor | src/components/pages/MyOrders.jsx:8-10 | the page starts with an empty list, no order open and loading |
| MyOrdersPage.MyOrdersPageState.FetchMyOrders | src/components/pages/MyOrders.jsx:12-22 | a success stores the response body unchecked; a failure keeps the list already shown; loading ends in both cases |
| MyOrdersPage.MyOrdersPageState.ToggleDetails | src/components/pages/MyOrders.jsx:28-30 | the open order becomes Toggle of the previous one, and nothing else changes |
| MyOrdersView.StatusClass | src/components/MyOrders.jsx:32-49 | the six known statuses get the admin table's classes, and an unknown status gets "bg-dark" |
| MyOrdersView.ClassesDistinguishStatuses | src/components/MyOrders.jsx:32-49 | every status gets its own class here, unknown statuses included |
| MyOrdersView.CalculateTotals | src/components/MyOrders.jsx:58-68 | the subtotal is the order total, the tax is 18% of it, and the total is their sum, which is 118% of the subtotal |
| MyOrdersView.TotalsAppend | src/components/MyOrders.jsx:63-68 | taxed totals add up over item lists put together |
| MyOrdersView.TaxPercent | src/components/MyOrders.jsx:187 | the tax label shows 18 |
| MyOrdersView.MyOrdersViewState.constructor | src/components/MyOrders.jsx:7-9 | the history starts with no orders, none open and loading |
| MyOrdersView.MyOrdersViewState.FetchMyOrders | src/components/MyOrders.jsx:11-22 | a success stores the body when it is an array and no orders otherwise; a failure stores no orders; loading ends in both cases |
| MyOrdersView.MyOrdersViewState.ToggleDetails | src/components/MyOrders.jsx:28-30 | the open order becomes Toggle of the previous one, and nothing else changes |
| ProductForm.Get | src/components/pages/AddProduct.jsx:98-105 | reading a field finds a value exactly when the form has that field; a missing field reads as `undefined` |
| ProductForm.IsTruthy | src/components/pages/AddProduct.jsx:101-104 | definition: JavaScript truthiness of a field read: a non-empty string, a non-zero number, true |
| ProductForm.IsBlank | src/components/pages/AddProduct.jsx:98-100 | definition: `!value?.trim()`: missing, null, or a string that Text.Trim empties, which Text.TrimEmptyIffBlank proves is an all-whitespace string |
| ProductForm.Trunc | src/components/pages/AddProduct.jsx:103 | `parseInt` of a number drops its fraction toward zero: the result is within one of the number, on the zero side |
| ProductForm.FloatOf | src/components/pages/AddProduct.jsx:101 | definition: `parseFloat` of a field: a string through the given parser, a number as itself, anything else NaN |
| ProductForm.IntOf | src/components/pages/AddProduct.jsx:103 | definition: `parseInt` of a field: a string through the given parser, a number truncated by ProductForm.Trunc, anything else NaN |
| ProductForm.NumberOf | src/components/pages/AddProduct.jsx:124-125 | definition: `Number` of a field: a string through the given parser, a number as itself, booleans 1 and 0, null 0, a missing field NaN |
| ProductForm.PriceRejected | src/components/pages/AddProduct.jsx:101 | definition: a falsy price or one that parses to at most 0; ProductForm.UnparsablePriceAccepted shows NaN passes |
| ProductForm.UnparsablePriceAccepted | src/components/pages/AddProduct.jsx:101 | a non-empty price that does not parse (NaN) passes the price rule, since NaN compared with 0 is false |
| ProductForm.AsErrors | src/components/pages/AddProduct.jsx:107 | the shown error map has exactly the keys and the messages of the freshly built one |
| ProductForm.Shown | src/components/pages/AddProduct.jsx:185 | definition: a field's error is shown when the map holds a non-empty message for it; ProductForm.Cleared states how an edit hides it |
| ProductForm.Cleared | src/components/pages/AddProduct.jsx:43-45 | after an edit the field's error is not shown; every other error is kept, and nothing changes when none was shown |
| ProductForm.EditTouchesOneField | src/components/pages/UpdateProduct.jsx:129-135 | an edit sets only the named field, and leaves the other fields and their errors as they were |
| ProductForm.ImageCheck | src/components/pages/AddProduct.jsx:61-74 | a type other than JPEG, PNG or WebP gives the type message; otherwise a size over 5 MiB gives the size message; otherwise there is no error |
| ProductForm.DragActiveAfter | src/components/pages/AddProduct.jsx:77-85 | entering or hovering activates the drop zone, leaving deactivates it, and any other event keeps its state |
| ProductForm.DragIdempotent | src/components/pages/UpdateProduct.jsx:148-156 | repeating a drag event changes nothing more |
| ProductForm.Normalized | src/components/pages/AddProduct.jsx:122-135 | the JSON product has the form's fields plus a price and a stock converted with `Number`, null when NaN, and every other field unchanged |
| AddProductPage.Validate | src/components/pages/AddProduct.jsx:96-109 | each of the eight rules puts its field in the error map exactly when it is broken, and nothing else is in the map |
| AddProductPage.Broken | src/components/pages/AddProduct.jsx:98-105 | definition: the eight rules of `validateForm`, one per field, that AddProductPage.Validate collects |
| AddProductPage.Message | src/components/pages/AddProduct.jsx:98-105 | definition: the message each rule stores under its field |
| AddProductPage.ValidationForgetsImageCheck | src/components/pages/AddProduct.jsx:105 | an image refused by the type or size check still passes validation once every other field is filled in |
| AddProductPage.ChosenCategoryPasses | src/components/pages/AddProduct.jsx:30-37 | a category picked with one of the six buttons satisfies the category rule |
| AddProductPage.AddProductState.constructor | src/components/pages/AddProduct.jsx:13-28 | the form starts with empty texts, not available, no image, not loading, no errors and the drop zone inactive |
| AddProductPage.AddProductState.HandleInputChange | src/components/pages/AddProduct.jsx:39-46 | a checkbox stores whether it is checked and any other input stores its text; that field's error is cleared |
| AddProductPage.AddProductState.ProcessImage | src/components/pages/AddProduct.jsx:53-75 | without a file nothing changes; a file is kept and the image error becomes the check's message, or null when it passes |
| AddProductPage.AddProductState.HandleDrag | src/components/pages/AddProduct.jsx:77-85 | the drop zone's state follows the drag event, and nothing else changes |
| AddProductPage.AddProductState.HandleDrop | src/components/pages/AddProduct.jsx:87-94 | the drop zone deactivates, and the first dropped file, if any, is processed as a chosen one |
| AddProductPage.AddProductState.RemoveImage | src/components/pages/AddProduct.jsx:336-339 | the chosen image is dropped, and its error is kept |
| AddProductPage.AddProductState.SelectCategory | src/components/pages/AddProduct.jsx:385-388 | the category becomes the button's value and its error is set to null |
| AddProductPage.AddProductState.Cancel | src/components/pages/AddProduct.jsx:412 | the cancel button goes home and leaves storage alone |
| AddProductPage.AddProductState.SubmitHandler | src/components/pages/AddProduct.jsx:111-149 | the errors become the validation result; an invalid form sends nothing and does not navigate; a valid one sends the normalised product with its image, and on success goes home with no navigation state and keeps the storage |
| UpdateProductPage.Validate | src/components/pages/UpdateProduct.jsx:73-85 | each of the seven rules puts its field in the error map exactly when it is broken; there is no image rule |
| UpdateProductPage.Broken | src/components/pages/UpdateProduct.jsx:75-81 | definition: the seven rules of `validateForm`, one per field, that UpdateProductPage.Validate collects |
| UpdateProductPage.Message | src/components/pages/UpdateProduct.jsx:75-81 | definition: the message each rule stores under its field |
| UpdateProductPage.StockRejected | src/components/pages/UpdateProduct.jsx:80 | definition: an empty stock text or one that parses below 0; UpdateProductPage.StockRulesDiffer contrasts it with the add form |
| UpdateProductPage.StockRulesDiffer | src/components/pages/UpdateProduct.jsx:80 | a stock of number 0 passes here but fails the add form's rule, and a missing stock passes here |
| UpdateProductPage.ReleaseDateInput | src/components/pages/UpdateProduct.jsx:288 | the date input shows the first ten characters of a stored date string, the whole string when it is shorter, and "" for a missing or non-string value |
| UpdateProductPage.UpdateProductState.constructor | src/components/pages/UpdateProduct.jsx:12-30 | the form starts with no product, empty texts, no image, the image unchanged, no errors, not loading and fetching |
| UpdateProductPage.UpdateProductState.Mount | src/components/pages/UpdateProduct.jsx:45-71 | a fetched product fills both the product and the form; its image is fetched only when it has a name and is not marked as changed; a failure of either request goes home with no navigation state; otherwise the location is kept; a 401 from either request clears the stored session, and otherwise the storage is kept; fetching ends |
| UpdateProductPage.UpdateProductState.HandleChange | src/components/pages/UpdateProduct.jsx:129-135 | the named field takes the text and its error is cleared |
| UpdateProductPage.UpdateProductState.HandleImageChange | src/components/pages/UpdateProduct.jsx:137-146 | a chosen file replaces the image unchecked, marks it changed and clears the image error; no file changes nothing |
| UpdateProductPage.UpdateProductState.HandleDrag | src/components/pages/UpdateProduct.jsx:148-156 | the drop zone's state follows the drag event, and nothing else changes |
| UpdateProductPage.UpdateProductState.HandleDrop | src/components/pages/UpdateProduct.jsx:158-166 | the drop zone deactivates, and a dropped file replaces the image unchecked and is marked changed |
| UpdateProductPage.UpdateProductState.RemoveImage | src/components/pages/UpdateProduct.jsx:371-374 | the image is dropped and marked changed |
| UpdateProductPage.UpdateProductState.SetAvailable | src/components/pages/UpdateProduct.jsx:331-337 | availability becomes whether the switch is checked |
| UpdateProductPage.UpdateProductState.SelectCategory | src/components/pages/UpdateProduct.jsx:425-428 | the category becomes the button's value and its error is set to null |
| UpdateProductPage.UpdateProductState.Cancel | src/components/pages/UpdateProduct.jsx:471 | the cancel button goes to the product's own page and leaves storage alone |
| UpdateProductPage.UpdateProductState.HandleSubmit | src/components/pages/UpdateProduct.jsx:87-127 | the errors become the validation result; an invalid form sends nothing; a valid one sends the normalised product, attaches the image only when it changed and is present, and on success goes home with no navigation state and keeps the storage |
| LayoutNavbar.InitialDarkMode | src/components/layout/Navbar.jsx:21-28 | a stored theme decides the mode (dark exactly when it is "dark"); with no stored theme the system preference does |
| LayoutNavbar.StoredTheme | src/components/layout/Navbar.jsx:37-48 | the stored theme is "dark" exactly in dark mode and "light" exactly in light mode |
| LayoutNavbar.StoredThemeRestoresMode | src/components/layout/Navbar.jsx:21-48 | the theme stored by the switch brings the same mode back on the next visit, whatever the system prefers |
| LayoutNavbar.CategoryNames | src/components/layout/Navbar.jsx:34 | every listed name is a non-empty category of some product, and every non-empty product category is listed |
| LayoutNavbar.Categories | src/components/layout/Navbar.jsx:34 | the category menu lists each non-empty product category once, and nothing else |
| LayoutNavbar.CategoriesInFirstSeenOrder | src/components/layout/Navbar.jsx:34 | the menu lists categories in the order they first appear among the products |
| LayoutNavbar.VisibleLinks | src/components/layout/Navbar.jsx:103-108 | Home is always first; My Orders is shown exactly to a signed-in user; the two admin links exactly to an admin; no link appears twice (the order is LayoutNavbar.VisibleLinksInOrder) |
| LayoutNavbar.VisibleLinksInOrder | src/components/layout/Navbar.jsx:103-108 | the visible links are a subsequence of the bar's array Home, My Orders, Add Product, Manage Orders, so they keep its order |
| LayoutNavbar.LayoutNavbarState.constructor | src/components/layout/Navbar.jsx:16-28 | the bar starts with an empty search, not loading, every menu closed and the initial dark mode |
| LayoutNavbar.LayoutNavbarState.ToggleDarkMode | src/components/layout/Navbar.jsx:37-48 | the mode flips and the new mode's theme is stored under "theme" |
| LayoutNavbar.LayoutNavbarState.SetInput | src/components/layout/Navbar.jsx:177 | the search text becomes the typed text, and nothing else changes |
| LayoutNavbar.LayoutNavbarState.ToggleCategoryMenu | src/components/layout/Navbar.jsx:143 | the category menu flips, and nothing else changes |
| LayoutNavbar.LayoutNavbarState.ToggleUserMenu | src/components/layout/Navbar.jsx:230 | the user menu flips, and nothing else changes |
| LayoutNavbar.LayoutNavbarState.ToggleMobileMenu | src/components/layout/Navbar.jsx:289 | the mobile menu flips, and nothing else changes |
| LayoutNavbar.LayoutNavbarState.CloseMenu | src/components/layout/Navbar.jsx:256 | a link in the user menu closes the user menu, and a link in the mobile menu closes the mobile menu |
| LayoutNavbar.LayoutNavbarState.HandleClickOutside | src/components/layout/Navbar.jsx:61-72 | a press outside the user menu closes it and one outside the category menu closes that; nothing opens |
| LayoutNavbar.LayoutNavbarState.HandleSearch | src/components/layout/Navbar.jsx:74-88 | blank input does nothing; otherwise a found result opens the search results with the data, a failure stays put, and loading ends with the mobile menu closed |
| LayoutNavbar.LayoutNavbarState.HandleCategorySelect | src/components/layout/Navbar.jsx:90-95 | the category is passed to the parent, both menus close and the home page opens |
| LayoutNavbar.LayoutNavbarState.HandleLogout | src/components/layout/Navbar.jsx:97-101 | the session and the cart end, the four session keys leave storage, the user menu closes and the login page opens |
| NavbarView.InitialTheme | src/components/Navbar.jsx:12-15 | the bar uses the stored theme when there is one, and the light theme otherwise |
| NavbarView.Toggled | src/components/Navbar.jsx:105-109 | the switch gives the light theme exactly from the dark theme, and the dark theme from anything else |
| NavbarView.ToggleTwice | src/components/Navbar.jsx:105-109 | switching twice restores either of the two themes, while any other stored value settles on the light theme |
| NavbarView.NavbarViewState.constructor | src/components/Navbar.jsx:17-23 | the bar starts with no category, the initial theme, an empty search, no message, not loading and collapsed |
| NavbarView.NavbarViewState.HandleNavbarToggle | src/components/Navbar.jsx:59-61 | the menu flips, and nothing else changes |
| NavbarView.NavbarViewState.HandleLinkClick | src/components/Navbar.jsx:63-65 | the menu collapses, and nothing else changes; the mouse-press listener outside the bar (lines 39-47) has the same effect |
| NavbarView.NavbarViewState.HandleInputChange | src/components/Navbar.jsx:67-69 | the search text becomes the typed text, and nothing else changes |
| NavbarView.NavbarViewState.GoToLogin | src/components/Navbar.jsx:129-132 | the menu collapses and the browser goes to the login page's route |
| NavbarView.NavbarViewState.GoToRegister | src/components/Navbar.jsx:134-137 | the menu collapses and the browser goes to the registration page's route |
| NavbarView.NavbarViewState.HandleSubmit | src/components/Navbar.jsx:71-97 | blank input does nothing; otherwise the message shows exactly when the search fails or finds nothing, a non-empty result opens the search results with the data, and loading ends collapsed |
| NavbarView.NavbarViewState.HandleCategorySelect | src/components/Navbar.jsx:99-103 | the category is recorded and passed to the parent, and the menu collapses |
| NavbarView.NavbarViewState.ToggleTheme | src/components/Navbar.jsx:105-109 | the theme becomes its toggled value and is stored under "theme" |
| NavbarView.NavbarViewState.HandleLogout | src/components/Navbar.jsx:123-127 | the session and the cart end, the four session keys leave storage, the menu collapses and the login page opens |

## Left out

- Rendering: JSX, CSS classes, icons, the UI kit components, and the `index.js` re-exports.
- Network transport: request URLs, the `/api` prefixes, query strings (the search keyword is not
  URL-encoded in the source), headers other than `Authorization`, and multipart encoding. A call is
  its outcome, and a request body is the value the source would send.
- Toasts, `console` output, `alert`, and the toast timers. `HomePage.HomePageState.HideToast` stands
  for both the close button and the timer.
- `FileReader` previews and `URL.createObjectURL`/`revokeObjectURL`: a fetched image is given as the
  object URL it would become.
- `document.documentElement.classList`, `document.body.className` and `matchMedia`. The system
  colour preference is a constructor parameter.
- `src/components/Navbar.jsx` `fetchInitialData`: it only logs the response.
- Locale formatting (`toLocaleString`, `Intl.NumberFormat`, `toLocaleDateString`).
- Floating point: prices and totals are exact reals, so the model does not see IEEE rounding of
  `total * 0.18` or `subtotal * 0.18`. NaN exists only as a parser result.
- `parseFloat`, `parseInt`, `Number` and `JSON.parse`/`JSON.stringify` are abstract functions given
  as parameters. The model does not define the text they accept.
- `.trim()` and `.toLowerCase()` on non-strings, which throw in the source. `Text.Trim` removes the
  full ECMAScript whitespace and line-terminator set; only `Text.ToLower` is limited to ASCII letters
  and leaves every other character unchanged, so Unicode case mapping is not modelled.
- UpdateProductPage.ReleaseDateInput: a truthy non-string `releaseDate` (a number or `true`) makes
  `.slice` throw in the source; the model shows "" for it.
- A 401's `window.location.href = "/login"` is a full page load. `Context.ReloadAfter` models the
  load (the context is rebuilt from the cleared storage), but the handlers that call
  `HttpClient.Respond` keep using their in-memory component and context objects afterwards, so after
  a 401 those objects still hold the old token, user and admin flag in the model.
- Text lengths: JavaScript's `length`, `slice` and `substring` count UTF-16 code units, while
  `seq<char>` counts Unicode scalar values, so `SearchResultsView.Excerpt` and `Seqs.Take` cut a
  text holding characters outside the Basic Multilingual Plane (emoji) at a different place.
- React's batching of state updates and effect scheduling: each handler is a sequential update, and
  each effect is a method the caller runs after the state it depends on changes.
- `src/components/auth/Login.jsx`, `src/components/Login.jsx` and `src/components/Register.jsx`:
  form plumbing around one request.
- The checkout form's phone and address fields in `src/components/pages/Cart.jsx`: they are edited
  but never sent.
- The product page's description/details tab (`activeTab`): presentation only.
- The related-products strip in `src/components/pages/Product.jsx` builds its image without the
  "data:"/"http" checks. The model only selects the related products, not their images.
- AppRoutes.Route: route matching here is case-sensitive. The router also matches paths
  ignoring case, and those matches are not modelled. Percent-encoded paths are taken as written.
- An order's id is assumed present (`Orders.Order.orderId` is an `int`), although the source's search reads it with `?.`.
- The checkout counterexample is a method over a freshly built context rather than a lemma,
  because the checkout it exhibits changes objects.

## Findings

| source | as written | input that shows it | evidently intended | confidence | as-written member | corrected member |
|---|---|---|---|---|---|---|
| src/components/pages/Cart.jsx:88-91 | `await placeOrder(...)` is followed by `clearCart()` and an empty local list, whether or not an order was sent | a signed-out shopper (no token) with one cart line confirms checkout: `placeOrder` returns without a request, and the cart is emptied anyway | the cart is emptied only after an order was sent and accepted | not executed | CartPage.CartPageState.Checkout, exhibited by CartPage.CheckoutWithoutTokenEmptiesCart | CartPage.CartPageState.CheckoutGuarded |
| src/components/Cart.jsx:9-31 | the quantity handlers call `updateCartQuantity`, destructured from a context value that has no such key | a cart with one line of quantity 1 and stock 5: "+" makes `handleIncreaseQuantity` call `undefined(id, 2)`, a TypeError, and the quantity stays 1 | the requested quantity is written to the shared cart, as the `pages/` cart screen does for its local list | not executed | CartView.ButtonAsWritten, exhibited by CartView.QuantityButtonsThrow | CartView.ButtonIntended, with CartView.IntendedButtonsMatchCartPage |

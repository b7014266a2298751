/** The application context of `src/Context/Context.jsx`: the session (token, user, admin flag),
    the product list and the cart, as one object whose methods are the context's operations and
    effects. */
module Context {
  import opened Wrappers
  import opened Catalog
  import opened Env
  import opened CartOps
  import HttpClient

  /** `JSON.stringify` and `JSON.parse` of a cart, given abstractly: `decode` yields `None` where
      parsing throws. */
  datatype CartCodec = CartCodec(encode: seq<CartLine> -> string, decode: string -> Option<seq<CartLine>>)
  {
    /** Serialised carts are never empty strings and parse back to themselves. */
    ghost predicate Faithful() {
      forall c :: encode(c) != "" && decode(encode(c)) == Some(c)
    }
  }

  /** The initial cart: the parsed stored cart, or [] when nothing (or "") is stored or it does not parse. */
  function RestoredCart(codec: CartCodec, stored: Option<string>): (r: seq<CartLine>)
    ensures !Truthy(stored) ==> r == []
    ensures Truthy(stored) && codec.decode(stored.value).Some? ==> r == codec.decode(stored.value).value
    ensures Truthy(stored) && codec.decode(stored.value).None? ==> r == []
  {
    if !Truthy(stored) then []
    else match codec.decode(stored.value)
      case Some(c) => c
      case None => []
  }

  /** A cart written by the persist effect is the cart restored on the next start. */
  lemma PersistedCartRestores(codec: CartCodec, cart: seq<CartLine>)
    requires codec.Faithful()
    ensures RestoredCart(codec, Some(codec.encode(cart))) == cart
  {
    assert codec.encode(cart) != "" && codec.decode(codec.encode(cart)) == Some(cart);
  }

  /** `localStorage.getItem(key) || null` */
  function OrNull(s: Option<string>): (r: Option<string>)
    ensures r.Some? <==> Truthy(s)
    ensures r.Some? ==> r == s
  {
    if Truthy(s) then s else None
  }

  /** The stored form of the admin flag. */
  function AdminFlagText(isAdmin: bool): (r: string)
    ensures r == "true" <==> isAdmin
  {
    if isAdmin then "true" else "false"
  }

  /** What `placeOrder` resolves to, or that it rejects. */
  datatype PlaceResult<+T> = Resolved(data: Option<T>) | Rejected

  class AppState {
    /** The browser globals this context reads and writes. */
    const browser: Browser
    /** The JSON encoding of the stored cart. */
    const codec: CartCodec
    var user: Option<string>
    var token: Option<string>
    var isAdmin: bool
    var products: seq<Product>
    var productsLoading: bool
    var cart: seq<CartLine>
    /** `api.defaults.headers.common.Authorization` */
    var authHeader: Option<string>

    /** The state initialisers, read from storage. The effects have not run yet. */
    constructor (browser: Browser, codec: CartCodec)
      ensures this.browser == browser && this.codec == codec
      ensures user == OrNull(browser.GetItem(UsernameKey))
      ensures token == OrNull(browser.GetItem(TokenKey))
      ensures isAdmin <==> browser.GetItem(IsAdminKey) == Some("true")
      ensures products == [] && !productsLoading
      ensures cart == RestoredCart(codec, browser.GetItem(CartKey))
      ensures authHeader == None
    {
      this.browser := browser;
      this.codec := codec;
      user := OrNull(browser.GetItem(UsernameKey));
      token := OrNull(browser.GetItem(TokenKey));
      isAdmin := browser.GetItem(IsAdminKey) == Some("true");
      products := [];
      productsLoading := false;
      cart := RestoredCart(codec, browser.GetItem(CartKey));
      authHeader := None;
    }

    /** `isAuthenticated: !!token` */
    function IsAuthenticated(): (r: bool)
      reads this
      ensures r <==> token.Some? && token.value != ""
    {
      Truthy(token)
    }

    /** `login(jwt, username, adminFlag)`: store the three session keys and set the session state.
        The admin flag is fully overwritten, and the session is authenticated exactly when `jwt` is
        non-empty. */
    method Login(jwt: string, username: string, adminFlag: bool)
      modifies this, browser
      ensures browser.storage == old(browser.storage)[TokenKey := jwt][UsernameKey := username][IsAdminKey := AdminFlagText(adminFlag)]
      ensures browser.path == old(browser.path) && browser.state == old(browser.state)
      ensures token == Some(jwt) && user == Some(username) && isAdmin == adminFlag
      ensures IsAuthenticated() <==> jwt != ""
      ensures cart == old(cart) && products == old(products) && productsLoading == old(productsLoading)
      ensures authHeader == old(authHeader)
    {
      browser.SetItem(TokenKey, jwt);
      browser.SetItem(UsernameKey, username);
      browser.SetItem(IsAdminKey, AdminFlagText(adminFlag));
      token := Some(jwt);
      user := Some(username);
      isAdmin := adminFlag;
    }

    /** `logout()`: remove the session keys and the cart key and reset the session and the cart. */
    method Logout()
      modifies this, browser
      ensures browser.storage == old(browser.storage) - {TokenKey, UsernameKey, IsAdminKey, CartKey}
      ensures browser.path == old(browser.path) && browser.state == old(browser.state)
      ensures token == None && user == None && !isAdmin && cart == []
      ensures !IsAuthenticated()
      ensures products == old(products) && productsLoading == old(productsLoading)
      ensures authHeader == old(authHeader)
    {
      browser.RemoveItem(TokenKey);
      browser.RemoveItem(UsernameKey);
      browser.RemoveItem(IsAdminKey);
      browser.RemoveItem(CartKey);
      token := None;
      user := None;
      isAdmin := false;
      cart := [];
    }

    /** `addToCart(product, qty)`: merge into the line with the product's id, or append a line.
        No stock bound is applied. */
    method AddToCart(product: Product, qty: int)
      modifies this
      ensures cart == WithAdded(old(cart), product, qty)
      ensures DistinctIds(old(cart)) ==> DistinctIds(cart)
      ensures user == old(user) && token == old(token) && isAdmin == old(isAdmin)
      ensures products == old(products) && productsLoading == old(productsLoading)
      ensures authHeader == old(authHeader)
    {
      if DistinctIds(cart) {
        AddKeepsDistinct(cart, product, qty);
      }
      cart := WithAdded(cart, product, qty);
    }

    /** `removeFromCart(id)`: drop every line with that id. */
    method RemoveFromCart(id: int)
      modifies this
      ensures cart == WithoutId(old(cart), id)
      ensures DistinctIds(old(cart)) ==> DistinctIds(cart)
      ensures user == old(user) && token == old(token) && isAdmin == old(isAdmin)
      ensures products == old(products) && productsLoading == old(productsLoading)
      ensures authHeader == old(authHeader)
    {
      if DistinctIds(cart) {
        RemoveKeepsDistinct(cart, id);
      }
      cart := WithoutId(cart, id);
    }

    /** `clearCart()` */
    method ClearCart()
      modifies this
      ensures cart == []
      ensures user == old(user) && token == old(token) && isAdmin == old(isAdmin)
      ensures products == old(products) && productsLoading == old(productsLoading)
      ensures authHeader == old(authHeader)
    {
      cart := [];
    }

    /** `cartTotal` */
    function Total(): (r: real)
      reads this
      ensures r == CartTotal(cart)
      ensures cart == [] ==> r == 0.0
    {
      CartTotal(cart)
    }

    /** The effect on `[cart]`: write the serialised cart to storage. */
    method PersistCart()
      modifies browser
      ensures browser.storage == old(browser.storage)[CartKey := codec.encode(cart)]
      ensures browser.path == old(browser.path) && browser.state == old(browser.state)
    {
      browser.SetItem(CartKey, codec.encode(cart));
    }

    /** The effect on `[token]`: keep the client's default `Authorization` header in step with the token. */
    method SyncAuthHeader()
      modifies this
      ensures IsAuthenticated() ==> authHeader == Some(HttpClient.BearerCredentials(token.value))
      ensures !IsAuthenticated() ==> authHeader == None
      ensures user == old(user) && token == old(token) && isAdmin == old(isAdmin) && cart == old(cart)
      ensures products == old(products) && productsLoading == old(productsLoading)
    {
      if Truthy(token) {
        authHeader := Some(HttpClient.BearerCredentials(token.value));
      } else {
        authHeader := None;
      }
    }

    /** `fetchProducts()` given the outcome of `GET /api/product`: an array response is kept, any
        other response or a failure gives []. Loading is false afterwards. */
    method FetchProducts(outcome: Outcome<Payload<Product>>)
      modifies this, browser
      ensures products == (if outcome.Success? then AsArray(outcome.data) else [])
      ensures !productsLoading
      ensures HttpClient.Responded(browser, outcome)
      ensures user == old(user) && token == old(token) && isAdmin == old(isAdmin) && cart == old(cart)
      ensures authHeader == old(authHeader)
    {
      productsLoading := true;
      var r := HttpClient.Respond(browser, outcome);
      if r.Success? {
        products := AsArray(r.data);
      } else {
        products := [];
      }
      productsLoading := false;
    }

    /** `placeOrder(customerName, email)` given the outcome of `POST /api/orders`. Without a token,
        or with an empty cart, it resolves to nothing and sends nothing. Otherwise it sends the
        cart's lines in order; on success the cart is cleared and the response data returned, on
        failure the error is rethrown and the cart is kept. */
    method PlaceOrder<T>(customerName: string, email: string, outcome: Outcome<T>)
      returns (sent: Option<OrderRequest>, result: PlaceResult<T>)
      modifies this, browser
      ensures sent == OrderRequestFor(old(token), old(cart), customerName, email)
      ensures sent.None? ==> result == Resolved(None) && cart == old(cart) && unchanged(browser)
      ensures sent.Some? && outcome.Success? ==> result == Resolved(Some(outcome.data)) && cart == []
      ensures sent.Some? && !outcome.Success? ==> result == Rejected && cart == old(cart)
      ensures sent.Some? ==> HttpClient.Responded(browser, outcome)
      ensures user == old(user) && token == old(token) && isAdmin == old(isAdmin)
      ensures products == old(products) && productsLoading == old(productsLoading)
      ensures authHeader == old(authHeader)
    {
      sent := OrderRequestFor(token, cart, customerName, email);
      if sent.None? {
        result := Resolved(None);
        return;
      }
      var r := HttpClient.Respond(browser, outcome);
      if r.Success? {
        ClearCart();
        result := Resolved(Some(r.data));
      } else {
        result := Rejected;
      }
    }
  }

  /** The page load that `window.location.href = "/login"` starts after a 401: the in-memory
      state is discarded and the provider's initialisers read storage again, which the interceptor
      has just cleared of the session. The reloaded context is signed out and holds the stored cart.
      Without a redirect (on /login or /register) nothing is reloaded. */
  method ReloadAfter<T>(browser: Browser, codec: CartCodec, outcome: Outcome<T>)
    returns (r: Outcome<T>, reloaded: Option<AppState>)
    modifies browser
    ensures r == outcome
    ensures HttpClient.Responded(browser, outcome)
    ensures reloaded.Some? <==> outcome.Unauthorized? && HttpClient.RedirectOn401(old(browser.path)).Some?
    ensures reloaded.Some? ==> fresh(reloaded.value) && reloaded.value.browser == browser
    ensures reloaded.Some? ==> reloaded.value.token == None && reloaded.value.user == None && !reloaded.value.isAdmin
    ensures reloaded.Some? ==> reloaded.value.cart == RestoredCart(codec, old(browser.GetItem(CartKey)))
  {
    var before := browser.path;
    var cartText := browser.GetItem(CartKey);
    r := HttpClient.Respond(browser, outcome);
    reloaded := None;
    if outcome.Unauthorized? && HttpClient.RedirectOn401(before).Some? {
      assert browser.GetItem(CartKey) == cartText;
      var s := new AppState(browser, codec);
      reloaded := Some(s);
    }
  }
}

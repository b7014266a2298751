/** The cart of `src/components/Cart.jsx`. It shows the context cart and total directly. Its quantity
    buttons call an `updateCartQuantity` that the context does not provide: the model gives the call a
    button would make, the TypeError it ends in, and the cart update it was evidently meant to make. Checkout delegates to `placeOrder` and keeps the
    dialog open on failure. */
module CartView {
  import opened Wrappers
  import opened Catalog
  import opened CartOps
  import Context
  import HttpClient
  import CartPage

  /** The arguments of one `updateCartQuantity(id, quantity)` call. */
  datatype QuantityUpdate = QuantityUpdate(id: int, quantity: int)

  /** The call `handleIncreaseQuantity(id)` makes: one more unit, only for an existing line below its stock. */
  function IncreaseCall(cart: seq<CartLine>, id: int): (r: Option<QuantityUpdate>)
    ensures r.Some? <==> Find(cart, id).Some? && Find(cart, id).value.quantity < Find(cart, id).value.product.stockQuantity
    ensures r.Some? ==> r.value == QuantityUpdate(id, Find(cart, id).value.quantity + 1)
  {
    match Find(cart, id)
    case Some(item) =>
      if item.quantity < item.product.stockQuantity then Some(QuantityUpdate(id, item.quantity + 1)) else None
    case None => None
  }

  /** The call `handleDecreaseQuantity(id)` makes: one unit fewer, only for an existing line above 1. */
  function DecreaseCall(cart: seq<CartLine>, id: int): (r: Option<QuantityUpdate>)
    ensures r.Some? <==> Find(cart, id).Some? && Find(cart, id).value.quantity > 1
    ensures r.Some? ==> r.value == QuantityUpdate(id, Find(cart, id).value.quantity - 1)
  {
    match Find(cart, id)
    case Some(item) => if item.quantity > 1 then Some(QuantityUpdate(id, item.quantity - 1)) else None
    case None => None
  }

  /** A requested update targets a line of the cart: an increase never asks for more than that
      line's stock, a decrease never for less than 1. */
  lemma RequestedQuantitiesInRange(cart: seq<CartLine>, id: int)
    ensures IncreaseCall(cart, id).Some? ==>
      HasId(cart, id) && IncreaseCall(cart, id).value.quantity <= Find(cart, id).value.product.stockQuantity
    ensures DecreaseCall(cart, id).Some? ==> HasId(cart, id) && DecreaseCall(cart, id).value.quantity >= 1
  {
  }

  /** The keys of the context's `value` object: there is no `updateCartQuantity` among them. */
  const ContextValueKeys: set<string> := {
    "user", "token", "isAdmin", "isAuthenticated", "login", "logout",
    "products", "productsLoading", "refreshProducts",
    "cart", "addToCart", "removeFromCart", "clearCart", "cartTotal",
    "placeOrder"}

  /** What a click on a quantity button ends in. */
  datatype ButtonEffect = NoCall | TypeError | CartUpdated(cart: seq<CartLine>)

  /** The quantity `updateCartQuantity(id, q)` is evidently meant to give: every line with the id
      takes quantity `q`, and every other line is untouched. */
  function SetQuantity(cart: seq<CartLine>, id: int, quantity: int): (r: seq<CartLine>)
    ensures |r| == |cart|
    ensures forall i :: 0 <= i < |cart| ==> r[i].product == cart[i].product
    ensures forall i :: 0 <= i < |cart| ==> r[i].quantity == if cart[i].Id() == id then quantity else cart[i].quantity
  {
    if cart == [] then []
    else [if cart[0].Id() == id then cart[0].(quantity := quantity) else cart[0]] + SetQuantity(cart[1..], id, quantity)
  }

  /** A quantity button as written: the handler calls the destructured `updateCartQuantity`,
      which is `undefined` because the context does not provide it, so any call throws. */
  function ButtonAsWritten(cart: seq<CartLine>, call: Option<QuantityUpdate>): (r: ButtonEffect)
    ensures call.None? ==> r == NoCall
    ensures call.Some? ==> (r.TypeError? <==> "updateCartQuantity" !in ContextValueKeys)
  {
    match call
    case None => NoCall
    case Some(u) =>
      if "updateCartQuantity" in ContextValueKeys then CartUpdated(SetQuantity(cart, u.id, u.quantity)) else TypeError
  }

  /** Every click that reaches `updateCartQuantity` throws: neither button can change the cart. */
  lemma QuantityButtonsThrow(cart: seq<CartLine>, id: int)
    ensures IncreaseCall(cart, id).Some? ==> ButtonAsWritten(cart, IncreaseCall(cart, id)) == TypeError
    ensures DecreaseCall(cart, id).Some? ==> ButtonAsWritten(cart, DecreaseCall(cart, id)) == TypeError
  {
  }

  /** A quantity button as evidently intended: the requested quantity is written to the cart. */
  function ButtonIntended(cart: seq<CartLine>, call: Option<QuantityUpdate>): (r: ButtonEffect)
    ensures call.None? <==> r == NoCall
    ensures call.Some? ==> r.CartUpdated? && |r.cart| == |cart|
  {
    match call
    case None => NoCall
    case Some(u) => CartUpdated(SetQuantity(cart, u.id, u.quantity))
  }

  /** With distinct ids, the line `Find` returns is the only line with that id. */
  lemma FoundIsOnly(cart: seq<CartLine>, id: int, i: int)
    requires DistinctIds(cart) && 0 <= i < |cart| && cart[i].Id() == id
    ensures Find(cart, id) == Some(cart[i])
  {
    var f := Find(cart, id);
    assert HasId(cart, id);
    var j :| 0 <= j < |cart| && cart[j] == f.value;
    assert cart[j].Id() == id;
  }

  /** The intended buttons on the shared cart do what the `pages/` cart screen's buttons do on its
      local list: an increase is `Increased`, a decrease is `Decreased`, and a click that makes no
      call is one whose `Increased`/`Decreased` would leave the cart as it is. */
  /** An intended increase writes exactly what `Increased` gives. */
  lemma IntendedIncreaseMatches(cart: seq<CartLine>, id: int)
    requires DistinctIds(cart) && IncreaseCall(cart, id).Some?
    ensures SetQuantity(cart, id, Find(cart, id).value.quantity + 1) == CartPage.Increased(cart, id)
  {
    var inc := CartPage.Increased(cart, id);
    var s := SetQuantity(cart, id, Find(cart, id).value.quantity + 1);
    forall i | 0 <= i < |cart| ensures s[i] == inc[i] {
      if cart[i].Id() == id {
        FoundIsOnly(cart, id, i);
      }
    }
  }

  /** An increase that makes no call is one `Increased` would not change anything for. */
  lemma IntendedIncreaseUnneeded(cart: seq<CartLine>, id: int)
    requires DistinctIds(cart) && IncreaseCall(cart, id).None?
    ensures CartPage.Increased(cart, id) == cart
  {
    var inc := CartPage.Increased(cart, id);
    forall i | 0 <= i < |cart| ensures inc[i] == cart[i] {
      if cart[i].Id() == id {
        FoundIsOnly(cart, id, i);
      }
    }
  }

  /** An intended decrease writes exactly what `Decreased` gives. */
  lemma IntendedDecreaseMatches(cart: seq<CartLine>, id: int)
    requires DistinctIds(cart) && DecreaseCall(cart, id).Some?
    ensures SetQuantity(cart, id, Find(cart, id).value.quantity - 1) == CartPage.Decreased(cart, id)
  {
    var dec := CartPage.Decreased(cart, id);
    var s := SetQuantity(cart, id, Find(cart, id).value.quantity - 1);
    forall i | 0 <= i < |cart| ensures s[i] == dec[i] {
      if cart[i].Id() == id {
        FoundIsOnly(cart, id, i);
      }
    }
  }

  /** A decrease that makes no call is one `Decreased` would not change anything for, while every line holds at least one unit. */
  lemma IntendedDecreaseUnneeded(cart: seq<CartLine>, id: int)
    requires DistinctIds(cart) && CartPage.WithinStock(cart) && DecreaseCall(cart, id).None?
    ensures CartPage.Decreased(cart, id) == cart
  {
    var dec := CartPage.Decreased(cart, id);
    forall i | 0 <= i < |cart| ensures dec[i] == cart[i] {
      if cart[i].Id() == id {
        FoundIsOnly(cart, id, i);
        assert 1 <= cart[i].quantity;
      }
    }
  }

  /** The intended buttons on the shared cart do what the `pages/` cart screen's buttons do on its
      local list: an increase is `Increased`, a decrease is `Decreased`, and a click that makes no
      call is one whose `Increased`/`Decreased` would leave the cart as it is. */
  lemma IntendedButtonsMatchCartPage(cart: seq<CartLine>, id: int)
    requires DistinctIds(cart) && CartPage.WithinStock(cart)
    ensures IncreaseCall(cart, id).Some? ==> ButtonIntended(cart, IncreaseCall(cart, id)) == CartUpdated(CartPage.Increased(cart, id))
    ensures IncreaseCall(cart, id).None? ==> CartPage.Increased(cart, id) == cart
    ensures DecreaseCall(cart, id).Some? ==> ButtonIntended(cart, DecreaseCall(cart, id)) == CartUpdated(CartPage.Decreased(cart, id))
    ensures DecreaseCall(cart, id).None? ==> CartPage.Decreased(cart, id) == cart
  {
    if IncreaseCall(cart, id).Some? {
      IntendedIncreaseMatches(cart, id);
    } else {
      IntendedIncreaseUnneeded(cart, id);
    }
    if DecreaseCall(cart, id).Some? {
      IntendedDecreaseMatches(cart, id);
    } else {
      IntendedDecreaseUnneeded(cart, id);
    }
  }

  /** The intended buttons keep every line of the shared cart within [1, stock]. */
  lemma IntendedButtonsKeepBounds(cart: seq<CartLine>, id: int)
    requires DistinctIds(cart) && CartPage.WithinStock(cart)
    ensures IncreaseCall(cart, id).Some? ==> CartPage.WithinStock(ButtonIntended(cart, IncreaseCall(cart, id)).cart)
    ensures DecreaseCall(cart, id).Some? ==> CartPage.WithinStock(ButtonIntended(cart, DecreaseCall(cart, id)).cart)
  {
    IntendedButtonsMatchCartPage(cart, id);
    CartPage.QuantityButtonsKeepBounds(cart, id);
  }

  /** The component's state. */
  class CartViewState {
    const ctx: Context.AppState
    var showModal: bool

    constructor (ctx: Context.AppState)
      ensures this.ctx == ctx && !showModal
    {
      this.ctx := ctx;
      showModal := false;
    }

    /** `cart || []`: the items shown are the context cart itself. */
    function Items(): (r: seq<CartLine>)
      reads this, ctx
      ensures r == ctx.cart
    {
      ctx.cart
    }

    /** The total shown is the context's `cartTotal`. */
    function TotalPrice(): (r: real)
      reads this, ctx
      ensures r == CartTotal(Items())
    {
      ctx.Total()
    }

    /** The "Proceed to Checkout" button opens the dialog. */
    method OpenModal()
      modifies this
      ensures showModal
    {
      showModal := true;
    }

    /** The dialog's close handler. */
    method CloseModal()
      modifies this
      ensures !showModal
    {
      showModal := false;
    }

    /** `handleRemoveFromCart(id)` */
    method RemoveFromCart(id: int)
      modifies ctx
      ensures ctx.cart == WithoutId(old(ctx.cart), id)
      ensures ctx.token == old(ctx.token) && ctx.user == old(ctx.user) && ctx.isAdmin == old(ctx.isAdmin)
    {
      ctx.RemoveFromCart(id);
    }

    /** `handleCheckout(customerName, email)` given the order outcome. With an empty cart nothing is
        sent. On success the dialog closes and the cart is the one `placeOrder` cleared; a failure is
        caught here, so the dialog stays open and the cart is kept. It never rejects. */
    method Checkout<T>(customerName: string, email: string, outcome: Outcome<T>) returns (sent: Option<OrderRequest>)
      modifies this, ctx, ctx.browser
      ensures old(ctx.cart) == [] ==> sent == None && ctx.cart == [] && showModal == old(showModal) && unchanged(ctx.browser)
      ensures old(ctx.cart) != [] ==> sent == OrderRequestFor(old(ctx.token), old(ctx.cart), customerName, email)
      ensures old(ctx.cart) != [] && sent.Some? && outcome.Success? ==> ctx.cart == [] && !showModal
      ensures old(ctx.cart) != [] && sent.Some? && !outcome.Success? ==> ctx.cart == old(ctx.cart) && showModal == old(showModal)
      ensures old(ctx.cart) != [] && sent.None? ==> ctx.cart == old(ctx.cart) && !showModal && unchanged(ctx.browser)
      ensures old(ctx.cart) != [] && sent.Some? ==> HttpClient.Responded(ctx.browser, outcome)
      ensures ctx.token == old(ctx.token) && ctx.user == old(ctx.user) && ctx.isAdmin == old(ctx.isAdmin)
      ensures ctx.products == old(ctx.products)
    {
      if |ctx.cart| == 0 {
        return None;
      }
      var result;
      sent, result := ctx.PlaceOrder(customerName, email, outcome);
      if result.Resolved? {
        showModal := false;
      }
    }
  }
}

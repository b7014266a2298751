/** The cart page of `src/components/pages/Cart.jsx`: a local copy of the context cart whose
    quantity buttons change only the copy, the pricing summary (shipping threshold and 18% tax),
    and a checkout that clears the cart whenever `placeOrder` resolves. */
module CartPage {
  import opened Wrappers
  import opened Catalog
  import opened CartOps
  import Env
  import Context
  import HttpClient
  import Numeric
  import Display

  /** One line of `items.map(...)` in `handleIncreaseQuantity`: +1 only while below the stock. */
  function IncreaseLine(line: CartLine, id: int): CartLine {
    if line.Id() == id && line.quantity < line.product.stockQuantity then line.(quantity := line.quantity + 1)
    else line
  }

  /** The local items after `handleIncreaseQuantity(id)`. */
  function Increased(items: seq<CartLine>, id: int): (r: seq<CartLine>)
    ensures |r| == |items|
    ensures forall i :: 0 <= i < |items| ==> r[i].product == items[i].product
    ensures forall i :: 0 <= i < |items| ==>
      r[i].quantity == if items[i].Id() == id && items[i].quantity < items[i].product.stockQuantity then items[i].quantity + 1 else items[i].quantity
  {
    if items == [] then [] else [IncreaseLine(items[0], id)] + Increased(items[1..], id)
  }

  /** One line of `items.map(...)` in `handleDecreaseQuantity`: `Math.max(quantity - 1, 1)`. */
  function DecreaseLine(line: CartLine, id: int): CartLine {
    if line.Id() == id then line.(quantity := if line.quantity - 1 > 1 then line.quantity - 1 else 1)
    else line
  }

  /** The local items after `handleDecreaseQuantity(id)`. */
  function Decreased(items: seq<CartLine>, id: int): (r: seq<CartLine>)
    ensures |r| == |items|
    ensures forall i :: 0 <= i < |items| ==> r[i].product == items[i].product
    ensures forall i :: 0 <= i < |items| && items[i].Id() != id ==> r[i] == items[i]
    ensures forall i :: 0 <= i < |items| && items[i].Id() == id ==>
      (items[i].quantity > 1 ==> r[i].quantity == items[i].quantity - 1) && (items[i].quantity <= 1 ==> r[i].quantity == 1)
  {
    if items == [] then [] else [DecreaseLine(items[0], id)] + Decreased(items[1..], id)
  }

  /** Every line holds at least one unit and no more than the stock. */
  predicate WithinStock(items: seq<CartLine>) {
    forall i :: 0 <= i < |items| ==> 1 <= items[i].quantity <= items[i].product.stockQuantity
  }

  /** Increasing and decreasing keep every line within [1, stock]. */
  lemma QuantityButtonsKeepBounds(items: seq<CartLine>, id: int)
    requires WithinStock(items)
    ensures WithinStock(Increased(items, id))
    ensures WithinStock(Decreased(items, id))
  {
    var inc := Increased(items, id);
    var dec := Decreased(items, id);
    forall i | 0 <= i < |items| ensures 1 <= inc[i].quantity <= inc[i].product.stockQuantity {
      assert 1 <= items[i].quantity <= items[i].product.stockQuantity;
    }
    forall i | 0 <= i < |items| ensures 1 <= dec[i].quantity <= dec[i].product.stockQuantity {
      assert 1 <= items[i].quantity <= items[i].product.stockQuantity;
    }
  }

  /** A decrease from above 1 followed by an increase restores the items: the two buttons are
      inverse away from the bounds. */
  lemma {:induction false} IncreaseUndoesDecrease(items: seq<CartLine>, id: int)
    requires forall i :: 0 <= i < |items| && items[i].Id() == id ==>
      1 < items[i].quantity <= items[i].product.stockQuantity
    ensures Increased(Decreased(items, id), id) == items
  {
    var d := Decreased(items, id);
    var r := Increased(d, id);
    forall i | 0 <= i < |items| ensures r[i] == items[i] {
      if items[i].Id() == id {
        assert d[i].quantity == items[i].quantity - 1;
      }
    }
  }

  /** `totalPrice > 999 ? 0 : 99` */
  function Shipping(total: real): (r: int)
    ensures r == 0 || r == 99
    ensures r == 0 <==> total > 999.0
  {
    if total > 999.0 then 0 else 99
  }

  /** `Math.round(totalPrice * 0.18)`, with 0.18 read as the exact rational 18/100. */
  function Tax(total: real): (r: int)
    ensures total >= 0.0 ==> r >= 0
    ensures total * 18.0 / 100.0 - 0.5 < r as real <= total * 18.0 / 100.0 + 0.5
  {
    Numeric.Round(total * 18.0 / 100.0)
  }

  /** `subtotal + shipping + tax` */
  function GrandTotal(total: real): (r: real)
    ensures total >= 0.0 ==> r >= total
    ensures r == total + Shipping(total) as real + Tax(total) as real
  {
    total + Shipping(total) as real + Tax(total) as real
  }

  /** The free-shipping hint is shown exactly when shipping is charged. */
  predicate ShowsHint(total: real) {
    Shipping(total) > 0
  }

  /** `1000 - subtotal`, the amount the hint asks for. */
  function HintAmount(total: real): real {
    1000.0 - total
  }

  /** Whenever the hint shows, it asks for at least 1, and adding that amount earns free shipping. */
  lemma HintEarnsFreeShipping(total: real)
    ensures ShowsHint(total) <==> total <= 999.0
    ensures ShowsHint(total) ==> HintAmount(total) >= 1.0 && Shipping(total + HintAmount(total)) == 0
  {
  }

  /** `item.stockQuantity <= 5`: the cart row's "Only n left" badge, which has no lower bound. */
  predicate ShowsOnlyLeft(line: CartLine) {
    line.product.stockQuantity <= 5
  }

  /** The cart row's badge shows whenever the product pages' low-stock badge does, and also for a
      product with no stock at all ("Only 0 left"), where theirs does not. */
  lemma CartBadgeWiderThanLowStock(line: CartLine)
    ensures Display.LowStock(line.product) ==> ShowsOnlyLeft(line)
    ensures ShowsOnlyLeft(line) && !Display.LowStock(line.product) <==> line.product.stockQuantity <= 0
  {
  }

  /** The component's state. */
  class CartPageState {
    const ctx: Context.AppState
    /** `cartItems`: the local copy of the cart. */
    var cartItems: seq<CartLine>
    var totalPrice: real
    var showCheckout: bool
    var isProcessing: bool
    /** `checkoutForm.customerName` and `checkoutForm.email` */
    var customerName: string
    var email: string

    constructor (ctx: Context.AppState)
      ensures this.ctx == ctx && cartItems == [] && totalPrice == 0.0
      ensures !showCheckout && !isProcessing && customerName == "" && email == ""
    {
      this.ctx := ctx;
      cartItems := [];
      totalPrice := 0.0;
      showCheckout := false;
      isProcessing := false;
      customerName := "";
      email := "";
    }

    /** The effect on `[cart]`: the local items become the context cart, discarding local edits. */
    method SyncFromContext()
      modifies this
      ensures cartItems == ctx.cart
      ensures totalPrice == old(totalPrice) && showCheckout == old(showCheckout) && isProcessing == old(isProcessing)
      ensures customerName == old(customerName) && email == old(email)
    {
      cartItems := if |ctx.cart| > 0 then ctx.cart else [];
    }

    /** The effect on `[cartItems]`: the total is Σ price × quantity over the local items. */
    method SyncTotal()
      modifies this
      ensures totalPrice == CartTotal(cartItems)
      ensures cartItems == old(cartItems) && showCheckout == old(showCheckout) && isProcessing == old(isProcessing)
      ensures customerName == old(customerName) && email == old(email)
    {
      totalPrice := CartTotal(cartItems);
    }

    /** `handleIncreaseQuantity(id)`: only the local items change, never the context cart. */
    method IncreaseQuantity(id: int)
      modifies this
      ensures cartItems == Increased(old(cartItems), id)
      ensures totalPrice == old(totalPrice) && showCheckout == old(showCheckout) && isProcessing == old(isProcessing)
      ensures customerName == old(customerName) && email == old(email)
    {
      cartItems := Increased(cartItems, id);
    }

    /** `handleDecreaseQuantity(id)`: only the local items change; no line is removed. */
    method DecreaseQuantity(id: int)
      modifies this
      ensures cartItems == Decreased(old(cartItems), id)
      ensures totalPrice == old(totalPrice) && showCheckout == old(showCheckout) && isProcessing == old(isProcessing)
      ensures customerName == old(customerName) && email == old(email)
    {
      cartItems := Decreased(cartItems, id);
    }

    /** `handleRemoveFromCart(id)`: remove from the context cart and from the local items. */
    method RemoveFromCart(id: int)
      modifies this, ctx
      ensures ctx.cart == WithoutId(old(ctx.cart), id)
      ensures cartItems == WithoutId(old(cartItems), id)
      ensures ctx.token == old(ctx.token) && ctx.user == old(ctx.user) && ctx.isAdmin == old(ctx.isAdmin)
      ensures totalPrice == old(totalPrice) && showCheckout == old(showCheckout) && isProcessing == old(isProcessing)
      ensures customerName == old(customerName) && email == old(email)
    {
      ctx.RemoveFromCart(id);
      cartItems := WithoutId(cartItems, id);
    }

    /** The "Clear Cart" button: empty the context cart and the local items. */
    method ClearAll()
      modifies this, ctx
      ensures ctx.cart == [] && cartItems == []
      ensures ctx.token == old(ctx.token) && ctx.user == old(ctx.user) && ctx.isAdmin == old(ctx.isAdmin)
      ensures totalPrice == old(totalPrice) && showCheckout == old(showCheckout) && isProcessing == old(isProcessing)
      ensures customerName == old(customerName) && email == old(email)
    {
      ctx.ClearCart();
      cartItems := [];
    }

    /** The "Proceed to Checkout" button opens the dialog. */
    method OpenCheckout()
      modifies this
      ensures showCheckout
      ensures cartItems == old(cartItems) && totalPrice == old(totalPrice) && isProcessing == old(isProcessing)
      ensures customerName == old(customerName) && email == old(email)
    {
      showCheckout := true;
    }

    /** Typing in the name field of the checkout form. */
    method EditName(value: string)
      modifies this
      ensures customerName == value && email == old(email)
      ensures cartItems == old(cartItems) && totalPrice == old(totalPrice)
      ensures showCheckout == old(showCheckout) && isProcessing == old(isProcessing)
    {
      customerName := value;
    }

    /** Typing in the email field of the checkout form. */
    method EditEmail(value: string)
      modifies this
      ensures email == value && customerName == old(customerName)
      ensures cartItems == old(cartItems) && totalPrice == old(totalPrice)
      ensures showCheckout == old(showCheckout) && isProcessing == old(isProcessing)
    {
      email := value;
    }

    /** `handleCheckout` given the outcome of the order request. With no local items nothing is
        sent. Otherwise, whenever `placeOrder` resolves (including its silent return when there is no
        token) both carts are emptied and the dialog closes; when it rejects both are kept. The
        processing flag is false afterwards. */
    method Checkout<T>(outcome: Outcome<T>) returns (sent: Option<OrderRequest>)
      modifies this, ctx, ctx.browser
      ensures old(cartItems) == [] ==> sent == None && ctx.cart == old(ctx.cart) && cartItems == old(cartItems) && unchanged(ctx.browser)
      ensures old(cartItems) != [] ==> sent == OrderRequestFor(old(ctx.token), old(ctx.cart), old(customerName), old(email))
      ensures old(cartItems) != [] && (sent.None? || outcome.Success?) ==> ctx.cart == [] && cartItems == [] && !showCheckout
      ensures old(cartItems) != [] && sent.Some? && !outcome.Success? ==>
        ctx.cart == old(ctx.cart) && cartItems == old(cartItems) && showCheckout == old(showCheckout)
      ensures old(cartItems) != [] && sent.Some? ==> HttpClient.Responded(ctx.browser, outcome)
      ensures old(cartItems) != [] && sent.None? ==> unchanged(ctx.browser)
      ensures isProcessing <==> old(cartItems) == [] && old(isProcessing)
      ensures customerName == old(customerName) && email == old(email) && totalPrice == old(totalPrice)
      ensures ctx.token == old(ctx.token) && ctx.user == old(ctx.user) && ctx.isAdmin == old(ctx.isAdmin)
      ensures ctx.products == old(ctx.products)
    {
      if cartItems == [] {
        return None;
      }
      isProcessing := true;
      var result;
      sent, result := ctx.PlaceOrder(customerName, email, outcome);
      if result.Resolved? {
        ctx.ClearCart();
        cartItems := [];
        showCheckout := false;
      }
      isProcessing := false;
    }

    /** `handleCheckout` clearing only after an order was actually sent and accepted. */
    method CheckoutGuarded<T>(outcome: Outcome<T>) returns (sent: Option<OrderRequest>)
      modifies this, ctx, ctx.browser
      ensures old(cartItems) == [] ==> sent == None && ctx.cart == old(ctx.cart) && cartItems == old(cartItems) && unchanged(ctx.browser)
      ensures old(cartItems) != [] ==> sent == OrderRequestFor(old(ctx.token), old(ctx.cart), old(customerName), old(email))
      ensures sent.Some? && outcome.Success? ==> ctx.cart == [] && cartItems == [] && !showCheckout
      ensures !(sent.Some? && outcome.Success?) ==>
        ctx.cart == old(ctx.cart) && cartItems == old(cartItems) && showCheckout == old(showCheckout)
      ensures old(cartItems) != [] && sent.Some? ==> HttpClient.Responded(ctx.browser, outcome)
      ensures old(cartItems) != [] && sent.None? ==> unchanged(ctx.browser)
      ensures isProcessing <==> old(cartItems) == [] && old(isProcessing)
      ensures customerName == old(customerName) && email == old(email) && totalPrice == old(totalPrice)
      ensures ctx.token == old(ctx.token) && ctx.user == old(ctx.user) && ctx.isAdmin == old(ctx.isAdmin)
      ensures ctx.products == old(ctx.products)
    {
      if cartItems == [] {
        return None;
      }
      isProcessing := true;
      var result;
      sent, result := ctx.PlaceOrder(customerName, email, outcome);
      if sent.Some? && result.Resolved? {
        ctx.ClearCart();
        cartItems := [];
        showCheckout := false;
      }
      isProcessing := false;
    }
  }

  /** A signed-out shopper with one line in the cart checks out: no order is sent, yet the cart
      that held the line is empty afterwards. */
  method CheckoutWithoutTokenEmptiesCart(browser: Env.Browser, codec: Context.CartCodec, line: CartLine)
    returns (sent: Option<OrderRequest>, before: seq<CartLine>, after: seq<CartLine>)
    modifies browser
    ensures sent == None && before == [line] && after == []
  {
    browser.RemoveItem(Env.TokenKey);
    browser.RemoveItem(Env.CartKey);
    var ctx := new Context.AppState(browser, codec);
    ctx.AddToCart(line.product, line.quantity);
    before := ctx.cart;
    var page := new CartPageState(ctx);
    page.SyncFromContext();
    sent := page.Checkout<()>(Failed);
    after := ctx.cart;
  }
}

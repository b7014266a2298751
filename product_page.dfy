/** The product page of `src/components/pages/Product.jsx`: the quantity selector, the loop that adds
    the selected quantity one unit at a time, the related-products strip, and product deletion. */
module ProductPage {
  import opened Wrappers
  import opened Catalog
  import opened CartOps
  import Seqs
  import Display
  import Env
  import HttpClient
  import Context
  import AppRoutes

  /** The cart after calling `addToCart(product)` `n` times. */
  function AddedTimes(cart: seq<CartLine>, product: Product, n: int): seq<CartLine>
    decreases n
  {
    if n <= 0 then cart else WithAdded(AddedTimes(cart, product, n - 1), product, 1)
  }

  /** Adding one unit `n` times is adding `n` units at once. */
  lemma {:induction false} AddedTimesIsOneAdd(cart: seq<CartLine>, product: Product, n: int)
    requires n >= 1
    ensures AddedTimes(cart, product, n) == WithAdded(cart, product, n)
  {
    if n > 1 {
      AddedTimesIsOneAdd(cart, product, n - 1);
      AddTwice(cart, product, n - 1, 1);
    }
  }

  /** `q => Math.max(1, q - 1)` */
  function Decrement(q: int): (r: int)
    ensures r >= 1
    ensures q > 1 ==> r == q - 1
    ensures q <= 1 ==> r == 1
  {
    if q - 1 > 1 then q - 1 else 1
  }

  /** `q => Math.min(product.stockQuantity, q + 1)` */
  function Increment(q: int, stock: int): (r: int)
    ensures r <= stock
    ensures q < stock ==> r == q + 1
    ensures q >= stock ==> r == stock
  {
    if stock < q + 1 then stock else q + 1
  }

  /** From a quantity in [1, stock], either button keeps it in [1, stock]. */
  lemma SelectorStaysInRange(q: int, stock: int)
    requires 1 <= q <= stock
    ensures 1 <= Decrement(q) <= stock
    ensures 1 <= Increment(q, stock) <= stock
  {
  }

  /** `!product?.productAvailable || product?.stockQuantity === 0`: also true while no product is loaded. */
  predicate IsOutOfStock(product: Option<Product>) {
    product.None? || Display.OutOfStock(product.value)
  }

  /** `p.category === product.category && p.id !== product.id` */
  function RelatedTo(current: Product): Product -> bool {
    (p: Product) => p.category == current.category && p.id != current.id
  }

  /** `relatedProducts`: the first four other products of the same category, in list order. */
  function RelatedProducts(products: seq<Product>, current: Product): (r: seq<Product>)
    ensures |r| <= 4
    ensures forall i :: 0 <= i < |r| ==> r[i] in products && r[i].category == current.category && r[i].id != current.id
    ensures |r| < 4 ==> forall i :: 0 <= i < |products| && RelatedTo(current)(products[i]) ==> products[i] in r
    ensures var all := Seqs.Filter(products, RelatedTo(current));
      |r| == (if |all| < 4 then |all| else 4) && r == all[..|r|]
  {
    var all := Seqs.Filter(products, RelatedTo(current));
    assert forall i :: 0 <= i < |all| ==> RelatedTo(current)(all[i]);
    Seqs.Take(all, 4)
  }

  /** The related products keep their order in the catalogue. */
  lemma RelatedKeepOrder(products: seq<Product>, current: Product)
    ensures Seqs.IsSubseq(RelatedProducts(products, current), products)
  {
    var all := Seqs.Filter(products, RelatedTo(current));
    Seqs.FilterIsSubseq(products, RelatedTo(current));
    PrefixOfSubseq(all, products, |RelatedProducts(products, current)|);
  }

  lemma {:induction false} PrefixOfSubseq(a: seq<Product>, b: seq<Product>, n: nat)
    requires Seqs.IsSubseq(a, b) && n <= |a|
    ensures Seqs.IsSubseq(a[..n], b)
  {
    if n > 0 && b != [] {
      if a[0] == b[0] {
        assert a[..n][1..] == a[1..][..n - 1];
        PrefixOfSubseq(a[1..], b[1..], n - 1);
      } else {
        PrefixOfSubseq(a, b[1..], n);
      }
    }
  }

  /** The component's state. */
  class ProductPageState {
    const ctx: Context.AppState
    var product: Option<Product>
    var imageUrl: string
    var loading: bool
    var quantity: int
    var showDeleteModal: bool
    var isDeleting: bool

    /** The initial state: nothing loaded yet, one unit selected. */
    constructor (ctx: Context.AppState)
      ensures this.ctx == ctx && product == None && imageUrl == "" && loading
      ensures quantity == 1 && !showDeleteModal && !isDeleting
    {
      this.ctx := ctx;
      product := None;
      imageUrl := "";
      loading := true;
      quantity := 1;
      showDeleteModal := false;
      isDeleting := false;
    }

    /** The mount effect, given the route's `id` and the outcomes of `GET /product/{id}` and of
        `GET /product/{id}/image`. Without an id the page goes home and stays loading. A failed
        product fetch goes home too; the image is fetched only for a product with an image name,
        and a failed image fetch shows the unplugged picture. */
    method Mount(id: Option<string>, productOutcome: Outcome<Product>, imageOutcome: Outcome<Display.Blob>)
      returns (fetchedImage: bool)
      modifies this, ctx.browser
      ensures !Truthy(id) ==> ctx.browser.path == "/" && unchanged(this) && !fetchedImage
      ensures Truthy(id) && productOutcome.Success? ==> product == Some(productOutcome.data) && !loading
      ensures Truthy(id) && productOutcome.Success? ==> (fetchedImage <==> Truthy(productOutcome.data.imageName))
      ensures Truthy(id) && !productOutcome.Success? ==> ctx.browser.path == "/" && product == old(product) && !loading && !fetchedImage
      ensures fetchedImage ==> imageUrl == (if imageOutcome.Success? then imageOutcome.data.objectUrl else Display.Unplugged)
      ensures !fetchedImage ==> imageUrl == old(imageUrl)
      ensures !Truthy(id) || (!productOutcome.Unauthorized? && !(fetchedImage && imageOutcome.Unauthorized?)) ==>
        ctx.browser.storage == old(ctx.browser.storage)
      ensures Truthy(id) && (productOutcome.Unauthorized? || (fetchedImage && imageOutcome.Unauthorized?)) ==>
        ctx.browser.storage == HttpClient.AfterUnauthorized(old(ctx.browser.storage))
      ensures Truthy(id) && !productOutcome.Success? ==> ctx.browser.state == None
      ensures Truthy(id) && fetchedImage && imageOutcome.Unauthorized? ==>
        ctx.browser.path == (if HttpClient.RedirectOn401(old(ctx.browser.path)).Some? then "/login" else old(ctx.browser.path))
      ensures Truthy(id) && productOutcome.Success? && !(fetchedImage && imageOutcome.Unauthorized?) ==>
        ctx.browser.path == old(ctx.browser.path) && ctx.browser.state == old(ctx.browser.state)
      ensures quantity == old(quantity) && showDeleteModal == old(showDeleteModal) && isDeleting == old(isDeleting)
    {
      fetchedImage := false;
      if !Truthy(id) {
        ctx.browser.Navigate("/", None);
        return;
      }
      var r := HttpClient.Respond(ctx.browser, productOutcome);
      if r.Success? {
        product := Some(r.data);
        if Truthy(r.data.imageName) {
          fetchedImage := true;
          var img := HttpClient.Respond(ctx.browser, imageOutcome);
          imageUrl := if img.Success? then img.data.objectUrl else Display.Unplugged;
        }
      } else {
        ctx.browser.Navigate("/", None);
      }
      loading := false;
    }

    /** The minus button. */
    method DecrementQuantity()
      modifies this
      ensures quantity == Decrement(old(quantity))
      ensures product == old(product)
    {
      quantity := Decrement(quantity);
    }

    /** The plus button, shown only for a loaded product. */
    method IncrementQuantity()
      requires product.Some?
      modifies this
      ensures product == old(product)
      ensures quantity == Increment(old(quantity), product.value.stockQuantity)
    {
      quantity := Increment(quantity, product.value.stockQuantity);
    }

    /** `handleAddToCart`: call `addToCart(product)` once per selected unit, so the product's line
        grows by `quantity` units (a first add appends it with that quantity). */
    method HandleAddToCart()
      requires product.Some?
      modifies ctx
      ensures quantity >= 1 ==> ctx.cart == WithAdded(old(ctx.cart), product.value, quantity)
      ensures quantity < 1 ==> ctx.cart == old(ctx.cart)
      ensures ctx.token == old(ctx.token) && ctx.user == old(ctx.user) && ctx.isAdmin == old(ctx.isAdmin)
    {
      var i := 0;
      while i < quantity
        invariant 0 <= i
        invariant i <= quantity || i == 0
        invariant ctx.cart == AddedTimes(old(ctx.cart), product.value, i)
        invariant ctx.token == old(ctx.token) && ctx.user == old(ctx.user) && ctx.isAdmin == old(ctx.isAdmin)
        decreases quantity - i
      {
        ctx.AddToCart(product.value, 1);
        i := i + 1;
      }
      if quantity >= 1 {
        AddedTimesIsOneAdd(old(ctx.cart), product.value, quantity);
      }
    }

    /** The admin's edit button goes to the product's edit page. */
    method EditProduct(id: string)
      modifies ctx.browser
      ensures ctx.browser.path == AppRoutes.UpdatePath(id)
      ensures ctx.browser.storage == old(ctx.browser.storage)
    {
      ctx.browser.Navigate(AppRoutes.UpdatePath(id), None);
    }

    /** The admin's delete button opens the confirmation dialog. */
    method OpenDeleteModal()
      modifies this
      ensures showDeleteModal
      ensures product == old(product) && quantity == old(quantity) && isDeleting == old(isDeleting)
    {
      showDeleteModal := true;
    }

    /** The dialog's cancel button. */
    method CloseDeleteModal()
      modifies this
      ensures !showDeleteModal
      ensures product == old(product) && quantity == old(quantity) && isDeleting == old(isDeleting)
    {
      showDeleteModal := false;
    }

    /** `deleteProduct` given the outcome of `DELETE /product/{id}` and `Number(id)` (None when it is
        not an integer, so that no cart id equals it). On success the product leaves the cart and the
        page goes home; on failure the cart is kept. Either way the dialog closes and the deleting
        flag is false afterwards. */
    method DeleteProduct(outcome: Outcome<()>, numericId: Option<int>)
      modifies this, ctx, ctx.browser
      ensures outcome.Success? && numericId.Some? ==> ctx.cart == WithoutId(old(ctx.cart), numericId.value)
      ensures !(outcome.Success? && numericId.Some?) ==> ctx.cart == old(ctx.cart)
      ensures outcome.Success? ==> ctx.browser.path == "/" && ctx.browser.state == None
      ensures outcome.Success? ==> ctx.browser.storage == old(ctx.browser.storage)
      ensures !outcome.Success? ==> HttpClient.Responded(ctx.browser, outcome)
      ensures !isDeleting && !showDeleteModal
      ensures product == old(product) && quantity == old(quantity)
      ensures ctx.token == old(ctx.token) && ctx.user == old(ctx.user) && ctx.isAdmin == old(ctx.isAdmin)
    {
      isDeleting := true;
      var r := HttpClient.Respond(ctx.browser, outcome);
      if r.Success? {
        if numericId.Some? {
          ctx.RemoveFromCart(numericId.value);
        }
        ctx.browser.Navigate("/", None);
      }
      isDeleting := false;
      showDeleteModal := false;
    }
  }
}

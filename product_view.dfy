/** The older product view of `src/components/Product.jsx`: it fetches a product and its image,
    adds one unit per click and lets an admin delete the product. */
module ProductView {
  import opened Wrappers
  import opened Catalog
  import opened CartOps
  import AppRoutes
  import Display
  import HttpClient
  import Context

  /** The component's state. */
  class ProductViewState {
    const ctx: Context.AppState
    var product: Option<Product>
    var imageUrl: string
    var loading: bool

    /** The initial state: nothing loaded, the spinner shown. */
    constructor (ctx: Context.AppState)
      ensures this.ctx == ctx && product == None && imageUrl == "" && loading
      ensures ShowsSpinner()
    {
      this.ctx := ctx;
      product := None;
      imageUrl := "";
      loading := true;
    }

    /** `loading || !product`: the spinner replaces the page. */
    predicate ShowsSpinner()
      reads this
    {
      loading || product.None?
    }

    /** The mount effect. Without an id the view goes home and keeps its spinner; a failed product
        fetch only ends the loading, leaving the spinner up because no product was set; a failed image
        fetch leaves the image empty. */
    method Mount(id: Option<string>, productOutcome: Outcome<Product>, imageOutcome: Outcome<Display.Blob>)
      returns (fetchedImage: bool)
      modifies this, ctx.browser
      ensures !Truthy(id) ==> ctx.browser.path == "/" && unchanged(this) && !fetchedImage
      ensures Truthy(id) ==> !loading
      ensures Truthy(id) && productOutcome.Success? ==> product == Some(productOutcome.data)
      ensures Truthy(id) && productOutcome.Success? ==> (fetchedImage <==> Truthy(productOutcome.data.imageName))
      ensures Truthy(id) && !productOutcome.Success? ==> product == old(product) && !fetchedImage
      ensures fetchedImage && imageOutcome.Success? ==> imageUrl == imageOutcome.data.objectUrl
      ensures !(fetchedImage && imageOutcome.Success?) ==> imageUrl == old(imageUrl)
      ensures !Truthy(id) || (!productOutcome.Unauthorized? && !(fetchedImage && imageOutcome.Unauthorized?)) ==>
        ctx.browser.storage == old(ctx.browser.storage)
      ensures Truthy(id) && (productOutcome.Unauthorized? || (fetchedImage && imageOutcome.Unauthorized?)) ==>
        ctx.browser.storage == HttpClient.AfterUnauthorized(old(ctx.browser.storage))
      ensures Truthy(id) && (productOutcome.Unauthorized? || (fetchedImage && imageOutcome.Unauthorized?)) ==>
        ctx.browser.path == (if HttpClient.RedirectOn401(old(ctx.browser.path)).Some? then "/login" else old(ctx.browser.path))
      ensures Truthy(id) && !productOutcome.Unauthorized? && !(fetchedImage && imageOutcome.Unauthorized?) ==>
        ctx.browser.path == old(ctx.browser.path) && ctx.browser.state == old(ctx.browser.state)
    {
      fetchedImage := false;
      if !Truthy(id) {
        ctx.browser.Navigate("/", None);
        return;
      }
      var r := HttpClient.Respond(ctx.browser, productOutcome);
      if r.Success? {
        product := Some(r.data);
        if Truthy(r.data.imageName) {
          fetchedImage := true;
          var img := HttpClient.Respond(ctx.browser, imageOutcome);
          if img.Success? {
            imageUrl := img.data.objectUrl;
          }
        }
      }
      loading := false;
    }

    /** `handleAddToCart`: one unit of the shown product. */
    method HandleAddToCart()
      requires product.Some?
      modifies ctx
      ensures ctx.cart == WithAdded(old(ctx.cart), product.value, 1)
      ensures ctx.token == old(ctx.token) && ctx.user == old(ctx.user) && ctx.isAdmin == old(ctx.isAdmin)
    {
      ctx.AddToCart(product.value, 1);
    }

    /** The edit button. */
    method HandleEditClick(id: string)
      modifies ctx.browser
      ensures ctx.browser.path == AppRoutes.UpdatePath(id)
      ensures ctx.browser.storage == old(ctx.browser.storage)
    {
      ctx.browser.Navigate(AppRoutes.UpdatePath(id), None);
    }

    /** `deleteProduct` given the outcome of `DELETE /product/{id}` and `Number(id)` (None when it is
        not an integer): on success the product leaves the cart and the view goes home. */
    method DeleteProduct(outcome: Outcome<()>, numericId: Option<int>)
      modifies ctx, ctx.browser
      ensures outcome.Success? && numericId.Some? ==> ctx.cart == WithoutId(old(ctx.cart), numericId.value)
      ensures !(outcome.Success? && numericId.Some?) ==> ctx.cart == old(ctx.cart)
      ensures outcome.Success? ==> ctx.browser.path == "/" && ctx.browser.state == None
      ensures outcome.Success? ==> ctx.browser.storage == old(ctx.browser.storage)
      ensures !outcome.Success? ==> HttpClient.Responded(ctx.browser, outcome)
      ensures ctx.token == old(ctx.token) && ctx.user == old(ctx.user) && ctx.isAdmin == old(ctx.isAdmin)
    {
      var r := HttpClient.Respond(ctx.browser, outcome);
      if r.Success? {
        if numericId.Some? {
          ctx.RemoveFromCart(numericId.value);
        }
        ctx.browser.Navigate("/", None);
      }
    }
  }
}

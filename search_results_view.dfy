/** The older search results view of `src/components/SearchResults.jsx`: its product card with a
    shortened description, an add button that also refuses negative stock, and an image fetched
    for every product without base64 data. */
module SearchResultsView {
  import opened Wrappers
  import opened Catalog
  import opened CartOps
  import Display
  import Env
  import HttpClient
  import Context
  import AppRoutes

  /** The longest description shown before it is cut. */
  const ExcerptLength := 100

  /** `description && description.length > 100 ? description.substring(0, 100) + "..." : description` */
  function Excerpt(description: Option<string>): (r: Option<string>)
    ensures r.None? <==> description.None?
    ensures description.Some? && |description.value| <= ExcerptLength ==> r == description
    ensures description.Some? && |description.value| > ExcerptLength ==> |r.value| == ExcerptLength + 3 && r.value[..ExcerptLength] == description.value[..ExcerptLength] && r.value[ExcerptLength..] == "..."
  {
    if description.Some? && |description.value| > ExcerptLength then
      Some(description.value[..ExcerptLength] + "...")
    else description
  }

  /** Cutting an excerpt again changes nothing. */
  lemma ExcerptIdempotent(description: Option<string>)
    ensures Excerpt(Excerpt(description)) == Excerpt(description)
  {
    if description.Some? && |description.value| > ExcerptLength {
      var e := Excerpt(description).value;
      assert e[..ExcerptLength] == description.value[..ExcerptLength];
    }
  }

  /** `productAvailable && stockQuantity > 0`: the add button is enabled and reads "Add to Cart". */
  predicate CanAdd(p: Product) {
    p.productAvailable && p.stockQuantity > 0
  }

  /** The button's label: "Add to Cart" exactly when it is enabled. */
  function AddLabel(p: Product): (r: string)
    ensures r == "Add to Cart" <==> CanAdd(p)
    ensures r == "Out of Stock" <==> !CanAdd(p)
  {
    if CanAdd(p) then "Add to Cart" else "Out of Stock"
  }

  /** This card's button is stricter than the other views' out-of-stock test: it agrees with it
      except on an available product with negative stock, which only this card refuses. */
  lemma StricterThanOutOfStock(p: Product)
    ensures CanAdd(p) ==> !Display.OutOfStock(p)
    ensures !CanAdd(p) && !Display.OutOfStock(p) <==> p.productAvailable && p.stockQuantity < 0
  {
  }

  /** The initial image and the image a card settles on, given the outcome of
      `GET /product/{id}/image`: converted base64 data; else a fetched non-empty blob; an empty
      blob keeps the initial picture and a failure shows it again. */
  function SettledImage(p: Product, fetched: Outcome<Display.Blob>): (r: string)
    ensures Truthy(p.imageData) ==> r == Display.ToDataUrl(p.imageData, Display.DefaultMime, Display.Unplugged)
    ensures !Truthy(p.imageData) && fetched.Success? && fetched.data.size > 0 ==> r == fetched.data.objectUrl
    ensures !Truthy(p.imageData) && !(fetched.Success? && fetched.data.size > 0) ==> r == Display.Unplugged
  {
    if Truthy(p.imageData) then Display.ToDataUrl(p.imageData, Display.DefaultMime, Display.Unplugged)
    else if fetched.Success? && fetched.data.size > 0 then fetched.data.objectUrl
    else Display.Unplugged
  }

  /** Unlike the other cards, this one ignores the image name: a product without one is fetched too,
      and shows a fetched image when the server has one. */
  lemma FetchesWithoutImageName()
    ensures exists p: Product, b: Display.Blob :: !Truthy(p.imageName) && SettledImage(p, Success(b)) == b.objectUrl != Display.CardImage(p, Success(b))
  {
    var p := Product(1, "n", "b", None, 1.0, None, 1, true, None, None, None);
    var b := Display.Blob(10, "blob:x");
    assert SettledImage(p, Success(b)) == "blob:x";
  }

  /** `/product/${productId}`: where the card's picture and "View Details" go. */
  function ProductPath(id: string): (r: string)
    ensures |r| == 9 + |id| && r[..9] == "/product/" && r[9..] == id
    ensures r == AppRoutes.PathOf(AppRoutes.ProductPage(Some(id)))
  {
    assert AppRoutes.Join([id]) == "/" + id;
    "/product/" + id
  }

  /** A product card. */
  class ProductCard {
    const browser: Env.Browser
    const product: Product
    var imageUrl: string

    /** The card starts with the unplugged picture. */
    constructor (browser: Env.Browser, product: Product)
      ensures this.browser == browser && this.product == product && imageUrl == Display.Unplugged
    {
      this.browser := browser;
      this.product := product;
      imageUrl := Display.Unplugged;
    }

    /** The mount effect. */
    method LoadImage(fetched: Outcome<Display.Blob>)
      requires imageUrl == Display.Unplugged
      modifies this, browser
      ensures imageUrl == SettledImage(product, fetched)
      ensures Truthy(product.imageData) ==> unchanged(browser)
      ensures !Truthy(product.imageData) ==> HttpClient.Responded(browser, fetched)
    {
      if Truthy(product.imageData) {
        imageUrl := Display.ToDataUrl(product.imageData, Display.DefaultMime, Display.Unplugged);
      } else {
        var r := HttpClient.Respond(browser, fetched);
        if r.Success? {
          if r.data.size > 0 {
            imageUrl := r.data.objectUrl;
          }
        } else {
          imageUrl := Display.Unplugged;
        }
      }
    }
  }

  /** The view's state. */
  class SearchResultsViewState {
    const ctx: Context.AppState
    var searchData: seq<Product>
    var loading: bool

    constructor (ctx: Context.AppState)
      ensures this.ctx == ctx && searchData == [] && loading
    {
      this.ctx := ctx;
      searchData := [];
      loading := true;
    }

    /** The effect on every location change: navigation state carrying search data is shown; without
        it the view goes home and keeps its spinner. */
    method OnLocation()
      modifies this, ctx.browser
      ensures var st := old(ctx.browser.state);
        st.Some? && st.value.searchData.Some? ==> searchData == st.value.searchData.value && !loading && unchanged(ctx.browser)
      ensures var st := old(ctx.browser.state);
        !(st.Some? && st.value.searchData.Some?) ==> ctx.browser.path == "/" && ctx.browser.storage == old(ctx.browser.storage) && unchanged(this)
    {
      var st := ctx.browser.state;
      if st.Some? && st.value.searchData.Some? {
        searchData := st.value.searchData.value;
        loading := false;
      } else {
        ctx.browser.Navigate("/", None);
      }
    }

    /** `handleViewProduct` */
    method ViewProduct(id: string)
      modifies ctx.browser
      ensures ctx.browser.path == ProductPath(id) && ctx.browser.storage == old(ctx.browser.storage)
    {
      ctx.browser.Navigate(ProductPath(id), None);
    }

    /** `handleAddToCart`: one `addToCart(product)` call. */
    method HandleAddToCart(product: Product)
      modifies ctx
      ensures ctx.cart == WithAdded(old(ctx.cart), product, 1)
      ensures ctx.token == old(ctx.token) && ctx.user == old(ctx.user) && ctx.isAdmin == old(ctx.isAdmin)
    {
      ctx.AddToCart(product, 1);
    }
  }
}

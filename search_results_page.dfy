/** The search results page of `src/components/pages/SearchResults.jsx`: it shows the results the
    navbar passed in the navigation state, or goes home when there are none. */
module SearchResultsPage {
  import opened Wrappers
  import opened Catalog
  import opened CartOps
  import Env
  import Context

  /** `query || ''` */
  function QueryOrEmpty(query: Option<string>): (r: string)
    ensures Truthy(query) ==> r == query.value
    ensures r == "" <==> !Truthy(query)
  {
    if Truthy(query) then query.value else ""
  }

  /** `n === 1 ? 'product' : 'products'` */
  function CountNoun(n: int): (r: string)
    ensures r == "product" <==> n == 1
    ensures r == "products" <==> n != 1
  {
    if n == 1 then "product" else "products"
  }

  /** The page's state. */
  class SearchResultsPageState {
    const ctx: Context.AppState
    var searchData: seq<Product>
    var loading: bool
    var searchQuery: string

    constructor (ctx: Context.AppState)
      ensures this.ctx == ctx && searchData == [] && loading && searchQuery == ""
    {
      this.ctx := ctx;
      searchData := [];
      loading := true;
      searchQuery := "";
    }

    /** The effect on every location change: navigation state carrying search data is shown (an
        empty result list included); without it the page goes home and keeps its spinner. */
    method OnLocation()
      modifies this, ctx.browser
      ensures var st := old(ctx.browser.state);
        st.Some? && st.value.searchData.Some? ==> searchData == st.value.searchData.value && searchQuery == QueryOrEmpty(st.value.query) && !loading && unchanged(ctx.browser)
      ensures var st := old(ctx.browser.state);
        !(st.Some? && st.value.searchData.Some?) ==> ctx.browser.path == "/" && ctx.browser.storage == old(ctx.browser.storage) && unchanged(this)
    {
      var st := ctx.browser.state;
      if st.Some? && st.value.searchData.Some? {
        searchData := st.value.searchData.value;
        searchQuery := QueryOrEmpty(st.value.query);
        loading := false;
      } else {
        ctx.browser.Navigate("/", None);
      }
    }

    /** `handleAddToCart`: one `addToCart(product)` call. */
    method HandleAddToCart(product: Product)
      modifies ctx
      ensures ctx.cart == WithAdded(old(ctx.cart), product, 1)
      ensures ctx.token == old(ctx.token) && ctx.user == old(ctx.user) && ctx.isAdmin == old(ctx.isAdmin)
    {
      ctx.AddToCart(product, 1);
    }
  }
}

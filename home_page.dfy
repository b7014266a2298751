/** The storefront home page of `src/components/pages/Home.jsx`: the category filter, the
    quick-add button with its toast, and the stock badges of a product card. */
module HomePage {
  import opened Wrappers
  import opened Catalog
  import opened CartOps
  import Text
  import Seqs
  import Display
  import Context

  /** `p.category?.toLowerCase() === selected.toLowerCase()` (a product without a category never matches). */
  function InCategoryIgnoringCase(selected: string): Product -> bool {
    (p: Product) => p.category.Some? && Text.ToLower(p.category.value) == Text.ToLower(selected)
  }

  /** `filteredProducts`: everything when no category is selected, else the products whose category
      equals the selection up to letter case. */
  function FilteredProducts(products: seq<Product>, selected: Option<string>): (r: seq<Product>)
    ensures !Truthy(selected) ==> r == products
    ensures Truthy(selected) ==> forall i :: 0 <= i < |r| ==> r[i] in products && r[i].category.Some? && Text.ToLower(r[i].category.value) == Text.ToLower(selected.value)
    ensures Truthy(selected) ==> forall i :: 0 <= i < |products| && products[i].category.Some? && Text.ToLower(products[i].category.value) == Text.ToLower(selected.value) ==> products[i] in r
  {
    if Truthy(selected) then
      var r := Seqs.Filter(products, InCategoryIgnoringCase(selected.value));
      assert forall i :: 0 <= i < |r| ==> InCategoryIgnoringCase(selected.value)(r[i]);
      r
    else products
  }

  /** The filtered list keeps the catalogue's order. */
  lemma FilteredKeepsOrder(products: seq<Product>, selected: Option<string>)
    ensures Seqs.IsSubseq(FilteredProducts(products, selected), products)
  {
    if Truthy(selected) {
      Seqs.FilterIsSubseq(products, InCategoryIgnoringCase(selected.value));
    } else {
      Seqs.SubseqRefl(products);
    }
  }

  /** Two selections that differ only in letter case show the same products. */
  lemma FilterIgnoresCase(products: seq<Product>, a: string, b: string)
    requires a != "" && b != "" && Text.ToLower(a) == Text.ToLower(b)
    ensures FilteredProducts(products, Some(a)) == FilteredProducts(products, Some(b))
  {
    Seqs.FilterCongruent(products, InCategoryIgnoringCase(a), InCategoryIgnoringCase(b));
  }

  /** The page's own state: the "added to cart" toast. */
  class HomePageState {
    const ctx: Context.AppState
    var showToast: bool
    var toastProduct: Option<Product>

    constructor (ctx: Context.AppState)
      ensures this.ctx == ctx && !showToast && toastProduct == None
    {
      this.ctx := ctx;
      showToast := false;
      toastProduct := None;
    }

    /** `handleAddToCart`: one `addToCart(product)` call, then the toast names the product. */
    method HandleAddToCart(product: Product)
      modifies this, ctx
      ensures ctx.cart == WithAdded(old(ctx.cart), product, 1)
      ensures showToast && toastProduct == Some(product)
      ensures ctx.token == old(ctx.token) && ctx.user == old(ctx.user) && ctx.isAdmin == old(ctx.isAdmin)
    {
      ctx.AddToCart(product, 1);
      toastProduct := Some(product);
      showToast := true;
    }

    /** The close button, and the three-second timer that the shown toast starts. */
    method HideToast()
      modifies this
      ensures !showToast && toastProduct == old(toastProduct)
    {
      showToast := false;
    }
  }
}

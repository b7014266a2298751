/** The older home view of `src/components/Home.jsx`: an exact category filter and the quick-add
    toast. Its product cards, which load their own image, are `Display.FetchingCard`. */
module HomeView {
  import opened Wrappers
  import opened Catalog
  import opened CartOps
  import Seqs
  import Text
  import Display
  import Context
  import HomePage

  /** `product.category === selectedCategory` */
  function InCategory(selected: string): Product -> bool {
    (p: Product) => p.category == Some(selected)
  }

  /** `filteredProducts`: everything when no category is selected, else the products whose category
      is exactly the selection. */
  function FilteredProducts(products: seq<Product>, selected: Option<string>): (r: seq<Product>)
    ensures !Truthy(selected) ==> r == products
    ensures Truthy(selected) ==> forall i :: 0 <= i < |r| ==> r[i] in products && r[i].category == selected
    ensures Truthy(selected) ==> forall i :: 0 <= i < |products| && products[i].category == selected ==> products[i] in r
  {
    if Truthy(selected) then
      var r := Seqs.Filter(products, InCategory(selected.value));
      assert forall i :: 0 <= i < |r| ==> InCategory(selected.value)(r[i]);
      r
    else products
  }

  /** The filtered list keeps the catalogue's order. */
  lemma FilteredKeepsOrder(products: seq<Product>, selected: Option<string>)
    ensures Seqs.IsSubseq(FilteredProducts(products, selected), products)
  {
    if Truthy(selected) {
      Seqs.FilterIsSubseq(products, InCategory(selected.value));
    } else {
      Seqs.SubseqRefl(products);
    }
  }

  /** Every product this view shows for a category, the newer home page shows too; the converse
      fails for a category that differs only in letter case. */
  lemma ExactWithinIgnoringCase(products: seq<Product>, selected: Option<string>)
    ensures forall i :: 0 <= i < |FilteredProducts(products, selected)| ==> FilteredProducts(products, selected)[i] in HomePage.FilteredProducts(products, selected)
    ensures exists ps: seq<Product>, s: string :: |FilteredProducts(ps, Some(s))| < |HomePage.FilteredProducts(ps, Some(s))|
  {
    var p := Product(1, "n", "b", None, 1.0, Some("Laptop"), 1, true, None, None, None);
    var exact := FilteredProducts([p], Some("laptop"));
    var loose := HomePage.FilteredProducts([p], Some("laptop"));
    assert Text.ToLower("Laptop") == Text.ToLower("laptop");
    assert p in loose;
    assert p !in exact;
    assert exact == [];
  }

  /** The view's own state: the "added to cart" toast. */
  class HomeViewState {
    const ctx: Context.AppState
    var showToast: bool
    var toastProduct: Option<Product>

    constructor (ctx: Context.AppState)
      ensures this.ctx == ctx && !showToast && toastProduct == None
    {
      this.ctx := ctx;
      showToast := false;
      toastProduct := None;
    }

    /** `handleAddToCart`: one `addToCart(product)` call, then the toast names the product. */
    method HandleAddToCart(product: Product)
      modifies this, ctx
      ensures ctx.cart == WithAdded(old(ctx.cart), product, 1)
      ensures showToast && toastProduct == Some(product)
      ensures ctx.token == old(ctx.token) && ctx.user == old(ctx.user) && ctx.isAdmin == old(ctx.isAdmin)
    {
      ctx.AddToCart(product, 1);
      toastProduct := Some(product);
      showToast := true;
    }

    /** The close button, and the three-second timer that the shown toast starts. */
    method HideToast()
      modifies this
      ensures !showToast && toastProduct == old(toastProduct)
    {
      showToast := false;
    }
  }
}

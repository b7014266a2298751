/** The navigation bar of `src/components/layout/Navbar.jsx`: the dark-mode switch, the category
    menu built from the products, the search box, the links the user may see, and logout. */
module LayoutNavbar {
  import opened Wrappers
  import opened Catalog
  import Text
  import Seqs
  import Env
  import Context

  /** The initial dark mode: a stored theme decides (dark exactly when it is "dark"); with none
      stored, the system preference does. */
  function InitialDarkMode(stored: Option<string>, prefersDark: bool): (r: bool)
    ensures Truthy(stored) ==> (r <==> stored.value == "dark")
    ensures !Truthy(stored) ==> r == prefersDark
  {
    if Truthy(stored) then stored.value == "dark" else prefersDark
  }

  /** The theme `toggleDarkMode` stores for a mode. */
  function StoredTheme(dark: bool): (r: string)
    ensures r == "dark" <==> dark
    ensures r == "light" <==> !dark
  {
    if dark then "dark" else "light"
  }

  /** The stored theme brings the mode back on the next visit, whatever the system prefers. */
  lemma StoredThemeRestoresMode(dark: bool, prefersDark: bool)
    ensures InitialDarkMode(Some(StoredTheme(dark)), prefersDark) == dark
  {
  }

  /** `products.map(p => p.category).filter(Boolean)`: the non-empty categories, in order. */
  function CategoryNames(products: seq<Product>): (r: seq<string>)
    ensures forall i :: 0 <= i < |r| ==> r[i] != "" && exists j :: 0 <= j < |products| && products[j].category == Some(r[i])
    ensures forall j :: 0 <= j < |products| && Truthy(products[j].category) ==> products[j].category.value in r
  {
    if products == [] then []
    else
      var rest := CategoryNames(products[1..]);
      assert forall i :: 0 <= i < |rest| ==> exists j :: 0 <= j < |products| && products[j].category == Some(rest[i]) by {
        forall i | 0 <= i < |rest|
          ensures exists j :: 0 <= j < |products| && products[j].category == Some(rest[i])
        {
          var j :| 0 <= j < |products[1..]| && products[1..][j].category == Some(rest[i]);
          assert products[j + 1].category == Some(rest[i]);
        }
      }
      if Truthy(products[0].category) then [products[0].category.value] + rest else rest
  }

  /** `[...new Set(…)]`: each non-empty product category once. */
  function Categories(products: seq<Product>): (r: seq<string>)
    ensures Seqs.Distinct(r)
    ensures forall i :: 0 <= i < |r| ==> r[i] != "" && exists j :: 0 <= j < |products| && products[j].category == Some(r[i])
    ensures forall j :: 0 <= j < |products| && Truthy(products[j].category) ==> products[j].category.value in r
  {
    var names := CategoryNames(products);
    var r := Seqs.Dedup(names);
    assert forall i :: 0 <= i < |r| ==> r[i] in names;
    r
  }

  /** The menu lists categories in the order they first appear among the products. */
  lemma CategoriesInFirstSeenOrder(products: seq<Product>)
    ensures forall i, j :: 0 <= i < j < |Categories(products)| ==> Seqs.FirstIndex(CategoryNames(products), Categories(products)[i]) < Seqs.FirstIndex(CategoryNames(products), Categories(products)[j])
  {
    Seqs.DedupKeepsFirstOccurrenceOrder(CategoryNames(products));
  }

  /** A link of the bar. */
  datatype NavLink = NavLink(name: string, path: string)

  const Home := NavLink("Home", "/")
  const MyOrders := NavLink("My Orders", "/my-orders")
  const AddProduct := NavLink("Add Product", "/add_product")
  const ManageOrders := NavLink("Manage Orders", "/orders")

  /** `navLinks.filter(link => link.show)` */
  function VisibleLinks(isAuthenticated: bool, isAdmin: bool): (r: seq<NavLink>)
    ensures |r| >= 1 && r[0] == Home
    ensures MyOrders in r <==> isAuthenticated
    ensures AddProduct in r <==> isAdmin
    ensures ManageOrders in r <==> isAdmin
    ensures forall i :: 0 <= i < |r| ==> r[i] in [Home, MyOrders, AddProduct, ManageOrders]
    ensures Seqs.Distinct(r)
  {
    [Home] + (if isAuthenticated then [MyOrders] else []) + (if isAdmin then [AddProduct, ManageOrders] else [])
  }

  /** The visible links keep the order of the bar's link array: Home, My Orders, Add Product,
      Manage Orders. */
  lemma VisibleLinksInOrder(isAuthenticated: bool, isAdmin: bool)
    ensures Seqs.IsSubseq(VisibleLinks(isAuthenticated, isAdmin), [Home, MyOrders, AddProduct, ManageOrders])
  {
    var all := [Home, MyOrders, AddProduct, ManageOrders];
    var admin := if isAdmin then [AddProduct, ManageOrders] else [];
    var r := VisibleLinks(isAuthenticated, isAdmin);
    assert Seqs.IsSubseq(admin, all[2..]) by {
      if isAdmin { assert Seqs.IsSubseq([ManageOrders], all[3..]); }
    }
    assert Seqs.IsSubseq(admin, all[1..]) by {
      if isAdmin { assert all[1..][1..] == all[2..]; }
    }
    assert Seqs.IsSubseq(r[1..], all[1..]) by {
      if isAuthenticated { assert r[1..][1..] == admin && all[1..][1..] == all[2..]; }
      else { assert r[1..] == admin; }
    }
  }

  /** The bar's state. */
  class LayoutNavbarState {
    const ctx: Context.AppState
    var input: string
    var isLoading: bool
    var mobileMenuOpen: bool
    var userMenuOpen: bool
    var categoryMenuOpen: bool
    var darkMode: bool

    constructor (ctx: Context.AppState, prefersDark: bool)
      ensures this.ctx == ctx && darkMode == InitialDarkMode(ctx.browser.GetItem(Env.ThemeKey), prefersDark)
      ensures input == "" && !isLoading && !mobileMenuOpen && !userMenuOpen && !categoryMenuOpen
    {
      this.ctx := ctx;
      darkMode := InitialDarkMode(ctx.browser.GetItem(Env.ThemeKey), prefersDark);
      input := "";
      isLoading := false;
      mobileMenuOpen := false;
      userMenuOpen := false;
      categoryMenuOpen := false;
    }

    /** `toggleDarkMode`: the mode flips and the new mode is stored. */
    method ToggleDarkMode()
      modifies this, ctx.browser
      ensures darkMode == !old(darkMode)
      ensures ctx.browser.storage == old(ctx.browser.storage)[Env.ThemeKey := StoredTheme(darkMode)]
      ensures ctx.browser.path == old(ctx.browser.path) && ctx.browser.state == old(ctx.browser.state)
      ensures input == old(input) && isLoading == old(isLoading) && mobileMenuOpen == old(mobileMenuOpen)
    {
      darkMode := !darkMode;
      ctx.browser.SetItem(Env.ThemeKey, StoredTheme(darkMode));
    }

    /** The search box's `onChange`: `setInput(e.target.value)`. */
    method SetInput(value: string)
      modifies this
      ensures input == value
      ensures isLoading == old(isLoading) && darkMode == old(darkMode) && mobileMenuOpen == old(mobileMenuOpen)
      ensures userMenuOpen == old(userMenuOpen) && categoryMenuOpen == old(categoryMenuOpen)
    {
      input := value;
    }

    /** The category button opens a closed menu and closes an open one. */
    method ToggleCategoryMenu()
      modifies this
      ensures categoryMenuOpen == !old(categoryMenuOpen)
      ensures input == old(input) && darkMode == old(darkMode) && mobileMenuOpen == old(mobileMenuOpen) && userMenuOpen == old(userMenuOpen)
    {
      categoryMenuOpen := !categoryMenuOpen;
    }

    /** The avatar button opens a closed user menu and closes an open one. */
    method ToggleUserMenu()
      modifies this
      ensures userMenuOpen == !old(userMenuOpen)
      ensures input == old(input) && darkMode == old(darkMode) && mobileMenuOpen == old(mobileMenuOpen) && categoryMenuOpen == old(categoryMenuOpen)
    {
      userMenuOpen := !userMenuOpen;
    }

    /** The menu button opens a closed mobile menu and closes an open one. */
    method ToggleMobileMenu()
      modifies this
      ensures mobileMenuOpen == !old(mobileMenuOpen)
      ensures input == old(input) && darkMode == old(darkMode) && userMenuOpen == old(userMenuOpen) && categoryMenuOpen == old(categoryMenuOpen)
    {
      mobileMenuOpen := !mobileMenuOpen;
    }

    /** A link inside the user menu (`setUserMenuOpen(false)`) or the mobile menu
        (`setMobileMenuOpen(false)`) closes that menu. */
    method CloseMenu(userMenu: bool)
      modifies this
      ensures userMenu ==> !userMenuOpen && mobileMenuOpen == old(mobileMenuOpen)
      ensures !userMenu ==> !mobileMenuOpen && userMenuOpen == old(userMenuOpen)
      ensures input == old(input) && darkMode == old(darkMode) && categoryMenuOpen == old(categoryMenuOpen)
    {
      if userMenu {
        userMenuOpen := false;
      } else {
        mobileMenuOpen := false;
      }
    }

    /** The document's `mousedown` listener: a press outside the rendered user menu closes it, and
        one outside the rendered category menu closes that; the mobile menu is not affected. */
    method HandleClickOutside(outsideUserMenu: bool, outsideCategoryMenu: bool)
      modifies this
      ensures userMenuOpen == (old(userMenuOpen) && !outsideUserMenu)
      ensures categoryMenuOpen == (old(categoryMenuOpen) && !outsideCategoryMenu)
      ensures input == old(input) && darkMode == old(darkMode) && mobileMenuOpen == old(mobileMenuOpen)
    {
      if outsideUserMenu {
        userMenuOpen := false;
      }
      if outsideCategoryMenu {
        categoryMenuOpen := false;
      }
    }

    /** `handleSearch` given the outcome of the search request (sent with plain axios, so a 401 is
        an ordinary failure). Blank input does nothing. Otherwise a success opens the results page
        with the data, and loading ends with the mobile menu closed either way. */
    method HandleSearch(outcome: Outcome<seq<Product>>)
      modifies this, ctx.browser
      ensures Text.Trim(old(input)) == "" ==> unchanged(this) && unchanged(ctx.browser)
      ensures Text.Trim(old(input)) != "" ==> !isLoading && !mobileMenuOpen
      ensures Text.Trim(old(input)) != "" && outcome.Success? ==> ctx.browser.path == "/search-results" && ctx.browser.state == Some(Env.NavState(Some(outcome.data), None))
      ensures Text.Trim(old(input)) != "" && !outcome.Success? ==> unchanged(ctx.browser)
      ensures ctx.browser.storage == old(ctx.browser.storage)
      ensures input == old(input) && darkMode == old(darkMode)
    {
      if Text.Trim(input) == "" {
        return;
      }
      isLoading := true;
      if outcome.Success? {
        ctx.browser.Navigate("/search-results", Some(Env.NavState(Some(outcome.data), None)));
      }
      isLoading := false;
      mobileMenuOpen := false;
    }

    /** `handleCategorySelect`: the category goes to the parent's `onSelectCategory`, the menus
        close and the home page opens. */
    method HandleCategorySelect(category: string) returns (forwarded: string)
      modifies this, ctx.browser
      ensures forwarded == category
      ensures !categoryMenuOpen && !mobileMenuOpen
      ensures ctx.browser.path == "/" && ctx.browser.storage == old(ctx.browser.storage)
      ensures input == old(input) && darkMode == old(darkMode) && userMenuOpen == old(userMenuOpen)
    {
      forwarded := category;
      categoryMenuOpen := false;
      mobileMenuOpen := false;
      ctx.browser.Navigate("/", None);
    }

    /** `handleLogout`: the session ends, the user menu closes and the login page opens. */
    method HandleLogout()
      modifies this, ctx, ctx.browser
      ensures !ctx.IsAuthenticated() && ctx.user == None && !ctx.isAdmin && ctx.cart == []
      ensures ctx.browser.storage == old(ctx.browser.storage) - {Env.TokenKey, Env.UsernameKey, Env.IsAdminKey, Env.CartKey}
      ensures ctx.browser.path == "/login"
      ensures !userMenuOpen && darkMode == old(darkMode) && input == old(input)
    {
      ctx.Logout();
      userMenuOpen := false;
      ctx.browser.Navigate("/login", None);
    }
  }
}

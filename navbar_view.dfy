/** The older navigation bar of `src/components/Navbar.jsx`: a two-valued body theme, the search
    box with its "no products" message, the category picker and logout. */
module NavbarView {
  import opened Wrappers
  import opened Catalog
  import Text
  import Env
  import Context
  import AppRoutes

  const LightTheme := "light-theme"
  const DarkTheme := "dark-theme"

  /** `getInitialTheme`: the stored theme, or the light theme when none is stored. */
  function InitialTheme(stored: Option<string>): (r: string)
    ensures Truthy(stored) ==> r == stored.value
    ensures !Truthy(stored) ==> r == LightTheme
  {
    if Truthy(stored) then stored.value else LightTheme
  }

  /** `theme === "dark-theme" ? "light-theme" : "dark-theme"` */
  function Toggled(theme: string): (r: string)
    ensures r == LightTheme <==> theme == DarkTheme
    ensures r == DarkTheme <==> theme != DarkTheme
  {
    if theme == DarkTheme then LightTheme else DarkTheme
  }

  /** Toggling twice restores either canonical theme; any other stored value settles on the light
      theme. */
  lemma ToggleTwice(theme: string)
    ensures theme == LightTheme || theme == DarkTheme ==> Toggled(Toggled(theme)) == theme
    ensures theme != LightTheme && theme != DarkTheme ==> Toggled(Toggled(theme)) == LightTheme
  {
  }

  /** The bar's state. */
  class NavbarViewState {
    const ctx: Context.AppState
    var selectedCategory: string
    var theme: string
    var input: string
    var showNoProductsMessage: bool
    var isLoading: bool
    var isNavCollapsed: bool

    constructor (ctx: Context.AppState)
      ensures this.ctx == ctx && theme == InitialTheme(ctx.browser.GetItem(Env.ThemeKey))
      ensures selectedCategory == "" && input == "" && !showNoProductsMessage && !isLoading && isNavCollapsed
    {
      this.ctx := ctx;
      theme := InitialTheme(ctx.browser.GetItem(Env.ThemeKey));
      selectedCategory := "";
      input := "";
      showNoProductsMessage := false;
      isLoading := false;
      isNavCollapsed := true;
    }

    /** `handleNavbarToggle`: the collapse button flips the menu. */
    method HandleNavbarToggle()
      modifies this
      ensures isNavCollapsed == !old(isNavCollapsed)
      ensures theme == old(theme) && input == old(input) && selectedCategory == old(selectedCategory)
      ensures showNoProductsMessage == old(showNoProductsMessage) && isLoading == old(isLoading)
    {
      isNavCollapsed := !isNavCollapsed;
    }

    /** `handleLinkClick`, and a mouse press outside the bar: the menu collapses. */
    method HandleLinkClick()
      modifies this
      ensures isNavCollapsed
      ensures theme == old(theme) && input == old(input) && selectedCategory == old(selectedCategory)
      ensures showNoProductsMessage == old(showNoProductsMessage) && isLoading == old(isLoading)
    {
      isNavCollapsed := true;
    }

    /** `handleInputChange(value)` */
    method HandleInputChange(value: string)
      modifies this
      ensures input == value
      ensures theme == old(theme) && selectedCategory == old(selectedCategory) && isNavCollapsed == old(isNavCollapsed)
      ensures showNoProductsMessage == old(showNoProductsMessage) && isLoading == old(isLoading)
    {
      input := value;
    }

    /** `goToLogin`: the menu collapses and the login page opens. */
    method GoToLogin()
      modifies this, ctx.browser
      ensures isNavCollapsed && ctx.browser.path == AppRoutes.PathOf(AppRoutes.Login)
      ensures ctx.browser.storage == old(ctx.browser.storage)
      ensures theme == old(theme) && input == old(input) && selectedCategory == old(selectedCategory)
    {
      isNavCollapsed := true;
      assert AppRoutes.PathOf(AppRoutes.Login) == "/login";
      ctx.browser.Navigate("/login", None);
    }

    /** `goToRegister`: the menu collapses and the registration page opens. */
    method GoToRegister()
      modifies this, ctx.browser
      ensures isNavCollapsed && ctx.browser.path == AppRoutes.PathOf(AppRoutes.Register)
      ensures ctx.browser.storage == old(ctx.browser.storage)
      ensures theme == old(theme) && input == old(input) && selectedCategory == old(selectedCategory)
    {
      isNavCollapsed := true;
      assert AppRoutes.PathOf(AppRoutes.Register) == "/register";
      ctx.browser.Navigate("/register", None);
    }

    /** `handleSubmit` given the outcome of the search request (plain axios). Blank input does
        nothing. Otherwise an empty result or a failure shows the message and stays put, a
        non-empty result opens the results page with the data; loading ends either way. */
    method HandleSubmit(outcome: Outcome<seq<Product>>)
      modifies this, ctx.browser
      ensures Text.Trim(old(input)) == "" ==> unchanged(this) && unchanged(ctx.browser)
      ensures Text.Trim(old(input)) != "" ==> !isLoading && isNavCollapsed
      ensures Text.Trim(old(input)) != "" ==> (showNoProductsMessage <==> !(outcome.Success? && outcome.data != []))
      ensures Text.Trim(old(input)) != "" && outcome.Success? && outcome.data != [] ==> ctx.browser.path == "/search-results" && ctx.browser.state == Some(Env.NavState(Some(outcome.data), None))
      ensures !(outcome.Success? && outcome.data != []) ==> unchanged(ctx.browser)
      ensures ctx.browser.storage == old(ctx.browser.storage)
      ensures input == old(input) && theme == old(theme) && selectedCategory == old(selectedCategory)
    {
      if Text.Trim(input) == "" {
        return;
      }
      showNoProductsMessage := false;
      isLoading := true;
      isNavCollapsed := true;
      if outcome.Success? {
        if outcome.data == [] {
          showNoProductsMessage := true;
        } else {
          ctx.browser.Navigate("/search-results", Some(Env.NavState(Some(outcome.data), None)));
        }
      } else {
        showNoProductsMessage := true;
      }
      isLoading := false;
    }

    /** `handleCategorySelect`: the category is recorded, forwarded to `onSelectCategory`, and
        the menu collapses. */
    method HandleCategorySelect(category: string) returns (forwarded: string)
      modifies this
      ensures forwarded == category && selectedCategory == category && isNavCollapsed
      ensures theme == old(theme) && input == old(input) && showNoProductsMessage == old(showNoProductsMessage)
    {
      selectedCategory := category;
      forwarded := category;
      isNavCollapsed := true;
    }

    /** `toggleTheme`: the theme flips and is stored. */
    method ToggleTheme()
      modifies this, ctx.browser
      ensures theme == Toggled(old(theme))
      ensures ctx.browser.storage == old(ctx.browser.storage)[Env.ThemeKey := theme]
      ensures ctx.browser.path == old(ctx.browser.path)
      ensures selectedCategory == old(selectedCategory) && input == old(input)
    {
      theme := Toggled(theme);
      ctx.browser.SetItem(Env.ThemeKey, theme);
    }

    /** `handleLogout`: the session ends, the menu collapses and the login page opens. */
    method HandleLogout()
      modifies this, ctx, ctx.browser
      ensures !ctx.IsAuthenticated() && ctx.user == None && !ctx.isAdmin && ctx.cart == []
      ensures ctx.browser.storage == old(ctx.browser.storage) - {Env.TokenKey, Env.UsernameKey, Env.IsAdminKey, Env.CartKey}
      ensures ctx.browser.path == "/login"
      ensures isNavCollapsed && theme == old(theme)
    {
      ctx.Logout();
      isNavCollapsed := true;
      ctx.browser.Navigate("/login", None);
    }
  }
}

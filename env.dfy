/** The browser globals the storefront reads and writes: local storage, the current path and the
    router's navigation state. One `Browser` object is shared by every component, as the globals are. */
module Env {
  import opened Wrappers
  import opened Catalog

  /** Local-storage keys. */
  const TokenKey := "token"
  const UsernameKey := "username"
  const IsAdminKey := "isAdmin"
  const CartKey := "cart"
  const ThemeKey := "theme"

  /** `location.state` attached to a navigation (only the search results use it). */
  datatype NavState = NavState(searchData: Option<seq<Product>>, query: Option<string>)

  class Browser {
    /** `localStorage`, as a map from key to stored string. */
    var storage: map<string, string>
    /** `window.location.pathname` (router navigations and hard redirects both change it). */
    var path: string
    /** `location.state` of the last navigation. */
    var state: Option<NavState>

    constructor (storage0: map<string, string>, path0: string)
      ensures storage == storage0 && path == path0 && state == None
    {
      storage, path, state := storage0, path0, None;
    }

    /** `localStorage.getItem(key)` */
    function GetItem(key: string): (r: Option<string>)
      reads this
      ensures r.Some? <==> key in storage
      ensures r.Some? ==> r.value == storage[key]
    {
      if key in storage then Some(storage[key]) else None
    }

    /** `localStorage.setItem(key, value)` */
    method SetItem(key: string, value: string)
      modifies this
      ensures storage == old(storage)[key := value]
      ensures path == old(path) && state == old(state)
    {
      storage := storage[key := value];
    }

    /** `localStorage.removeItem(key)` */
    method RemoveItem(key: string)
      modifies this
      ensures storage == old(storage) - {key}
      ensures path == old(path) && state == old(state)
    {
      storage := storage - {key};
    }

    /** `navigate(to, { state })` or `window.location.href = to`. */
    method Navigate(to: string, st: Option<NavState>)
      modifies this
      ensures path == to && state == st
      ensures storage == old(storage)
    {
      path, state := to, st;
    }
  }
}

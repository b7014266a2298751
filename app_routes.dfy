/** The application shell: the route table that chooses a page for a location path, the fallback
    redirect for every other path, and the guard around the admin-only pages. */
module AppRoutes {
  import opened Wrappers
  import opened Text

  /** The page components the router can render. */
  datatype Page =
    | Home
    | ProductPage(id: Option<string>)
    | Cart
    | SearchResults
    | Login
    | Register
    | AddProduct
    | UpdateProduct(updateId: string)
    | Orders

  /** What a route element produces: the page itself, or a `<Navigate replace>` to another path. */
  datatype Element = Render(page: Page) | Redirect(to: string)

  /** A path segment: non-empty and free of separators. */
  predicate IsSegment(s: string) {
    s != "" && '/' !in s
  }

  /** Split `path` at every '/', continuing a piece `cur` already begun. A doubled slash yields an
      empty piece, which is kept. */
  function SplitFrom(path: string, cur: string): (r: seq<string>)
    requires '/' !in cur
    ensures |r| >= 1
    ensures forall i :: 0 <= i < |r| ==> '/' !in r[i]
    decreases |path|
  {
    if path == [] then
      [cur]
    else if path[0] == '/' then
      [cur] + SplitFrom(path[1..], "")
    else
      SplitFrom(path[1..], cur + [path[0]])
  }

  /** The path with the given segments, each after one '/'. */
  function Join(segments: seq<string>): (r: string)
    ensures segments == [] <==> r == ""
    ensures r != "" ==> r[0] == '/'
  {
    if segments == [] then "" else "/" + segments[0] + Join(segments[1..])
  }

  /** Joining the pieces of a split gives back the text that was split, after the piece begun. */
  lemma {:induction false} JoinOfSplit(s: string, cur: string)
    requires '/' !in cur
    ensures Join(SplitFrom(s, cur)) == "/" + cur + s
    decreases |s|
  {
    if s == [] {
      assert Join([cur]) == "/" + cur + Join([]);
    } else if s[0] == '/' {
      var q := SplitFrom(s[1..], "");
      JoinOfSplit(s[1..], "");
      assert SplitFrom(s, cur) == [cur] + q;
      assert ([cur] + q)[1..] == q;
      assert Join([cur] + q) == "/" + cur + Join(q);
      assert "/" + "" + s[1..] == s;
    } else {
      JoinOfSplit(s[1..], cur + [s[0]]);
      assert "/" + (cur + [s[0]]) + s[1..] == "/" + cur + s;
    }
  }

  /** A path that starts with '/' is the join of the pieces after that '/'. */
  lemma JoinOfPieces(p: string)
    requires p != "" && p[0] == '/'
    ensures Join(SplitFrom(p[1..], "")) == p
  {
    JoinOfSplit(p[1..], "");
    assert "/" + "" + p[1..] == p;
  }

  /** A path joined from segments ends in a segment's last character, never in a slash. */
  lemma {:induction false} JoinEnds(segments: seq<string>)
    requires forall i :: 0 <= i < |segments| ==> IsSegment(segments[i])
    ensures Join(segments) == "" || Join(segments)[|Join(segments)| - 1] != '/'
  {
    if segments != [] {
      JoinEnds(segments[1..]);
      assert IsSegment(segments[0]);
      var t := Join(segments[1..]);
      assert Join(segments) == ("/" + segments[0]) + t;
      if t == "" {
        assert Join(segments) == "/" + segments[0];
      }
    }
  }

  /** The segments of a location path, or None when no route pattern can match it. The patterns
      are "/" followed by non-empty segments, each further one after a single '/', and then any
      number of slashes; so "/" and "" have no segments, "/product/7/" has ["product", "7"], and
      "//cart" and "/product//7" have none. Whatever the path, once its trailing slashes are
      dropped it is exactly the path joined from its segments. */
  function Segments(path: string): (r: Option<seq<string>>)
    ensures r.Some? ==> forall i :: 0 <= i < |r.value| ==> IsSegment(r.value[i])
    ensures r.Some? ==> Join(r.value) == TrimTrailingSlashes(path)
  {
    var p := TrimTrailingSlashes(path);
    if p == "" then
      Some([])
    else if p[0] != '/' then
      None
    else
      var pieces := SplitFrom(p[1..], "");
      JoinOfPieces(p);
      if forall i :: 0 <= i < |pieces| ==> pieces[i] != "" then Some(pieces) else None
  }

  /** Characters without a separator are simply appended to the piece being read. */
  lemma {:induction false} SplitFromWord(word: string, rest: string, cur: string)
    requires '/' !in word && '/' !in cur
    ensures SplitFrom(word + rest, cur) == SplitFrom(rest, cur + word)
    decreases |word|
  {
    if word != [] {
      assert (word + rest)[0] == word[0];
      assert (word + rest)[1..] == word[1..] + rest;
      assert cur + [word[0]] + word[1..] == cur + word;
      SplitFromWord(word[1..], rest, cur + [word[0]]);
    } else {
      assert word + rest == rest;
      assert cur + word == cur;
    }
  }

  /** Splitting the path joined from non-empty segments, after its leading '/', gives those segments. */
  lemma {:induction false} SplitOfJoin(segments: seq<string>)
    requires segments != []
    requires forall i :: 0 <= i < |segments| ==> IsSegment(segments[i])
    ensures SplitFrom(Join(segments)[1..], "") == segments
  {
    var s0 := segments[0];
    var tail := Join(segments[1..]);
    assert Join(segments)[1..] == s0 + tail;
    SplitFromWord(s0, tail, "");
    assert "" + s0 == s0;
    if segments[1..] == [] {
      assert SplitFrom(tail, s0) == [s0];
    } else {
      SplitOfJoin(segments[1..]);
      assert SplitFrom(tail, s0) == [s0] + SplitFrom(tail[1..], "");
      assert segments == [s0] + segments[1..];
    }
  }

  /** Splitting undoes joining: the segments of a path joined from segments are those segments.
      With Segments' own contract this pins down which paths have segments at all. */
  lemma {:induction false} SegmentsOfJoin(segments: seq<string>)
    requires forall i :: 0 <= i < |segments| ==> IsSegment(segments[i])
    ensures Segments(Join(segments)) == Some(segments)
  {
    JoinEnds(segments);
    assert TrimTrailingSlashes(Join(segments)) == Join(segments);
    if segments != [] {
      SplitOfJoin(segments);
    }
  }

  /** Trailing slashes never change the segments of a path. */
  lemma TrailingSlashesKeepSegments(path: string, trail: string)
    requires forall i :: 0 <= i < |trail| ==> trail[i] == '/'
    ensures Segments(path + trail) == Segments(path)
  {
    var p := TrimTrailingSlashes(path);
    var full := path + trail;
    assert full[..|p|] == p;
    assert forall i :: |p| <= i < |full| ==> full[i] == (if i < |path| then path[i] else trail[i - |path|]);
    TrimUnique(full, p);
  }

  /** A path joined from segments has no doubled slash. */
  lemma {:induction false} JoinHasNoDoubledSlash(segments: seq<string>)
    requires forall i :: 0 <= i < |segments| ==> IsSegment(segments[i])
    ensures forall k :: 0 <= k < |Join(segments)| - 1 && Join(segments)[k] == '/' ==> Join(segments)[k + 1] != '/'
  {
    if segments != [] {
      var s0 := segments[0];
      var t := Join(segments[1..]);
      JoinHasNoDoubledSlash(segments[1..]);
      assert forall k :: 0 <= k < |t| - 1 && t[k] == '/' ==> t[k + 1] != '/';
      var j := Join(segments);
      assert j == "/" + s0 + t;
      assert IsSegment(s0);
      forall k | 0 <= k < |j| - 1 && j[k] == '/'
        ensures j[k + 1] != '/'
      {
        if k == 0 {
          assert j[1] == s0[0];
        } else {
          assert forall m :: 1 <= m <= |s0| ==> j[m] == s0[m - 1];
          assert k > |s0|;
          assert j[k] == t[k - |s0| - 1];
          assert j[k + 1] == t[k - |s0|];
        }
      }
    }
  }

  /** The segments a page is reached at. */
  function PagePath(p: Page): seq<string> {
    match p
    case Home => []
    case ProductPage(id) => if id.Some? then ["product", id.value] else ["product"]
    case Cart => ["cart"]
    case SearchResults => ["search-results"]
    case Login => ["login"]
    case Register => ["register"]
    case AddProduct => ["add_product"]
    case UpdateProduct(id) => ["product", "update", id]
    case Orders => ["orders"]
  }

  /** The route table: the page whose route pattern the segments match, if any. A matched page is
      exactly the one whose path these segments are, so no information in the path is lost. */
  function Matched(segments: seq<string>): (r: Option<Page>)
    ensures r.Some? ==> PagePath(r.value) == segments
  {
    if segments == [] then Some(Home)
    else if segments == ["product"] then Some(ProductPage(None))
    else if |segments| == 2 && segments[0] == "product" then Some(ProductPage(Some(segments[1])))
    else if segments == ["cart"] then Some(Cart)
    else if segments == ["search-results"] then Some(SearchResults)
    else if segments == ["login"] then Some(Login)
    else if segments == ["register"] then Some(Register)
    else if segments == ["add_product"] then Some(AddProduct)
    else if |segments| == 3 && segments[0] == "product" && segments[1] == "update" then
      Some(UpdateProduct(segments[2]))
    else if segments == ["orders"] then Some(Orders)
    else None
  }

  /** The route table matches each page's own segments to that page. */
  lemma MatchedPagePath(p: Page)
    ensures Matched(PagePath(p)) == Some(p)
  {
    match p
    case Home =>
    case ProductPage(id) =>
    case Cart =>
    case SearchResults =>
    case Login =>
    case Register =>
    case AddProduct =>
    case UpdateProduct(id) =>
    case Orders =>
  }

  /** The pages wrapped in the admin guard. */
  predicate AdminOnly(p: Page) {
    p.AddProduct? || p.UpdateProduct? || p.Orders?
  }

  /** The guard around admin-only pages: an anonymous visitor is sent to the login page whatever
      the admin flag, a signed-in non-admin to the home page, and an admin sees the children. */
  function RequireAdmin(isAuthenticated: bool, isAdmin: bool, children: Page): (r: Element)
    ensures r.Render? <==> isAuthenticated && isAdmin
    ensures r.Render? ==> r.page == children
    ensures !isAuthenticated ==> r == Redirect("/login")
    ensures isAuthenticated && !isAdmin ==> r == Redirect("/")
  {
    if !isAuthenticated then Redirect("/login")
    else if !isAdmin then Redirect("/")
    else Render(children)
  }

  /** The page whose route pattern `path` matches, if any. A matched page is linked at exactly the
      path, once its trailing slashes are dropped. */
  function PageAt(path: string): (r: Option<Page>)
    ensures r.Some? ==> PathOf(r.value) == TrimTrailingSlashes(path)
  {
    match Segments(path)
    case None => None
    case Some(segments) => Matched(segments)
  }

  /** What the application renders at `path` for a session. */
  function Route(path: string, isAuthenticated: bool, isAdmin: bool): (r: Element)
    ensures PageAt(path).None? ==> r == Redirect("/")
    ensures r.Render? ==> PageAt(path) == Some(r.page) && PathOf(r.page) == TrimTrailingSlashes(path)
    ensures r.Render? && AdminOnly(r.page) ==> isAuthenticated && isAdmin
    ensures r.Redirect? ==> r.to == "/" || r.to == "/login"
    ensures forall p :: PageAt(path) == Some(p) && !AdminOnly(p) ==> r == Render(p)
    ensures forall p :: PageAt(path) == Some(p) && AdminOnly(p) ==> r == RequireAdmin(isAuthenticated, isAdmin, p)
  {
    match PageAt(path)
    case None => Redirect("/")
    case Some(p) => if AdminOnly(p) then RequireAdmin(isAuthenticated, isAdmin, p) else Render(p)
  }

  /** The ids a page carries are single path segments. */
  predicate IdsAreSegments(p: Page) {
    match p
    case ProductPage(id) => id.Some? ==> IsSegment(id.value)
    case UpdateProduct(id) => IsSegment(id)
    case _ => true
  }

  /** The path a page is linked at. */
  function PathOf(p: Page): (r: string)
    ensures r == "" <==> p.Home?
  {
    Join(PagePath(p))
  }

  /** `/product/update/${id}`: the path of a product's edit page. */
  function UpdatePath(id: string): (r: string)
    ensures r == PathOf(UpdateProduct(id))
    ensures |r| == 16 + |id| && r[..16] == "/product/update/" && r[16..] == id
  {
    UpdatePathJoined(id);
    "/product/update/" + id
  }

  /** The edit page's segments join to "/product/update/" followed by the id. */
  lemma UpdatePathJoined(id: string)
    ensures PathOf(UpdateProduct(id)) == "/product/update/" + id
  {
    assert Join([id]) == "/" + id;
    assert Join(["update", id]) == "/update" + ("/" + id);
    assert Join(["product", "update", id]) == "/product" + ("/update" + ("/" + id));
  }

  /** A path joined from segments shows the page those segments match. */
  lemma PageAtJoin(segments: seq<string>)
    requires forall i :: 0 <= i < |segments| ==> IsSegment(segments[i])
    ensures PageAt(Join(segments)) == Matched(segments)
  {
    SegmentsOfJoin(segments);
  }

  /** A matched page renders when the guard, if it has one, lets the session through. */
  lemma RouteAtPage(path: string, p: Page, isAuthenticated: bool, isAdmin: bool)
    requires PageAt(path) == Some(p)
    requires AdminOnly(p) ==> isAuthenticated && isAdmin
    ensures Route(path, isAuthenticated, isAdmin) == Render(p)
  {
  }

  /** Every page is reachable: at its own path an admin session renders exactly that page, and so
      does any session for a page outside the guard. */
  lemma {:induction false} RouteRoundTrip(p: Page, isAuthenticated: bool, isAdmin: bool)
    requires IdsAreSegments(p)
    requires AdminOnly(p) ==> isAuthenticated && isAdmin
    ensures Route(PathOf(p), isAuthenticated, isAdmin) == Render(p)
  {
    var segs := PagePath(p);
    assert forall i :: 0 <= i < |segs| ==> IsSegment(segs[i]);
    PageAtJoin(segs);
    MatchedPagePath(p);
    RouteAtPage(PathOf(p), p, isAuthenticated, isAdmin);
  }

  /** Trailing slashes never change what a location renders: "/cart/" shows the cart as "/cart" does. */
  lemma TrailingSlashesIgnored(path: string, trail: string, isAuthenticated: bool, isAdmin: bool)
    requires forall i :: 0 <= i < |trail| ==> trail[i] == '/'
    ensures Route(path + trail, isAuthenticated, isAdmin) == Route(path, isAuthenticated, isAdmin)
  {
    TrailingSlashesKeepSegments(path, trail);
  }

  /** A path without segments is one no route pattern matches: two slashes in a row, trailing
      slashes aside, leave it with none. */
  lemma DoubledSlashHasNoSegments(path: string, k: int)
    requires 0 <= k < |TrimTrailingSlashes(path)| - 1
    requires TrimTrailingSlashes(path)[k] == '/' && TrimTrailingSlashes(path)[k + 1] == '/'
    ensures Segments(path).None?
  {
    var s := Segments(path);
    if s.Some? {
      var j := Join(s.value);
      assert j[k] == '/' && j[k + 1] == '/';
      JoinHasNoDoubledSlash(s.value);
    }
  }

  /** A location whose path, trailing slashes aside, has two slashes in a row matches no route
      pattern, so the fallback sends it to "/". */
  lemma DoubledSlashUnrouted(path: string, k: int, isAuthenticated: bool, isAdmin: bool)
    requires 0 <= k < |TrimTrailingSlashes(path)| - 1
    requires TrimTrailingSlashes(path)[k] == '/' && TrimTrailingSlashes(path)[k + 1] == '/'
    ensures Route(path, isAuthenticated, isAdmin) == Redirect("/")
  {
    DoubledSlashHasNoSegments(path, k);
  }

  /** "//cart" and "/product//7" fall to the fallback, while "/cart/" still renders the cart. */
  lemma DoubledAndTrailingSlashes(isAuthenticated: bool, isAdmin: bool)
    ensures Route("//cart", isAuthenticated, isAdmin) == Redirect("/")
    ensures Route("/product//7", isAuthenticated, isAdmin) == Redirect("/")
    ensures Route("/cart/", isAuthenticated, isAdmin) == Render(Cart)
  {
    assert TrimTrailingSlashes("//cart") == "//cart";
    DoubledSlashUnrouted("//cart", 0, isAuthenticated, isAdmin);
    assert TrimTrailingSlashes("/product//7") == "/product//7";
    DoubledSlashUnrouted("/product//7", 8, isAuthenticated, isAdmin);
    assert "/cart" + "/" == "/cart/";
    TrailingSlashesIgnored("/cart", "/", isAuthenticated, isAdmin);
    CartLinkRouted(isAuthenticated, isAdmin);
  }

  /** The navigation bar's cart link resolves to the cart page for every session. */
  lemma CartLinkRouted(isAuthenticated: bool, isAdmin: bool)
    ensures Route("/cart", isAuthenticated, isAdmin) == Render(Cart)
  {
    assert PathOf(Cart) == "/cart";
    RouteRoundTrip(Cart, isAuthenticated, isAdmin);
  }

  /** For an admin, the navigation bar's two admin links resolve to their pages. */
  lemma AdminLinksRouted(isAuthenticated: bool, isAdmin: bool)
    requires isAuthenticated && isAdmin
    ensures Route("/add_product", isAuthenticated, isAdmin) == Render(AddProduct)
    ensures Route("/orders", isAuthenticated, isAdmin) == Render(Orders)
  {
    AddProductLinkRouted(isAuthenticated, isAdmin);
    OrdersLinkRouted(isAuthenticated, isAdmin);
  }

  /** The "Add Product" link renders its page for an admin. */
  lemma AddProductLinkRouted(isAuthenticated: bool, isAdmin: bool)
    requires isAuthenticated && isAdmin
    ensures Route("/add_product", isAuthenticated, isAdmin) == Render(AddProduct)
  {
    assert PathOf(AddProduct) == "/add_product";
    RouteRoundTrip(AddProduct, isAuthenticated, isAdmin);
  }

  /** The "Orders" link renders its page for an admin. */
  lemma OrdersLinkRouted(isAuthenticated: bool, isAdmin: bool)
    requires isAuthenticated && isAdmin
    ensures Route("/orders", isAuthenticated, isAdmin) == Render(Orders)
  {
    assert PathOf(Orders) == "/orders";
    RouteRoundTrip(Orders, isAuthenticated, isAdmin);
  }

  /** The navigation bar's "My Orders" link has no route and falls back to the home page. */
  lemma MyOrdersLinkUnrouted(isAuthenticated: bool, isAdmin: bool)
    ensures Route("/my-orders", isAuthenticated, isAdmin) == Redirect("/")
  {
    MyOrdersPathUnmatched();
  }

  /** No route pattern matches "/my-orders". */
  lemma MyOrdersPathUnmatched()
    ensures PageAt("/my-orders") == None
  {
    assert IsSegment(["my-orders"][0]);
    PageAtJoin(["my-orders"]);
    MyOrdersJoined();
    MyOrdersSegmentUnmatched();
  }

  /** The single segment "my-orders" joins to "/my-orders". */
  lemma MyOrdersJoined()
    ensures Join(["my-orders"]) == "/my-orders"
  {
    assert Join(["my-orders"]) == "/" + "my-orders" + Join([]);
  }

  /** The route table has no entry for the segment "my-orders". */
  lemma MyOrdersSegmentUnmatched()
    ensures Matched(["my-orders"]) == None
  {
  }

  /** The edit path of a product renders the edit page for an admin, and sends a signed-in
      customer home. */
  lemma EditPathGuarded(id: string)
    requires IsSegment(id)
    ensures Route(UpdatePath(id), true, true) == Render(UpdateProduct(id))
    ensures Route(UpdatePath(id), true, false) == Redirect("/")
  {
    RouteRoundTrip(UpdateProduct(id), true, true);
    SegmentsOfJoin(PagePath(UpdateProduct(id)));
  }
}

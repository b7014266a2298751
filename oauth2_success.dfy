/** The landing page of the OAuth2 sign-in: it reads the token, the username and the admin flag
    from the query string, signs in when both the token and the username are given, and leaves the
    page. The effect is modelled as the sequence of context calls it makes. */
module OAuth2Success {
  import opened Wrappers
  import AppRoutes

  /** One call the effect makes: `login(token, username, isAdmin)` or `navigate(to)`. */
  datatype Effect = SignIn(token: string, username: string, isAdmin: bool) | Navigate(to: string)

  /** A query value that is present and non-empty (a truthy `params.get(...)`). */
  predicate Given(v: Option<string>) {
    v.Some? && v.value != ""
  }

  /** `params.get("isAdmin") === "true"`: only the exact text "true" grants the flag. */
  function AdminParam(v: Option<string>): (r: bool)
    ensures r <==> v.Some? && v.value == "true"
  {
    v == Some("true")
  }

  /** The calls the effect makes for the three query values, in order. */
  function Complete(token: Option<string>, username: Option<string>, isAdmin: Option<string>): (r: seq<Effect>)
    ensures |r| >= 1 && r[|r| - 1].Navigate?
    ensures forall i :: 0 <= i < |r| - 1 ==> !r[i].Navigate?
    ensures (exists i :: 0 <= i < |r| && r[i].SignIn?) <==> Given(token) && Given(username)
    ensures forall i :: 0 <= i < |r| && r[i].SignIn? ==>
      r[i] == SignIn(token.value, username.value, AdminParam(isAdmin))
    ensures r[|r| - 1].to == (if Given(token) && Given(username) then "/" else "/login")
  {
    if Given(token) && Given(username) then
      var r := [SignIn(token.value, username.value, AdminParam(isAdmin)), Navigate("/")];
      assert r[0].SignIn?;
      r
    else
      [Navigate("/login")]
  }

  /** Exactly one navigation happens on every run. */
  lemma {:induction false} OneNavigation(token: Option<string>, username: Option<string>, isAdmin: Option<string>)
    ensures |set i | 0 <= i < |Complete(token, username, isAdmin)| && Complete(token, username, isAdmin)[i].Navigate?| == 1
  {
    var r := Complete(token, username, isAdmin);
    var last := |r| - 1;
    assert (set i | 0 <= i < |r| && r[i].Navigate?) == {last};
  }

  /** Admin values other than the exact text "true" sign in as a customer. */
  lemma AdminTextIsExact()
    ensures !AdminParam(Some("True")) && !AdminParam(Some("1")) && !AdminParam(None)
    ensures AdminParam(Some("true"))
  {
  }

  /** A session opened here passes the admin guard exactly when the admin value was "true": the
      token it signs in with is non-empty, so the session is authenticated. */
  lemma {:induction false} SignedInSessionMeetsGuard(token: Option<string>, username: Option<string>, isAdmin: Option<string>, page: AppRoutes.Page)
    requires Given(token) && Given(username)
    ensures var e := Complete(token, username, isAdmin)[0];
      e.SignIn? &&
      AppRoutes.RequireAdmin(e.token != "", e.isAdmin, page) ==
        (if isAdmin == Some("true") then AppRoutes.Render(page) else AppRoutes.Redirect("/"))
  {
  }
}

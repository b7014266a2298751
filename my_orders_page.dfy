/** The customer's order history of `src/components/pages/MyOrders.jsx`: fetching the user's
    orders, expanding one, and the five-step status timeline. */
module MyOrdersPage {
  import opened Wrappers
  import opened Orders
  import Env
  import HttpClient

  /** The timeline's steps, in the order an order goes through them. */
  const Steps: seq<string> := ["PLACED", "ACCEPTED", "PACKED", "SHIPPED", "DELIVERED"]

  /** `s.indexOf(x)`: the first position of `x`, or -1. */
  function IndexOf(s: seq<string>, x: string): (k: int)
    ensures -1 <= k < |s|
    ensures k == -1 <==> x !in s
    ensures k >= 0 ==> s[k] == x && forall j :: 0 <= j < k ==> s[j] != x
    decreases |s|
  {
    if s == [] then -1
    else if s[0] == x then 0
    else
      var k := IndexOf(s[1..], x);
      if k == -1 then -1 else k + 1
  }

  /** `idx <= currentIdx && status !== 'CANCELLED'`: step `idx` is drawn as reached. */
  predicate Completed(idx: int, status: string) {
    idx <= IndexOf(Steps, status) && status != "CANCELLED"
  }

  /** `status === order.status`: step `idx` is drawn as the current one. */
  predicate Current(idx: int, status: string) {
    0 <= idx < |Steps| && Steps[idx] == status
  }

  /** `idx < 4`: the steps joined by a connector after them. */
  predicate HasConnector(idx: int) {
    0 <= idx < |Steps| && idx < 4
  }

  /** `idx < currentIdx && status !== 'CANCELLED'`: the connector after step `idx` is lit. */
  predicate ConnectorLit(idx: int, status: string) {
    idx < IndexOf(Steps, status) && status != "CANCELLED"
  }

  /** A status that is not a step (CANCELLED is none) reaches no step, marks none current and
      lights no connector. */
  lemma NoProgressOffTheSteps(status: string)
    requires status !in Steps
    ensures forall idx :: 0 <= idx < |Steps| ==> !Completed(idx, status) && !Current(idx, status) && !ConnectorLit(idx, status)
  {
  }

  /** A cancelled order shows no progress even on a step it had reached. */
  lemma CancelledShowsNoProgress()
    ensures forall idx :: 0 <= idx < |Steps| ==> !Completed(idx, "CANCELLED") && !Current(idx, "CANCELLED")
  {
    NoProgressOffTheSteps("CANCELLED");
  }

  /** The reached steps are exactly those up to the order's status, which is the one current step. */
  lemma ProgressIsAPrefix(status: string)
    requires status in Steps
    ensures forall idx :: 0 <= idx < |Steps| ==> (Completed(idx, status) <==> idx <= IndexOf(Steps, status))
    ensures forall idx :: 0 <= idx < |Steps| ==> (Current(idx, status) <==> idx == IndexOf(Steps, status))
  {
  }

  /** There are four connectors, and the one after step `idx` is lit exactly when the step after
      it is reached. */
  lemma ConnectorsFollowSteps(status: string)
    ensures |set idx | 0 <= idx < |Steps| && HasConnector(idx)| == 4
    ensures forall idx :: HasConnector(idx) ==> (ConnectorLit(idx, status) <==> Completed(idx + 1, status))
  {
    assert (set idx | 0 <= idx < |Steps| && HasConnector(idx)) == {0, 1, 2, 3};
  }

  /** The page's state. `orders` is whatever the response body was: it is stored unchecked. */
  class MyOrdersPageState {
    const browser: Env.Browser
    var orders: Payload<Order>
    var expandedOrder: Option<int>
    var loading: bool

    constructor (browser: Env.Browser)
      ensures this.browser == browser && orders == ArrayOf([]) && expandedOrder == None && loading
    {
      this.browser := browser;
      orders := ArrayOf([]);
      expandedOrder := None;
      loading := true;
    }

    /** `fetchMyOrders` given the outcome of `GET /api/orders/my`: a success stores the body as it is,
        a failure keeps the orders already shown; loading ends either way. */
    method FetchMyOrders(outcome: Outcome<Payload<Order>>)
      modifies this, browser
      ensures outcome.Success? ==> orders == outcome.data
      ensures !outcome.Success? ==> orders == old(orders)
      ensures !loading && expandedOrder == old(expandedOrder)
      ensures HttpClient.Responded(browser, outcome)
    {
      loading := true;
      var r := HttpClient.Respond(browser, outcome);
      if r.Success? {
        orders := r.data;
      }
      loading := false;
    }

    /** `toggleDetails(orderId)` */
    method ToggleDetails(orderId: int)
      modifies this
      ensures expandedOrder == Toggle(old(expandedOrder), orderId)
      ensures orders == old(orders) && loading == old(loading)
    {
      expandedOrder := Toggle(expandedOrder, orderId);
    }
  }
}

/** The older admin order table of `src/components/Order.jsx`. */
module OrderView {
  import opened Wrappers
  import opened Orders
  import Env
  import HttpClient

  const FetchError := "Failed to fetch orders. Please try again later."

  /** `getStatusClass(status)`: the badge class of a status. */
  function StatusClass(status: string): (r: string)
    ensures status !in StatusOptions ==> r == "bg-secondary"
    ensures r in ["bg-info", "bg-primary", "bg-secondary", "bg-warning text-dark", "bg-success", "bg-danger"]
  {
    match status
    case "PLACED" => "bg-info"
    case "ACCEPTED" => "bg-primary"
    case "PACKED" => "bg-secondary"
    case "SHIPPED" => "bg-warning text-dark"
    case "DELIVERED" => "bg-success"
    case "CANCELLED" => "bg-danger"
    case _ => "bg-secondary"
  }

  /** The six statuses get six different classes, but an unknown status looks like PACKED. */
  lemma ClassesDistinguishStatuses()
    ensures forall i, j :: 0 <= i < j < |StatusOptions| ==> StatusClass(StatusOptions[i]) != StatusClass(StatusOptions[j])
    ensures forall s :: s !in StatusOptions ==> StatusClass(s) == StatusClass("PACKED")
  {
  }

  /** The table's state. */
  class OrderViewState {
    const browser: Env.Browser
    var orders: seq<Order>
    var loading: bool
    var error: Option<string>
    var expandedOrder: Option<int>

    constructor (browser: Env.Browser)
      ensures this.browser == browser && orders == [] && loading && error == None && expandedOrder == None
    {
      this.browser := browser;
      orders := [];
      loading := true;
      error := None;
      expandedOrder := None;
    }

    /** `fetchOrders` given the outcome of `GET /api/orders`: a non-array body gives no orders, a
        failure gives no orders and the error message; loading ends either way. */
    method FetchOrders(outcome: Outcome<Payload<Order>>)
      modifies this, browser
      ensures orders == (if outcome.Success? then AsArray(outcome.data) else [])
      ensures error == (if outcome.Success? then old(error) else Some(FetchError))
      ensures !loading && expandedOrder == old(expandedOrder)
      ensures HttpClient.Responded(browser, outcome)
    {
      loading := true;
      var r := HttpClient.Respond(browser, outcome);
      if r.Success? {
        orders := AsArray(r.data);
        loading := false;
      } else {
        orders := [];
        error := Some(FetchError);
        loading := false;
      }
    }

    /** `toggleOrderDetails(orderId)` */
    method ToggleOrderDetails(orderId: int)
      modifies this
      ensures expandedOrder == Toggle(old(expandedOrder), orderId)
      ensures orders == old(orders) && loading == old(loading) && error == old(error)
    {
      expandedOrder := Toggle(expandedOrder, orderId);
    }

    /** `handleStatusChange` given the outcome of `PUT /api/orders/{id}/status`: only a success
        updates the local list. */
    method HandleStatusChange(orderId: int, newStatus: string, outcome: Outcome<()>)
      modifies this, browser
      ensures outcome.Success? ==> orders == WithStatus(old(orders), orderId, newStatus)
      ensures !outcome.Success? ==> orders == old(orders)
      ensures loading == old(loading) && error == old(error) && expandedOrder == old(expandedOrder)
      ensures HttpClient.Responded(browser, outcome)
    {
      var r := HttpClient.Respond(browser, outcome);
      if r.Success? {
        orders := WithStatus(orders, orderId, newStatus);
      }
    }
  }
}

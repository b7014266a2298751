/** The older order history of `src/components/MyOrders.jsx`, which adds an 18% tax to each order. */
module MyOrdersView {
  import opened Wrappers
  import opened Orders
  import Env
  import HttpClient
  import Numeric

  /** `TAX_RATE = 0.18` */
  const TaxRate: real := 18.0 / 100.0

  /** `getStatusClass(status)`: as in the admin table, except that an unknown status is dark. */
  function StatusClass(status: string): (r: string)
    ensures status !in StatusOptions ==> r == "bg-dark"
    ensures r in ["bg-info", "bg-primary", "bg-secondary", "bg-warning text-dark", "bg-success", "bg-danger", "bg-dark"]
  {
    match status
    case "PLACED" => "bg-info"
    case "ACCEPTED" => "bg-primary"
    case "PACKED" => "bg-secondary"
    case "SHIPPED" => "bg-warning text-dark"
    case "DELIVERED" => "bg-success"
    case "CANCELLED" => "bg-danger"
    case _ => "bg-dark"
  }

  /** Here every status, known or not, has its own class. */
  lemma ClassesDistinguishStatuses()
    ensures forall i, j :: 0 <= i < j < |StatusOptions| ==> StatusClass(StatusOptions[i]) != StatusClass(StatusOptions[j])
    ensures forall s, i :: s !in StatusOptions && 0 <= i < |StatusOptions| ==> StatusClass(s) != StatusClass(StatusOptions[i])
  {
  }

  /** `{ subtotal, tax, total }` */
  datatype Totals = Totals(subtotal: real, tax: real, total: real)

  /** `calculateTotals(items)`: the items' subtotal, 18% of it as tax, and their sum, which is
      118% of the subtotal. */
  function CalculateTotals(items: seq<OrderItem>): (t: Totals)
    ensures t.subtotal == OrderTotal(items)
    ensures t.tax == t.subtotal * TaxRate
    ensures t.total == t.subtotal + t.tax
    ensures t.total == t.subtotal * (118.0 / 100.0)
  {
    var subtotal := OrderTotal(items);
    Totals(subtotal, subtotal * TaxRate, subtotal + subtotal * TaxRate)
  }

  /** Taxed totals add up over item lists put together. */
  lemma TotalsAppend(a: seq<OrderItem>, b: seq<OrderItem>)
    ensures CalculateTotals(a + b).total == CalculateTotals(a).total + CalculateTotals(b).total
  {
    OrderTotalAppend(a, b);
  }

  /** `Math.round(TAX_RATE * 100)`: the percentage in the "Tax (18%)" label. */
  function TaxPercent(): (r: int)
    ensures r == 18
  {
    Numeric.Round(TaxRate * 100.0)
  }

  /** The history's state. */
  class MyOrdersViewState {
    const browser: Env.Browser
    var orders: seq<Order>
    var expandedOrder: Option<int>
    var loading: bool

    constructor (browser: Env.Browser)
      ensures this.browser == browser && orders == [] && expandedOrder == None && loading
    {
      this.browser := browser;
      orders := [];
      expandedOrder := None;
      loading := true;
    }

    /** `fetchMyOrders` given the outcome of `GET /orders/my`: a non-array body or a failure
        gives no orders; loading ends either way. */
    method FetchMyOrders(outcome: Outcome<Payload<Order>>)
      modifies this, browser
      ensures orders == (if outcome.Success? then AsArray(outcome.data) else [])
      ensures !loading && expandedOrder == old(expandedOrder)
      ensures HttpClient.Responded(browser, outcome)
    {
      loading := true;
      var r := HttpClient.Respond(browser, outcome);
      if r.Success? {
        orders := AsArray(r.data);
        loading := false;
      } else {
        orders := [];
        loading := false;
      }
    }

    /** `toggleDetails(orderId)` */
    method ToggleDetails(orderId: int)
      modifies this
      ensures expandedOrder == Toggle(old(expandedOrder), orderId)
      ensures orders == old(orders) && loading == old(loading)
    {
      expandedOrder := Toggle(expandedOrder, orderId);
    }
  }
}

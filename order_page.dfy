/** The admin order screen of `src/components/pages/Order.jsx`: fetching all orders, the status
    badge, the local status update, the search and status filters, and the summary counts. */
module OrderPage {
  import opened Wrappers
  import opened Orders
  import Text
  import Seqs
  import Env
  import HttpClient

  const FetchError := "Failed to fetch orders. Please try again later."

  /** `getStatusVariant(status)`: the badge variant of a status. */
  function StatusVariant(status: string): (r: string)
    ensures status !in StatusOptions ==> r == "secondary"
    ensures r in ["primary", "info", "secondary", "warning", "success", "danger"]
  {
    match status
    case "PLACED" => "primary"
    case "ACCEPTED" => "info"
    case "PACKED" => "secondary"
    case "SHIPPED" => "warning"
    case "DELIVERED" => "success"
    case "CANCELLED" => "danger"
    case _ => "secondary"
  }

  /** The six statuses get six different badges, but an unknown status looks like PACKED. */
  lemma VariantsDistinguishStatuses()
    ensures forall i, j :: 0 <= i < j < |StatusOptions| ==> StatusVariant(StatusOptions[i]) != StatusVariant(StatusOptions[j])
    ensures forall s :: s !in StatusOptions ==> StatusVariant(s) == StatusVariant("PACKED")
  {
  }

  /** `customerName?.toLowerCase().includes(term.toLowerCase()) || email?.… || orderId?.toString().includes(term)` */
  predicate MatchesSearch(o: Order, term: string) {
    (o.customerName.Some? && Text.Contains(Text.ToLower(o.customerName.value), Text.ToLower(term)))
    || (o.email.Some? && Text.Contains(Text.ToLower(o.email.value), Text.ToLower(term)))
    || Text.Contains(Text.IntToString(o.orderId), term)
  }

  /** Searching for an order's id, written in decimal, finds that order; and so does searching for
      the customer's name exactly as stored. */
  lemma SearchFindsOwnIdAndName(o: Order)
    ensures MatchesSearch(o, Text.IntToString(o.orderId))
    ensures o.customerName.Some? ==> MatchesSearch(o, o.customerName.value)
  {
    var id := Text.IntToString(o.orderId);
    assert Text.OccursAt(id, id, 0) by { assert id[0..|id|] == id; }
    if o.customerName.Some? {
      var name := Text.ToLower(o.customerName.value);
      assert Text.OccursAt(name, name, 0) by { assert name[0..|name|] == name; }
    }
  }

  /** `statusFilter === 'all' || order.status === statusFilter` */
  predicate MatchesStatus(o: Order, statusFilter: string) {
    statusFilter == "all" || o.status == statusFilter
  }

  function Shown(term: string, statusFilter: string): Order -> bool {
    (o: Order) => MatchesSearch(o, term) && MatchesStatus(o, statusFilter)
  }

  /** `filteredOrders`: the orders matching both the search term and the status filter. */
  function FilteredOrders(orders: seq<Order>, term: string, statusFilter: string): (r: seq<Order>)
    ensures forall i :: 0 <= i < |r| ==> r[i] in orders && MatchesSearch(r[i], term) && MatchesStatus(r[i], statusFilter)
    ensures forall i :: 0 <= i < |orders| && MatchesSearch(orders[i], term) && MatchesStatus(orders[i], statusFilter) ==> orders[i] in r
  {
    var r := Seqs.Filter(orders, Shown(term, statusFilter));
    assert forall i :: 0 <= i < |r| ==> Shown(term, statusFilter)(r[i]);
    r
  }

  /** The filtered list keeps the fetched order. */
  lemma FilteredKeepsOrder(orders: seq<Order>, term: string, statusFilter: string)
    ensures Seqs.IsSubseq(FilteredOrders(orders, term, statusFilter), orders)
  {
    Seqs.FilterIsSubseq(orders, Shown(term, statusFilter));
  }

  /** With an empty search and the "all" filter every order is shown, in order. */
  lemma EmptySearchShowsAll(orders: seq<Order>)
    ensures FilteredOrders(orders, "", "all") == orders
  {
    forall o | o in orders
      ensures Shown("", "all")(o)
    {
      assert Text.OccursAt(Text.IntToString(o.orderId), "", 0);
    }
    Seqs.FilterAll(orders, Shown("", "all"));
  }

  function IsPending(o: Order): bool { o.status in ["PLACED", "ACCEPTED", "PACKED"] }
  function IsShipped(o: Order): bool { o.status == "SHIPPED" }
  function IsDelivered(o: Order): bool { o.status == "DELIVERED" }

  /** The summary cards. */
  datatype Stats = Stats(total: nat, pending: nat, shipped: nat, delivered: nat)

  /** `stats`: all orders, the pending ones (placed, accepted or packed), the shipped and the
      delivered ones; no order is counted twice, so the three counts fit in the total. */
  function StatsOf(orders: seq<Order>): (s: Stats)
    ensures s.total == |orders|
    ensures s.pending == |Seqs.Filter(orders, IsPending)|
    ensures s.shipped == |Seqs.Filter(orders, IsShipped)| && s.delivered == |Seqs.Filter(orders, IsDelivered)|
    ensures s.pending + s.shipped + s.delivered <= s.total
  {
    Seqs.CountDisjoint(orders, IsPending, IsShipped, IsDelivered);
    Stats(|orders|, Seqs.Count(orders, IsPending), Seqs.Count(orders, IsShipped), Seqs.Count(orders, IsDelivered))
  }

  /** The screen's state. */
  class OrderPageState {
    const browser: Env.Browser
    var orders: seq<Order>
    var loading: bool
    var error: Option<string>
    var expandedOrder: Option<int>
    var searchTerm: string
    var statusFilter: string

    constructor (browser: Env.Browser)
      ensures this.browser == browser && orders == [] && loading && error == None
      ensures expandedOrder == None && searchTerm == "" && statusFilter == "all"
    {
      this.browser := browser;
      orders := [];
      loading := true;
      error := None;
      expandedOrder := None;
      searchTerm := "";
      statusFilter := "all";
    }

    /** `fetchOrders` given the outcome of `GET /orders`: a non-array body gives no orders, a
        failure gives no orders and the error message; loading ends either way. */
    method FetchOrders(outcome: Outcome<Payload<Order>>)
      modifies this, browser
      ensures orders == (if outcome.Success? then AsArray(outcome.data) else [])
      ensures error == (if outcome.Success? then old(error) else Some(FetchError))
      ensures !loading
      ensures expandedOrder == old(expandedOrder) && searchTerm == old(searchTerm) && statusFilter == old(statusFilter)
      ensures HttpClient.Responded(browser, outcome)
    {
      loading := true;
      var r := HttpClient.Respond(browser, outcome);
      if r.Success? {
        orders := AsArray(r.data);
      } else {
        orders := [];
        error := Some(FetchError);
      }
      loading := false;
    }

    /** `toggleOrderDetails(orderId)` */
    method ToggleOrderDetails(orderId: int)
      modifies this
      ensures expandedOrder == Toggle(old(expandedOrder), orderId)
      ensures orders == old(orders) && loading == old(loading) && error == old(error)
      ensures searchTerm == old(searchTerm) && statusFilter == old(statusFilter)
    {
      expandedOrder := Toggle(expandedOrder, orderId);
    }

    /** The search box's `onChange`: `setSearchTerm(e.target.value)`. */
    method SetSearchTerm(value: string)
      modifies this
      ensures searchTerm == value && statusFilter == old(statusFilter)
      ensures orders == old(orders) && loading == old(loading) && error == old(error) && expandedOrder == old(expandedOrder)
    {
      searchTerm := value;
    }

    /** The status select's `onChange`: `setStatusFilter(e.target.value)`. */
    method SetStatusFilter(value: string)
      modifies this
      ensures statusFilter == value && searchTerm == old(searchTerm)
      ensures orders == old(orders) && loading == old(loading) && error == old(error) && expandedOrder == old(expandedOrder)
    {
      statusFilter := value;
    }

    /** `handleStatusChange` given the outcome of `PUT /orders/{id}/status`: only a success
        updates the local list. */
    method HandleStatusChange(orderId: int, newStatus: string, outcome: Outcome<()>)
      modifies this, browser
      ensures outcome.Success? ==> orders == WithStatus(old(orders), orderId, newStatus)
      ensures !outcome.Success? ==> orders == old(orders)
      ensures loading == old(loading) && error == old(error) && expandedOrder == old(expandedOrder)
      ensures searchTerm == old(searchTerm) && statusFilter == old(statusFilter)
      ensures HttpClient.Responded(browser, outcome)
    {
      var r := HttpClient.Respond(browser, outcome);
      if r.Success? {
        orders := WithStatus(orders, orderId, newStatus);
      }
    }
  }
}

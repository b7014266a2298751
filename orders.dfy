/** Orders as the order screens receive them from the backend, and the operations the four order
    screens share: the order total, the local status update, and the expand/collapse toggle. */
module Orders {
  import opened Wrappers
  import Seqs

  /** One line of an order, priced by the server. */
  datatype OrderItem = OrderItem(productName: string, quantity: int, totalPrice: real)

  /** An order; the screens reach the name and the e-mail through optional chaining. */
  datatype Order = Order(
    orderId: int,
    customerName: Option<string>,
    email: Option<string>,
    status: string,
    orderDate: Option<string>,
    items: seq<OrderItem>)

  /** The statuses the admin screens offer, in their select's order. */
  const StatusOptions: seq<string> := ["PLACED", "ACCEPTED", "PACKED", "SHIPPED", "DELIVERED", "CANCELLED"]

  function TotalPriceOf(item: OrderItem): real {
    item.totalPrice
  }

  /** `calculateOrderTotal(items)`: the items' prices added up from the left, starting at 0. */
  function OrderTotal(items: seq<OrderItem>): (r: real)
    ensures items == [] ==> r == 0.0
    ensures |items| == 1 ==> r == items[0].totalPrice
    ensures items != [] ==> r == OrderTotal(items[..|items| - 1]) + items[|items| - 1].totalPrice
    decreases |items|
  {
    assert |items| == 1 ==> items[1..] == [] && Seqs.Sum(items[1..], TotalPriceOf) == 0.0 && TotalPriceOf(items[0]) == items[0].totalPrice;
    if items != [] then
      var last := items[|items| - 1];
      assert items == items[..|items| - 1] + [last];
      Seqs.SumAppend(items[..|items| - 1], [last], TotalPriceOf);
      assert [last][1..] == [];
      Seqs.Sum(items, TotalPriceOf)
    else
      0.0
  }

  /** The total of two item lists put together is the sum of their totals. */
  lemma OrderTotalAppend(a: seq<OrderItem>, b: seq<OrderItem>)
    ensures OrderTotal(a + b) == OrderTotal(a) + OrderTotal(b)
  {
    Seqs.SumAppend(a, b, TotalPriceOf);
  }

  /** Items that cost nothing negative make a total that is not negative. */
  lemma {:induction false} OrderTotalNonNegative(items: seq<OrderItem>)
    requires forall i :: 0 <= i < |items| ==> items[i].totalPrice >= 0.0
    ensures OrderTotal(items) >= 0.0
  {
    if items != [] {
      OrderTotalNonNegative(items[1..]);
    }
  }

  /** `prev.map(o => o.orderId === orderId ? { ...o, status } : o)` */
  function WithStatus(orders: seq<Order>, orderId: int, status: string): (r: seq<Order>)
    ensures |r| == |orders|
    ensures forall i :: 0 <= i < |r| && orders[i].orderId == orderId ==> r[i] == orders[i].(status := status)
    ensures forall i :: 0 <= i < |r| && orders[i].orderId != orderId ==> r[i] == orders[i]
  {
    seq(|orders|, i requires 0 <= i < |orders| =>
      if orders[i].orderId == orderId then orders[i].(status := status) else orders[i])
  }

  /** A second status update of the same order overrides the first. */
  lemma WithStatusLastWins(orders: seq<Order>, orderId: int, first: string, second: string)
    ensures WithStatus(WithStatus(orders, orderId, first), orderId, second) == WithStatus(orders, orderId, second)
  {
  }

  /** Updates of two different orders commute. */
  lemma WithStatusCommutes(orders: seq<Order>, a: int, sa: string, b: int, sb: string)
    requires a != b
    ensures WithStatus(WithStatus(orders, a, sa), b, sb) == WithStatus(WithStatus(orders, b, sb), a, sa)
  {
  }

  /** Updating an order to the status it has, or an id no order has, changes nothing. */
  lemma WithStatusNoOp(orders: seq<Order>, orderId: int, status: string)
    requires forall i :: 0 <= i < |orders| && orders[i].orderId == orderId ==> orders[i].status == status
    ensures WithStatus(orders, orderId, status) == orders
  {
  }

  /** `prev === orderId ? null : orderId`: the expanded row after clicking a row's toggle. */
  function Toggle(expanded: Option<int>, orderId: int): (r: Option<int>)
    ensures r == None <==> expanded == Some(orderId)
    ensures r != None ==> r == Some(orderId)
  {
    if expanded == Some(orderId) then None else Some(orderId)
  }

  /** Clicking the same row twice: from a collapsed table, or from that row open, it comes back
      to where it was; from another row open, it ends collapsed. */
  lemma ToggleTwice(expanded: Option<int>, orderId: int)
    ensures expanded.None? || expanded == Some(orderId) ==> Toggle(Toggle(expanded, orderId), orderId) == expanded
    ensures expanded.Some? && expanded != Some(orderId) ==> Toggle(Toggle(expanded, orderId), orderId) == None
  {
  }
}

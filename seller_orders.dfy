/**
 * The seller's order list (frontend/src/pages/seller/OrdersPage.tsx): the
 * orders, a status tab that filters them, and a per-order status select.
 */
module SellerOrders {
  import Seqs

  datatype OrderStatus = Processing | Shipped | Delivered

  /** One line of an order; prices are in cents. */
  datatype OrderItem = OrderItem(id: string, name: string, price: int, quantity: int)

  datatype Order = Order(
    id: string, customer: string, email: string, date: string,
    total: int, status: OrderStatus, items: seq<OrderItem>)

  /** The selected tab: `'all'` or one status. */
  datatype StatusFilter = All | Only(status: OrderStatus)

  predicate UniqueIds(orders: seq<Order>) {
    forall i, j :: 0 <= i < j < |orders| ==> orders[i].id != orders[j].id
  }

  /** The mapper of `updateOrderStatus`: the order with that id takes the new status. */
  function StatusSetter(orderId: string, newStatus: OrderStatus): Order -> Order {
    (order: Order) => if order.id == orderId then order.(status := newStatus) else order
  }

  /** The orders after `updateOrderStatus(orderId, newStatus)`. */
  function WithStatus(orders: seq<Order>, orderId: string, newStatus: OrderStatus): (r: seq<Order>)
    ensures |r| == |orders|
    ensures forall i :: 0 <= i < |r| ==> r[i].id == orders[i].id && r[i].(status := orders[i].status) == orders[i]
    ensures forall i :: 0 <= i < |r| && orders[i].id == orderId ==> r[i].status == newStatus
    ensures forall i :: 0 <= i < |r| && orders[i].id != orderId ==> r[i] == orders[i]
  {
    Seqs.Map(orders, StatusSetter(orderId, newStatus))
  }

  /** The test of `orders.filter(order => order.status === selectedStatus)`. */
  function HasStatus(status: OrderStatus): Order -> bool {
    (order: Order) => order.status == status
  }

  /** `filteredOrders`: every order for `'all'`, otherwise those with the selected status, in order. */
  function Filtered(orders: seq<Order>, selected: StatusFilter): (r: seq<Order>)
    ensures selected.All? ==> r == orders
    ensures selected.Only? ==> forall i :: 0 <= i < |r| ==> r[i] in orders && r[i].status == selected.status
    ensures selected.Only? ==> forall i :: 0 <= i < |orders| && orders[i].status == selected.status ==> orders[i] in r
  {
    if selected.All? then orders else Seqs.Filter(orders, HasStatus(selected.status))
  }

  /** Changing to the status an order already has changes nothing. */
  lemma SameStatusNoChange(orders: seq<Order>, k: int)
    requires 0 <= k < |orders| && UniqueIds(orders)
    ensures WithStatus(orders, orders[k].id, orders[k].status) == orders
  {
    var r := WithStatus(orders, orders[k].id, orders[k].status);
    assert forall i :: 0 <= i < |r| ==> r[i] == orders[i];
  }

  /** An unknown order id changes nothing. */
  lemma UnknownOrderNoChange(orders: seq<Order>, orderId: string, newStatus: OrderStatus)
    requires forall i :: 0 <= i < |orders| ==> orders[i].id != orderId
    ensures WithStatus(orders, orderId, newStatus) == orders
  {
    var r := WithStatus(orders, orderId, newStatus);
    assert forall i :: 0 <= i < |r| ==> r[i] == orders[i];
  }

  /** Setting a status twice is the same as setting the second one. */
  lemma LastStatusWins(orders: seq<Order>, orderId: string, first: OrderStatus, second: OrderStatus)
    ensures WithStatus(WithStatus(orders, orderId, first), orderId, second) == WithStatus(orders, orderId, second)
  {
    var a := WithStatus(WithStatus(orders, orderId, first), orderId, second);
    var b := WithStatus(orders, orderId, second);
    assert forall i :: 0 <= i < |a| ==> a[i] == b[i];
  }

  /**
   * After an update the order shows under its new status tab and under no
   * other status tab.
   */
  lemma UpdatedOrderMovesTab(orders: seq<Order>, k: int, newStatus: OrderStatus, other: OrderStatus)
    requires 0 <= k < |orders| && UniqueIds(orders)
    requires other != newStatus
    ensures var r := WithStatus(orders, orders[k].id, newStatus);
      r[k] in Filtered(r, Only(newStatus)) &&
      forall i :: 0 <= i < |Filtered(r, Only(other))| ==> Filtered(r, Only(other))[i].id != orders[k].id
  {
    var r := WithStatus(orders, orders[k].id, newStatus);
    var shown := Filtered(r, Only(other));
    forall i | 0 <= i < |shown| ensures shown[i].id != orders[k].id {
      var j :| 0 <= j < |r| && r[j] == shown[i];
      if j != k {
        assert r[j].id == orders[j].id;
      }
    }
  }

  /** Every order is under exactly one status tab, so the tabs together hold as many orders as 'all'. */
  lemma {:induction false} TabsPartitionOrders(orders: seq<Order>)
    ensures |Filtered(orders, Only(Processing))| + |Filtered(orders, Only(Shipped))|
      + |Filtered(orders, Only(Delivered))| == |Filtered(orders, All)|
  {
    if orders != [] {
      var tail := orders[1..];
      TabsPartitionOrders(tail);
      assert orders == [orders[0]] + tail;
      Seqs.FilterConcat([orders[0]], tail, HasStatus(Processing));
      Seqs.FilterConcat([orders[0]], tail, HasStatus(Shipped));
      Seqs.FilterConcat([orders[0]], tail, HasStatus(Delivered));
    }
  }

  /** The page's state. */
  class OrdersPage {
    var loading: bool
    var orders: seq<Order>
    var selectedStatus: StatusFilter

    /** First render: loading, no orders, the 'all' tab. */
    constructor ()
      ensures loading && orders == [] && selectedStatus == All
    {
      loading := true;
      orders := [];
      selectedStatus := All;
    }

    /** The orders arrive (`setOrders(...)`, `setLoading(false)`). */
    method OrdersLoaded(loaded: seq<Order>)
      modifies this`orders, this`loading
      ensures orders == loaded && !loading
    {
      orders := loaded;
      loading := false;
    }

    /** A status tab is clicked. */
    method SelectStatus(selected: StatusFilter)
      modifies this`selectedStatus
      ensures selectedStatus == selected
    {
      selectedStatus := selected;
    }

    /** `updateOrderStatus(orderId, newStatus)` from an order's select. */
    method UpdateOrderStatus(orderId: string, newStatus: OrderStatus)
      modifies this`orders
      ensures orders == WithStatus(old(orders), orderId, newStatus)
    {
      orders := WithStatus(orders, orderId, newStatus);
    }

    /** The orders listed under the selected tab. */
    function Visible(): seq<Order>
      reads this
    {
      Filtered(orders, selectedStatus)
    }

    /**
     * "No orders found with the selected status." is shown exactly when the
     * orders have loaded and no listed order has that status; while loading
     * the page shows "Loading orders..." instead.
     */
    function ShowsNoOrdersMessage(): (b: bool)
      reads this
      ensures loading ==> !b
      ensures !loading && selectedStatus.Only? ==>
        (b <==> forall i :: 0 <= i < |orders| ==> orders[i].status != selectedStatus.status)
      ensures !loading && selectedStatus.All? ==> (b <==> orders == [])
    {
      var shown := Visible();
      assert selectedStatus.Only? && |shown| > 0 ==>
        exists j :: 0 <= j < |orders| && orders[j] == shown[0] && orders[j].status == selectedStatus.status;
      !loading && |shown| == 0
    }
  }
}

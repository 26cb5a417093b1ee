/** The profile's order history: a status filter over the order list, one
    expandable order at a time, and the actions offered for each status. */
module OrderHistory {
  import opened Wrappers
  import opened Seqs

  datatype OrderItem = OrderItem(name: string, quantity: nat, price: real)

  /** An order; the status is kept as the string the filter compares with. */
  datatype Order = Order(id: string, date: string, status: string, total: real, items: seq<OrderItem>)

  /** The test `order => order.status === filter`. */
  function HasStatus(status: string): Order -> bool {
    (o: Order) => o.status == status
  }

  /** `filteredOrders`: `'all'` shows the list as it is; any other value shows
      the orders with exactly that status, in list order. */
  function FilteredOrders(orders: seq<Order>, filter: string): (r: seq<Order>)
    ensures filter == "all" ==> r == orders
    ensures filter != "all" ==> forall o :: o in r <==> o in orders && o.status == filter
    ensures |r| <= |orders|
  {
    if filter == "all" then orders else Filter(orders, HasStatus(filter))
  }

  /** A filter value that no order carries shows the empty state. */
  lemma UnknownStatusShowsNothing(orders: seq<Order>, filter: string)
    requires filter != "all"
    requires forall i :: 0 <= i < |orders| ==> orders[i].status != filter
    ensures FilteredOrders(orders, filter) == []
  {
    FilterDropsAll(orders, HasStatus(filter));
  }

  /** Filtering by a status keeps the orders in the order they were listed:
      the filtered list of a concatenation is the concatenation of the
      filtered lists. */
  lemma FilterKeepsListOrder(first: seq<Order>, rest: seq<Order>, filter: string)
    ensures FilteredOrders(first + rest, filter) == FilteredOrders(first, filter) + FilteredOrders(rest, filter)
  {
    if filter != "all" {
      FilterAppend(first, rest, HasStatus(filter));
    }
  }

  /** `toggleOrderDetails(id)`: the open order closes, any other opens. */
  function Toggled(selected: Option<string>, id: string): (r: Option<string>)
    ensures selected == Some(id) ==> r == None
    ensures selected != Some(id) ==> r == Some(id)
  {
    if selected == Some(id) then None else Some(id)
  }

  /** From no selection, toggling an order twice closes it again. */
  lemma ToggleTwiceCloses(id: string)
    ensures Toggled(Toggled(None, id), id) == None
  {
  }

  /** The positions of the orders shown expanded. */
  function Expanded(orders: seq<Order>, selected: Option<string>): set<nat> {
    set i: nat | i < |orders| && selected == Some(orders[i].id)
  }

  /** With distinct order ids at most one order is expanded. */
  lemma AtMostOneExpanded(orders: seq<Order>, selected: Option<string>)
    requires forall i, j :: 0 <= i < j < |orders| ==> orders[i].id != orders[j].id
    ensures |Expanded(orders, selected)| <= 1
  {
    var e := Expanded(orders, selected);
    if e != {} {
      var k :| k in e;
      assert e == {k};
    }
  }

  datatype Action = Reorder | LeaveReview | DownloadInvoice | TrackPackage | CancelOrder | ContactSupport

  /** The buttons under an expanded order, in the order they appear. */
  function Actions(status: string): (r: seq<Action>)
    ensures |r| > 0 && r[|r| - 1] == ContactSupport
    ensures CancelOrder in r <==> status == "processing"
    ensures TrackPackage in r <==> status == "shipped"
    ensures Reorder in r <==> status == "delivered"
    ensures LeaveReview in r <==> status == "delivered"
    ensures DownloadInvoice in r <==> status == "delivered"
  {
    (if status == "delivered" then [Reorder, LeaveReview, DownloadInvoice] else [])
    + (if status == "shipped" then [TrackPackage] else [])
    + (if status == "processing" then [CancelOrder] else [])
    + [ContactSupport]
  }

  class History {
    var orders: seq<Order>
    var selectedOrder: Option<string>
    var filter: string

    constructor (orders: seq<Order>)
      ensures this.orders == orders && selectedOrder == None && filter == "all"
    {
      this.orders := orders;
      selectedOrder := None;
      filter := "all";
    }

    /** Choosing a status in the drop-down. */
    method SetFilter(value: string)
      modifies this
      ensures filter == value && selectedOrder == old(selectedOrder) && orders == old(orders)
    {
      filter := value;
    }

    /** `toggleOrderDetails(id)`. */
    method ToggleOrderDetails(id: string)
      modifies this
      ensures selectedOrder == Toggled(old(selectedOrder), id)
      ensures filter == old(filter) && orders == old(orders)
    {
      selectedOrder := Toggled(selectedOrder, id);
    }
  }
}

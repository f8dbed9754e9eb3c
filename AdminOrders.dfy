/**
 * The admin console's order table: order totals, the filter and sort of
 * `getFilteredOrders`, pagination, the CSV export, the customer-name cache,
 * and the two ways of changing a status (the confirm dialog, which logs a
 * history entry, and the inline select, which does not).
 */
module AdminOrders {
  import opened Wrappers
  import opened Strings
  import opened Sequences
  import opened Sorting
  import opened Models
  import opened Paging

  datatype HistoryEntry = HistoryEntry(status: string, timestamp: int, updatedBy: string)

  /** An order as the table holds it; a missing status is "", missing items or history the empty list. */
  datatype AdminOrder = AdminOrder(
    id: string,
    user: string,
    createdAt: int,
    status: string,
    orderItems: seq<OrderItem>,
    statusHistory: seq<HistoryEntry>)

  /** What the cache knows of a customer; a missing field is "". */
  datatype CustomerInfo = CustomerInfo(name: string, email: string)

  function LineTotal(item: OrderItem): int { item.price * item.quantity }

  /** `Σ (price || 0) × (quantity || 0)`, the figure the filter, the sort, the table and the export all use. */
  function OrderTotal(o: AdminOrder): int {
    Sum(o.orderItems, LineTotal)
  }

  /** Appending a line adds its amount to the order's total. */
  lemma OrderTotalAppend(o: AdminOrder, item: OrderItem)
    ensures OrderTotal(o.(orderItems := o.orderItems + [item])) == OrderTotal(o) + item.price * item.quantity
  {
    SumAppend(o.orderItems, [item], LineTotal);
    assert Sum([item], LineTotal) == LineTotal(item) + Sum([], LineTotal);
  }

  function CustomerName(userNames: map<string, CustomerInfo>, userId: string): string {
    if userId in userNames then userNames[userId].name else ""
  }

  function CustomerEmail(userNames: map<string, CustomerInfo>, userId: string): string {
    if userId in userNames then userNames[userId].email else ""
  }

  /**
   * The filter panel. A date bound is `None` when its field is empty; a
   * total bound is `None` when its field is empty, and a bound of 0 is
   * ignored as well, being falsy.
   */
  datatype Criteria = Criteria(
    searchTerm: string,
    selectedStatus: string,
    dateStart: Option<int>,
    dateEnd: Option<int>,
    minTotal: Option<int>,
    maxTotal: Option<int>)

  predicate MatchesSearch(o: AdminOrder, userNames: map<string, CustomerInfo>, term: string) {
    var q := ToLower(term);
    Contains(ToLower(o.id), q) || Contains(ToLower(CustomerName(userNames, o.user)), q)
    || Contains(ToLower(CustomerEmail(userNames, o.user)), q)
  }

  predicate MatchesStatus(o: AdminOrder, selected: string) {
    selected == "All" || o.status == selected
  }

  predicate MatchesDate(o: AdminOrder, start: Option<int>, end: Option<int>) {
    (start.None? || o.createdAt >= start.value) && (end.None? || o.createdAt <= end.value)
  }

  predicate ActiveBound(b: Option<int>) { b.Some? && b.value != 0 }

  predicate MatchesTotal(o: AdminOrder, min: Option<int>, max: Option<int>) {
    (!ActiveBound(min) || OrderTotal(o) >= min.value) && (!ActiveBound(max) || OrderTotal(o) <= max.value)
  }

  predicate Matches(o: AdminOrder, userNames: map<string, CustomerInfo>, c: Criteria) {
    MatchesSearch(o, userNames, c.searchTerm) && MatchesStatus(o, c.selectedStatus)
    && MatchesDate(o, c.dateStart, c.dateEnd) && MatchesTotal(o, c.minTotal, c.maxTotal)
  }

  function MatchTest(userNames: map<string, CustomerInfo>, c: Criteria): AdminOrder -> bool {
    o => Matches(o, userNames, c)
  }

  function CreatedAtOf(o: AdminOrder): int { o.createdAt }
  function StatusOf(o: AdminOrder): string { o.status }

  /** The order `sortBy` selects; an unknown value compares everything equal. */
  function OrderComparator(sortBy: string): (AdminOrder, AdminOrder) -> bool {
    if sortBy == "date_desc" then KeyDesc(CreatedAtOf)
    else if sortBy == "date_asc" then KeyAsc(CreatedAtOf)
    else if sortBy == "total_desc" then KeyDesc(OrderTotal)
    else if sortBy == "total_asc" then KeyAsc(OrderTotal)
    else if sortBy == "status" then StringKeyAsc(StatusOf)
    else Unordered()
  }

  lemma OrderComparatorPreorder(sortBy: string)
    ensures IsTotalPreorder(OrderComparator(sortBy))
  {
    if sortBy == "date_desc" {
      KeyDescPreorder(CreatedAtOf);
    } else if sortBy == "date_asc" {
      KeyAscPreorder(CreatedAtOf);
    } else if sortBy == "total_desc" {
      KeyDescPreorder(OrderTotal);
    } else if sortBy == "total_asc" {
      KeyAscPreorder(OrderTotal);
    } else if sortBy == "status" {
      StringKeyAscPreorder(StatusOf);
    } else {
      UnorderedPreorder<AdminOrder>();
    }
  }

  /** `getFilteredOrders`: the matching orders, in the selected order. */
  function FilteredOrders(orders: seq<AdminOrder>, userNames: map<string, CustomerInfo>, c: Criteria, sortBy: string): (r: seq<AdminOrder>)
    ensures multiset(r) == multiset(Filter(orders, MatchTest(userNames, c)))
    ensures SortedBy(r, OrderComparator(sortBy))
    ensures forall o :: o in r <==> o in orders && Matches(o, userNames, c)
  {
    OrderComparatorPreorder(sortBy);
    var kept := Filter(orders, MatchTest(userNames, c));
    var r := SortSeq(kept, OrderComparator(sortBy));
    assert forall o :: o in r <==> o in kept by {
      forall o ensures o in r <==> o in kept {
        assert o in r <==> o in multiset(r);
        assert o in kept <==> o in multiset(kept);
      }
    }
    r
  }

  /** With an unknown sort key the matching orders keep the order they were loaded in. */
  lemma UnknownSortKeepsOrder(orders: seq<AdminOrder>, userNames: map<string, CustomerInfo>, c: Criteria, sortBy: string)
    requires sortBy !in {"date_desc", "date_asc", "total_desc", "total_asc", "status"}
    ensures FilteredOrders(orders, userNames, c, sortBy) == Filter(orders, MatchTest(userNames, c))
  {
    SortUnorderedKeeps(Filter(orders, MatchTest(userNames, c)));
  }

  /** The default panel (empty search, "All", no bounds) keeps every order. */
  lemma DefaultCriteriaKeepAll(orders: seq<AdminOrder>, userNames: map<string, CustomerInfo>, o: AdminOrder)
    requires o in orders
    ensures o in FilteredOrders(orders, userNames, Criteria("", "All", None, None, None, None), "date_desc")
  {
    assert StartsWith(ToLower(o.id), ToLower(""));
  }

  /** Both date bounds are inclusive, and a total bound of 0 filters nothing. */
  lemma BoundsInclusive(o: AdminOrder, max: Option<int>)
    ensures MatchesDate(o, Some(o.createdAt), Some(o.createdAt))
    ensures MatchesTotal(o, Some(0), max) <==> MatchesTotal(o, None, max)
    ensures MatchesTotal(o, Some(OrderTotal(o)), Some(OrderTotal(o)))
  {
  }

  /** The select and the export show a missing status as "pending". */
  function ShownStatus(o: AdminOrder): (r: string)
    ensures r != ""
    ensures o.status != "" ==> r == o.status
    ensures o.status == "" ==> r == "pending"
  {
    if o.status != "" then o.status else "pending"
  }

  /** The export's customer column: the cached name, else the user id. */
  function CustomerColumn(o: AdminOrder, userNames: map<string, CustomerInfo>): string {
    if CustomerName(userNames, o.user) != "" then CustomerName(userNames, o.user) else o.user
  }

  /** The export's columns: id, customer, date, total and status; the date text is formatted outside this model. */
  function CsvFields(o: AdminOrder, userNames: map<string, CustomerInfo>, dateText: string): seq<string> {
    [o.id, CustomerColumn(o, userNames), dateText, IntToString(OrderTotal(o)), ShownStatus(o)]
  }

  /** One exported line: the columns, comma separated and unquoted. */
  function CsvRow(o: AdminOrder, userNames: map<string, CustomerInfo>, dateText: string): string {
    Join(CsvFields(o, userNames, dateText), ",")
  }

  /** `handleExport`'s content: one line per listed order. */
  function CsvContent(rows: seq<AdminOrder>, userNames: map<string, CustomerInfo>, dates: seq<string>): string
    requires |dates| == |rows|
  {
    Join(seq(|rows|, i requires 0 <= i < |rows| => CsvRow(rows[i], userNames, dates[i])), "\n")
  }

  /** A line reads back into its five columns unless a text column itself holds a comma (nothing is quoted). */
  lemma CsvRowReadsBack(o: AdminOrder, userNames: map<string, CustomerInfo>, dateText: string)
    requires ',' !in o.id && ',' !in CustomerColumn(o, userNames) && ',' !in dateText && ',' !in ShownStatus(o)
    ensures Split(CsvRow(o, userNames, dateText), ',') == CsvFields(o, userNames, dateText)
    ensures |Split(CsvRow(o, userNames, dateText), ',')| == 5
  {
    IntToStringPlain(OrderTotal(o), ',');
    SplitJoin(CsvFields(o, userNames, dateText), ',');
  }

  /** The export reads back line by line, one line per order, when no column holds a line break. */
  lemma CsvContentReadsBack(rows: seq<AdminOrder>, userNames: map<string, CustomerInfo>, dates: seq<string>)
    requires |dates| == |rows| > 0
    requires forall i :: 0 <= i < |rows| ==> '\n' !in CsvRow(rows[i], userNames, dates[i])
    ensures |Split(CsvContent(rows, userNames, dates), '\n')| == |rows|
    ensures forall i :: 0 <= i < |rows| ==> Split(CsvContent(rows, userNames, dates), '\n')[i] == CsvRow(rows[i], userNames, dates[i])
  {
    SplitJoin(seq(|rows|, i requires 0 <= i < |rows| => CsvRow(rows[i], userNames, dates[i])), '\n');
  }

  /** The confirm dialog's change: every order with that id takes the status and logs it once, by "Admin". */
  function WithStatusLogged(orders: seq<AdminOrder>, id: string, status: string, now: int): (r: seq<AdminOrder>)
    ensures |r| == |orders|
    ensures forall i :: 0 <= i < |orders| && orders[i].id != id ==> r[i] == orders[i]
    ensures forall i :: 0 <= i < |orders| && orders[i].id == id ==>
      r[i] == orders[i].(status := status, statusHistory := orders[i].statusHistory + [HistoryEntry(status, now, "Admin")])
  {
    seq(|orders|, i requires 0 <= i < |orders| =>
      if orders[i].id == id
      then orders[i].(status := status, statusHistory := orders[i].statusHistory + [HistoryEntry(status, now, "Admin")])
      else orders[i])
  }

  /** The inline select's change: the status alone, no history. */
  function WithStatus(orders: seq<AdminOrder>, id: string, status: string): (r: seq<AdminOrder>)
    ensures |r| == |orders|
    ensures forall i :: 0 <= i < |orders| && orders[i].id != id ==> r[i] == orders[i]
    ensures forall i :: 0 <= i < |orders| && orders[i].id == id ==> r[i] == orders[i].(status := status)
  {
    seq(|orders|, i requires 0 <= i < |orders| => if orders[i].id == id then orders[i].(status := status) else orders[i])
  }

  /** Both paths agree on the statuses; only the dialog grows the history, by exactly one entry, and neither changes a total. */
  lemma StatusPathsAgree(orders: seq<AdminOrder>, id: string, status: string, now: int)
    ensures forall i :: 0 <= i < |orders| ==>
      WithStatusLogged(orders, id, status, now)[i].status == WithStatus(orders, id, status)[i].status
    ensures forall i :: 0 <= i < |orders| ==>
      |WithStatusLogged(orders, id, status, now)[i].statusHistory|
        == |orders[i].statusHistory| + (if orders[i].id == id then 1 else 0)
    ensures forall i :: 0 <= i < |orders| ==> WithStatus(orders, id, status)[i].statusHistory == orders[i].statusHistory
    ensures forall i :: 0 <= i < |orders| ==> OrderTotal(WithStatusLogged(orders, id, status, now)[i]) == OrderTotal(orders[i])
  {
  }

  /** The dialog's confirm button is disabled without a new status, when it equals the current one, or while saving. */
  function ConfirmDisabled(newStatus: string, current: string, loading: bool): (r: bool)
    ensures !r <==> newStatus != "" && newStatus != current && !loading
  {
    newStatus == "" || newStatus == current || loading
  }

  /** The statuses the status dialog offers (`orderStatuses`), each with the colour its own table gives it. */
  const OfferedStatuses := [("pending", "warning"), ("confirmed", "info"), ("shipped", "primary"),
                            ("delivered", "success"), ("cancelled", "error")]

  /** The values of the status select in each table row. */
  const InlineStatuses := ["pending", "processing", "shipped", "out-for-delivery", "delivered"]

  /** The values of the status filter list. */
  const FilterStatuses := ["pending", "confirmed", "shipped", "delivered", "cancelled", "returned"]

  /** `getStatusColor` as written: it looks for capitalised status names. */
  function StatusColorAsWritten(status: string): (r: string)
    ensures r == "success" <==> status == "Delivered"
    ensures r == "info" <==> status == "Confirmed"
    ensures r == "primary" <==> status == "Shipped"
    ensures r == "warning" <==> status == "Pending"
    ensures r == "error" <==> status == "Cancelled"
    ensures r == "default" <==> status !in {"Delivered", "Confirmed", "Shipped", "Pending", "Cancelled"}
  {
    match status
    case "Delivered" => "success"
    case "Confirmed" => "info"
    case "Shipped" => "primary"
    case "Pending" => "warning"
    case "Cancelled" => "error"
    case _ => "default"
  }

  /**
   * Every status the page itself offers, in the dialog, the row select and the
   * filter list, is lower case, so the lookup as written colours none of them.
   */
  lemma OfferedStatusesUncoloured()
    ensures forall i :: 0 <= i < |OfferedStatuses| ==> StatusColorAsWritten(OfferedStatuses[i].0) == "default"
    ensures forall i :: 0 <= i < |InlineStatuses| ==> StatusColorAsWritten(InlineStatuses[i]) == "default"
    ensures forall i :: 0 <= i < |FilterStatuses| ==> StatusColorAsWritten(FilterStatuses[i]) == "default"
  {
  }

  /** The colour lookup on the status values the page stores. */
  function StatusColor(status: string): (r: string)
    ensures r == "success" <==> status == "delivered"
    ensures r == "info" <==> status == "confirmed"
    ensures r == "primary" <==> status == "shipped"
    ensures r == "warning" <==> status == "pending"
    ensures r == "error" <==> status == "cancelled"
    ensures r == "default" <==> status !in {"delivered", "confirmed", "shipped", "pending", "cancelled"}
  {
    match status
    case "delivered" => "success"
    case "confirmed" => "info"
    case "shipped" => "primary"
    case "pending" => "warning"
    case "cancelled" => "error"
    case _ => "default"
  }

  /** With the stored values matched, each offered status gets the colour of the page's status table, and a missing status shown as "pending" gets the pending colour. */
  lemma OfferedStatusesColoured(o: AdminOrder)
    ensures forall i :: 0 <= i < |OfferedStatuses| ==> StatusColor(OfferedStatuses[i].0) == OfferedStatuses[i].1
    ensures o.status == "" ==> StatusColor(ShownStatus(o)) == "warning"
  {
  }

  const UpdatedMessage := "Order status updated successfully!"
  const UpdateFailedMessage := "Failed to update order status"

  /** The page's state; `rowsPerPage` is at least 1 (the selector offers only positive sizes). */
  class OrdersPage {
    var orders: seq<AdminOrder>
    var userNames: map<string, CustomerInfo>
    var page: nat
    var rowsPerPage: nat
    var criteria: Criteria
    var sortBy: string
    var selectedOrder: Option<AdminOrder>
    var newStatus: string
    var statusDialogOpen: bool
    var updatingStatus: map<string, bool>
    var toastMessage: string

    constructor (loaded: seq<AdminOrder>)
      ensures orders == loaded && userNames == map[] && page == 0 && rowsPerPage == 10
      ensures criteria == Criteria("", "All", None, None, None, None) && sortBy == "date_desc"
      ensures selectedOrder.None? && newStatus == "" && !statusDialogOpen && updatingStatus == map[] && toastMessage == ""
    {
      orders := loaded;
      userNames := map[];
      page := 0;
      rowsPerPage := 10;
      criteria := Criteria("", "All", None, None, None, None);
      sortBy := "date_desc";
      selectedOrder := None;
      newStatus := "";
      statusDialogOpen := false;
      updatingStatus := map[];
      toastMessage := "";
    }

    /** Any change to the search, status, dates, totals or sort goes back to the first page. */
    method ChangeFilters(c: Criteria, sort: string)
      modifies this
      ensures criteria == c && sortBy == sort && page == 0
      ensures orders == old(orders) && userNames == old(userNames) && rowsPerPage == old(rowsPerPage)
      ensures selectedOrder == old(selectedOrder) && newStatus == old(newStatus)
    {
      criteria := c;
      sortBy := sort;
      page := 0;
    }

    /** `handleChangePage`. */
    method ChangePage(n: nat)
      modifies this
      ensures page == n
      ensures orders == old(orders) && criteria == old(criteria) && sortBy == old(sortBy) && rowsPerPage == old(rowsPerPage)
    {
      page := n;
    }

    /** `handleChangeRowsPerPage`. */
    method ChangeRowsPerPage(n: nat)
      modifies this
      ensures rowsPerPage == n && page == 0
      ensures orders == old(orders) && criteria == old(criteria) && sortBy == old(sortBy)
    {
      rowsPerPage := n;
      page := 0;
    }

    /** The rows the table shows. */
    function VisibleRows(): seq<AdminOrder>
      reads this
    {
      PageRows(FilteredOrders(orders, userNames, criteria, sortBy), page, rowsPerPage)
    }

    /**
     * `fetchUserName` for one id, with `reply` the user record the server
     * returned (`None` on failure or an empty answer). A blank id or one
     * already cached sends no request.
     */
    method FetchUserName(userId: string, reply: Option<CustomerInfo>) returns (requested: bool)
      modifies this
      ensures requested <==> userId != "" && userId !in old(userNames)
      ensures !requested ==> userNames == old(userNames)
      ensures requested ==> userNames == old(userNames)[userId := reply.GetOr(CustomerInfo(userId, ""))]
      ensures old(userNames).Keys <= userNames.Keys
      ensures orders == old(orders) && page == old(page) && criteria == old(criteria)
    {
      if userId == "" || userId in userNames {
        return false;
      }
      requested := true;
      userNames := userNames[userId := reply.GetOr(CustomerInfo(userId, ""))];
    }

    /** `handleStatusUpdate`: the dialog opens on the order with its current status. */
    method OpenStatusDialog(o: AdminOrder)
      modifies this
      ensures selectedOrder == Some(o) && newStatus == o.status && statusDialogOpen
      ensures orders == old(orders) && userNames == old(userNames) && page == old(page)
    {
      selectedOrder := Some(o);
      newStatus := o.status;
      statusDialogOpen := true;
    }

    /**
     * `handleStatusUpdateConfirm`, with `saved` the outcome of the request
     * and `now` its time. Without a selected order or a new status nothing
     * happens; a failed save leaves the orders and the dialog as they were.
     */
    method ConfirmStatusUpdate(saved: bool, now: int) returns (request: Option<(string, string)>)
      modifies this
      ensures old(selectedOrder).None? || old(newStatus) == "" ==>
        request.None? && orders == old(orders) && selectedOrder == old(selectedOrder)
        && newStatus == old(newStatus) && statusDialogOpen == old(statusDialogOpen) && toastMessage == old(toastMessage)
      ensures old(selectedOrder).Some? && old(newStatus) != "" ==>
        request == Some((old(selectedOrder).value.id, old(newStatus)))
        && (saved ==>
              orders == WithStatusLogged(old(orders), old(selectedOrder).value.id, old(newStatus), now)
              && !statusDialogOpen && selectedOrder.None? && newStatus == "" && toastMessage == UpdatedMessage)
        && (!saved ==>
              orders == old(orders) && statusDialogOpen == old(statusDialogOpen) && selectedOrder == old(selectedOrder)
              && newStatus == old(newStatus) && toastMessage == UpdateFailedMessage)
      ensures userNames == old(userNames) && page == old(page) && criteria == old(criteria)
    {
      if selectedOrder.None? || newStatus == "" {
        return None;
      }
      request := Some((selectedOrder.value.id, newStatus));
      if saved {
        orders := WithStatusLogged(orders, selectedOrder.value.id, newStatus, now);
        statusDialogOpen := false;
        selectedOrder := None;
        newStatus := "";
        toastMessage := UpdatedMessage;
      } else {
        toastMessage := UpdateFailedMessage;
      }
    }

    /** The inline select on one row: on success only that order's status changes; the row's spinner ends off. */
    method InlineStatusUpdate(id: string, status: string, saved: bool) returns (request: (string, string))
      modifies this
      ensures request == (id, status)
      ensures saved ==> orders == WithStatus(old(orders), id, status) && toastMessage == UpdatedMessage
      ensures !saved ==> orders == old(orders) && toastMessage == UpdateFailedMessage
      ensures updatingStatus == old(updatingStatus)[id := false]
      ensures userNames == old(userNames) && selectedOrder == old(selectedOrder) && newStatus == old(newStatus)
    {
      updatingStatus := updatingStatus[id := true];
      request := (id, status);
      if saved {
        orders := WithStatus(orders, id, status);
        toastMessage := UpdatedMessage;
      } else {
        toastMessage := UpdateFailedMessage;
      }
      updatingStatus := updatingStatus[id := false];
    }
  }
}

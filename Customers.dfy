/**
 * The admin customers table: its search, status, join-date and spent
 * filters, the seven sorts, the status colour, the page state the handlers
 * reset, and the CSV export. The table's rows are the page's fixed list,
 * taken here as a parameter.
 */
module Customers {
  import opened Wrappers
  import opened Strings
  import opened Sequences
  import opened Sorting
  import opened Paging

  /**
   * A customer row. Amounts are whole units and the rating is in tenths
   * (4.8 is 48); the join date is a day number.
   */
  datatype Customer = Customer(
    id: string,
    name: string,
    email: string,
    phone: string,
    status: string,
    joinDate: int,
    totalOrders: int,
    totalSpent: int,
    rating: int)

  /** Search: name and email ignore case, the phone is matched as typed. */
  predicate MatchesSearch(c: Customer, term: string) {
    Contains(ToLower(c.name), ToLower(term)) || Contains(ToLower(c.email), ToLower(term)) || Contains(c.phone, term)
  }

  predicate MatchesStatus(c: Customer, selected: string) {
    selected == "All" || c.status == selected
  }

  /** A bound is `None` while its field is empty; a present bound, 0 included, is applied and inclusive. */
  predicate Within(x: int, min: Option<int>, max: Option<int>) {
    (min.None? || x >= min.value) && (max.None? || x <= max.value)
  }

  datatype Criteria = Criteria(
    searchTerm: string,
    selectedStatus: string,
    joinStart: Option<int>,
    joinEnd: Option<int>,
    spentMin: Option<int>,
    spentMax: Option<int>)

  predicate Matches(c: Customer, f: Criteria) {
    MatchesSearch(c, f.searchTerm) && MatchesStatus(c, f.selectedStatus)
    && Within(c.joinDate, f.joinStart, f.joinEnd) && Within(c.totalSpent, f.spentMin, f.spentMax)
  }

  function MatchTest(f: Criteria): Customer -> bool {
    c => Matches(c, f)
  }

  function NameOf(c: Customer): string { c.name }
  function JoinDateOf(c: Customer): int { c.joinDate }
  function OrdersOf(c: Customer): int { c.totalOrders }
  function SpentOf(c: Customer): int { c.totalSpent }
  function RatingOf(c: Customer): int { c.rating }

  /** The order `sortBy` selects; an unknown value compares everything equal. */
  function CustomerComparator(sortBy: string): (Customer, Customer) -> bool {
    if sortBy == "name_asc" then StringKeyAsc(NameOf)
    else if sortBy == "name_desc" then StringKeyDesc(NameOf)
    else if sortBy == "join_desc" then KeyDesc(JoinDateOf)
    else if sortBy == "join_asc" then KeyAsc(JoinDateOf)
    else if sortBy == "orders_desc" then KeyDesc(OrdersOf)
    else if sortBy == "spent_desc" then KeyDesc(SpentOf)
    else if sortBy == "rating_desc" then KeyDesc(RatingOf)
    else Unordered()
  }

  lemma CustomerComparatorPreorder(sortBy: string)
    ensures IsTotalPreorder(CustomerComparator(sortBy))
  {
    if sortBy == "name_asc" {
      StringKeyAscPreorder(NameOf);
    } else if sortBy == "name_desc" {
      StringKeyDescPreorder(NameOf);
    } else if sortBy == "join_desc" {
      KeyDescPreorder(JoinDateOf);
    } else if sortBy == "join_asc" {
      KeyAscPreorder(JoinDateOf);
    } else if sortBy == "orders_desc" {
      KeyDescPreorder(OrdersOf);
    } else if sortBy == "spent_desc" {
      KeyDescPreorder(SpentOf);
    } else if sortBy == "rating_desc" {
      KeyDescPreorder(RatingOf);
    } else {
      UnorderedPreorder<Customer>();
    }
  }

  /** `filteredCustomers`: the matching customers, a permutation of them in the selected order. */
  function FilteredCustomers(all: seq<Customer>, f: Criteria, sortBy: string): (r: seq<Customer>)
    ensures multiset(r) == multiset(Filter(all, MatchTest(f)))
    ensures SortedBy(r, CustomerComparator(sortBy))
    ensures forall c :: c in r <==> c in all && Matches(c, f)
  {
    CustomerComparatorPreorder(sortBy);
    var kept := Filter(all, MatchTest(f));
    var r := SortSeq(kept, CustomerComparator(sortBy));
    assert forall c :: c in r <==> c in kept by {
      forall c ensures c in r <==> c in kept {
        assert c in r <==> c in multiset(r);
        assert c in kept <==> c in multiset(kept);
      }
    }
    r
  }

  /** Upper-casing the search term changes nothing for names and emails. */
  lemma SearchIgnoresCaseForNames(c: Customer, term: string)
    ensures Contains(ToLower(c.name), ToLower(term)) <==> Contains(ToLower(c.name), ToLower(ToLower(term)))
    ensures Contains(c.name, term) ==> MatchesSearch(c, term)
  {
    ToLowerIdempotent(term);
    if Contains(c.name, term) {
      ContainsLowered(c.name, term);
    }
  }

  /** The phone is matched as typed: a term that occurs in it matches, whatever the name and email. */
  lemma PhoneMatchedRaw(c: Customer, term: string)
    requires Contains(c.phone, term)
    ensures MatchesSearch(c, term)
  {
  }

  /** With the default panel every customer is listed, and the default sort puts the newest join first. */
  lemma DefaultPanelListsAll(all: seq<Customer>, c: Customer)
    requires c in all
    ensures c in FilteredCustomers(all, Criteria("", "All", None, None, None, None), "join_desc")
    ensures forall i, j :: 0 <= i < j < |FilteredCustomers(all, Criteria("", "All", None, None, None, None), "join_desc")| ==>
      FilteredCustomers(all, Criteria("", "All", None, None, None, None), "join_desc")[j].joinDate
        <= FilteredCustomers(all, Criteria("", "All", None, None, None, None), "join_desc")[i].joinDate
  {
    assert StartsWith(ToLower(c.name), ToLower(""));
    var r := FilteredCustomers(all, Criteria("", "All", None, None, None, None), "join_desc");
    assert CustomerComparator("join_desc") == KeyDesc(JoinDateOf);
    forall i, j | 0 <= i < j < |r| ensures r[j].joinDate <= r[i].joinDate {
      assert KeyDesc(JoinDateOf)(r[i], r[j]);
      assert JoinDateOf(r[j]) <= JoinDateOf(r[i]);
    }
  }

  /** Both ends of each range are inclusive. */
  lemma RangesInclusive(c: Customer)
    ensures Within(c.joinDate, Some(c.joinDate), Some(c.joinDate))
    ensures Within(c.totalSpent, Some(c.totalSpent), Some(c.totalSpent))
    ensures Within(c.totalSpent, Some(0), None) <==> c.totalSpent >= 0
  {
  }

  /** `getStatusColor`. */
  function StatusColor(status: string): (r: string)
    ensures r == "success" <==> status == "Active"
    ensures r == "warning" <==> status == "Inactive"
    ensures r == "error" <==> status == "Blocked"
    ensures r == "default" <==> status !in {"Active", "Inactive", "Blocked"}
  {
    match status
    case "Active" => "success"
    case "Inactive" => "warning"
    case "Blocked" => "error"
    case _ => "default"
  }

  /** Every status the filter offers, other than "All", has its own colour. */
  lemma OfferedStatusesColoured()
    ensures forall s :: s in ["Active", "Inactive", "Blocked"] ==> StatusColor(s) != "default"
  {
  }

  /** The export's columns: name, email, phone, status, order count and amount spent. */
  function CsvFields(c: Customer): seq<string> {
    [c.name, c.email, c.phone, c.status, IntToString(c.totalOrders), IntToString(c.totalSpent)]
  }

  /** One exported line: the columns, comma separated and unquoted. */
  function CsvRow(c: Customer): string {
    Join(CsvFields(c), ",")
  }

  /** `handleExport`'s content: one line per listed customer, in table order. */
  function CsvContent(rows: seq<Customer>): string {
    Join(seq(|rows|, i requires 0 <= i < |rows| => CsvRow(rows[i])), "\n")
  }

  /** A line reads back into its six columns unless a text column itself holds a comma (nothing is quoted). */
  lemma CsvRowReadsBack(c: Customer)
    requires ',' !in c.name && ',' !in c.email && ',' !in c.phone && ',' !in c.status
    ensures Split(CsvRow(c), ',') == CsvFields(c)
    ensures |Split(CsvRow(c), ',')| == 6
  {
    IntToStringPlain(c.totalOrders, ',');
    IntToStringPlain(c.totalSpent, ',');
    SplitJoin(CsvFields(c), ',');
  }

  /** The export reads back line by line, one line per customer, when no column holds a line break. */
  lemma CsvContentReadsBack(rows: seq<Customer>)
    requires |rows| > 0
    requires forall i :: 0 <= i < |rows| ==> '\n' !in CsvRow(rows[i])
    ensures |Split(CsvContent(rows), '\n')| == |rows|
    ensures forall i :: 0 <= i < |rows| ==> Split(CsvContent(rows), '\n')[i] == CsvRow(rows[i])
  {
    SplitJoin(seq(|rows|, i requires 0 <= i < |rows| => CsvRow(rows[i])), '\n');
  }

  /** The page's state; `customers` is the fixed list the table shows. */
  class CustomersPage {
    const customers: seq<Customer>
    var page: nat
    var rowsPerPage: nat
    var criteria: Criteria
    var sortBy: string
    var openDialog: bool
    var selectedCustomer: Option<Customer>

    constructor (all: seq<Customer>)
      ensures customers == all && page == 0 && rowsPerPage == 10 && sortBy == "join_desc"
      ensures criteria == Criteria("", "All", None, None, None, None)
      ensures !openDialog && selectedCustomer.None?
    {
      customers := all;
      page := 0;
      rowsPerPage := 10;
      criteria := Criteria("", "All", None, None, None, None);
      sortBy := "join_desc";
      openDialog := false;
      selectedCustomer := None;
    }

    /** The rows the table shows. */
    function VisibleRows(): seq<Customer>
      reads this
    {
      PageRows(FilteredCustomers(customers, criteria, sortBy), page, rowsPerPage)
    }

    method ChangePage(n: nat)
      modifies this
      ensures page == n
      ensures criteria == old(criteria) && sortBy == old(sortBy) && rowsPerPage == old(rowsPerPage)
      ensures openDialog == old(openDialog) && selectedCustomer == old(selectedCustomer)
    {
      page := n;
    }

    method ChangeRowsPerPage(n: nat)
      modifies this
      ensures rowsPerPage == n && page == 0
      ensures criteria == old(criteria) && sortBy == old(sortBy)
      ensures openDialog == old(openDialog) && selectedCustomer == old(selectedCustomer)
    {
      rowsPerPage := n;
      page := 0;
    }

    /** `handleSearch`. */
    method Search(term: string)
      modifies this
      ensures criteria == old(criteria).(searchTerm := term) && page == 0
      ensures sortBy == old(sortBy) && rowsPerPage == old(rowsPerPage)
    {
      criteria := criteria.(searchTerm := term);
      page := 0;
    }

    /** `handleStatusChange`. */
    method ChangeStatus(status: string)
      modifies this
      ensures criteria == old(criteria).(selectedStatus := status) && page == 0
      ensures sortBy == old(sortBy) && rowsPerPage == old(rowsPerPage)
    {
      criteria := criteria.(selectedStatus := status);
      page := 0;
    }

    /** `handleSortChange`. */
    method ChangeSort(sort: string)
      modifies this
      ensures sortBy == sort && page == 0
      ensures criteria == old(criteria) && rowsPerPage == old(rowsPerPage)
    {
      sortBy := sort;
      page := 0;
    }

    /** The date and spent fields set their bound directly; unlike the other filters they keep the page. */
    method ChangeRanges(joinStart: Option<int>, joinEnd: Option<int>, spentMin: Option<int>, spentMax: Option<int>)
      modifies this
      ensures criteria == old(criteria).(joinStart := joinStart, joinEnd := joinEnd, spentMin := spentMin, spentMax := spentMax)
      ensures page == old(page) && sortBy == old(sortBy) && rowsPerPage == old(rowsPerPage)
    {
      criteria := criteria.(joinStart := joinStart, joinEnd := joinEnd, spentMin := spentMin, spentMax := spentMax);
    }

    /** `handleOpenDialog`: with no customer the dialog opens empty. */
    method OpenDialog(c: Option<Customer>)
      modifies this
      ensures openDialog && selectedCustomer == c
      ensures page == old(page) && criteria == old(criteria) && sortBy == old(sortBy) && rowsPerPage == old(rowsPerPage)
    {
      selectedCustomer := c;
      openDialog := true;
    }

    /** `handleCloseDialog`. */
    method CloseDialog()
      modifies this
      ensures !openDialog && selectedCustomer.None?
      ensures page == old(page) && criteria == old(criteria) && sortBy == old(sortBy) && rowsPerPage == old(rowsPerPage)
    {
      openDialog := false;
      selectedCustomer := None;
    }
  }
}

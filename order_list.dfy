/**
 * The order list: the search and status filter over the loaded orders, the badge colour of a
 * status, the company name printed on receipts, and the load and delete handlers.
 */
module OrderList {
  import opened Wrappers
  import opened Types
  import opened Text
  import opened Seqs
  import Stats
  import Supabase

  /** The value of the "every status" option of the filter select. */
  const AllFilter := "all"

  /** The lowercased client name contains the lowercased search term. */
  predicate MatchesSearch(o: ServiceOrder, term: string)
    ensures term == "" ==> MatchesSearch(o, term)
    ensures MatchesSearch(o, term) ==> |term| <= |o.clientName|
  {
    Contains(Lower(o.clientName), Lower(term))
  }

  /** The filter is `all` or the status text of the order. */
  predicate MatchesFilter(o: ServiceOrder, statusFilter: string)
    ensures MatchesFilter(o, statusFilter) <==> statusFilter == AllFilter || StatusFromCode(statusFilter) == Some(o.status)
  {
    statusFilter == AllFilter || StatusCode(o.status) == statusFilter
  }

  /** An order is listed when it passes both the search and the status filter. */
  predicate Visible(o: ServiceOrder, term: string, statusFilter: string)
    ensures term == "" ==> (Visible(o, term, statusFilter) <==> MatchesFilter(o, statusFilter))
  {
    MatchesSearch(o, term) && MatchesFilter(o, statusFilter)
  }

  /** `filteredOrders`: the visible orders, in their loaded order. */
  function FilterOrders(orders: seq<ServiceOrder>, term: string, statusFilter: string): (r: seq<ServiceOrder>)
    ensures |r| <= |orders|
    ensures forall o :: o in r <==> o in orders && Visible(o, term, statusFilter)
  {
    if orders == [] then []
    else if Visible(orders[0], term, statusFilter) then [orders[0]] + FilterOrders(orders[1..], term, statusFilter)
    else FilterOrders(orders[1..], term, statusFilter)
  }

  /** The filtered list keeps the loaded orders' relative order and drops the rest. */
  lemma {:induction false} FilteredIsSubsequence(orders: seq<ServiceOrder>, term: string, statusFilter: string)
    ensures IsSubsequence(FilterOrders(orders, term, statusFilter), orders)
  {
    if orders != [] {
      FilteredIsSubsequence(orders[1..], term, statusFilter);
    }
  }

  /** Filtering the filtered list again changes nothing. */
  lemma {:induction false} FilterIdempotent(orders: seq<ServiceOrder>, term: string, statusFilter: string)
    ensures FilterOrders(FilterOrders(orders, term, statusFilter), term, statusFilter)
         == FilterOrders(orders, term, statusFilter)
  {
    if orders != [] {
      FilterIdempotent(orders[1..], term, statusFilter);
    }
  }

  /** With an empty search and `all`, every loaded order is shown. */
  lemma {:induction false} NoFilterShowsAll(orders: seq<ServiceOrder>)
    ensures FilterOrders(orders, "", AllFilter) == orders
  {
    if orders != [] {
      ContainsEmpty(Lower(orders[0].clientName));
      NoFilterShowsAll(orders[1..]);
    }
  }

  /** With an empty search, selecting a status shows exactly the orders the dashboard counts under it. */
  lemma {:induction false} StatusFilterMatchesDashboard(orders: seq<ServiceOrder>, s: OrderStatus)
    ensures FilterOrders(orders, "", StatusCode(s)) == Stats.OfStatus(orders, s)
  {
    StatusesEnumerated();
    assert StatusFromCode(StatusCode(s)) == Some(s);
    if orders != [] {
      ContainsEmpty(Lower(orders[0].clientName));
      assert StatusFromCode(StatusCode(orders[0].status)) == Some(orders[0].status);
      StatusFilterMatchesDashboard(orders[1..], s);
    }
  }

  // ----- Status badge -----

  const GrayClass := "bg-gray-100 text-gray-700"

  /** `getStatusColor`, on the status text an order carries. */
  function StatusColor(code: string): (r: string)
    ensures r == GrayClass <==> StatusFromCode(code).None?
  {
    if code == StatusCode(Open) then "bg-blue-100 text-blue-700"
    else if code == StatusCode(Creation) then "bg-purple-100 text-purple-700"
    else if code == StatusCode(Production) then "bg-amber-100 text-amber-700"
    else if code == StatusCode(AwaitingInstallation) then "bg-indigo-100 text-indigo-700"
    else if code == StatusCode(Completed) then "bg-emerald-100 text-emerald-700"
    else if code == StatusCode(Cancelled) then "bg-slate-100 text-slate-600"
    else GrayClass
  }

  /** The six statuses get six different classes, none of them the gray default. */
  lemma StatusColorsDistinct(s: OrderStatus, t: OrderStatus)
    ensures StatusColor(StatusCode(s)) != GrayClass
    ensures StatusColor(StatusCode(s)) == StatusColor(StatusCode(t)) ==> s == t
  {
    StatusesEnumerated();
    assert StatusFromCode(StatusCode(s)) == Some(s);
  }

  // ----- Company name -----

  const DefaultCompanyName := "SERVICE OS"

  /**
   * `fetchCompanyData`: `user` is the outcome of `getUser` (`Err` when it throws). Only a user whose
   * metadata carries a non-empty company name replaces the name, by its uppercase form.
   */
  function CompanyNameFor(current: string, user: Result<Option<Supabase.User>, string>): (r: string)
    ensures (user.Ok? && user.value.Some? && user.value.value.companyName.Some? && user.value.value.companyName.value != "")
            ==> r == Upper(user.value.value.companyName.value)
    ensures !(user.Ok? && user.value.Some? && user.value.value.companyName.Some? && user.value.value.companyName.value != "")
            ==> r == current
  {
    match user
    case Err(_) => current
    case Ok(None) => current
    case Ok(Some(u)) =>
      if u.companyName.Some? && u.companyName.value != "" then Upper(u.companyName.value) else current
  }

  /** A company name fetched twice is the same as fetched once. */
  lemma CompanyNameIdempotent(current: string, user: Result<Option<Supabase.User>, string>)
    ensures CompanyNameFor(CompanyNameFor(current, user), user) == CompanyNameFor(current, user)
  {
  }

  /** Without a configured client `getUser` answers `null`, so the default name stays. */
  lemma UnconfiguredKeepsDefault(answer: Option<Supabase.User>)
    ensures CompanyNameFor(DefaultCompanyName, Ok(Supabase.Lookup(Supabase.NoClient, answer))) == DefaultCompanyName
  {
  }

  // ----- The component -----

  class List {
    var orders: seq<ServiceOrder>
    var searchTerm: string
    var statusFilter: string
    var loading: bool
    var companyName: string

    constructor()
      ensures orders == [] && searchTerm == "" && statusFilter == AllFilter
      ensures loading && companyName == DefaultCompanyName
    {
      orders := [];
      searchTerm := "";
      statusFilter := AllFilter;
      loading := true;
      companyName := DefaultCompanyName;
    }

    /** The rows rendered. */
    function Shown(): seq<ServiceOrder>
      reads this
    {
      FilterOrders(orders, searchTerm, statusFilter)
    }

    method SetSearchTerm(term: string)
      modifies this
      ensures searchTerm == term
      ensures orders == old(orders) && statusFilter == old(statusFilter)
      ensures loading == old(loading) && companyName == old(companyName)
    {
      searchTerm := term;
    }

    method SetStatusFilter(statusFilter: string)
      modifies this
      ensures this.statusFilter == statusFilter
      ensures orders == old(orders) && searchTerm == old(searchTerm)
      ensures loading == old(loading) && companyName == old(companyName)
    {
      this.statusFilter := statusFilter;
    }

    /** `loadOrders`: `reply` is the outcome of `getAll`; a failure keeps the old rows and raises an alert. */
    method LoadOrders(reply: Result<seq<ServiceOrder>, string>) returns (alerted: bool)
      modifies this
      ensures orders == if reply.Ok? then reply.value else old(orders)
      ensures alerted <==> reply.Err?
      ensures !loading
      ensures searchTerm == old(searchTerm) && statusFilter == old(statusFilter) && companyName == old(companyName)
      ensures reply.Ok? ==> IsSubsequence(Shown(), reply.value)
    {
      loading := true;
      if reply.Ok? {
        orders := reply.value;
        FilteredIsSubsequence(orders, searchTerm, statusFilter);
        alerted := false;
      } else {
        alerted := true;
      }
      loading := false;
    }

    method FetchCompanyData(user: Result<Option<Supabase.User>, string>)
      modifies this
      ensures companyName == CompanyNameFor(old(companyName), user)
      ensures orders == old(orders) && searchTerm == old(searchTerm)
      ensures statusFilter == old(statusFilter) && loading == old(loading)
    {
      if user.Ok? && user.value.Some? {
        var u := user.value.value;
        if u.companyName.Some? && u.companyName.value != "" {
          companyName := Upper(u.companyName.value);
        }
      }
    }

    /**
     * `handleDelete`: `confirmed` is the answer to the confirmation dialog, `deleted` the outcome of
     * the store's `delete` and `reload` that of the following `getAll`. A delete is requested only
     * after confirmation, and the list is reloaded only after the delete completed.
     */
    method HandleDelete(confirmed: bool, id: int, deleted: Result<(), string>, reload: Result<seq<ServiceOrder>, string>)
      returns (deleteSent: Option<int>, reloaded: bool, alerted: bool)
      modifies this
      ensures deleteSent == if confirmed then Some(id) else None
      ensures reloaded <==> confirmed && deleted.Ok?
      ensures alerted <==> reloaded && reload.Err?
      ensures orders == if reloaded && reload.Ok? then reload.value else old(orders)
      ensures loading == if reloaded then false else old(loading)
      ensures searchTerm == old(searchTerm) && statusFilter == old(statusFilter) && companyName == old(companyName)
    {
      deleteSent, reloaded, alerted := None, false, false;
      if confirmed {
        deleteSent := Some(id);
        if deleted.Ok? {
          alerted := LoadOrders(reload);
          reloaded := true;
        }
      }
    }
  }
}

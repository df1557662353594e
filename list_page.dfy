/**
 * The list state shared by the three order pages
 * (frontend/src/pages/transaction/PurchaseOrders.jsx, SalesOrders.jsx and
 * WorkOrder.jsx run the same code): pagination, filter values, search text
 * and status tab, the handlers that change them, and the query parameters
 * built from them for the list request.
 */
module ListPage {

  /** A query-parameter value as the filter panel hands it over. */
  datatype Param = Number(n: int) | Text(s: string)

  datatype Pagination = Pagination(current: int, pageSize: int, total: int)

  const AllTab := "all"

  /** The page state: `pagination`, `filters`, `searchText` and `activeTab`. */
  class OrderListPage {
    var pagination: Pagination
    var filters: map<string, Param>
    var searchText: string
    var activeTab: string

    /** The initial `useState` values. */
    constructor ()
      ensures pagination == Pagination(1, 10, 0) && filters == map[] && searchText == "" && activeTab == AllTab
    {
      pagination := Pagination(1, 10, 0);
      filters := map[];
      searchText := "";
      activeTab := AllTab;
    }

    /**
     * The `params` object of the list request: page and limit, then the
     * filters spread over them, then the search text when it is not empty,
     * then the status when a tab other than "all" is active.
     */
    function QueryParams(): (params: map<string, Param>)
      reads this
      ensures "page" !in filters ==> "page" in params && params["page"] == Number(pagination.current)
      ensures "limit" !in filters ==> "limit" in params && params["limit"] == Number(pagination.pageSize)
      ensures activeTab != AllTab ==> "status" in params && params["status"] == Text(activeTab)
      ensures searchText != "" ==> "search" in params && params["search"] == Text(searchText)
      ensures searchText == "" && "search" in filters ==> "search" in params && params["search"] == filters["search"]
      ensures forall key :: key in filters && key != "status" && key != "search" ==>
                key in params && params[key] == filters[key]
      ensures forall key :: key in params ==>
                key in filters || key in {"page", "limit"} || (key == "search" && searchText != "") ||
                (key == "status" && activeTab != AllTab)
    {
      var base := map["page" := Number(pagination.current), "limit" := Number(pagination.pageSize)] + filters;
      var withSearch := if searchText != "" then base["search" := Text(searchText)] else base;
      if activeTab != AllTab then withSearch["status" := Text(activeTab)] else withSearch
    }

    /** `handleTableChange`: the table's pagination replaces the state's. */
    method TableChange(newPagination: Pagination)
      modifies this
      ensures pagination == newPagination
      ensures filters == old(filters) && searchText == old(searchText) && activeTab == old(activeTab)
    {
      pagination := newPagination;
    }

    /** `handleSearch`. */
    method Search(value: string)
      modifies this
      ensures searchText == value && pagination == old(pagination).(current := 1)
      ensures filters == old(filters) && activeTab == old(activeTab)
    {
      searchText := value;
      pagination := pagination.(current := 1);
    }

    /** `handleFilter`. */
    method Filter(newFilters: map<string, Param>)
      modifies this
      ensures filters == newFilters && pagination == old(pagination).(current := 1)
      ensures searchText == old(searchText) && activeTab == old(activeTab)
    {
      filters := newFilters;
      pagination := pagination.(current := 1);
    }

    /** `handleTabChange`. */
    method TabChange(key: string)
      modifies this
      ensures activeTab == key && pagination == old(pagination).(current := 1)
      ensures filters == old(filters) && searchText == old(searchText)
    {
      activeTab := key;
      pagination := pagination.(current := 1);
    }

    /** The filter panel's reset: no filters, no search text, first page; the tab stays. */
    method Reset()
      modifies this
      ensures filters == map[] && searchText == "" && pagination == old(pagination).(current := 1)
      ensures activeTab == old(activeTab)
    {
      filters := map[];
      searchText := "";
      pagination := pagination.(current := 1);
    }

    /** The list response: the total item count the server reports. */
    method Fetched(totalItems: int)
      modifies this
      ensures pagination == old(pagination).(total := totalItems)
      ensures filters == old(filters) && searchText == old(searchText) && activeTab == old(activeTab)
    {
      pagination := pagination.(total := totalItems);
    }
  }

  /**
   * The "all" tab adds no status parameter: one is sent only when a filter
   * carries it. With no search text and no filters either, the request asks
   * for exactly the current page and page size.
   */
  lemma AllTabAddsNoStatus(page: OrderListPage)
    requires page.activeTab == AllTab
    ensures "status" in page.QueryParams() <==> "status" in page.filters
    ensures "status" in page.filters ==> page.QueryParams()["status"] == page.filters["status"]
    ensures page.searchText == "" && page.filters == map[] ==>
              page.QueryParams() == map["page" := Number(page.pagination.current), "limit" := Number(page.pagination.pageSize)]
  {
  }

  /** After a search, filter, tab change or reset, the request is for page 1 unless a filter names "page". */
  lemma ResetPageIsRequested(page: OrderListPage)
    requires page.pagination.current == 1 && "page" !in page.filters
    ensures page.QueryParams()["page"] == Number(1)
  {
  }
}

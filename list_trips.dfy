/**
 * The paginated, filterable, sortable trip list view: its query state (filters, sort token,
 * page cursor), the request one fetch derives from that state, and how a fetch settles.
 */
module ListTrips {
  import opened Wrappers
  import opened Js
  import opened Entities
  import Api

  /** The page object of a `/list-trips` response, also used as the view's `pageData`. */
  datatype TripPage = TripPage(
    content: Option<seq<Trip>>,
    number: int,
    size: int,
    totalPages: int,
    totalElements: int,
    first: bool,
    last: bool)

  datatype FilterName = PickupLocationId | DropoffLocationId | PickupDate | DropoffDate

  /** The four filter inputs; the empty string means "any". */
  datatype Filters = Filters(pickupLocationId: string, dropoffLocationId: string, pickupDate: string, dropoffDate: string)
  {
    function Get(name: FilterName): string {
      match name
      case PickupLocationId => pickupLocationId
      case DropoffLocationId => dropoffLocationId
      case PickupDate => pickupDate
      case DropoffDate => dropoffDate
    }

    /** `{ ...prev, [name]: value }`. */
    function With(name: FilterName, value: string): (f: Filters)
      ensures f.Get(name) == value
      ensures forall other :: other != name ==> f.Get(other) == Get(other)
    {
      match name
      case PickupLocationId => this.(pickupLocationId := value)
      case DropoffLocationId => this.(dropoffLocationId := value)
      case PickupDate => this.(pickupDate := value)
      case DropoffDate => this.(dropoffDate := value)
    }
  }

  /** The parameter name a filter is sent under. */
  function Key(name: FilterName): string {
    match name
    case PickupLocationId => "pickupLocationId"
    case DropoffLocationId => "dropoffLocationId"
    case PickupDate => "pickupDate"
    case DropoffDate => "dropoffDate"
  }

  const INITIAL_PAGE: TripPage := TripPage(None, 0, 10, 0, 0, true, true)
  const INITIAL_FILTERS: Filters := Filters("", "", "", "")
  const INITIAL_SORT: string := "pickupDateTime,asc"
  const PAGE_SIZES: seq<int> := [10, 20, 50]

  const TRIPS_FAILED: string := "Failed to load trips"
  const ZONES_FAILED: string := "Failed to load zones"

  /** The `params` object before stripping: all filters, then the page cursor and the sort token. */
  function TripParams(filters: Filters, page: TripPage, sort: string): Params {
    map[
      "pickupLocationId" := Str(filters.pickupLocationId),
      "dropoffLocationId" := Str(filters.dropoffLocationId),
      "pickupDate" := Str(filters.pickupDate),
      "dropoffDate" := Str(filters.dropoffDate),
      "page" := Num(page.number),
      "size" := Num(page.size),
      "sort" := Str(sort)]
  }

  /** `Object.keys(params).forEach(key => { if (!params[key]) delete params[key]; })`. */
  method RemoveFalsy(params: Params) returns (kept: Params)
    ensures kept.Keys == set k | k in params && Truthy(params[k])
    ensures forall k :: k in kept ==> kept[k] == params[k]
  {
    kept := params;
    var keys := params.Keys;
    while keys != {}
      invariant keys <= params.Keys
      invariant kept.Keys == set k | k in params && (k in keys || Truthy(params[k]))
      invariant forall k :: k in kept ==> kept[k] == params[k]
      decreases keys
    {
      var k :| k in keys;
      if !Truthy(kept[k]) {
        kept := kept - {k};
      }
      keys := keys - {k};
    }
  }

  /** A filter field is sent iff it is non-empty, and then as typed. */
  ghost predicate FilterSent(query: Params, name: FilterName, value: string) {
    && (Key(name) in query <==> value != "")
    && (Key(name) in query ==> query[Key(name)] == Str(value))
  }

  /**
   * The request one fetch issues. Although page 0 is falsy and is stripped, `listTrips`
   * restores it as its default, so the page sent is always the current page number.
   */
  method BuildTripsRequest(filters: Filters, page: TripPage, sort: string) returns (req: Api.Request)
    ensures req.path == "/list-trips"
    ensures "page" in req.params && req.params["page"] == Num(page.number)
    ensures "size" in req.params && req.params["size"] == if page.size == 0 then Api.DEFAULT_SIZE else Num(page.size)
    ensures "sort" in req.params && req.params["sort"] == if sort == "" then Api.DEFAULT_SORT else Str(sort)
    ensures forall name :: FilterSent(req.params, name, filters.Get(name))
    ensures req.params.Keys <= Api.LIST_TRIPS_KEYS
  {
    var raw := TripParams(filters, page, sort);
    var params := RemoveFalsy(raw);
    req := Api.ListTrips(params);
    assert req.params["page"] == Api.OrDefault(params, "page", Api.DEFAULT_PAGE);
    forall name ensures FilterSent(req.params, name, filters.Get(name)) {
      assert raw[Key(name)] == Str(filters.Get(name));
      assert Api.Forwarded(params, req.params, Key(name));
    }
  }

  /**
   * `goToPage(pageNumber, newSize)`: a size change always targets page 0; the target is
   * taken only if it is not negative and, when the page count is known, below it.
   */
  function Navigate(p: TripPage, pageNumber: int, newSize: int): (r: TripPage)
    ensures r == p || r == p.(number := r.number, size := newSize)
    ensures r != p ==> 0 <= r.number && (p.totalPages == 0 || r.number < p.totalPages)
    ensures newSize != p.size && p.totalPages >= 0 ==> r == p.(number := 0, size := newSize)
    ensures newSize == p.size && (pageNumber < 0 || (p.totalPages > 0 && pageNumber >= p.totalPages)) ==> r == p
    ensures p.totalPages == 0 && pageNumber >= 0 ==> r.number == (if newSize != p.size then 0 else pageNumber)
    ensures newSize == p.size && 0 <= pageNumber && (p.totalPages == 0 || pageNumber < p.totalPages) ==>
              r == p.(number := pageNumber)
  {
    var requested := if newSize != p.size then 0 else pageNumber;
    if requested >= 0 && (p.totalPages == 0 || requested < p.totalPages) then
      p.(number := requested, size := newSize)
    else
      p
  }

  /** What the pagination bar offers when it is shown. */
  datatype Controls = Controls(
    previousTarget: int,
    previousDisabled: bool,
    nextTarget: int,
    nextDisabled: bool,
    sizeOptions: seq<int>)

  /** `PaginationControls`: nothing for a single page or none; otherwise Previous, Next and the size menu. */
  function Pagination(p: TripPage): (c: Option<Controls>)
    ensures c.None? <==> p.totalPages <= 1
    ensures c.Some? ==> c.value == Controls(p.number - 1, p.first, p.number + 1, p.last, PAGE_SIZES)
  {
    if p.totalPages <= 1 then None
    else Some(Controls(p.number - 1, p.first, p.number + 1, p.last, PAGE_SIZES))
  }

  /** The page metadata the backend promises: a page inside the page count, with matching flags. */
  ghost predicate Consistent(p: TripPage) {
    && 0 <= p.size
    && 0 <= p.number < p.totalPages
    && p.first == (p.number == 0)
    && p.last == (p.number == p.totalPages - 1)
  }

  /**
   * On a consistent page, a navigation button is disabled exactly when `goToPage` would
   * ignore its target anyway; an enabled one moves by one page, and a new size lands on page 0.
   */
  lemma ControlsAgreeWithGuard(p: TripPage)
    requires Consistent(p) && p.totalPages > 1
    ensures var c := Pagination(p).value;
      && (Navigate(p, c.previousTarget, p.size) == p <==> c.previousDisabled)
      && (Navigate(p, c.nextTarget, p.size) == p <==> c.nextDisabled)
      && (!c.previousDisabled ==> Navigate(p, c.previousTarget, p.size).number == p.number - 1)
      && (!c.nextDisabled ==> Navigate(p, c.nextTarget, p.size).number == p.number + 1)
      && (forall s :: s in c.sizeOptions && s != p.size ==>
            Navigate(p, 0, s) == p.(number := 0, size := s))
  {
    var c := Pagination(p).value;
    if !c.previousDisabled {
      assert Navigate(p, c.previousTarget, p.size).number == p.number - 1;
    }
    if !c.nextDisabled {
      assert Navigate(p, c.nextTarget, p.size).number == p.number + 1;
    }
  }

  /** The state of one mounted `ListTrips` component. */
  class ListTripsView {
    var trips: seq<Trip>
    var pageData: TripPage
    var filters: Filters
    var sort: string
    var allZones: seq<Zone>
    var zonesLoading: bool
    var isLoading: bool
    var errorMsg: string

    /** The state at mount. */
    constructor ()
      ensures trips == [] && pageData == INITIAL_PAGE
      ensures filters == INITIAL_FILTERS && sort == INITIAL_SORT
      ensures allZones == [] && !zonesLoading && !isLoading && errorMsg == ""
    {
      trips := [];
      pageData := INITIAL_PAGE;
      filters := INITIAL_FILTERS;
      sort := INITIAL_SORT;
      allZones := [];
      zonesLoading := false;
      isLoading := false;
      errorMsg := "";
    }

    /**
     * The table and its pagination bar render only when nothing is loading and no error is
     * shown, and the bar itself only for more than one page.
     */
    predicate ShowsPagination()
      reads this
    {
      !isLoading && errorMsg == "" && Pagination(pageData).Some?
    }

    /** Start of `loadAllZones`. */
    method BeginLoadZones()
      modifies this
      ensures zonesLoading && errorMsg == ""
      ensures allZones == old(allZones) && isLoading == old(isLoading)
      ensures trips == old(trips) && pageData == old(pageData) && filters == old(filters) && sort == old(sort)
    {
      zonesLoading := true;
      errorMsg := "";
    }

    /** `loadAllZones` settling with `response.data` (absent or null is `None`). */
    method ZonesLoaded(data: Option<seq<Zone>>)
      modifies this
      ensures allZones == data.GetOr([]) && !zonesLoading
      ensures errorMsg == old(errorMsg) && isLoading == old(isLoading)
      ensures trips == old(trips) && pageData == old(pageData) && filters == old(filters) && sort == old(sort)
    {
      allZones := data.GetOr([]);
      zonesLoading := false;
    }

    /** `loadAllZones` settling with an error. */
    method ZonesFailed()
      modifies this
      ensures allZones == [] && !zonesLoading && errorMsg == ZONES_FAILED
      ensures isLoading == old(isLoading)
      ensures trips == old(trips) && pageData == old(pageData) && filters == old(filters) && sort == old(sort)
      ensures !ShowsPagination()
    {
      errorMsg := ZONES_FAILED;
      allZones := [];
      zonesLoading := false;
    }

    /** `handleFilterChange`: set one filter, back to page 0. */
    method ChangeFilter(name: FilterName, value: string)
      modifies this
      ensures filters == old(filters).With(name, value)
      ensures pageData == old(pageData).(number := 0)
      ensures sort == old(sort) && trips == old(trips) && allZones == old(allZones)
      ensures zonesLoading == old(zonesLoading) && isLoading == old(isLoading) && errorMsg == old(errorMsg)
    {
      filters := filters.With(name, value);
      pageData := pageData.(number := 0);
    }

    /** `handleSortChange`: a new sort token, back to page 0. */
    method ChangeSort(token: string)
      modifies this
      ensures sort == token
      ensures pageData == old(pageData).(number := 0)
      ensures filters == old(filters) && trips == old(trips) && allZones == old(allZones)
      ensures zonesLoading == old(zonesLoading) && isLoading == old(isLoading) && errorMsg == old(errorMsg)
    {
      sort := token;
      pageData := pageData.(number := 0);
    }

    /** `goToPage(pageNumber, newSize)`; the one-argument call passes the current size. */
    method GoToPage(pageNumber: int, newSize: int)
      modifies this
      ensures pageData == Navigate(old(pageData), pageNumber, newSize)
      ensures filters == old(filters) && sort == old(sort) && trips == old(trips) && allZones == old(allZones)
      ensures zonesLoading == old(zonesLoading) && isLoading == old(isLoading) && errorMsg == old(errorMsg)
    {
      pageData := Navigate(pageData, pageNumber, newSize);
    }

    /** Start of `fetchTrips`: loading, no error, and the request for the current query. */
    method BeginFetch() returns (req: Api.Request)
      modifies this
      ensures isLoading && errorMsg == "" && !ShowsPagination()
      ensures req.path == "/list-trips"
      ensures "page" in req.params && req.params["page"] == Num(pageData.number)
      ensures "size" in req.params && req.params["size"] == if pageData.size == 0 then Api.DEFAULT_SIZE else Num(pageData.size)
      ensures "sort" in req.params && req.params["sort"] == if sort == "" then Api.DEFAULT_SORT else Str(sort)
      ensures forall name :: FilterSent(req.params, name, filters.Get(name))
      ensures req.params.Keys <= Api.LIST_TRIPS_KEYS
      ensures trips == old(trips) && pageData == old(pageData) && filters == old(filters) && sort == old(sort)
      ensures allZones == old(allZones) && zonesLoading == old(zonesLoading)
    {
      isLoading := true;
      errorMsg := "";
      req := BuildTripsRequest(filters, pageData, sort);
    }

    /** `fetchTrips` settling with `response.data`: the list and the page replaced wholesale. */
    method FetchSucceeded(response: TripPage)
      modifies this
      ensures trips == response.content.GetOr([]) && pageData == response && !isLoading
      ensures ShowsPagination() <==> errorMsg == "" && response.totalPages > 1
      ensures errorMsg == old(errorMsg) && filters == old(filters) && sort == old(sort)
      ensures allZones == old(allZones) && zonesLoading == old(zonesLoading)
    {
      trips := response.content.GetOr([]);
      pageData := response;
      isLoading := false;
    }

    /** `fetchTrips` settling with an error: an empty result that keeps only the page size. */
    method FetchFailed()
      modifies this
      ensures trips == [] && errorMsg == TRIPS_FAILED && !isLoading && !ShowsPagination()
      ensures pageData == old(pageData).(content := Some([]), number := 0, totalElements := 0,
                                         totalPages := 0, first := true, last := true)
      ensures filters == old(filters) && sort == old(sort)
      ensures allZones == old(allZones) && zonesLoading == old(zonesLoading)
    {
      errorMsg := TRIPS_FAILED;
      trips := [];
      pageData := pageData.(content := Some([]), number := 0, totalElements := 0,
                            totalPages := 0, first := true, last := true);
      isLoading := false;
    }
  }

  /**
   * From mount: the first request asks for page 0 of size 10 in the default order, and a
   * response of a single page shows no pagination bar.
   */
  method MountScenario(response: TripPage) returns (req: Api.Request, controls: Option<Controls>)
    requires response.totalPages == 1
    ensures req.params == map["page" := Num(0), "size" := Num(10), "sort" := Str("pickupDateTime,asc")]
    ensures controls == None
  {
    var view := new ListTripsView();
    req := view.BeginFetch();
    assert FilterSent(req.params, PickupLocationId, view.filters.Get(PickupLocationId));
    assert FilterSent(req.params, DropoffLocationId, view.filters.Get(DropoffLocationId));
    assert FilterSent(req.params, PickupDate, view.filters.Get(PickupDate));
    assert FilterSent(req.params, DropoffDate, view.filters.Get(DropoffDate));
    assert req.params.Keys == {"page", "size", "sort"};
    view.FetchSucceeded(response);
    controls := Pagination(view.pageData);
  }

  /**
   * From mount: a pickup date is entered and the fetch answers with the first of three
   * pages, so the pagination bar shows; choosing 20 in its size menu then asks for page 0
   * of size 20 with that date and the default sort.
   */
  method FilterThenResizeScenario() returns (req: Api.Request)
    ensures req.params == map["page" := Num(0), "size" := Num(20),
                              "sort" := Str("pickupDateTime,asc"), "pickupDate" := Str("2024-01-01")]
  {
    var view := new ListTripsView();
    view.ChangeFilter(PickupDate, "2024-01-01");
    var first := view.BeginFetch();
    view.FetchSucceeded(TripPage(Some([]), 0, 10, 3, 25, true, false));
    assert view.ShowsPagination();
    var controls := Pagination(view.pageData);
    assert 20 in controls.value.sizeOptions;
    view.GoToPage(0, 20);
    assert view.filters == Filters("", "", "2024-01-01", "");
    req := view.BeginFetch();
    assert FilterSent(req.params, PickupLocationId, view.filters.Get(PickupLocationId));
    assert FilterSent(req.params, DropoffLocationId, view.filters.Get(DropoffLocationId));
    assert FilterSent(req.params, PickupDate, view.filters.Get(PickupDate));
    assert FilterSent(req.params, DropoffDate, view.filters.Get(DropoffDate));
    assert req.params.Keys == {"page", "size", "sort", "pickupDate"};
  }
}

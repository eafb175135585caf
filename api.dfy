/**
 * The HTTP helper of the front end: what each exported call would request.
 * A request is described by its path and query parameters; sending it is left to the caller.
 */
module Api {
  import opened Wrappers
  import opened Js

  datatype Request = Get(path: string, params: Params)

  const DEFAULT_PAGE: Value := Num(0)
  const DEFAULT_SIZE: Value := Num(10)
  const DEFAULT_SORT: Value := Str("pickupDateTime,asc")

  const ZONE_TRIPS_REQUIRED: string := "zoneId and date are required"

  /** The only keys `listTrips` ever sends. */
  const LIST_TRIPS_KEYS: set<string> :=
    {"page", "size", "sort", "pickupLocationId", "dropoffLocationId", "pickupDate", "dropoffDate"}

  /** A destructuring default: the value under `key`, or `default` when the key is absent. */
  function OrDefault(params: Params, key: string, default: Value): (v: Value)
    ensures key in params ==> v == params[key]
    ensures key !in params ==> v == default
  {
    if key in params then params[key] else default
  }

  /** `if (params[key]) query[key] = params[key]`. */
  function CopyIfTruthy(query: Params, params: Params, key: string): Params {
    if key in params && Truthy(params[key]) then query[key := params[key]] else query
  }

  /** An optional key is forwarded iff the caller gave it a truthy value, and then unchanged. */
  ghost predicate Forwarded(params: Params, query: Params, key: string) {
    && (key in query <==> key in params && Truthy(params[key]))
    && (key in query ==> query[key] == params[key])
  }

  /** The query parameters `listTrips(params)` sends to `/list-trips`. */
  function ListTripsQuery(params: Params): (query: Params)
    ensures "page" in query && query["page"] == OrDefault(params, "page", DEFAULT_PAGE)
    ensures "size" in query && query["size"] == OrDefault(params, "size", DEFAULT_SIZE)
    ensures "sort" in query && query["sort"] == OrDefault(params, "sort", DEFAULT_SORT)
    ensures Forwarded(params, query, "pickupLocationId")
    ensures Forwarded(params, query, "dropoffLocationId")
    ensures Forwarded(params, query, "pickupDate")
    ensures Forwarded(params, query, "dropoffDate")
    ensures query.Keys <= LIST_TRIPS_KEYS
  {
    var base := map[
      "page" := OrDefault(params, "page", DEFAULT_PAGE),
      "size" := OrDefault(params, "size", DEFAULT_SIZE),
      "sort" := OrDefault(params, "sort", DEFAULT_SORT)];
    var q1 := CopyIfTruthy(base, params, "pickupLocationId");
    var q2 := CopyIfTruthy(q1, params, "dropoffLocationId");
    var q3 := CopyIfTruthy(q2, params, "pickupDate");
    CopyIfTruthy(q3, params, "dropoffDate")
  }

  /** `listTrips(params)`: a GET of `/list-trips` carrying exactly the query `ListTripsQuery` builds. */
  function ListTrips(params: Params): (r: Request)
    ensures r.path == "/list-trips"
    ensures r.params == ListTripsQuery(params)
  {
    Get("/list-trips", ListTripsQuery(params))
  }

  /**
   * `getZoneTrips(zoneId, date)`: a local rejection, with no request at all, when either
   * argument is falsy; otherwise a request for `/zone-trips` carrying both.
   */
  function GetZoneTrips(zoneId: string, date: string): (r: Result<Request, string>)
    ensures r.Failure? <==> zoneId == "" || date == ""
    ensures r.Failure? ==> r.error == ZONE_TRIPS_REQUIRED
    ensures r.Success? ==>
              && r.value.path == "/zone-trips"
              && r.value.params.Keys == {"zoneId", "date"}
              && r.value.params["zoneId"] == Str(zoneId)
              && r.value.params["date"] == Str(date)
  {
    if !Truthy(Str(zoneId)) || !Truthy(Str(date)) then
      Failure(ZONE_TRIPS_REQUIRED)
    else
      Success(Get("/zone-trips", map["zoneId" := Str(zoneId), "date" := Str(date)]))
  }
}

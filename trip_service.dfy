/**
 * The read side of the backend over an abstract table of trips (and of zones): the
 * filtered trip list, the per-zone day summary and the top-five zones.
 */
module TripService {
  import opened Wrappers
  import opened Time
  import opened Entities

  datatype LocationField = PickupLocation | DropoffLocation
  datatype TimeField = PickupTime | DropoffTime

  function LocationOf(t: Trip, field: LocationField): int {
    match field
    case PickupLocation => t.pickupLocationID
    case DropoffLocation => t.dropoffLocationID
  }

  function TimeOf(t: Trip, field: TimeField): DateTime {
    match field
    case PickupTime => t.pickupDateTime
    case DropoffTime => t.dropoffDateTime
  }

  // ---------------------------------------------------------------- findTrips

  /** A criteria predicate: `equal(root.get(field), value)` or `between(root.get(field), start, end)`. */
  datatype Predicate =
    | Equal(location: LocationField, value: int)
    | InRange(time: TimeField, start: DateTime, end: DateTime)

  predicate Holds(p: Predicate, t: Trip) {
    match p
    case Equal(field, value) => LocationOf(t, field) == value
    case InRange(field, start, end) => Between(TimeOf(t, field), start, end)
  }

  /** `criteriaBuilder.and(predicates)`: the conjunction, true when there are none. */
  predicate HoldsAll(predicates: seq<Predicate>, t: Trip) {
    forall i :: 0 <= i < |predicates| ==> Holds(predicates[i], t)
  }

  /** The optional request parameters of `/list-trips`; `None` is a missing (null) parameter. */
  datatype TripFilter = TripFilter(
    pickupLocationId: Option<int>,
    dropoffLocationId: Option<int>,
    pickupDate: Option<Date>,
    dropoffDate: Option<Date>)

  const NO_FILTER: TripFilter := TripFilter(None, None, None, None)

  /** An absent zone parameter allows any zone; a given one must equal the trip's. */
  predicate ZoneMatches(given: Option<int>, location: int) {
    given.Some? ==> location == given.value
  }

  /** An absent date parameter allows any time; a given one must be the time's calendar date. */
  predicate DateMatches(given: Option<Date>, time: DateTime) {
    given.Some? ==> time.date == given.value
  }

  /** What the filter means: every given parameter holds. */
  predicate Matches(f: TripFilter, t: Trip) {
    && ZoneMatches(f.pickupLocationId, t.pickupLocationID)
    && ZoneMatches(f.dropoffLocationId, t.dropoffLocationID)
    && DateMatches(f.pickupDate, t.pickupDateTime)
    && DateMatches(f.dropoffDate, t.dropoffDateTime)
  }

  lemma HoldsAllSnoc(predicates: seq<Predicate>, p: Predicate)
    ensures forall t :: HoldsAll(predicates + [p], t) <==> HoldsAll(predicates, t) && Holds(p, t)
  {
    forall t ensures HoldsAll(predicates + [p], t) <==> HoldsAll(predicates, t) && Holds(p, t) {
      if HoldsAll(predicates + [p], t) {
        forall i | 0 <= i < |predicates| ensures Holds(predicates[i], t) {
          assert (predicates + [p])[i] == predicates[i];
        }
        assert (predicates + [p])[|predicates|] == p;
      }
    }
  }

  function GivenCount(f: TripFilter): nat {
    (if f.pickupLocationId.Some? then 1 else 0) + (if f.dropoffLocationId.Some? then 1 else 0)
    + (if f.pickupDate.Some? then 1 else 0) + (if f.dropoffDate.Some? then 1 else 0)
  }

  /**
   * The `Specification` lambda of `findTrips`: one predicate per non-null parameter, whose
   * conjunction selects exactly the trips the filter means.
   */
  method TripSpecification(f: TripFilter) returns (predicates: seq<Predicate>)
    ensures |predicates| == GivenCount(f)
    ensures forall t :: HoldsAll(predicates, t) <==> Matches(f, t)
  {
    predicates := [];
    if f.pickupLocationId.Some? {
      HoldsAllSnoc(predicates, Equal(PickupLocation, f.pickupLocationId.value));
      predicates := predicates + [Equal(PickupLocation, f.pickupLocationId.value)];
    }
    assert forall t :: HoldsAll(predicates, t) <==> ZoneMatches(f.pickupLocationId, t.pickupLocationID);
    if f.dropoffLocationId.Some? {
      HoldsAllSnoc(predicates, Equal(DropoffLocation, f.dropoffLocationId.value));
      predicates := predicates + [Equal(DropoffLocation, f.dropoffLocationId.value)];
    }
    assert forall t :: HoldsAll(predicates, t) <==>
      ZoneMatches(f.pickupLocationId, t.pickupLocationID) && ZoneMatches(f.dropoffLocationId, t.dropoffLocationID);
    if f.pickupDate.Some? {
      var day := f.pickupDate.value;
      var window := InRange(PickupTime, AtStartOfDay(day), AtEndOfDay(day));
      HoldsAllSnoc(predicates, window);
      forall t: Trip ensures Holds(window, t) <==> DateMatches(f.pickupDate, t.pickupDateTime) {
        DayWindowIsDate(t.pickupDateTime, day);
      }
      predicates := predicates + [window];
    }
    assert forall t :: HoldsAll(predicates, t) <==>
      ZoneMatches(f.pickupLocationId, t.pickupLocationID) && ZoneMatches(f.dropoffLocationId, t.dropoffLocationID)
      && DateMatches(f.pickupDate, t.pickupDateTime);
    if f.dropoffDate.Some? {
      var day := f.dropoffDate.value;
      var window := InRange(DropoffTime, AtStartOfDay(day), AtEndOfDay(day));
      HoldsAllSnoc(predicates, window);
      forall t: Trip ensures Holds(window, t) <==> DateMatches(f.dropoffDate, t.dropoffDateTime) {
        DayWindowIsDate(t.dropoffDateTime, day);
      }
      predicates := predicates + [window];
    }
  }

  /** The trips the filter selects, in table order. */
  function Where(trips: seq<Trip>, f: TripFilter): (r: seq<Trip>)
    ensures forall t :: t in r <==> t in trips && Matches(f, t)
    ensures |r| <= |trips|
  {
    if trips == [] then []
    else (if Matches(f, trips[0]) then [trips[0]] else []) + Where(trips[1..], f)
  }

  /** The trips the database returns for a criteria conjunction, in table order. */
  function Select(trips: seq<Trip>, predicates: seq<Predicate>): (r: seq<Trip>)
    ensures forall t :: t in r <==> t in trips && HoldsAll(predicates, t)
    ensures |r| <= |trips|
  {
    if trips == [] then []
    else (if HoldsAll(predicates, trips[0]) then [trips[0]] else []) + Select(trips[1..], predicates)
  }

  lemma {:induction false} SelectIsWhere(trips: seq<Trip>, predicates: seq<Predicate>, f: TripFilter)
    requires forall t :: HoldsAll(predicates, t) <==> Matches(f, t)
    ensures Select(trips, predicates) == Where(trips, f)
    decreases |trips|
  {
    if trips != [] {
      SelectIsWhere(trips[1..], predicates, f);
    }
  }

  /** `findTrips` before paging: the selected trips are those matching every given parameter. */
  method FindTrips(trips: seq<Trip>, f: TripFilter) returns (selected: seq<Trip>)
    ensures selected == Where(trips, f)
  {
    var predicates := TripSpecification(f);
    selected := Select(trips, predicates);
    SelectIsWhere(trips, predicates, f);
  }

  /** With no parameter at all, every trip is listed. */
  lemma {:induction false} NoFilterSelectsAll(trips: seq<Trip>)
    ensures Where(trips, NO_FILTER) == trips
    decreases |trips|
  {
    if trips != [] {
      NoFilterSelectsAll(trips[1..]);
      assert trips == [trips[0]] + trips[1..];
    }
  }

  // ---------------------------------------------------------------- getTripSummary

  /** `countTrips`: `COUNT(t) WHERE t.location = zoneId AND t.time BETWEEN start AND end`. */
  function CountTrips(trips: seq<Trip>, zoneId: int, start: DateTime, end: DateTime,
                      location: LocationField, time: TimeField): (n: nat)
    ensures n <= |trips|
  {
    if trips == [] then 0
    else (if LocationOf(trips[0], location) == zoneId && Between(TimeOf(trips[0], time), start, end) then 1 else 0)
         + CountTrips(trips[1..], zoneId, start, end, location, time)
  }

  /** `getTripSummary(zoneId, date)`: pickups and dropoffs of the zone within that whole day. */
  function GetTripSummary(trips: seq<Trip>, zoneId: int, date: Date): (s: TripSummary)
    ensures s.zoneId == zoneId && s.date == IsoDate(date)
    ensures 0 <= s.pickupCount <= |trips| && 0 <= s.dropoffCount <= |trips|
  {
    var start := AtStartOfDay(date);
    var end := AtEndOfDay(date);
    TripSummary(zoneId, IsoDate(date),
                CountTrips(trips, zoneId, start, end, PickupLocation, PickupTime),
                CountTrips(trips, zoneId, start, end, DropoffLocation, DropoffTime))
  }

  lemma {:induction false} DayCountIsFilterSize(trips: seq<Trip>, zoneId: int, date: Date)
    ensures CountTrips(trips, zoneId, AtStartOfDay(date), AtEndOfDay(date), PickupLocation, PickupTime)
            == |Where(trips, TripFilter(Some(zoneId), None, Some(date), None))|
    ensures CountTrips(trips, zoneId, AtStartOfDay(date), AtEndOfDay(date), DropoffLocation, DropoffTime)
            == |Where(trips, TripFilter(None, Some(zoneId), None, Some(date)))|
    decreases |trips|
  {
    if trips != [] {
      DayWindowIsDate(trips[0].pickupDateTime, date);
      DayWindowIsDate(trips[0].dropoffDateTime, date);
      DayCountIsFilterSize(trips[1..], zoneId, date);
    }
  }

  /**
   * The summary agrees with the trip list: its pickup (dropoff) count is the number of trips
   * the list returns when filtered by that pickup (dropoff) zone and date.
   */
  lemma SummaryAgreesWithList(trips: seq<Trip>, zoneId: int, date: Date)
    ensures GetTripSummary(trips, zoneId, date).pickupCount
            == |Where(trips, TripFilter(Some(zoneId), None, Some(date), None))|
    ensures GetTripSummary(trips, zoneId, date).dropoffCount
            == |Where(trips, TripFilter(None, Some(zoneId), None, Some(date)))|
  {
    DayCountIsFilterSize(trips, zoneId, date);
  }

  // ---------------------------------------------------------------- getTopZones

  const TOP_ZONES_LIMIT: nat := 5

  /** ASCII case folding; the only comparison made is against the ASCII word "dropoff". */
  function FoldCase(c: char): char {
    if 'A' <= c <= 'Z' then (c as int + 32) as char else c
  }

  /** `String.equalsIgnoreCase`. */
  function EqualsIgnoreCase(a: string, b: string): (r: bool)
    ensures r <==> |a| == |b| && forall i :: 0 <= i < |a| ==> FoldCase(a[i]) == FoldCase(b[i])
  {
    if a == [] || b == [] then a == b
    else FoldCase(a[0]) == FoldCase(b[0]) && EqualsIgnoreCase(a[1..], b[1..])
  }

  /** The trip field grouped on: dropoff iff `orderBy` is "dropoff" in any case, otherwise pickup. */
  function LocationFieldFor(orderBy: string): (field: LocationField)
    ensures field == DropoffLocation <==> EqualsIgnoreCase(orderBy, "dropoff")
  {
    if EqualsIgnoreCase(orderBy, "dropoff") then DropoffLocation else PickupLocation
  }

  lemma LocationFieldExamples()
    ensures LocationFieldFor("dropoff") == DropoffLocation
    ensures LocationFieldFor("DropOff") == DropoffLocation
    ensures LocationFieldFor("pickup") == PickupLocation
    ensures LocationFieldFor("") == PickupLocation
    ensures LocationFieldFor("drop") == PickupLocation
  {
    assert FoldCase('D') == 'd' && FoldCase('O') == 'o';
  }

  /** Join rows of one trip: zones with the trip's location id and the given name. */
  function JoinedZones(t: Trip, zones: seq<Zone>, field: LocationField, name: string): (n: nat)
    ensures n > 0 <==> exists z :: z in zones && z.locationID == LocationOf(t, field) && z.zoneName == name
    ensures n <= |zones|
  {
    if zones == [] then 0
    else (if zones[0].locationID == LocationOf(t, field) && zones[0].zoneName == name then 1 else 0)
         + JoinedZones(t, zones[1..], field, name)
  }

  /** `COUNT(t)` of the group `name` in `Trip t JOIN Zone z ON t.field = z.locationID GROUP BY z.zoneName`. */
  function JoinCount(trips: seq<Trip>, zones: seq<Zone>, field: LocationField, name: string): (n: nat)
    ensures n > 0 <==> exists t, z :: t in trips && z in zones && z.locationID == LocationOf(t, field) && z.zoneName == name
  {
    if trips == [] then 0
    else
      assert trips == [trips[0]] + trips[1..];
      JoinedZones(trips[0], zones, field, name) + JoinCount(trips[1..], zones, field, name)
  }

  predicate DistinctNames(s: seq<TopZone>) {
    forall i, j :: 0 <= i < j < |s| ==> s[i].zoneName != s[j].zoneName
  }

  predicate NonIncreasing(s: seq<TopZone>) {
    forall i, j :: 0 <= i < j < |s| ==> s[i].count >= s[j].count
  }

  /** The distinct names of a sequence, each once. */
  function Distinct(names: seq<string>): (r: seq<string>)
    ensures forall n :: n in r <==> n in names
    ensures forall i, j :: 0 <= i < j < |r| ==> r[i] != r[j]
  {
    if names == [] then []
    else if names[0] in names[1..] then Distinct(names[1..])
    else [names[0]] + Distinct(names[1..])
  }

  function ZoneNames(zones: seq<Zone>): (r: seq<string>)
    ensures forall z :: z in zones ==> z.zoneName in r
  {
    if zones == [] then [] else [zones[0].zoneName] + ZoneNames(zones[1..])
  }

  /** The groups of the join: one per distinct zone name that some trip joins. */
  function Groups(trips: seq<Trip>, zones: seq<Zone>, field: LocationField, names: seq<string>): (g: seq<TopZone>)
    requires forall i, j :: 0 <= i < j < |names| ==> names[i] != names[j]
    ensures DistinctNames(g)
    ensures forall x :: x in g <==>
              x.zoneName in names && x.count == JoinCount(trips, zones, field, x.zoneName) && x.count > 0
  {
    if names == [] then []
    else
      var rest := Groups(trips, zones, field, names[1..]);
      var count := JoinCount(trips, zones, field, names[0]);
      if count > 0 then
        assert forall x :: x in rest ==> x.zoneName != names[0];
        [TopZone(names[0], count)] + rest
      else rest
  }

  /** Place one group into a list ordered by descending count. */
  function Insert(x: TopZone, s: seq<TopZone>): (r: seq<TopZone>)
    requires NonIncreasing(s)
    ensures multiset(r) == multiset(s) + multiset{x}
    ensures forall y :: y in r <==> y == x || y in s
    ensures NonIncreasing(r)
    ensures DistinctNames(s) && (forall y :: y in s ==> y.zoneName != x.zoneName) ==> DistinctNames(r)
  {
    if s == [] || x.count >= s[0].count then
      InsertFront(x, s);
      [x] + s
    else
      var rest := Insert(x, s[1..]);
      assert s == [s[0]] + s[1..];
      InsertHead(x, s, rest);
      [s[0]] + rest
  }

  lemma InsertFront(x: TopZone, s: seq<TopZone>)
    requires NonIncreasing(s) && (s == [] || x.count >= s[0].count)
    ensures NonIncreasing([x] + s)
    ensures DistinctNames(s) && (forall y :: y in s ==> y.zoneName != x.zoneName) ==> DistinctNames([x] + s)
  {
    var r := [x] + s;
    forall i, j | 0 <= i < j < |r| ensures r[i].count >= r[j].count {
      assert r[j] == s[j - 1];
      if i > 0 {
        assert r[i] == s[i - 1];
      } else if j > 1 {
        assert s[0].count >= s[j - 1].count;
      }
    }
    if DistinctNames(s) && (forall y :: y in s ==> y.zoneName != x.zoneName) {
      forall i, j | 0 <= i < j < |r| ensures r[i].zoneName != r[j].zoneName {
        assert r[j] == s[j - 1] && s[j - 1] in s;
        if i > 0 {
          assert r[i] == s[i - 1];
        }
      }
    }
  }

  /** The head of a descending list stays in front of what is inserted behind it. */
  lemma InsertHead(x: TopZone, s: seq<TopZone>, rest: seq<TopZone>)
    requires s != [] && NonIncreasing(s) && x.count < s[0].count
    requires NonIncreasing(rest)
    requires forall y :: y in rest <==> y == x || y in s[1..]
    requires DistinctNames(s) && (forall y :: y in s ==> y.zoneName != x.zoneName) ==> DistinctNames(rest)
    ensures NonIncreasing([s[0]] + rest)
    ensures DistinctNames(s) && (forall y :: y in s ==> y.zoneName != x.zoneName) ==> DistinctNames([s[0]] + rest)
  {
    var r := [s[0]] + rest;
    forall j | 0 < j < |r| ensures r[0].count >= r[j].count {
      assert r[j] == rest[j - 1];
      assert rest[j - 1] in rest;
      if r[j] != x {
        var k :| 0 <= k < |s[1..]| && s[1..][k] == r[j];
        assert s[k + 1] == r[j];
      }
    }
    forall i, j | 0 <= i < j < |r| ensures r[i].count >= r[j].count {
      if i > 0 {
        assert r[i] == rest[i - 1] && r[j] == rest[j - 1];
      }
    }
    if DistinctNames(s) && (forall y :: y in s ==> y.zoneName != x.zoneName) {
      forall j | 0 < j < |r| ensures r[0].zoneName != r[j].zoneName {
        assert r[j] == rest[j - 1];
        assert rest[j - 1] in rest;
        if r[j] != x {
          var k :| 0 <= k < |s[1..]| && s[1..][k] == r[j];
          assert s[k + 1] == r[j];
        } else {
          assert s[0] in s;
        }
      }
      forall i, j | 0 <= i < j < |r| ensures r[i].zoneName != r[j].zoneName {
        if i > 0 {
          assert r[i] == rest[i - 1] && r[j] == rest[j - 1];
        }
      }
    }
  }

  /** `ORDER BY COUNT(t) DESC`, on a list of groups: a reordering by descending count. */
  function SortByCount(s: seq<TopZone>): (r: seq<TopZone>)
    ensures multiset(r) == multiset(s)
    ensures forall y :: y in r <==> y in s
    ensures NonIncreasing(r)
    ensures DistinctNames(s) ==> DistinctNames(r)
  {
    if s == [] then []
    else
      var rest := SortByCount(s[1..]);
      assert s == [s[0]] + s[1..];
      assert DistinctNames(s) ==> DistinctNames(s[1..]) && forall y :: y in rest ==> y.zoneName != s[0].zoneName by {
        if DistinctNames(s) {
          forall i, j | 0 <= i < j < |s[1..]| ensures s[1..][i].zoneName != s[1..][j].zoneName {
            assert s[1..][i] == s[i + 1] && s[1..][j] == s[j + 1];
          }
          forall y | y in rest ensures y.zoneName != s[0].zoneName {
            var k :| 0 <= k < |s[1..]| && s[1..][k] == y;
            assert s[k + 1] == y;
          }
        }
      }
      Insert(s[0], rest)
  }

  /** The groups of the top-zones query, before the five-row limit. */
  function RankedGroups(trips: seq<Trip>, zones: seq<Zone>, field: LocationField): (r: seq<TopZone>)
    ensures NonIncreasing(r) && DistinctNames(r)
    ensures forall x :: x in r <==> IsGroup(x, trips, zones, field)
  {
    SortByCount(Groups(trips, zones, field, Distinct(ZoneNames(zones))))
  }

  /** A row of the grouped join: a zone name some trip joins, with its join count. */
  ghost predicate IsGroup(x: TopZone, trips: seq<Trip>, zones: seq<Zone>, field: LocationField) {
    && (exists z :: z in zones && z.zoneName == x.zoneName)
    && x.count == JoinCount(trips, zones, field, x.zoneName)
    && x.count > 0
  }

  /** `setMaxResults(5)`. */
  function Limit(ranked: seq<TopZone>): (r: seq<TopZone>)
    ensures |r| <= TOP_ZONES_LIMIT
    ensures |r| <= |ranked| && r == ranked[..|r|]
    ensures |r| == TOP_ZONES_LIMIT || r == ranked
  {
    if |ranked| <= TOP_ZONES_LIMIT then ranked else ranked[..TOP_ZONES_LIMIT]
  }

  /** `getTopZones(orderBy)`: the first five groups by descending count. */
  function GetTopZones(trips: seq<Trip>, zones: seq<Zone>, orderBy: string): (r: seq<TopZone>)
    ensures |r| <= TOP_ZONES_LIMIT
  {
    Limit(RankedGroups(trips, zones, LocationFieldFor(orderBy)))
  }

  /** Each listed entry is a group of the join, with that group's count. */
  ghost predicate CarriesJoinCounts(r: seq<TopZone>, trips: seq<Trip>, zones: seq<Zone>, field: LocationField) {
    forall i :: 0 <= i < |r| ==> 0 < r[i].count == JoinCount(trips, zones, field, r[i].zoneName)
  }

  ghost predicate Listed(r: seq<TopZone>, name: string) {
    exists i :: 0 <= i < |r| && r[i].zoneName == name
  }

  /** A joined zone name left out of the list means a full list whose every entry counts at least as much. */
  ghost predicate OnlyLesserLeftOut(r: seq<TopZone>, trips: seq<Trip>, zones: seq<Zone>, field: LocationField) {
    forall z :: z in zones && JoinCount(trips, zones, field, z.zoneName) > 0 && !Listed(r, z.zoneName) ==>
      && |r| == TOP_ZONES_LIMIT
      && forall i :: 0 <= i < |r| ==> JoinCount(trips, zones, field, z.zoneName) <= r[i].count
  }

  /** The limit keeps order and distinctness, and what it drops counts no more than what it keeps. */
  lemma LimitKeepsTop(ranked: seq<TopZone>, g: TopZone)
    requires NonIncreasing(ranked) && g in ranked
    requires !Listed(Limit(ranked), g.zoneName)
    ensures |Limit(ranked)| == TOP_ZONES_LIMIT
    ensures forall i :: 0 <= i < |Limit(ranked)| ==> g.count <= Limit(ranked)[i].count
  {
    var r := Limit(ranked);
    var k :| 0 <= k < |ranked| && ranked[k] == g;
    assert k >= |r|;
    forall i | 0 <= i < |r| ensures g.count <= r[i].count {
      assert r[i] == ranked[i];
    }
  }

  lemma LimitKeepsOrder(ranked: seq<TopZone>)
    requires NonIncreasing(ranked) && DistinctNames(ranked)
    ensures NonIncreasing(Limit(ranked)) && DistinctNames(Limit(ranked))
    ensures forall i :: 0 <= i < |Limit(ranked)| ==> Limit(ranked)[i] in ranked
  {
    var r := Limit(ranked);
    forall i | 0 <= i < |r| ensures r[i] in ranked {
      assert r[i] == ranked[i];
    }
  }

  /**
   * Whatever order the database gives to groups of equal count: any ranking of exactly the
   * groups, by non-increasing count and with one row per name, limited to five rows, is
   * ordered, names each zone at most once, carries each name's join count, and leaves out
   * only names with no more trips than every listed one.
   */
  lemma AnyRankingKeepsTop(ranked: seq<TopZone>, trips: seq<Trip>, zones: seq<Zone>, field: LocationField)
    requires NonIncreasing(ranked) && DistinctNames(ranked)
    requires forall x :: x in ranked <==> IsGroup(x, trips, zones, field)
    ensures NonIncreasing(Limit(ranked)) && DistinctNames(Limit(ranked))
    ensures CarriesJoinCounts(Limit(ranked), trips, zones, field)
    ensures OnlyLesserLeftOut(Limit(ranked), trips, zones, field)
  {
    var r := Limit(ranked);
    LimitKeepsOrder(ranked);
    forall i | 0 <= i < |r| ensures 0 < r[i].count == JoinCount(trips, zones, field, r[i].zoneName) {
      assert IsGroup(r[i], trips, zones, field);
    }
    forall z | z in zones && JoinCount(trips, zones, field, z.zoneName) > 0 && !Listed(r, z.zoneName)
      ensures |r| == TOP_ZONES_LIMIT
      ensures forall i :: 0 <= i < |r| ==> JoinCount(trips, zones, field, z.zoneName) <= r[i].count
    {
      var g := TopZone(z.zoneName, JoinCount(trips, zones, field, z.zoneName));
      assert IsGroup(g, trips, zones, field);
      LimitKeepsTop(ranked, g);
    }
  }

  /**
   * The top zones are ordered by non-increasing count, name each zone at most once, and
   * carry each name's join count; a zone name some trip joins that is not listed means
   * the list is full and that name has no more trips than any listed one.
   */
  lemma TopZonesAreTop(trips: seq<Trip>, zones: seq<Zone>, orderBy: string)
    ensures NonIncreasing(GetTopZones(trips, zones, orderBy))
    ensures DistinctNames(GetTopZones(trips, zones, orderBy))
    ensures CarriesJoinCounts(GetTopZones(trips, zones, orderBy), trips, zones, LocationFieldFor(orderBy))
    ensures OnlyLesserLeftOut(GetTopZones(trips, zones, orderBy), trips, zones, LocationFieldFor(orderBy))
  {
    var field := LocationFieldFor(orderBy);
    AnyRankingKeepsTop(RankedGroups(trips, zones, field), trips, zones, field);
  }
}

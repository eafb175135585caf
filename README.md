# Taxi trip dashboard: a verified model

This project models the logic of a small taxi-trip dashboard. The dashboard has a React
front end and a Spring Boot back end. Four parts are modelled:

- **Trip list view** (`ListTrips`). The view holds filters, a sort token and a page
  cursor. Three handlers change them: filter change, sort change and `goToPage`. A fetch
  derives a `/list-trips` request from that state. It settles by replacing the page
  wholesale on success, or by resetting it to a safe empty page, keeping the size, on failure.
- **HTTP helper** (`Api`). `listTrips` fills in defaults for page, size and sort and
  forwards only the truthy filters. `getZoneTrips` rejects locally when its zone or date is
  missing.
- **Zone summary view** (`ZoneTrips`). This view loads the zone list, validates its form,
  asks for a summary and settles.
- **Back end.** `DataLoader` is the startup CSV loader. It runs only on an empty store, skips
  rows that fail to map, and saves through `saveAll` in batches of 500. `TripService` holds the
  trip filter behind `/list-trips`, the per-zone day summary and the top-five zones.

Stateful components are Dafny classes. `ListTripsView` and `ZoneTripsView` have one
method per handler and per settle; `Repository` records every `saveAll` batch. Query
logic and specifications are functions and lemmas. Responses, CSV files, `Integer.parseInt` and
`LocalDateTime.parse` are parameters. Date-times are a date plus a nanosecond of the day, so
`atStartOfDay()` … `atTime(LocalTime.MAX)` is an exact window.

Main results:

- The page sent is always the view's page number, for every integer. `fetchTrips` strips
  page 0 as falsy, and `listTrips` restores it as its default (`ListTrips.BuildTripsRequest`).
- The loader saves exactly `Chunks(parsed rows, 500)`. Those batches concatenate back to the
  rows that parsed, in order. Each batch holds 1..500 records, and every batch but the last
  holds exactly 500. Running startup a second time changes nothing.
- The date filters of `findTrips` select exactly the trips on that calendar day. The
  per-zone summary counts equal the sizes of the matching filtered trip lists.
- The top-zones result has at most five entries, ordered by count, one per zone name. Any
  joined zone it leaves out has no more trips than any listed one.

Notes on behaviour:

- On a failed fetch the page keeps its `size` and every other key. Only `content`, `number`,
  `totalElements`, `totalPages`, `first` and `last` are reset.
- Page 0 reaches the request through the strip-then-default path described above. A page
  size of 0 would be stripped the same way and replaced by the default 10.
- `Zone` carries all four CSV columns, `serviceZone` included.
- Any size the backend returns is accepted; the size menu offers 10, 20 and 50.

## Model

| member | source | states |
|---|---|---|
| `Api.ListTripsQuery` | taxi-service-frontend/src/services/api.js:30-48 | page, size and sort are always present, taking the caller's value or the defaults 0, 10 and "pickupDateTime,asc"; each of the four filters is present iff the caller's value is truthy, and then unchanged; no other key ever appears |
| `Api.GetZoneTrips` | taxi-service-frontend/src/services/api.js:18-27 | rejects with "zoneId and date are required", issuing no request, iff the zone or the date is empty; otherwise requests `/zone-trips` with exactly those two parameters |
| `Api.ListTrips` | taxi-service-frontend/src/services/api.js:52-54 | the request is a GET of `/list-trips` whose parameters are exactly the query `ListTripsQuery` builds |
| `ListTrips.Filters.With` | taxi-service-frontend/src/components/ListTrips.jsx:126 | the named filter gets the new value and the other three keep theirs |
| `ListTrips.RemoveFalsy` | taxi-service-frontend/src/components/ListTrips.jsx:93-96 | the loop keeps exactly the keys whose values are truthy, each with its value unchanged |
| `ListTrips.BuildTripsRequest` | taxi-service-frontend/src/components/ListTrips.jsx:86-98 | stripping followed by `listTrips`: the request's page equals the current page number; size and sort are sent as held (or defaulted if falsy); each filter is sent iff non-empty, verbatim; only the seven known keys occur |
| `ListTrips.Navigate` | taxi-service-frontend/src/components/ListTrips.jsx:135-148 | only number and size may change; a size change (with a page count ≥ 0) lands on page 0 with the new size whatever page was asked; a negative page or one at or past a known page count leaves the page unchanged; with the size unchanged, a page ≥ 0 is taken exactly when the page count is 0 or the page is below it; a taken page is never negative or out of range |
| `ListTrips.Pagination` | taxi-service-frontend/src/components/ListTrips.jsx:5-34 | `PaginationControls` renders nothing exactly when there is at most one page; when present, Previous targets the page before and is disabled on the first page, Next targets the page after and is disabled on the last, and the size menu offers 10, 20 and 50 |
| `ListTrips.ControlsAgreeWithGuard` | taxi-service-frontend/src/components/ListTrips.jsx:5-38 | on page metadata the backend keeps consistent, Previous/Next are disabled exactly when `goToPage` would ignore their targets; enabled ones move by one page, and every size option other than the current one goes to page 0 with that size |
| `ListTrips.ListTripsView.constructor` | taxi-service-frontend/src/components/ListTrips.jsx:41-60 | the mount state: page 0, size 10, no pages, first and last, empty filters, sort "pickupDateTime,asc", nothing loading, no error |
| `ListTrips.ListTripsView.BeginLoadZones` | taxi-service-frontend/src/components/ListTrips.jsx:63-65 | zone loading starts and the error is cleared |
| `ListTrips.ListTripsView.ZonesLoaded` | taxi-service-frontend/src/components/ListTrips.jsx:66-75 | the zones become the response data, or none if it is absent; loading ends |
| `ListTrips.ListTripsView.ZonesFailed` | taxi-service-frontend/src/components/ListTrips.jsx:69-75 | no zones, "Failed to load zones", loading ends; with the error shown, the table and its pagination bar are hidden (ListTrips.jsx:246) |
| `ListTrips.ListTripsView.ChangeFilter` | taxi-service-frontend/src/components/ListTrips.jsx:124-128 | only the named filter changes, the page number becomes 0, and every other field of the page, the sort and the rest of the state are unchanged |
| `ListTrips.ListTripsView.ChangeSort` | taxi-service-frontend/src/components/ListTrips.jsx:130-133 | the sort token is replaced and the page number becomes 0; size, other page metadata and filters are unchanged |
| `ListTrips.ListTripsView.GoToPage` | taxi-service-frontend/src/components/ListTrips.jsx:135-148 | the page becomes `Navigate` of the old page; everything else is unchanged |
| `ListTrips.ListTripsView.BeginFetch` | taxi-service-frontend/src/components/ListTrips.jsx:82-98 | loading starts with the error cleared, so the table and its pagination bar are hidden; the request issued carries the current page number, the size, the sort and exactly the non-empty filters |
| `ListTrips.ListTripsView.FetchSucceeded` | taxi-service-frontend/src/components/ListTrips.jsx:99-116 | the trips become the response content (or none if absent), the page becomes the response wholesale, loading ends; the pagination bar shows iff no error is displayed and the response has more than one page |
| `ListTrips.ListTripsView.FetchFailed` | taxi-service-frontend/src/components/ListTrips.jsx:101-116 | no trips, "Failed to load trips", page 0 of 0 pages and 0 elements, first and last, previous size kept; loading ends, and no pagination bar shows |
| `ListTrips.MountScenario` | taxi-service-frontend/src/components/ListTrips.jsx:41-121 | the first request after mount is page 0, size 10, default sort and no filter, and a single-page answer shows no pagination bar |
| `ListTrips.FilterThenResizeScenario` | taxi-service-frontend/src/components/ListTrips.jsx:124-146 | after entering a pickup date and receiving the first of three pages, the pagination bar is rendered (nothing loading, no error, more than one page) with 20 in its size menu; choosing it makes the request page 0, size 20, the default sort and that date |
| `ZoneTrips.SubmitCycleScenario` | taxi-service-frontend/src/components/ZoneTrips.jsx:35-103 | with results displayed only for a held summary while nothing loads (:103): after choosing a zone and a date and submitting, a request for exactly that zone and date is sent iff both are non-empty; no results show while it is out; once it settles, results show iff a summary arrived |
| `ZoneTrips.ZoneTripsView.constructor` | taxi-service-frontend/src/components/ZoneTrips.jsx:6-12 | the mount state: no zones, no selection, no summary, nothing loading, no error |
| `ZoneTrips.ZoneTripsView.BeginLoadZones` | taxi-service-frontend/src/components/ZoneTrips.jsx:16-18 | zone loading starts and the error is cleared |
| `ZoneTrips.ZoneTripsView.ZonesLoaded` | taxi-service-frontend/src/components/ZoneTrips.jsx:19-29 | the zones become the response data, or none if it is absent; loading ends |
| `ZoneTrips.ZoneTripsView.ZonesFailed` | taxi-service-frontend/src/components/ZoneTrips.jsx:22-28 | no zones, "Failed to load zones", loading ends |
| `ZoneTrips.ZoneTripsView.SelectZone` | taxi-service-frontend/src/components/ZoneTrips.jsx:66 | only the selected zone changes |
| `ZoneTrips.ZoneTripsView.SelectDate` | taxi-service-frontend/src/components/ZoneTrips.jsx:89 | only the selected date changes |
| `ZoneTrips.ZoneTripsView.Submit` | taxi-service-frontend/src/components/ZoneTrips.jsx:35-46 | nothing is requested iff zone or date is empty, and then only the error changes, to "Please select a zone and a date" (the old summary and loading flag survive); otherwise the request is the one `getZoneTrips` builds for the selection, the error and the summary are cleared, loading starts and no results show |
| `ZoneTrips.ZoneTripsView.SummaryLoaded` | taxi-service-frontend/src/components/ZoneTrips.jsx:45-54 | the summary becomes the response data, loading ends and the results show |
| `ZoneTrips.ZoneTripsView.SummaryFailed` | taxi-service-frontend/src/components/ZoneTrips.jsx:48-54 | no summary, "Failed to load trip summary", loading ends and no results show |
| `DataLoader.Repository.SaveAll` | taxi-service/src/main/java/com/taxi/taxi_service/service/DataLoaderService.java:103 | one `saveAll` call records exactly its batch after the earlier ones |
| `DataLoader.Repository.Count` | taxi-service/src/main/java/com/taxi/taxi_service/service/DataLoaderService.java:56-59 | the count is zero exactly when no record has been saved |
| `DataLoader.ParsedAppend` | taxi-service/src/main/java/com/taxi/taxi_service/service/DataLoaderService.java:91-109 | the records of a concatenation of rows are the records of each part, in order |
| `DataLoader.BadRowSkipped` | taxi-service/src/main/java/com/taxi/taxi_service/service/DataLoaderService.java:106-108 | a row that fails to map contributes nothing, wherever it stands |
| `DataLoader.FlattenChunks` | taxi-service/src/main/java/com/taxi/taxi_service/service/DataLoaderService.java:101-111 | the saved batches, concatenated, are exactly the records, in order |
| `DataLoader.ChunkSizes` | taxi-service/src/main/java/com/taxi/taxi_service/service/DataLoaderService.java:36 | every batch holds between 1 and 500 records, every batch but the last exactly 500, and there are none iff there are no records |
| `DataLoader.ChunksOfFullBatches` | taxi-service/src/main/java/com/taxi/taxi_service/service/DataLoaderService.java:101-111 | full batches flushed at 500 followed by a shorter remainder are exactly the batching of their records |
| `DataLoader.LoadFromFile` | taxi-service/src/main/java/com/taxi/taxi_service/service/DataLoaderService.java:79-111 | the parse-skip-buffer-flush loop appends exactly `FileBatches` of the file to the repository; its invariant keeps the buffer below 500 between rows |
| `DataLoader.FileBatches` | taxi-service/src/main/java/com/taxi/taxi_service/service/DataLoaderService.java:81-111 | an empty file (no header) saves nothing; otherwise the batches concatenate to the records of the data rows in input order, each of 1..500 records, all but the last of exactly 500 |
| `DataLoader.ParseZone` | taxi-service/src/main/java/com/taxi/taxi_service/service/DataLoaderService.java:93-97 | a zone row maps iff it has at least four fields and an integer first field, to (id, borough, zone name, service zone) |
| `DataLoader.ParseTrip` | taxi-service/src/main/java/com/taxi/taxi_service/service/DataLoaderService.java:136-140 | a trip row maps iff it has at least four fields, two date-times and two integer ids, to a trip with those values and no id |
| `DataLoader.LoadZonesFromFile` | taxi-service/src/main/java/com/taxi/taxi_service/service/DataLoaderService.java:70-118 | appends the batches of the zone rows |
| `DataLoader.LoadTripsFromFile` | taxi-service/src/main/java/com/taxi/taxi_service/service/DataLoaderService.java:121-161 | appends the batches of the trip rows |
| `DataLoader.StartupEffect` | taxi-service/src/main/java/com/taxi/taxi_service/service/DataLoaderService.java:56-60 | a repository holding records is left as it is; otherwise batches are only appended, and the saved records become exactly those of the file's data rows, in order |
| `DataLoader.LoadDataOnStartup` | taxi-service/src/main/java/com/taxi/taxi_service/service/DataLoaderService.java:51-67 | each repository receives its file's batches iff it was empty, and is untouched otherwise |
| `DataLoader.StartupIdempotent` | taxi-service/src/main/java/com/taxi/taxi_service/service/DataLoaderService.java:56-60 | running startup a second time against the same files saves nothing more |
| `Time.DayWindowIsDate` | taxi-service/src/main/java/com/taxi/taxi_service/service/TripService.java:109-120 | a date-time lies between `atStartOfDay` and `atTime(LocalTime.MAX)` of a date iff its calendar date is that date |
| `Time.IsoDate` | taxi-service/src/main/java/com/taxi/taxi_service/service/TripService.java:69 | for years 0..9999 and a month and day in range, `date.toString()` is ten characters, with dashes at positions 4 and 7 and digits elsewhere; its three digit groups read back as the year, the month and the day |
| `Time.YearString` | taxi-service/src/main/java/com/taxi/taxi_service/service/TripService.java:69 | the year field of a year in 0..9999 is four digits reading back as that year, zero-padded when shorter |
| `Time.TwoDigits` | taxi-service/src/main/java/com/taxi/taxi_service/service/TripService.java:69 | a month or a day below 100 is written as two digits reading back as that number |
| `TripService.TripSpecification` | taxi-service/src/main/java/com/taxi/taxi_service/service/TripService.java:95-124 | one predicate per non-null parameter, and their conjunction holds of a trip iff every given zone equals the trip's and every given date is the trip's calendar date |
| `TripService.Where` | taxi-service/src/main/java/com/taxi/taxi_service/service/TripService.java:92-127 | a trip is selected iff it is in the table and matches the filter |
| `TripService.SelectIsWhere` | taxi-service/src/main/java/com/taxi/taxi_service/service/TripService.java:123-127 | selecting by a conjunction equivalent to the filter gives the filter's selection |
| `TripService.Select` | taxi-service/src/main/java/com/taxi/taxi_service/service/TripService.java:123-127 | the repository returns a trip iff it is in the table and satisfies every predicate of the conjunction |
| `TripService.FindTrips` | taxi-service/src/main/java/com/taxi/taxi_service/service/TripService.java:92-128 | the trips returned (before paging) are exactly the filter's selection in table order |
| `TripService.NoFilterSelectsAll` | taxi-service/src/main/java/com/taxi/taxi_service/service/TripService.java:95-124 | with every parameter null, every trip is selected |
| `TripService.CountTrips` | taxi-service/src/main/java/com/taxi/taxi_service/service/TripService.java:73-89 | the count is a non-negative number of trips, at most the table size |
| `TripService.GetTripSummary` | taxi-service/src/main/java/com/taxi/taxi_service/service/TripService.java:62-70 | the summary carries the zone id, the ISO date string and two counts within the table size |
| `TripService.DayCountIsFilterSize` | taxi-service/src/main/java/com/taxi/taxi_service/service/TripService.java:62-67 | counting a zone's pickups (dropoffs) in the day window counts the trips with that zone and that calendar date |
| `TripService.SummaryAgreesWithList` | taxi-service/src/main/java/com/taxi/taxi_service/service/TripService.java:62-70 | the summary's pickup (dropoff) count equals the number of trips `findTrips` returns for that pickup (dropoff) zone and date |
| `TripService.EqualsIgnoreCase` | taxi-service/src/main/java/com/taxi/taxi_service/service/TripService.java:42 | two strings are equal ignoring case iff they have the same length and agree character by character after case folding |
| `TripService.LocationFieldFor` | taxi-service/src/main/java/com/taxi/taxi_service/service/TripService.java:41-42 | the dropoff field is grouped on iff `orderBy` equals "dropoff" ignoring case; every other string means the pickup field |
| `TripService.LocationFieldExamples` | taxi-service/src/main/java/com/taxi/taxi_service/service/TripService.java:41-42 | "dropoff" and "DropOff" select dropoff; "pickup", "" and "drop" select pickup |
| `TripService.JoinedZones` | taxi-service/src/main/java/com/taxi/taxi_service/service/TripService.java:46 | one trip joins a zone of a given name iff some zone with that name has the trip's location id |
| `TripService.JoinCount` | taxi-service/src/main/java/com/taxi/taxi_service/service/TripService.java:44-47 | a name's `COUNT(t)` is positive iff some trip joins some zone with that name |
| `TripService.Groups` | taxi-service/src/main/java/com/taxi/taxi_service/service/TripService.java:44-47 | one group per distinct zone name joined by some trip, carrying that name's join count |
| `TripService.Insert` | taxi-service/src/main/java/com/taxi/taxi_service/service/TripService.java:48 | inserting into a list ordered by descending count keeps it ordered and adds exactly that element |
| `TripService.SortByCount` | taxi-service/src/main/java/com/taxi/taxi_service/service/TripService.java:48 | `ORDER BY COUNT(t) DESC` yields a permutation of the groups in non-increasing count order, distinct names staying distinct |
| `TripService.RankedGroups` | taxi-service/src/main/java/com/taxi/taxi_service/service/TripService.java:44-48 | the grouped rows, ordered by non-increasing count with one row per name, are exactly the zone names some trip joins, each with its join count |
| `TripService.Limit` | taxi-service/src/main/java/com/taxi/taxi_service/service/TripService.java:51 | `setMaxResults(5)` keeps a prefix of at most five rows, all of them when there are at most five |
| `TripService.GetTopZones` | taxi-service/src/main/java/com/taxi/taxi_service/service/TripService.java:40-54 | at most five entries |
| `TripService.AnyRankingKeepsTop` | taxi-service/src/main/java/com/taxi/taxi_service/service/TripService.java:44-51 | for any order the database gives to groups of equal count, the first five rows are ordered, one per name, carry the join counts, and leave out only names with no more trips than every listed one |
| `TripService.TopZonesAreTop` | taxi-service/src/main/java/com/taxi/taxi_service/service/TripService.java:40-54 | the entries are in non-increasing count order, one per zone name, each with its name's join count; a joined zone left out means five entries, each counting at least as much as it |

## Left out

- Rendering and styling: JSX markup, CSS modules, `App.jsx` and the `TopZones.jsx` view. Only the render guards at ListTrips.jsx:6 and :246 and ZoneTrips.jsx:103, and the pagination button targets, feed the model.
- Front-end console logging: the `console.error` and `console.log` calls in `api.js`, `ListTrips.jsx` and `ZoneTrips.jsx` have no effect on state.
- HTTP transport: the axios client and the actual GET calls. A request is a path plus parameters, and each response is an argument of a settle method. `getZones` and `getTopZones` are one-line wrappers and are not modelled.
- Overlapping fetches: requests are never cancelled, and the last one to settle wins. The model treats each fetch as a begin step followed by one settle, so it does not capture out-of-order responses.
- React effect scheduling: the model does not enforce that a fetch follows every state change. Callers invoke `BeginFetch` themselves.
- JavaScript values other than strings and integers (NaN, `undefined`, `null` entries) are not modelled.
- Spring plumbing: controllers, `WebConfig`, repository interfaces, `@Transactional` commit and rollback, and logging.
- `Pageable` slicing and sorting: `FindTrips` returns the whole selection in table order, before paging.
- CountTrips: the null-result and `NoResultException` fallbacks to 0 are not modelled. The count is computed from the trip sequence, so it always exists.
- OpenCSV, `Integer.parseInt` and `LocalDateTime.parse` are abstract function parameters. A missing resource file and reader errors are not modelled; the file is a sequence of rows whose first row is the header.
- LoadFromFile: `saveAll` is assumed not to throw. In the source, a throwing `saveAll` would be caught by the per-row handler and the buffer would not be cleared.
- Database-generated trip ids: saved records keep an absent id.
- EqualsIgnoreCase: only ASCII letters are case-folded. Java folds all of Unicode, but no non-ASCII character folds to a letter of "dropoff", so the field choice is exact.
- Dates: `LocalDate` validity (month and day ranges) is not enforced. Ordering is lexicographic on year, month and day.
- SortByCount: the database leaves the order of equal counts open, and the model picks one. `AnyRankingKeepsTop` proves the top-five properties for every ranking of the groups, whatever its order of ties.
- DataLoader.Repository.Count: records that share an `@Id` are counted separately rather than merged, as repeated zone ids would be in the database. Startup relies only on whether the count is zero.
- Integer widths: Java `Integer` ids and `long` counts are unbounded integers here.

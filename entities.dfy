/** The backend's records: the `Trip` and `Zone` entities and the two response DTOs. */
module Entities {
  import opened Wrappers
  import opened Time

  /** A taxi ride. `id` is generated by the database on save, so a freshly parsed trip has none. */
  datatype Trip = Trip(
    id: Option<int>,
    pickupDateTime: DateTime,
    dropoffDateTime: DateTime,
    pickupLocationID: int,
    dropoffLocationID: int)

  /** A row of the zone lookup table: `"LocationID","Borough","Zone","service_zone"`. */
  datatype Zone = Zone(locationID: int, borough: string, zoneName: string, serviceZone: string)

  /** Response of `/zone-trips`. */
  datatype TripSummary = TripSummary(zoneId: int, date: string, pickupCount: int, dropoffCount: int)

  /** One entry of `/top-zones`. */
  datatype TopZone = TopZone(zoneName: string, count: int)
}

/**
 * The per-zone, per-date summary view: the zone directory it loads for its menu, the
 * selected zone and date, and the submit that validates, asks for a summary and settles.
 */
module ZoneTrips {
  import opened Wrappers
  import opened Entities
  import Api
  import Js

  const ZONES_FAILED: string := "Failed to load zones"
  const SELECT_REQUIRED: string := "Please select a zone and a date"
  const SUMMARY_FAILED: string := "Failed to load trip summary"

  /** The state of one mounted `ZoneTrips` component. */
  class ZoneTripsView {
    var allZones: seq<Zone>
    var zonesLoading: bool
    var selectedZoneId: string
    var selectedDate: string
    var tripSummary: Option<TripSummary>
    var isLoading: bool
    var errorMsg: string

    constructor ()
      ensures allZones == [] && !zonesLoading && selectedZoneId == "" && selectedDate == ""
      ensures tripSummary == None && !isLoading && errorMsg == ""
    {
      allZones := [];
      zonesLoading := false;
      selectedZoneId := "";
      selectedDate := "";
      tripSummary := None;
      isLoading := false;
      errorMsg := "";
    }

    /** The summary block is rendered only for a loaded summary while nothing is loading. */
    predicate ShowsResults()
      reads this
    {
      tripSummary.Some? && !isLoading
    }

    /** Start of `loadAllZones`. */
    method BeginLoadZones()
      modifies this
      ensures zonesLoading && errorMsg == ""
      ensures allZones == old(allZones) && tripSummary == old(tripSummary) && isLoading == old(isLoading)
      ensures selectedZoneId == old(selectedZoneId) && selectedDate == old(selectedDate)
    {
      zonesLoading := true;
      errorMsg := "";
    }

    /** `loadAllZones` settling with `response.data` (absent or null is `None`). */
    method ZonesLoaded(data: Option<seq<Zone>>)
      modifies this
      ensures allZones == data.GetOr([]) && !zonesLoading
      ensures errorMsg == old(errorMsg) && tripSummary == old(tripSummary) && isLoading == old(isLoading)
      ensures selectedZoneId == old(selectedZoneId) && selectedDate == old(selectedDate)
    {
      allZones := data.GetOr([]);
      zonesLoading := false;
    }

    /** `loadAllZones` settling with an error. */
    method ZonesFailed()
      modifies this
      ensures allZones == [] && !zonesLoading && errorMsg == ZONES_FAILED
      ensures tripSummary == old(tripSummary) && isLoading == old(isLoading)
      ensures selectedZoneId == old(selectedZoneId) && selectedDate == old(selectedDate)
    {
      errorMsg := ZONES_FAILED;
      allZones := [];
      zonesLoading := false;
    }

    /** The zone menu's `onChange`. */
    method SelectZone(zoneId: string)
      modifies this
      ensures selectedZoneId == zoneId && selectedDate == old(selectedDate)
      ensures allZones == old(allZones) && zonesLoading == old(zonesLoading)
      ensures tripSummary == old(tripSummary) && isLoading == old(isLoading) && errorMsg == old(errorMsg)
    {
      selectedZoneId := zoneId;
    }

    /** The date input's `onChange`. */
    method SelectDate(date: string)
      modifies this
      ensures selectedDate == date && selectedZoneId == old(selectedZoneId)
      ensures allZones == old(allZones) && zonesLoading == old(zonesLoading)
      ensures tripSummary == old(tripSummary) && isLoading == old(isLoading) && errorMsg == old(errorMsg)
    {
      selectedDate := date;
    }

    /**
     * `handleSubmit` up to the request. Without a zone or a date only the error message
     * changes and nothing is requested; otherwise the view clears the error and the old
     * summary, starts loading, and issues the `/zone-trips` request for the selection.
     */
    method Submit() returns (sent: Option<Api.Request>)
      modifies this
      ensures sent.None? <==> old(selectedZoneId) == "" || old(selectedDate) == ""
      ensures sent.None? ==>
                && errorMsg == SELECT_REQUIRED
                && tripSummary == old(tripSummary) && isLoading == old(isLoading)
      ensures sent.Some? ==>
                && Api.GetZoneTrips(selectedZoneId, selectedDate) == Success(sent.value)
                && errorMsg == "" && tripSummary == None && isLoading && !ShowsResults()
      ensures selectedZoneId == old(selectedZoneId) && selectedDate == old(selectedDate)
      ensures allZones == old(allZones) && zonesLoading == old(zonesLoading)
    {
      if selectedZoneId == "" || selectedDate == "" {
        errorMsg := SELECT_REQUIRED;
        return None;
      }
      isLoading := true;
      errorMsg := "";
      tripSummary := None;
      var request := Api.GetZoneTrips(selectedZoneId, selectedDate);
      sent := Some(request.value);
    }

    /** The summary request settling with `response.data`. */
    method SummaryLoaded(summary: TripSummary)
      modifies this
      ensures tripSummary == Some(summary) && !isLoading && ShowsResults()
      ensures errorMsg == old(errorMsg)
      ensures selectedZoneId == old(selectedZoneId) && selectedDate == old(selectedDate)
      ensures allZones == old(allZones) && zonesLoading == old(zonesLoading)
    {
      tripSummary := Some(summary);
      isLoading := false;
    }

    /** The summary request settling with an error. */
    method SummaryFailed()
      modifies this
      ensures tripSummary == None && !isLoading && errorMsg == SUMMARY_FAILED && !ShowsResults()
      ensures selectedZoneId == old(selectedZoneId) && selectedDate == old(selectedDate)
      ensures allZones == old(allZones) && zonesLoading == old(zonesLoading)
    {
      errorMsg := SUMMARY_FAILED;
      tripSummary := None;
      isLoading := false;
    }
  }

  /**
   * From mount: a zone and a date are chosen and submitted. While the request is out no
   * results show; when it settles they show exactly when a summary arrived, and then
   * that summary.
   */
  method SubmitCycleScenario(zoneId: string, date: string, outcome: Option<TripSummary>)
    returns (sent: Option<Api.Request>, loadingShows: bool, settledShows: bool)
    ensures sent.Some? <==> zoneId != "" && date != ""
    ensures sent.Some? ==> sent.value.params == map["zoneId" := Js.Str(zoneId), "date" := Js.Str(date)]
    ensures !loadingShows
    ensures sent.Some? ==> (settledShows <==> outcome.Some?)
    ensures sent.None? ==> !settledShows
  {
    var view := new ZoneTripsView();
    view.SelectZone(zoneId);
    view.SelectDate(date);
    sent := view.Submit();
    loadingShows := view.ShowsResults();
    if sent.Some? {
      match outcome
      case Some(summary) => view.SummaryLoaded(summary);
      case None => view.SummaryFailed();
    }
    settledShows := view.ShowsResults();
  }
}

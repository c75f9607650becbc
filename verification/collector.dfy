/** The collector's screen: the number of households still to collect, the
    household search (see `HouseholdSearch`, address included), the action
    offered for each household, and the collect flow, which asks the device
    for a position and then reports the household collected, with or
    without coordinates. */
module CollectorView {
  import opened Common
  import opened Types
  import opened Lists
  import opened DashboardFigures

  /** `pendingHouseholdsCount`: the households whose status is `Pending`. */
  function PendingHouseholdsCount(hs: seq<Household>): (n: nat)
    ensures n <= |hs|
  {
    |WithStatus(hs, Pending)|
  }

  /** The collector's pending figure is the dashboard's, although the
      dashboard computes it as the total minus the collected ones. */
  lemma PendingFiguresAgree(hs: seq<Household>)
    ensures PendingHouseholdsCount(hs) == PendingCount(hs)
    ensures PendingHouseholdsCount(hs) + CollectedCount(hs) == |hs|
  {
    PendingCountIsPending(hs);
  }

  /** What the device's position request ends in: no geolocation support,
      a position, or an error with its code (1 permission denied, 2 position
      unavailable, 3 timeout). */
  datatype GeoOutcome = Unsupported | Position(coords: Coords) | PositionError(code: int)

  /** One call of `onMarkAsCollected(householdId, location)`. */
  datatype MarkRequest = MarkRequest(householdId: Id, location: Option<Coords>)

  /** The location a collect reports: the coordinates when a position was
      obtained, `null` for every other outcome. */
  function LocationOf(outcome: GeoOutcome): (l: Option<Coords>)
    ensures l.Some? <==> outcome.Position?
    ensures outcome.Position? ==> l == Some(outcome.coords)
  {
    match outcome
    case Position(c) => Some(c)
    case _ => None
  }

  /** What a household's row offers: the mark button (showing "Fetching
      Location..." and disabled while its position is requested), or the
      collected badge. */
  datatype Action = MarkButton(fetching: bool) | CollectedBadge

  function ActionFor(h: Household, loadingLocation: Option<Id>): (a: Action)
    ensures a.MarkButton? <==> h.status == Pending
    ensures a.MarkButton? ==> (a.fetching <==> loadingLocation == Some(h.id))
  {
    if h.status == Pending then MarkButton(loadingLocation == Some(h.id)) else CollectedBadge
  }

  /** Once its status update is accepted, a marked household shows the badge
      and no longer offers the button, whatever else happened. */
  lemma MarkedShowsBadge(hs: seq<Household>, id: Id, loadingLocation: Option<Id>)
    ensures var after := UpdateWhere(hs, HouseholdId, id, MergeHousehold, StatusPatch(Collected));
            forall i :: 0 <= i < |after| && after[i].id == id ==> ActionFor(after[i], loadingLocation) == CollectedBadge
  {
    var after := UpdateWhere(hs, HouseholdId, id, MergeHousehold, StatusPatch(Collected));
    forall i | 0 <= i < |after| && after[i].id == id
      ensures ActionFor(after[i], loadingLocation) == CollectedBadge
    {
      assert hs[i].id == id;
    }
  }

  class CollectorPanel {
    /** The household whose position is being requested, if any. */
    var loadingLocation: Option<Id>
    var searchQuery: string

    constructor ()
      ensures loadingLocation == None && searchQuery == ""
    {
      loadingLocation := None;
      searchQuery := "";
    }

    method SetSearchQuery(q: string)
      modifies this
      ensures searchQuery == q && loadingLocation == old(loadingLocation)
    {
      searchQuery := q;
    }

    /** `handleCollect`, up to the position request: the household's button
        shows the marker. Without geolocation support it reports the
        household collected without coordinates at once and clears the
        marker; otherwise the report waits for the position callbacks. */
    method HandleCollect(householdId: Id, geolocationSupported: bool) returns (request: Option<MarkRequest>)
      modifies this
      ensures geolocationSupported ==> request == None && loadingLocation == Some(householdId)
      ensures !geolocationSupported ==> request == Some(MarkRequest(householdId, None)) && loadingLocation == None
      ensures searchQuery == old(searchQuery)
    {
      loadingLocation := Some(householdId);
      if !geolocationSupported {
        request := Some(MarkRequest(householdId, None));
        loadingLocation := None;
        return;
      }
      request := None;
    }

    /** The success callback: reports the household with its coordinates. */
    method OnPosition(householdId: Id, coords: Coords) returns (request: MarkRequest)
      modifies this
      ensures request == MarkRequest(householdId, Some(coords))
      ensures loadingLocation == None && searchQuery == old(searchQuery)
    {
      request := MarkRequest(householdId, Some(coords));
      loadingLocation := None;
    }

    /** The error callback: whatever the error code, the household is still
        reported collected, without coordinates. */
    method OnPositionError(householdId: Id, code: int) returns (request: MarkRequest)
      modifies this
      ensures request == MarkRequest(householdId, None)
      ensures loadingLocation == None && searchQuery == old(searchQuery)
    {
      request := MarkRequest(householdId, None);
      loadingLocation := None;
    }

    /** The whole collect flow for one outcome of the position request. */
    method Collect(householdId: Id, outcome: GeoOutcome) returns (requests: seq<MarkRequest>)
      modifies this
      ensures requests == [MarkRequest(householdId, LocationOf(outcome))]
      ensures loadingLocation == None && searchQuery == old(searchQuery)
    {
      var pending := HandleCollect(householdId, !outcome.Unsupported?);
      if pending.Some? {
        requests := [pending.value];
        return;
      }
      var request: MarkRequest;
      match outcome {
        case Position(c) =>
          request := OnPosition(householdId, c);
        case PositionError(code) =>
          request := OnPositionError(householdId, code);
      }
      requests := [request];
    }
  }

  /** A collect on a fresh panel: whatever the position request ends in,
      exactly one report is made, for that household, with coordinates
      exactly when a position was obtained, and the marker is cleared. */
  method CollectOnce(householdId: Id, outcome: GeoOutcome) returns (requests: seq<MarkRequest>, marker: Option<Id>)
    ensures |requests| == 1 && requests[0].householdId == householdId
    ensures requests[0].location.Some? <==> outcome.Position?
    ensures outcome.Position? ==> requests[0].location == Some(outcome.coords)
    ensures marker == None
  {
    var panel := new CollectorPanel();
    requests := panel.Collect(householdId, outcome);
    marker := panel.loadingLocation;
  }
}

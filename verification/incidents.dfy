/** The incidents slice: the incidents of one building, unpaged. */
module Incidents {
  import opened Wrappers
  import IdList
  import Slice

  /** `IncidentStatus`, in declaration order. */
  datatype IncidentStatus = Reported | InProgress | Resolved | Closed

  /** `IncidentPriority`, in declaration order. */
  datatype IncidentPriority = Low | Medium | High | Critical

  datatype Incident = Incident(
    id: int,
    title: string,
    description: string,
    roomId: int,
    roomNumber: string,
    reportedById: int,
    reportedByName: string,
    reportedAt: string,
    status: IncidentStatus,
    priority: IncidentPriority,
    imageUrl: Option<string>,
    resolvedAt: Option<string>)

  function IdOf(i: Incident): int { i.id }

  type State = Slice.Listed<Incident>

  datatype Action =
    | ResetStatus
    | ClearIncidents
    | FetchPending
    | FetchFulfilled(incidents: seq<Incident>)
    | FetchRejected(reason: Option<string>)
    | UpdateStatusPending
    | UpdateStatusFulfilled(updated: Incident)
    | UpdateStatusRejected(reason: Option<string>)
    | DeleteFulfilled(id: int)

  function Initial(): State { Slice.InitialListed() }

  /** `updateIncidentStatus.fulfilled`: the listed incident with the payload's id is replaced in
      place, an unknown id changes nothing, and the status becomes succeeded. */
  function StatusUpdated(s: State, inc: Incident): (r: State)
    ensures IdList.ReplacedFirstMatch(s.items, r.items, inc, IdOf) && |r.items| == |s.items|
    ensures r.status == Slice.Succeeded && r.error == s.error
  {
    s.(status := Slice.Succeeded, items := IdList.ReplaceFirst(s.items, inc, IdOf))
  }

  /** `deleteIncident.fulfilled`: the incident is filtered out; status and error stay. */
  function Deleted(s: State, id: int): (r: State)
    ensures IdList.RemovedId(s.items, r.items, id, IdOf)
    ensures r.status == s.status && r.error == s.error
  {
    s.(items := IdList.RemoveId(s.items, id, IdOf))
  }

  /** `incidentsSlice.reducer`. A fetch starts from an empty list, and only a fetch can bring
      in an incident id that was not listed before. */
  function Reduce(s: State, a: Action): (r: State)
    ensures a.FetchPending? || a.ClearIncidents? ==> r.items == []
    ensures !a.FetchFulfilled? ==>
              forall i :: 0 <= i < |r.items| ==> IdList.HasId(s.items, r.items[i].id, IdOf)
    ensures a.DeleteFulfilled? ==> r.status == s.status
  {
    match a
    case ResetStatus => Slice.ListResetStatus(s)
    case ClearIncidents => Slice.ListCleared(s)
    case FetchPending => Slice.ListPendingCleared(s)
    case FetchFulfilled(incidents) => Slice.ListLoaded(s, incidents)
    case FetchRejected(reason) => Slice.ListRejected(s, reason)
    case UpdateStatusPending => Slice.ListPending(s)
    case UpdateStatusFulfilled(inc) => StatusUpdated(s, inc)
    case UpdateStatusRejected(reason) => Slice.ListRejected(s, reason)
    case DeleteFulfilled(id) => Deleted(s, id)
  }
}

/** The rooms slice: the current page of rooms with its counters. */
module Rooms {
  import opened Wrappers
  import IdList
  import Slice

  /** `RoomStatus`, in declaration order. */
  datatype RoomStatus = Available | Rented | Maintenance

  datatype Room = Room(
    id: int,
    roomNumber: string,
    price: int,
    area: int,
    imageUrl: Option<string>,
    status: RoomStatus,
    buildingId: int)

  function IdOf(r: Room): int { r.id }

  type State = Slice.Paged<Room>

  datatype Action =
    | ClearRooms
    | ResetStatus
    | FetchPending
    | FetchFulfilled(page: Slice.Page<Room>)
    | FetchRejected(reason: Option<string>)
    | DeleteFulfilled(id: int)
    | CreateFulfilled(created: Room)
    | UpdateFulfilled(updated: Room)
    | FetchByIdFulfilled(fetched: Room)

  function Initial(): State { Slice.InitialPaged() }

  /** `clearRooms`: no rooms, zero counters and idle, but the last error is kept. */
  function Clear(s: State): (r: State)
    ensures r.items == [] && r.currentPage == 0 && r.totalPages == 0 && r.totalElements == 0
    ensures r.status == Slice.Idle && r.error == s.error
  {
    s.(items := [], currentPage := 0, totalPages := 0, totalElements := 0, status := Slice.Idle)
  }

  /** `roomsSlice.reducer`. Only a page load or a clear moves the page counters, only a
      rejection or a reset touch the error, and apart from a page load, a clear and a delete
      every listed room id stays listed. */
  function Reduce(s: State, a: Action): (r: State)
    ensures !a.FetchFulfilled? && !a.ClearRooms? ==>
              r.currentPage == s.currentPage && r.totalPages == s.totalPages
    ensures r.error != s.error ==> a.FetchRejected? || a.ResetStatus?
    ensures !a.FetchFulfilled? && !a.DeleteFulfilled? && !a.ClearRooms? ==>
              forall i :: 0 <= i < |s.items| ==> IdList.HasId(r.items, s.items[i].id, IdOf)
  {
    match a
    case ClearRooms => Clear(s)
    case ResetStatus => Slice.ResetStatus(s)
    case FetchPending => Slice.Pending(s)
    case FetchFulfilled(p) => Slice.PageLoaded(s, p)
    case FetchRejected(reason) => Slice.Rejected(s, reason)
    case DeleteFulfilled(id) => Slice.Deleted(s, id, IdOf)
    case CreateFulfilled(room) => Slice.Created(s, room)
    case UpdateFulfilled(room) => Slice.Updated(s, room, IdOf)
    case FetchByIdFulfilled(room) => Slice.FetchedById(s, room, IdOf)
  }
}

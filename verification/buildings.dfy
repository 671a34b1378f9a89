/** The buildings slice: the current page of buildings with its counters. */
module Buildings {
  import opened Wrappers
  import Seqs
  import IdList
  import Slice

  datatype Building = Building(id: int, name: string, address: string, imageUrl: Option<string>)

  function IdOf(b: Building): int { b.id }

  type State = Slice.Paged<Building>

  /** The actions the slice handles: its own `resetStatus` and the settled thunks. */
  datatype Action =
    | ResetStatus
    | FetchPending
    | FetchFulfilled(page: Slice.Page<Building>)
    | FetchRejected(reason: Option<string>)
    | CreateFulfilled(created: Building)
    | UpdateFulfilled(updated: Building)
    | DeleteFulfilled(id: int)
    | FetchByIdFulfilled(fetched: Building)

  function Initial(): State { Slice.InitialPaged() }

  /** `buildingsSlice.reducer`. Each counter and the error have few writers: only a page load
      moves the page counters, only create, delete and a page load move the total, only a
      rejection or a reset touch the error, and only a page load can drop a record id. */
  function Reduce(s: State, a: Action): (r: State)
    ensures !a.FetchFulfilled? ==> r.currentPage == s.currentPage && r.totalPages == s.totalPages
    ensures r.totalElements != s.totalElements ==>
              a.FetchFulfilled? || a.CreateFulfilled? || a.DeleteFulfilled?
    ensures r.error != s.error ==> a.FetchRejected? || a.ResetStatus?
    ensures !a.FetchFulfilled? && !a.DeleteFulfilled? ==>
              forall i :: 0 <= i < |s.items| ==> IdList.HasId(r.items, s.items[i].id, IdOf)
  {
    match a
    case ResetStatus => Slice.ResetStatus(s)
    case FetchPending => Slice.Pending(s)
    case FetchFulfilled(p) => Slice.PageLoaded(s, p)
    case FetchRejected(reason) => Slice.Rejected(s, reason)
    case CreateFulfilled(b) => Slice.Created(s, b)
    case UpdateFulfilled(b) => Slice.Updated(s, b, IdOf)
    case DeleteFulfilled(id) => Slice.Deleted(s, id, IdOf)
    case FetchByIdFulfilled(b) => Slice.FetchedById(s, b, IdOf)
  }
}

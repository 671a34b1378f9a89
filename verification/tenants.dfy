/** The tenants slice: the current page of tenants with its counters. */
module Tenants {
  import opened Wrappers
  import IdList
  import Slice

  datatype Tenant = Tenant(
    id: int,
    fullName: string,
    dateOfBirth: Option<string>,
    phoneNumber: string,
    email: Option<string>,
    citizenId: string,
    citizenIdImageUrl: Option<string>,
    permanentAddress: Option<string>)

  function IdOf(t: Tenant): int { t.id }

  type State = Slice.Paged<Tenant>

  datatype Action =
    | ResetStatus
    | FetchPending
    | FetchFulfilled(page: Slice.Page<Tenant>)
    | FetchRejected(reason: Option<string>)
    | DeleteFulfilled(id: int)
    | CreateFulfilled(created: Tenant)
    | UpdateFulfilled(updated: Tenant)
    | FetchByIdFulfilled(fetched: Tenant)

  function Initial(): State { Slice.InitialPaged() }

  /** `createTenant.fulfilled`: the new tenant is not inserted (the list page refetches); only
      the status drops back to idle. */
  function Created(s: State, t: Tenant): (r: State)
    ensures r.status == Slice.Idle
    ensures r.items == s.items && r.totalElements == s.totalElements
    ensures r == s.(status := r.status)
  {
    s.(status := Slice.Idle)
  }

  /** `tenantsSlice.reducer`. No action adds a tenant except a page load and a fetch by id, only
      a page load moves the page counters, and only a rejection or a reset touch the error. */
  function Reduce(s: State, a: Action): (r: State)
    ensures |r.items| > |s.items| ==> a.FetchFulfilled? || a.FetchByIdFulfilled?
    ensures !a.FetchFulfilled? ==> r.currentPage == s.currentPage && r.totalPages == s.totalPages
    ensures r.error != s.error ==> a.FetchRejected? || a.ResetStatus?
  {
    match a
    case ResetStatus => Slice.ResetStatus(s)
    case FetchPending => Slice.Pending(s)
    case FetchFulfilled(p) => Slice.PageLoaded(s, p)
    case FetchRejected(reason) => Slice.Rejected(s, reason)
    case DeleteFulfilled(id) => Slice.Deleted(s, id, IdOf)
    case CreateFulfilled(t) => Created(s, t)
    case UpdateFulfilled(t) => Slice.Updated(s, t, IdOf)
    case FetchByIdFulfilled(t) => Slice.FetchedById(s, t, IdOf)
  }
}

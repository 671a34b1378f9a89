/** The contracts slice and its selectors. */
module Contracts {
  import opened Wrappers
  import Seqs
  import IdList
  import Slice

  /** `ContractStatus`: the three states the code knows, in declaration order. */
  datatype ContractStatus = Active | Expired | Terminated

  datatype Contract = Contract(
    id: int,
    roomId: int,
    roomNumber: string,
    tenantId: int,
    tenantName: string,
    startDate: string,
    endDate: string,
    rentAmount: int,
    depositAmount: int,
    paymentCycle: int,
    status: ContractStatus,
    contractFileUrl: Option<string>)

  function IdOf(c: Contract): int { c.id }

  type State = Slice.Paged<Contract>

  datatype Action =
    | ResetStatus
    | FetchPending
    | FetchFulfilled(page: Slice.Page<Contract>)
    | FetchRejected(reason: Option<string>)
    | CreatePending
    | CreateFulfilled(created: Contract)
    | CreateRejected(reason: Option<string>)
    | TerminateFulfilled
    | FetchByIdPending
    | FetchByIdRejected(reason: Option<string>)
    | FetchByIdFulfilled(fetched: Contract)
    | UploadFileFulfilled(updated: Contract)

  function Initial(): State { Slice.InitialPaged() }

  /** `createContract.fulfilled`: the contract goes on the end of the list, but the total is
      left as it was. */
  function Created(s: State, c: Contract): (r: State)
    ensures Seqs.Appended(s.items, r.items, c)
    ensures r.status == Slice.Succeeded && r.totalElements == s.totalElements
    ensures r == s.(items := r.items, status := r.status)
  {
    s.(status := Slice.Succeeded, items := s.items + [c])
  }

  /** `terminateContract.fulfilled`: only the status drops to idle (to trigger a refetch); the
      listed contract keeps its old status. */
  function Terminated(s: State): (r: State)
    ensures r.status == Slice.Idle
    ensures r.items == s.items
    ensures r == s.(status := r.status)
  {
    s.(status := Slice.Idle)
  }

  /** `uploadContractFile.fulfilled`: replace a listed contract, never append; the status
      stays. */
  function FileUploaded(s: State, c: Contract): (r: State)
    ensures IdList.ReplacedFirstMatch(s.items, r.items, c, IdOf) && |r.items| == |s.items|
    ensures r == s.(items := r.items)
  {
    s.(items := IdList.ReplaceFirst(s.items, c, IdOf))
  }

  /** `contractsSlice.reducer`. The total follows page loads only (a create does not raise it),
      the page counters move on page loads only, and the error changes only on a rejection or a
      reset. */
  function Reduce(s: State, a: Action): (r: State)
    ensures r.totalElements != s.totalElements ==> a.FetchFulfilled?
    ensures !a.FetchFulfilled? ==> r.currentPage == s.currentPage && r.totalPages == s.totalPages
    ensures r.error != s.error ==>
              a.FetchRejected? || a.CreateRejected? || a.FetchByIdRejected? || a.ResetStatus?
  {
    match a
    case ResetStatus => Slice.ResetStatus(s)
    case FetchPending => Slice.Pending(s)
    case FetchFulfilled(p) => Slice.PageLoaded(s, p)
    case FetchRejected(reason) => Slice.Rejected(s, reason)
    case CreatePending => Slice.Pending(s)
    case CreateFulfilled(c) => Created(s, c)
    case CreateRejected(reason) => Slice.Rejected(s, reason)
    case TerminateFulfilled => Terminated(s)
    case FetchByIdPending => Slice.Pending(s)
    case FetchByIdRejected(reason) => Slice.Rejected(s, reason)
    case FetchByIdFulfilled(c) => Slice.FetchedByIdSucceeded(s, c, IdOf)
    case UploadFileFulfilled(c) => FileUploaded(s, c)
  }

  // ---------------------------------------------------------------- selectors

  /** `selectAllContracts`. */
  function SelectAll(s: State): seq<Contract> { s.items }

  /** `selectContractsStatus`. */
  function SelectStatus(s: State): Slice.Status { s.status }

  /** `selectContractById(id)`: the first listed contract with that id, if any. */
  function SelectById(s: State, id: int): Option<Contract>
  {
    Slice.SelectById(s, id, IdOf)
  }

  /** `selectContractsPagination`. */
  function SelectPagination(s: State): Slice.Pagination
  {
    Slice.SelectPagination(s)
  }
}

/** The user-requests slice: the pending requests tenants have filed. */
module UserRequests {
  import opened Wrappers
  import IdList
  import Slice

  datatype RequestType = ContractRenewal | ContractTermination | ChangePaymentCycle

  datatype UserRequest = UserRequest(
    id: int,
    userName: string,
    roomNumber: string,
    kind: RequestType,
    message: string,
    requestedValue: string,
    createdAt: string,
    isResolved: bool)

  function IdOf(u: UserRequest): int { u.id }

  type State = Slice.Listed<UserRequest>

  datatype Action =
    | FetchPending
    | FetchFulfilled(requests: seq<UserRequest>)
    | FetchRejected(reason: Option<string>)
    | ApprovePending
    | ApproveFulfilled(approvedId: int)
    | ApproveRejected(reason: Option<string>)
    | RejectPending
    | RejectFulfilled(rejectedId: int)
    | RejectRejected(reason: Option<string>)
    | LogoutFulfilled

  function Initial(): State { Slice.InitialListed() }

  /** `approveRequest.fulfilled` and `rejectRequest.fulfilled`: the settled request leaves the
      pending list, the others keep their order, and the status becomes succeeded. */
  function Settled(s: State, id: int): (r: State)
    ensures IdList.RemovedId(s.items, r.items, id, IdOf)
    ensures r.status == Slice.Succeeded && r.error == s.error
  {
    s.(status := Slice.Succeeded, items := IdList.RemoveId(s.items, id, IdOf))
  }

  /** `userRequestsSlice.reducer`. A logout gives back the initial state, and no action but a
      fetch adds a request. */
  function Reduce(s: State, a: Action): (r: State)
    ensures a.LogoutFulfilled? ==> r == Initial()
    ensures !a.FetchFulfilled? ==> forall i :: 0 <= i < |r.items| ==> r.items[i] in s.items
  {
    match a
    case FetchPending => Slice.ListPending(s)
    case FetchFulfilled(requests) => Slice.ListLoaded(s, requests)
    case FetchRejected(reason) => Slice.ListRejected(s, reason)
    case ApprovePending => Slice.ListPending(s)
    case ApproveFulfilled(id) => Settled(s, id)
    case ApproveRejected(reason) => Slice.ListRejected(s, reason)
    case RejectPending => Slice.ListPending(s)
    case RejectFulfilled(id) => Settled(s, id)
    case RejectRejected(reason) => Slice.ListRejected(s, reason)
    case LogoutFulfilled => Initial()
  }

  /** Approving and rejecting a request have the same effect on the slice. */
  lemma ApproveAndRejectAgree(s: State, id: int)
    ensures Reduce(s, ApproveFulfilled(id)) == Reduce(s, RejectFulfilled(id))
  {
  }
}

/** `ContractListPage`: one page of contracts, addressed by the `page` query parameter, with a
    terminate action guarded by a confirmation modal and a badge counting pending requests. */
module ContractListPage {
  import opened Wrappers
  import opened Toasts
  import Strings
  import JsValues
  import SearchParams
  import Contracts
  import UserRequests

  /** The argument of `fetchContracts`. */
  datatype FetchRequest = FetchRequest(page: JsValues.JsNumber, size: int)

  /** The fetch effect: the current page, ten contracts per page. */
  function ContractFetch(p: SearchParams.Params, toNumber: string -> JsValues.JsNumber): (r: FetchRequest)
    ensures r.size == 10
    ensures SearchParams.Get(p, "page").None? ==> r.page == JsValues.FromInt(0)
    ensures r.page == SearchParams.PageNumber(p, toNumber)
  {
    FetchRequest(SearchParams.PageNumber(p, toNumber), 10)
  }

  /** `handlePageChange(n)`: the query string is replaced by `page` alone, so any other
      parameter is dropped. */
  function PageChanged(n: int): (r: SearchParams.Params)
    ensures SearchParams.Get(r, "page") == Some(Strings.IntToString(n))
    ensures forall other :: other != "page" ==> !SearchParams.HasKey(r, other)
  {
    [("page", Strings.IntToString(n))]
  }

  /** Moving to page `n` and reading the page back gives `n`, provided `Number` reads
      decimal digits as their value. */
  lemma PageChangeRoundTrip(n: nat, toNumber: string -> JsValues.JsNumber)
    requires toNumber(Strings.NatToString(n)) == JsValues.FromInt(n)
    ensures ContractFetch(PageChanged(n), toNumber) == FetchRequest(JsValues.FromInt(n), 10)
  {
  }

  /** The buttons in a contract's actions cell. */
  datatype RowAction = ViewDetails(to: string) | Terminate(contract: Contracts.Contract)

  /** The actions cell: always a link to the contract's page, and a terminate button exactly
      for an active contract. */
  function RowActions(c: Contracts.Contract): (r: seq<RowAction>)
    ensures |r| >= 1 && r[0] == ViewDetails("/contracts/" + Strings.IntToString(c.id))
    ensures Terminate(c) in r <==> c.status == Contracts.Active
    ensures forall i :: 1 <= i < |r| ==> r[i] == Terminate(c)
  {
    [ViewDetails("/contracts/" + Strings.IntToString(c.id))]
      + (if c.status == Contracts.Active then [Terminate(c)] else [])
  }

  /** `handleConfirmTerminate` before the call: with a selected contract, `terminateContract`
      is dispatched with its id; without one, nothing happens. */
  function TerminateCall(selected: Option<Contracts.Contract>): (r: Option<int>)
    ensures r.Some? <==> selected.Some?
    ensures r.Some? ==> r.value == selected.value.id
  {
    match selected
    case Some(c) => Some(c.id)
    case None => None
  }

  /** What follows the settled termination: the modal's open flag, the toast, and the refetch. */
  datatype AfterTerminate = AfterTerminate(modalOpen: bool, toast: Toast, refetch: Option<FetchRequest>)

  /** After the termination settles the modal closes on both paths; only a success refetches,
      and it refetches the page that was showing. */
  function TerminateSettled(outcome: Settled, c: Contracts.Contract, p: SearchParams.Params,
                            toNumber: string -> JsValues.JsNumber): (r: AfterTerminate)
    ensures !r.modalOpen
    ensures r.refetch.Some? <==> outcome.Resolved?
    ensures r.refetch.Some? ==> r.refetch.value == ContractFetch(p, toNumber) && r.refetch.value.size == 10
    ensures r.toast.Success? <==> outcome.Resolved?
    ensures outcome.Resolved? ==> r.toast == Success("Đã chấm dứt hợp đồng cho phòng \"" + c.roomNumber + "\"")
    ensures outcome.Rejected? ==> r.toast == Failure(outcome.reason)
  {
    match outcome
    case Resolved =>
      AfterTerminate(false, Success("Đã chấm dứt hợp đồng cho phòng \"" + c.roomNumber + "\""),
                     Some(ContractFetch(p, toNumber)))
    case Rejected(reason) => AfterTerminate(false, Failure(reason), None)
  }

  /** The pending-requests badge: the number of requests, shown only when there is one. */
  function RequestsBadge(pending: seq<UserRequests.UserRequest>): (r: Option<int>)
    ensures r.Some? <==> |pending| > 0
    ensures r.Some? ==> r.value == |pending| && r.value >= 1
  {
    if |pending| > 0 then Some(|pending|) else None
  }
}

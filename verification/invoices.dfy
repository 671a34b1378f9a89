/** The invoices slice and its selectors. */
module Invoices {
  import opened Wrappers
  import IdList
  import Slice

  /** `InvoiceStatus`, in declaration order. */
  datatype InvoiceStatus = Pending | WaitingConfirmation | Paid | Overdue

  /** The enum's string value, as sent to the backend and listed in the status filter. */
  function StatusName(st: InvoiceStatus): string
  {
    match st
    case Pending => "PENDING"
    case WaitingConfirmation => "WAITING_CONFIRMATION"
    case Paid => "PAID"
    case Overdue => "OVERDUE"
  }

  /** `Object.values(InvoiceStatus)`: the four values in declaration order. */
  function AllStatuses(): (r: seq<InvoiceStatus>)
    ensures |r| == 4
    ensures Pending in r && WaitingConfirmation in r && Paid in r && Overdue in r
    ensures forall i, j :: 0 <= i < j < |r| ==> r[i] != r[j]
  {
    [Pending, WaitingConfirmation, Paid, Overdue]
  }

  datatype ServiceType = Electricity | Water | Internet | Cleaning | Parking | Other

  datatype InvoiceDetail = InvoiceDetail(id: int, serviceType: ServiceType, description: string, amount: int)

  datatype Invoice = Invoice(
    id: int,
    contractId: int,
    roomId: int,
    roomNumber: string,
    tenantId: int,
    tenantName: string,
    issueDate: string,
    dueDate: string,
    periodMonth: int,
    periodYear: int,
    totalAmount: int,
    status: InvoiceStatus,
    paymentReceiptUrl: Option<string>,
    paymentDate: Option<string>,
    details: seq<InvoiceDetail>)

  function IdOf(inv: Invoice): int { inv.id }

  type State = Slice.Paged<Invoice>

  datatype Action =
    | ResetStatus
    | FetchPending
    | FetchFulfilled(page: Slice.Page<Invoice>)
    | FetchRejected(reason: Option<string>)
    | FetchByIdFulfilled(fetched: Invoice)
    | ConfirmFulfilled(confirmed: Invoice)
    | ConfirmPending
    | ConfirmRejected(reason: Option<string>)

  function Initial(): State { Slice.InitialPaged() }

  /** `confirmInvoicePayment.fulfilled`: replace a listed invoice (never append), and the
      status becomes succeeded. */
  function Confirmed(s: State, inv: Invoice): (r: State)
    ensures IdList.ReplacedFirstMatch(s.items, r.items, inv, IdOf) && |r.items| == |s.items|
    ensures r.status == Slice.Succeeded
    ensures r == s.(items := r.items, status := r.status)
  {
    s.(status := Slice.Succeeded, items := IdList.ReplaceFirst(s.items, inv, IdOf))
  }

  /** `confirmInvoicePayment.rejected`: only the error is recorded; the status is not set to
      failed. */
  function ConfirmFailed(s: State, reason: Option<string>): (r: State)
    ensures r.error == reason
    ensures r == s.(error := r.error)
  {
    s.(error := reason)
  }

  /** `invoicesSlice.reducer`. The confirm pending handler is the identity; only a page load or
      a fetch by id can lengthen the list; the status never changes on a confirm rejection. */
  function Reduce(s: State, a: Action): (r: State)
    ensures a.ConfirmPending? ==> r == s
    ensures |r.items| > |s.items| ==> a.FetchFulfilled? || a.FetchByIdFulfilled?
    ensures a.ConfirmRejected? ==> r.status == s.status && r.items == s.items
    ensures !a.FetchFulfilled? ==> Slice.PaginationOf(r) == Slice.PaginationOf(s)
  {
    match a
    case ResetStatus => Slice.ResetStatus(s)
    case FetchPending => Slice.Pending(s)
    case FetchFulfilled(p) => Slice.PageLoaded(s, p)
    case FetchRejected(reason) => Slice.Rejected(s, reason)
    case FetchByIdFulfilled(inv) => Slice.FetchedByIdSucceeded(s, inv, IdOf)
    case ConfirmFulfilled(inv) => Confirmed(s, inv)
    case ConfirmPending => s
    case ConfirmRejected(reason) => ConfirmFailed(s, reason)
  }

  // ---------------------------------------------------------------- selectors

  /** `selectAllInvoices`. */
  function SelectAll(s: State): seq<Invoice> { s.items }

  /** `selectInvoicesStatus`. */
  function SelectStatus(s: State): Slice.Status { s.status }

  /** `selectInvoiceById(id)`: the first listed invoice with that id, if any. */
  function SelectById(s: State, id: int): Option<Invoice>
  {
    Slice.SelectById(s, id, IdOf)
  }

  /** `selectInvoicesPagination`. */
  function SelectPagination(s: State): Slice.Pagination
  {
    Slice.SelectPagination(s)
  }
}

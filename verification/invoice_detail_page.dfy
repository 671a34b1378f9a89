/** `InvoiceDetailPage`: one invoice, looked up in the store by the `:id` route parameter,
    with the payment panel whose content depends on the invoice's status. */
module InvoiceDetailPage {
  import opened Wrappers
  import opened Toasts
  import JsValues
  import IdList
  import Slice
  import Invoices

  /** `selectInvoiceById(Number(id))`: the first invoice whose id is the number `n`. */
  function Lookup(s: Invoices.State, n: JsValues.JsNumber): (r: Option<Invoices.Invoice>)
    ensures r.Some? ==> JsValues.FromInt(r.value.id) == n
    ensures r.Some? ==> r == Invoices.SelectById(s, r.value.id)
    ensures r.None? <==> forall k :: 0 <= k < |s.items| ==> JsValues.FromInt(s.items[k].id) != n
  {
    IdList.FindByNumber(s.items, n, Invoices.IdOf)
  }

  /** The fetch effect: `fetchInvoiceById(invoiceId)` is dispatched exactly when the invoice is
      not in the store. */
  function FetchOnMount(s: Invoices.State, n: JsValues.JsNumber): (r: Option<JsValues.JsNumber>)
    ensures r.Some? <==> Lookup(s, n).None?
    ensures r.Some? ==> r.value == n
  {
    if Lookup(s, n).None? then Some(n) else None
  }

  /** The one status line under the payment panel, if any. */
  datatype Message = PaidOn(date: Option<string>) | AwaitingPayment | PastDue

  /** The payment panel: the receipt image, a status message and the confirm button (with its
      loading flag). */
  datatype Panel = Panel(receipt: Option<Option<string>>, message: Option<Message>, confirmButton: Option<bool>)

  datatype View = Spinner | NotFound | Details(invoice: Invoices.Invoice, panel: Panel)

  /** The payment panel for an invoice. The receipt and the confirm button appear exactly for
      an invoice waiting for confirmation, which is also exactly when no message is shown;
      every other status has its own message. */
  function PaymentPanel(inv: Invoices.Invoice, isConfirming: bool): (p: Panel)
    ensures p.receipt.Some? <==> inv.status == Invoices.WaitingConfirmation
    ensures p.receipt.Some? ==> p.receipt.value == inv.paymentReceiptUrl
    ensures p.confirmButton.Some? <==> inv.status == Invoices.WaitingConfirmation
    ensures p.confirmButton.Some? ==> p.confirmButton.value == isConfirming
    ensures p.message.None? <==> inv.status == Invoices.WaitingConfirmation
    ensures p.message == Some(AwaitingPayment) <==> inv.status == Invoices.Pending
    ensures p.message == Some(PastDue) <==> inv.status == Invoices.Overdue
    ensures p.message == Some(PaidOn(inv.paymentDate)) <==> inv.status == Invoices.Paid
  {
    var waiting := inv.status == Invoices.WaitingConfirmation;
    Panel(
      if waiting then Some(inv.paymentReceiptUrl) else None,
      match inv.status
      case Paid => Some(PaidOn(inv.paymentDate))
      case Pending => Some(AwaitingPayment)
      case Overdue => Some(PastDue)
      case WaitingConfirmation => None,
      if waiting then Some(isConfirming) else None)
  }

  /** What the page renders: a spinner while the missing invoice is loading, "not found" when
      it is missing otherwise, and the details when it is in the store. */
  function Render(s: Invoices.State, n: JsValues.JsNumber, isConfirming: bool): (v: View)
    ensures v.Spinner? <==> Lookup(s, n).None? && s.status == Slice.Loading
    ensures v.NotFound? <==> Lookup(s, n).None? && s.status != Slice.Loading
    ensures v.Details? <==> Lookup(s, n).Some?
    ensures v.Details? ==> Lookup(s, n) == Some(v.invoice) && v.panel == PaymentPanel(v.invoice, isConfirming)
  {
    match Lookup(s, n)
    case None => if s.status == Slice.Loading then Spinner else NotFound
    case Some(inv) => Details(inv, PaymentPanel(inv, isConfirming))
  }

  /** `handleConfirmPayment` once the call has settled: a success toast or the rejection's
      message, and `isConfirming` back to false on both paths. */
  function ConfirmSettled(outcome: Settled): (r: (bool, Toast))
    ensures !r.0
    ensures outcome.Resolved? <==> r.1.Success?
    ensures outcome.Resolved? ==> r.1 == Success("Xác nhận thanh toán thành công!")
    ensures outcome.Rejected? ==> r.1 == Failure(outcome.reason)
  {
    match outcome
    case Resolved => (false, Success("Xác nhận thanh toán thành công!"))
    case Rejected(reason) => (false, Failure(reason))
  }

  /** Once the backend confirms a listed invoice as paid, the page for that invoice shows it
      with the paid message and without the confirm button or receipt. */
  lemma ConfirmedShowsPaid(s: Invoices.State, inv: Invoices.Invoice, isConfirming: bool)
    requires IdList.HasId(s.items, inv.id, Invoices.IdOf)
    requires inv.status == Invoices.Paid
    ensures Render(Invoices.Confirmed(s, inv), JsValues.FromInt(inv.id), isConfirming)
              == Details(inv, Panel(None, Some(PaidOn(inv.paymentDate)), None))
  {
    var r := Invoices.Confirmed(s, inv);
    assert IdList.Upsert(s.items, inv, Invoices.IdOf) == r.items;
    JsValues.StrictEqualsInt(JsValues.FromInt(inv.id), inv.id);
  }

  /** A confirmation the store does not list changes nothing the page shows. */
  lemma ConfirmOfUnlistedIsInvisible(s: Invoices.State, inv: Invoices.Invoice, n: JsValues.JsNumber, isConfirming: bool)
    requires !IdList.HasId(s.items, inv.id, Invoices.IdOf)
    requires s.status != Slice.Loading
    ensures Render(Invoices.Confirmed(s, inv), n, isConfirming) == Render(s, n, isConfirming)
  {
  }
}

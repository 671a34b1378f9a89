/** `InvoiceListPage`: the invoice filters live in the URL's query string (`page`,
    `buildingId`, `status`), and the page derives its fetch from them. */
module InvoiceListPage {
  import opened Wrappers
  import Strings
  import JsValues
  import SearchParams
  import Slice
  import Buildings
  import Invoices

  /** `searchParams.get(key) || undefined`: a present, non-empty value. */
  function Filter(p: SearchParams.Params, key: string): (r: Option<string>)
    ensures r.Some? ==> r.value != "" && SearchParams.Get(p, key) == r
    ensures r.None? ==> SearchParams.Get(p, key) in {None, Some("")}
  {
    match SearchParams.Get(p, key)
    case Some(v) => if v != "" then Some(v) else None
    case None => None
  }

  /** The argument of `fetchInvoices`. */
  datatype FetchRequest = FetchRequest(page: JsValues.JsNumber, size: int, buildingId: JsValues.JsNumber, status: Option<string>)

  /** The fetch effect: invoices are requested only once a building is chosen, ten per page,
      for the current page and status filter. */
  function InvoiceFetch(p: SearchParams.Params, toNumber: string -> JsValues.JsNumber): (r: Option<FetchRequest>)
    ensures r.Some? <==> Filter(p, "buildingId").Some?
    ensures r.Some? ==> r.value.size == 10 && r.value.page == SearchParams.PageNumber(p, toNumber)
                        && r.value.buildingId == toNumber(Filter(p, "buildingId").value)
                        && r.value.status == Filter(p, "status")
  {
    match Filter(p, "buildingId")
    case Some(b) => Some(FetchRequest(SearchParams.PageNumber(p, toNumber), 10, toNumber(b), Filter(p, "status")))
    case None => None
  }

  /** The auto-select effect: once the buildings have loaded and none is chosen, the first
      building's id is written into the query string. */
  function AutoSelectBuilding(p: SearchParams.Params, buildingsStatus: Slice.Status, buildings: seq<Buildings.Building>)
    : (r: Option<SearchParams.Params>)
    ensures r.Some? <==> buildingsStatus == Slice.Succeeded && |buildings| > 0 && Filter(p, "buildingId").None?
    ensures r.Some? ==> SearchParams.Get(r.value, "buildingId") == Some(Strings.IntToString(buildings[0].id))
  {
    if buildingsStatus == Slice.Succeeded && |buildings| > 0 && Filter(p, "buildingId").None? then
      Some(SearchParams.Set(p, "buildingId", Strings.IntToString(buildings[0].id)))
    else None
  }

  /** The buildings are fetched (first hundred) while that slice is idle. */
  function BuildingsFetchSize(buildingsStatus: Slice.Status): Option<int>
  {
    if buildingsStatus == Slice.Idle then Some(100) else None
  }

  /** `handleFilterChange(key, value)`: a non-empty value is set, an empty one deletes the key,
      the page always goes back to "0", and every other parameter is kept. */
  function FilterChanged(p: SearchParams.Params, key: string, value: string): (r: SearchParams.Params)
    ensures SearchParams.Get(r, "page") == Some("0")
    ensures key != "page" ==> SearchParams.Get(r, key) == (if value != "" then Some(value) else None)
    ensures forall other :: other != key && other != "page" ==>
              SearchParams.Get(r, other) == SearchParams.Get(p, other)
  {
    var q := if value != "" then SearchParams.Set(p, key, value) else SearchParams.Delete(p, key);
    FilterChangedKeeps(p, q, key, value);
    SearchParams.Set(q, "page", "0")
  }

  lemma FilterChangedKeeps(p: SearchParams.Params, q: SearchParams.Params, key: string, value: string)
    requires q == if value != "" then SearchParams.Set(p, key, value) else SearchParams.Delete(p, key)
    ensures key != "page" ==>
              SearchParams.Get(SearchParams.Set(q, "page", "0"), key) == (if value != "" then Some(value) else None)
    ensures forall other :: other != key && other != "page" ==>
              SearchParams.Get(SearchParams.Set(q, "page", "0"), other) == SearchParams.Get(p, other)
  {
    var r := SearchParams.Set(q, "page", "0");
    forall other | other != key && other != "page"
      ensures SearchParams.Get(r, other) == SearchParams.Get(p, other)
    {
      SearchParams.SetKeepsOthers(q, "page", "0", other);
      if value != "" {
        SearchParams.SetKeepsOthers(p, key, value, other);
      } else {
        SearchParams.DeleteKeepsOthers(p, key, other);
      }
    }
    if key != "page" {
      SearchParams.SetKeepsOthers(q, "page", "0", key);
    }
  }

  /** `handlePageChange(n)`: only `page` changes, to the decimal form of `n`. */
  function PageChanged(p: SearchParams.Params, n: int): (r: SearchParams.Params)
    ensures SearchParams.Get(r, "page") == Some(Strings.IntToString(n))
    ensures forall other :: other != "page" ==> SearchParams.Get(r, other) == SearchParams.Get(p, other)
  {
    SearchParams.SetKeepsAllOthers(p, "page", Strings.IntToString(n));
    SearchParams.Set(p, "page", Strings.IntToString(n))
  }

  /** Moving to page `n` and reading the page back gives `n`, provided `Number` reads
      decimal digits as their value. */
  lemma PageChangeRoundTrip(p: SearchParams.Params, n: nat, toNumber: string -> JsValues.JsNumber)
    requires toNumber(Strings.NatToString(n)) == JsValues.FromInt(n)
    ensures SearchParams.PageNumber(PageChanged(p, n), toNumber) == JsValues.FromInt(n)
  {
  }

  /** After a filter change the page reads back as 0. */
  lemma FilterChangeResetsPage(p: SearchParams.Params, key: string, value: string, toNumber: string -> JsValues.JsNumber)
    requires toNumber("0") == JsValues.FromInt(0)
    ensures SearchParams.PageNumber(FilterChanged(p, key, value), toNumber) == JsValues.FromInt(0)
  {
  }

  /** The status filter's options: one per invoice status, value and label both its name. */
  function StatusOptions(): (opts: seq<(string, string)>)
    ensures |opts| == 4
    ensures forall i :: 0 <= i < |opts| ==> opts[i].0 == opts[i].1
  {
    var all := Invoices.AllStatuses();
    seq(4, i requires 0 <= i < 4 => (Invoices.StatusName(all[i]), Invoices.StatusName(all[i])))
  }

  /** Every invoice status is offered in the filter. */
  lemma StatusOptionsComplete(st: Invoices.InvoiceStatus)
    ensures (Invoices.StatusName(st), Invoices.StatusName(st)) in StatusOptions()
  {
    var opts := StatusOptions();
    match st
    case Pending => assert opts[0] == ("PENDING", "PENDING");
    case WaitingConfirmation => assert opts[1] == ("WAITING_CONFIRMATION", "WAITING_CONFIRMATION");
    case Paid => assert opts[2] == ("PAID", "PAID");
    case Overdue => assert opts[3] == ("OVERDUE", "OVERDUE");
  }
}

/** The state shapes every Redux slice of the console shares, and the handlers that several
    slices use verbatim. A slice holds an ordered list of records, a request `status` and the
    last `error`; the paged slices add the three counters of the backend's page envelope. */
module Slice {
  import opened Wrappers
  import Seqs
  import IdList

  /** `'idle' | 'loading' | 'succeeded' | 'failed'`. */
  datatype Status = Idle | Loading | Succeeded | Failed

  /** The backend's page envelope `{content, number, totalPages, totalElements}`. */
  datatype Page<T> = Page(content: seq<T>, number: int, totalPages: int, totalElements: int)

  /** A slice with a page of records and its counters (buildings, rooms, tenants, contracts,
      invoices). */
  datatype Paged<T> = Paged(
    items: seq<T>,
    currentPage: int,
    totalPages: int,
    totalElements: int,
    status: Status,
    error: Option<string>)

  /** A slice with a plain list of records (incidents, meter readings, user requests, settings). */
  datatype Listed<T> = Listed(items: seq<T>, status: Status, error: Option<string>)

  /** The pagination selectors' result `{currentPage, totalPages, totalElements}`. */
  datatype Pagination = Pagination(currentPage: int, totalPages: int, totalElements: int)

  function PaginationOf<T>(s: Paged<T>): Pagination
  {
    Pagination(s.currentPage, s.totalPages, s.totalElements)
  }

  /** The initial state of every paged slice: no records, zero counters, idle, no error. */
  function InitialPaged<T>(): Paged<T>
  {
    Paged([], 0, 0, 0, Idle, None)
  }

  /** The initial state of every list slice. */
  function InitialListed<T>(): Listed<T>
  {
    Listed([], Idle, None)
  }

  /** `r` shows page `p`: its records in order and its three counters. */
  ghost predicate ShowsPage<T>(r: Paged<T>, p: Page<T>)
  {
    r.items == p.content && r.currentPage == p.number
    && r.totalPages == p.totalPages && r.totalElements == p.totalElements
  }

  // ---------------------------------------------------------------- paged handlers

  /** `resetStatus`: back to idle with no error; the records and counters stay. */
  function ResetStatus<T>(s: Paged<T>): (r: Paged<T>)
    ensures r.status == Idle && r.error == None
    ensures r == s.(status := r.status, error := r.error)
  {
    s.(status := Idle, error := None)
  }

  /** A list fetch's `pending`: loading, and nothing else changes. */
  function Pending<T>(s: Paged<T>): (r: Paged<T>)
    ensures r.status == Loading
    ensures r == s.(status := r.status)
  {
    s.(status := Loading)
  }

  /** A list fetch's `fulfilled`: the slice shows exactly the received page; the error stays. */
  function PageLoaded<T>(s: Paged<T>, p: Page<T>): (r: Paged<T>)
    ensures ShowsPage(r, p)
    ensures r.status == Succeeded && r.error == s.error
  {
    s.(status := Succeeded, items := p.content, currentPage := p.number,
       totalPages := p.totalPages, totalElements := p.totalElements)
  }

  /** A `rejected` handler: failed with the rejection's payload as the error; records and
      counters stay. */
  function Rejected<T>(s: Paged<T>, reason: Option<string>): (r: Paged<T>)
    ensures r.status == Failed && r.error == reason
    ensures r == s.(status := r.status, error := r.error)
  {
    s.(status := Failed, error := reason)
  }

  /** A create's `fulfilled` in the buildings and rooms slices: the new record goes on the end,
      the total grows by one, and the status becomes succeeded. */
  function Created<T>(s: Paged<T>, x: T): (r: Paged<T>)
    ensures Seqs.Appended(s.items, r.items, x)
    ensures r.totalElements == s.totalElements + 1 && r.status == Succeeded
    ensures r == s.(items := r.items, totalElements := r.totalElements, status := r.status)
  {
    s.(items := s.items + [x], totalElements := s.totalElements + 1, status := Succeeded)
  }

  /** An update's `fulfilled`: the first record with the payload's id is replaced in place, an
      unknown id changes no record, and the status becomes succeeded. */
  function Updated<T>(s: Paged<T>, x: T, idOf: T -> int): (r: Paged<T>)
    ensures IdList.ReplacedFirstMatch(s.items, r.items, x, idOf) && |r.items| == |s.items|
    ensures r.status == Succeeded
    ensures r == s.(items := r.items, status := r.status)
  {
    s.(items := IdList.ReplaceFirst(s.items, x, idOf), status := Succeeded)
  }

  /** A delete's `fulfilled`: every record with the id is filtered out, the others keep their
      order, and the total drops by one even when the id was not listed. */
  function Deleted<T>(s: Paged<T>, id: int, idOf: T -> int): (r: Paged<T>)
    ensures IdList.RemovedId(s.items, r.items, id, idOf)
    ensures r.totalElements == s.totalElements - 1 && r.status == Succeeded
    ensures r == s.(items := r.items, totalElements := r.totalElements, status := r.status)
  {
    s.(items := IdList.RemoveId(s.items, id, idOf), totalElements := s.totalElements - 1,
       status := Succeeded)
  }

  /** A fetch-by-id's `fulfilled` in the contracts and invoices slices: the record is upserted
      and the status becomes succeeded; counters and error stay. */
  function FetchedByIdSucceeded<T>(s: Paged<T>, x: T, idOf: T -> int): (r: Paged<T>)
    ensures IdList.Upserted(s.items, r.items, x, idOf)
    ensures IdList.Find(r.items, idOf(x), idOf) == Some(x)
    ensures r.status == Succeeded
    ensures r == s.(items := r.items, status := r.status)
  {
    s.(status := Succeeded, items := IdList.Upsert(s.items, x, idOf))
  }

  /** A fetch-by-id's `fulfilled` in the buildings, rooms and tenants slices: the record is
      upserted, so afterwards the list holds it; status, counters and error stay. */
  function FetchedById<T>(s: Paged<T>, x: T, idOf: T -> int): (r: Paged<T>)
    ensures IdList.Upserted(s.items, r.items, x, idOf)
    ensures IdList.Find(r.items, idOf(x), idOf) == Some(x)
    ensures r == s.(items := r.items)
  {
    s.(items := IdList.Upsert(s.items, x, idOf))
  }

  /** The by-id selectors `selectContractById(id)` and `selectInvoiceById(id)`: the first
      listed record with that id, if any. */
  function SelectById<T>(s: Paged<T>, id: int, idOf: T -> int): (r: Option<T>)
    ensures r.None? <==> !IdList.HasId(s.items, id, idOf)
    ensures r.Some? ==> exists k :: IdList.IsFirstMatch(s.items, k, id, idOf) && s.items[k] == r.value
  {
    IdList.Find(s.items, id, idOf)
  }

  /** The pagination selectors: the three counters, verbatim. */
  function SelectPagination<T>(s: Paged<T>): (p: Pagination)
    ensures p.currentPage == s.currentPage && p.totalPages == s.totalPages
    ensures p.totalElements == s.totalElements
  {
    PaginationOf(s)
  }

  // ---------------------------------------------------------------- list handlers

  /** `resetStatus` of a list slice: idle with no error; the records stay. */
  function ListResetStatus<T>(s: Listed<T>): (r: Listed<T>)
    ensures r.status == Idle && r.error == None
    ensures r.items == s.items
  {
    s.(status := Idle, error := None)
  }

  /** `pending` of a list slice that keeps its records while loading. The same transition as
      `Pending`, written again because `Listed` and `Paged` are different record types. */
  function ListPending<T>(s: Listed<T>): (r: Listed<T>)
    ensures r.status == Loading
    ensures r == s.(status := r.status)
  {
    s.(status := Loading)
  }

  /** `pending` of a list slice that drops its old records when a new fetch starts. */
  function ListPendingCleared<T>(s: Listed<T>): (r: Listed<T>)
    ensures r.status == Loading && r.items == []
    ensures r.error == s.error
  {
    s.(status := Loading, items := [])
  }

  /** `fulfilled` of a list fetch: exactly the received records, in order; the error stays. */
  function ListLoaded<T>(s: Listed<T>, items: seq<T>): (r: Listed<T>)
    ensures r.items == items && r.status == Succeeded
    ensures r.error == s.error
  {
    s.(status := Succeeded, items := items)
  }

  /** `rejected` of a list slice: failed with the payload as the error; the records stay. */
  function ListRejected<T>(s: Listed<T>, reason: Option<string>): (r: Listed<T>)
    ensures r.status == Failed && r.error == reason
    ensures r.items == s.items
  {
    s.(status := Failed, error := reason)
  }

  /** The clear reducers of the list slices: no records, idle and no error. */
  function ListCleared<T>(s: Listed<T>): (r: Listed<T>)
    ensures r == InitialListed()
  {
    Listed([], Idle, None)
  }
}

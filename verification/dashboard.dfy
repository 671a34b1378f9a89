/** The dashboard slice: the statistics shown on the dashboard page. */
module Dashboard {
  import opened Wrappers
  import Slice

  datatype DashboardStats = DashboardStats(
    totalBuildings: int,
    totalRooms: int,
    rentedRooms: int,
    availableRooms: int,
    totalTenants: int,
    expiringContracts: int)

  datatype RevenueByMonth = RevenueByMonth(month: string, totalRevenue: int)

  /** A dashboard quick-list entry. */
  datatype QuickListItem = QuickListItem(id: int, title: string, subtitle: string, date: string)

  datatype DashboardData = DashboardData(
    stats: DashboardStats,
    revenueByMonth: seq<RevenueByMonth>,
    expiringContracts: seq<QuickListItem>,
    pendingIncidents: seq<QuickListItem>)

  datatype State = State(data: Option<DashboardData>, status: Slice.Status, error: Option<string>)

  /** No data yet, idle, no error. */
  function Initial(): State
  {
    State(None, Slice.Idle, None)
  }

  datatype Action =
    | FetchPending
    | FetchFulfilled(payload: DashboardData)
    | FetchRejected(reason: Option<string>)

  /** `dashboardSlice.reducer`: a new fetch clears the error but keeps the old data, success
      replaces the data, and failure records the error and keeps the data. */
  function Reduce(s: State, a: Action): (r: State)
    ensures a.FetchPending? ==> r.status == Slice.Loading && r.error == None && r.data == s.data
    ensures a.FetchFulfilled? ==>
              r.status == Slice.Succeeded && r.data == Some(a.payload) && r.error == s.error
    ensures a.FetchRejected? ==>
              r.status == Slice.Failed && r.error == a.reason && r.data == s.data
  {
    match a
    case FetchPending => s.(status := Slice.Loading, error := None)
    case FetchFulfilled(d) => s.(status := Slice.Succeeded, data := Some(d))
    case FetchRejected(reason) => s.(status := Slice.Failed, error := reason)
  }
}

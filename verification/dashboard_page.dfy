/** `DashboardPage`: the statistic cards and the two quick lists, fed by the dashboard slice. */
module DashboardPage {
  import opened Wrappers
  import Strings
  import Slice
  import Dashboard
  import QuickList

  /** The cards show their loading state until the first fetch has settled. */
  predicate IsLoading(status: Slice.Status)
  {
    status == Slice.Idle || status == Slice.Loading
  }

  /** The fetch effect: the dashboard is fetched only while the slice is idle. */
  function FetchOnStatus(status: Slice.Status): (fetch: bool)
    ensures fetch ==> IsLoading(status)
    ensures fetch <==> status == Slice.Idle
  {
    status == Slice.Idle
  }

  /** The rooms card: "rented / total" when there are rooms, otherwise "0 / 0". */
  function RoomRatio(data: Option<Dashboard.DashboardData>): (r: string)
    ensures data.None? || data.value.stats.totalRooms <= 0 ==> r == "0 / 0"
    ensures data.Some? && data.value.stats.totalRooms > 0 ==>
              Strings.Split(r, ' ') == [Strings.IntToString(data.value.stats.rentedRooms), "/",
                                        Strings.IntToString(data.value.stats.totalRooms)]
  {
    if data.Some? && data.value.stats.totalRooms > 0 then
      var rented := Strings.IntToString(data.value.stats.rentedRooms);
      var total := Strings.IntToString(data.value.stats.totalRooms);
      RatioFields(rented, total);
      rented + " / " + total
    else "0 / 0"
  }

  /** `a + " / " + b` splits on spaces into `a`, `/` and `b` when neither has a space. */
  lemma RatioFields(a: string, b: string)
    requires ' ' !in a && ' ' !in b
    ensures Strings.Split(a + " / " + b, ' ') == [a, "/", b]
  {
    assert a + " / " + b == a + [' '] + ("/" + [' '] + b);
    Strings.SplitAfterPiece(a, "/" + [' '] + b, ' ');
    Strings.SplitAfterPiece("/", b, ' ');
    Strings.SplitNoSeparator(b, ' ');
  }

  /** The values of the three numeric statistic cards: buildings, tenants and expiring
      contracts, each 0 while there is no data. */
  function StatValues(data: Option<Dashboard.DashboardData>): (v: (int, int, int))
    ensures data.None? ==> v == (0, 0, 0)
    ensures data.Some? ==> v == (data.value.stats.totalBuildings, data.value.stats.totalTenants,
                                  data.value.stats.expiringContracts)
  {
    match data
    case None => (0, 0, 0)
    case Some(d) => (d.stats.totalBuildings, d.stats.totalTenants, d.stats.expiringContracts)
  }

  /** The two quick lists: pending incidents linking under /incidents and expiring contracts
      under /contracts, both loading while the page is. */
  function QuickLists(data: Option<Dashboard.DashboardData>, status: Slice.Status): (r: (QuickList.Body, QuickList.Body))
    ensures IsLoading(status) ==> r.0.Skeletons? && r.1.Skeletons?
    ensures data.None? && !IsLoading(status) ==> r.0.NoData? && r.1.NoData?
    ensures data.Some? ==>
              r.0 == QuickList.Render(Some(data.value.pendingIncidents), "/incidents", IsLoading(status))
              && r.1 == QuickList.Render(Some(data.value.expiringContracts), "/contracts", IsLoading(status))
  {
    var incidents := if data.Some? then Some(data.value.pendingIncidents) else None;
    var contracts := if data.Some? then Some(data.value.expiringContracts) else None;
    (QuickList.Render(incidents, "/incidents", IsLoading(status)),
     QuickList.Render(contracts, "/contracts", IsLoading(status)))
  }

  /** Once the fetch has succeeded the page stops loading and shows the fetched rooms. */
  lemma FetchedDashboardShows(s: Dashboard.State, d: Dashboard.DashboardData)
    requires d.stats.totalRooms > 0
    ensures var r := Dashboard.Reduce(s, Dashboard.FetchFulfilled(d));
            !IsLoading(r.status) && !FetchOnStatus(r.status)
            && Strings.Split(RoomRatio(r.data), ' ')[2] == Strings.IntToString(d.stats.totalRooms)
  {
  }
}

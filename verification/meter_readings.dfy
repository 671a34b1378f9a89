/** The meter-readings slice: the reading history of the room being viewed. */
module MeterReadings {
  import opened Wrappers
  import Seqs
  import Slice

  datatype MeterReading = MeterReading(
    id: int,
    roomId: int,
    readingMonth: int,
    readingYear: int,
    oldElectricNumber: int,
    newElectricNumber: int,
    electricConsumption: int,
    oldWaterNumber: int,
    newWaterNumber: int,
    waterConsumption: int,
    readingDate: string,
    electricImageUrl: Option<string>,
    waterImageUrl: Option<string>,
    invoiceGenerated: Option<bool>)

  type State = Slice.Listed<MeterReading>

  datatype Action =
    | ClearReadings
    | FetchPending
    | FetchFulfilled(readings: seq<MeterReading>)
    | FetchRejected(reason: Option<string>)
    | RecordPending
    | RecordFulfilled(recorded: MeterReading)
    | RecordRejected(reason: Option<string>)

  function Initial(): State { Slice.InitialListed() }

  /** The list shown is a history of the room `roomId` (possibly empty). */
  ghost predicate HistoryOf(items: seq<MeterReading>, roomId: int)
  {
    forall i :: 0 <= i < |items| ==> items[i].roomId == roomId
  }

  /** `recordMeterReading.fulfilled`: the new reading goes in front exactly when the list is
      empty or its first reading is of the same room; otherwise the list is left alone. */
  function Recorded(s: State, m: MeterReading): (r: State)
    ensures |s.items| == 0 || s.items[0].roomId == m.roomId ==> Seqs.Prepended(s.items, r.items, m)
    ensures |s.items| > 0 && s.items[0].roomId != m.roomId ==> r.items == s.items
    ensures r.status == Slice.Succeeded && r.error == s.error
  {
    var items := if |s.items| == 0 || s.items[0].roomId == m.roomId then [m] + s.items else s.items;
    s.(status := Slice.Succeeded, items := items)
  }

  /** Recording keeps the list a single room's history: a reading of that room is put in
      front, a reading of another room is dropped unless the list was empty. */
  lemma RecordedKeepsHistory(s: State, roomId: int, m: MeterReading)
    requires HistoryOf(s.items, roomId)
    ensures m.roomId == roomId ==> HistoryOf(Recorded(s, m).items, roomId)
    ensures |s.items| > 0 ==> HistoryOf(Recorded(s, m).items, roomId)
    ensures |s.items| == 0 ==> HistoryOf(Recorded(s, m).items, m.roomId)
  {
    var r := Recorded(s, m);
    if |s.items| == 0 || s.items[0].roomId == m.roomId {
      assert forall i :: 0 <= i < |s.items| ==> r.items[i + 1] == s.items[i];
    }
  }

  /** `meterReadingsSlice.reducer`. A fetch starts from an empty list, and the only reading
      that can appear without a fetch is the one just recorded, in front. */
  function Reduce(s: State, a: Action): (r: State)
    ensures a.FetchPending? || a.ClearReadings? ==> r.items == []
    ensures !a.FetchFulfilled? && !a.RecordFulfilled? ==> |r.items| <= |s.items|
    ensures a.RecordFulfilled? ==> r.items == s.items || r.items == [a.recorded] + s.items
  {
    match a
    case ClearReadings => Slice.ListCleared(s)
    case FetchPending => Slice.ListPendingCleared(s)
    case FetchFulfilled(readings) => Slice.ListLoaded(s, readings)
    case FetchRejected(reason) => Slice.ListRejected(s, reason)
    case RecordPending => Slice.ListPending(s)
    case RecordFulfilled(m) => Recorded(s, m)
    case RecordRejected(reason) => Slice.ListRejected(s, reason)
  }
}

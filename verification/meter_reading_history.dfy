/** `MeterReadingHistoryPage`: one room's meter readings, and the button that turns a reading
    into an invoice. */
module MeterReadingHistory {
  import opened Wrappers
  import opened Toasts
  import JsValues
  import Strings
  import Rooms
  import Contracts
  import Settings
  import MeterReadings

  // ---------------------------------------------------------------- loading

  /** What the mount effect fetches: the room when it is not in the store, and the readings,
      both by the numeric route id. */
  datatype Mount = Mount(fetchRoom: Option<JsValues.JsNumber>, fetchReadings: Option<JsValues.JsNumber>)

  /** The mount effect: nothing for an id reading as 0 or NaN; otherwise the readings, and the
      room too when the store has none. */
  function OnMount(numericRoomId: JsValues.JsNumber, room: Option<Rooms.Room>): (m: Mount)
    ensures m.fetchReadings.Some? <==> JsValues.Truthy(numericRoomId)
    ensures m.fetchRoom.Some? <==> JsValues.Truthy(numericRoomId) && room.None?
    ensures m.fetchReadings.Some? ==> m.fetchReadings.value == numericRoomId
    ensures m.fetchRoom.Some? ==> m.fetchRoom.value == numericRoomId
  {
    if JsValues.Truthy(numericRoomId) then
      Mount(if room.None? then Some(numericRoomId) else None, Some(numericRoomId))
    else Mount(None, None)
  }

  /** Leaving the page clears the readings, so the next room's page starts empty. */
  lemma LeavingClearsReadings(s: MeterReadings.State)
    ensures MeterReadings.Reduce(s, MeterReadings.ClearReadings).items == []
  {
  }

  /** The breadcrumb segment, once the room is known. */
  function Segment(room: Option<Rooms.Room>): (r: Option<string>)
    ensures r.Some? <==> room.Some?
    ensures r.Some? ==> r.value == "Lịch sử phòng " + room.value.roomNumber
  {
    match room
    case Some(rm) => Some("Lịch sử phòng " + rm.roomNumber)
    case None => None
  }

  // ---------------------------------------------------------------- invoice generation

  /** `c.roomId === roomId && c.status === 'ACTIVE'`. */
  predicate ActiveFor(c: Contracts.Contract, roomId: int)
  {
    c.roomId == roomId && c.status == Contracts.Active
  }

  /** `contracts.find(...)`: the first active contract of the room. */
  function ActiveContract(contracts: seq<Contracts.Contract>, roomId: int): (r: Option<Contracts.Contract>)
    ensures r.None? <==> forall i :: 0 <= i < |contracts| ==> !ActiveFor(contracts[i], roomId)
    ensures r.Some? ==> exists k :: 0 <= k < |contracts| && contracts[k] == r.value && ActiveFor(r.value, roomId)
                                    && forall i :: 0 <= i < k ==> !ActiveFor(contracts[i], roomId)
  {
    if |contracts| == 0 then None
    else if ActiveFor(contracts[0], roomId) then Some(contracts[0])
    else
      var r := ActiveContract(contracts[1..], roomId);
      assert forall i :: 1 <= i < |contracts| ==> contracts[i] == contracts[1..][i - 1];
      if r.Some? then
        var k :| 0 <= k < |contracts[1..]| && contracts[1..][k] == r.value && ActiveFor(r.value, roomId)
                 && forall i :: 0 <= i < k ==> !ActiveFor(contracts[1..][i], roomId);
        assert forall i :: 0 <= i < k + 1 ==> !ActiveFor(contracts[i], roomId) by {
          forall i | 0 <= i < k + 1 ensures !ActiveFor(contracts[i], roomId) {
            if i > 0 { assert contracts[i] == contracts[1..][i - 1]; }
          }
        }
        assert contracts[k + 1] == r.value;
        r
      else r
  }

  /** `settings.find(s => s.key === key)?.value`. */
  function SettingValue(settings: seq<Settings.SystemSetting>, key: string): (r: Option<string>)
    ensures r.None? <==> forall i :: 0 <= i < |settings| ==> settings[i].key != key
    ensures r.Some? ==> exists k :: 0 <= k < |settings| && settings[k].key == key && settings[k].value == r.value
                                    && forall i :: 0 <= i < k ==> settings[i].key != key
  {
    if |settings| == 0 then None
    else if settings[0].key == key then Some(settings[0].value)
    else
      var r := SettingValue(settings[1..], key);
      assert forall i :: 1 <= i < |settings| ==> settings[i] == settings[1..][i - 1];
      if r.Some? then
        var k :| 0 <= k < |settings[1..]| && settings[1..][k].key == key && settings[1..][k].value == r.value
                 && forall i :: 0 <= i < k ==> settings[1..][i].key != key;
        assert forall i :: 0 <= i < k + 1 ==> settings[i].key != key by {
          forall i | 0 <= i < k + 1 ensures settings[i].key != key {
            if i > 0 { assert settings[i] == settings[1..][i - 1]; }
          }
        }
        assert settings[k + 1] == settings[1..][k];
        r
      else r
  }

  /** `Number(settings.find(...)?.value || '0')`: a missing or empty value reads as "0". */
  function Price(settings: seq<Settings.SystemSetting>, key: string, toNumber: string -> JsValues.JsNumber): (n: JsValues.JsNumber)
    ensures SettingValue(settings, key).None? ==> n == toNumber("0")
    ensures SettingValue(settings, key) == Some("") ==> n == toNumber("0")
    ensures SettingValue(settings, key).Some? && SettingValue(settings, key).value != "" ==>
              n == toNumber(SettingValue(settings, key).value)
  {
    var v := SettingValue(settings, key);
    toNumber(if v.None? || v.value == "" then "0" else v.value)
  }

  /** The `generateInvoice` payload. */
  datatype InvoiceRequest = InvoiceRequest(
    contractId: int,
    periodMonth: int,
    periodYear: int,
    electricityPrice: JsValues.JsNumber,
    waterPrice: JsValues.JsNumber)

  /** How a click on "Tạo Hóa đơn" proceeds: stopped with a message, or a request. */
  datatype Attempt = Stopped(message: Toast) | Generate(request: InvoiceRequest)

  /** `${room?.roomNumber}`: an unknown room prints as "undefined". */
  function RoomNumberText(roomNumber: Option<string>): string
  {
    match roomNumber
    case Some(n) => n
    case None => "undefined"
  }

  /** `handleGenerateInvoice` up to its request: without an active contract for the reading's
      room it stops with that message; with an electricity or water price that is exactly 0 it
      stops asking for the prices; otherwise it requests the invoice of the reading's period
      for that contract at those prices. */
  function HandleGenerate(reading: MeterReadings.MeterReading, contracts: seq<Contracts.Contract>,
                          settings: seq<Settings.SystemSetting>, roomNumber: Option<string>,
                          toNumber: string -> JsValues.JsNumber): (a: Attempt)
    ensures ActiveContract(contracts, reading.roomId).None? ==>
              a == Stopped(Failure("Không tìm thấy hợp đồng đang hoạt động cho phòng " + RoomNumberText(roomNumber) + "."))
    ensures ActiveContract(contracts, reading.roomId).Some? && (JsValues.IsZero(Price(settings, "PRICE_ELECTRICITY", toNumber))
              || JsValues.IsZero(Price(settings, "PRICE_WATER", toNumber))) ==>
              a == Stopped(Failure("Vui lòng cấu hình đơn giá điện/nước trong trang Cài đặt."))
    ensures a.Generate? <==> ActiveContract(contracts, reading.roomId).Some?
                             && !JsValues.IsZero(Price(settings, "PRICE_ELECTRICITY", toNumber))
                             && !JsValues.IsZero(Price(settings, "PRICE_WATER", toNumber))
    ensures a.Generate? ==> a.request == InvoiceRequest(ActiveContract(contracts, reading.roomId).value.id,
                                                       reading.readingMonth, reading.readingYear,
                                                       Price(settings, "PRICE_ELECTRICITY", toNumber),
                                                       Price(settings, "PRICE_WATER", toNumber))
  {
    match ActiveContract(contracts, reading.roomId)
    case None =>
      Stopped(Failure("Không tìm thấy hợp đồng đang hoạt động cho phòng " + RoomNumberText(roomNumber) + "."))
    case Some(c) =>
      var electricity := Price(settings, "PRICE_ELECTRICITY", toNumber);
      var water := Price(settings, "PRICE_WATER", toNumber);
      if JsValues.IsZero(electricity) || JsValues.IsZero(water) then
        Stopped(Failure("Vui lòng cấu hình đơn giá điện/nước trong trang Cài đặt."))
      else Generate(InvoiceRequest(c.id, reading.readingMonth, reading.readingYear, electricity, water))
  }

  /** Every request goes to an active contract of the reading's room, for the reading's own
      period. */
  lemma RequestIsForActiveContract(reading: MeterReadings.MeterReading, contracts: seq<Contracts.Contract>,
                                   settings: seq<Settings.SystemSetting>, roomNumber: Option<string>,
                                   toNumber: string -> JsValues.JsNumber)
    requires HandleGenerate(reading, contracts, settings, roomNumber, toNumber).Generate?
    ensures var q := HandleGenerate(reading, contracts, settings, roomNumber, toNumber).request;
            (exists k :: 0 <= k < |contracts| && contracts[k].id == q.contractId && ActiveFor(contracts[k], reading.roomId))
            && q.periodMonth == reading.readingMonth && q.periodYear == reading.readingYear
  {
    var c := ActiveContract(contracts, reading.roomId).value;
    var k :| 0 <= k < |contracts| && contracts[k] == c && ActiveFor(c, reading.roomId);
    assert contracts[k].id == c.id;
  }

  /** A price only stops the request when it reads as exactly 0: a price that reads as NaN is
      sent as it is. */
  lemma UnreadablePriceIsSent(reading: MeterReadings.MeterReading, contracts: seq<Contracts.Contract>,
                              settings: seq<Settings.SystemSetting>, roomNumber: Option<string>,
                              toNumber: string -> JsValues.JsNumber)
    requires ActiveContract(contracts, reading.roomId).Some?
    requires Price(settings, "PRICE_ELECTRICITY", toNumber) == JsValues.NaN
    requires !JsValues.IsZero(Price(settings, "PRICE_WATER", toNumber))
    ensures HandleGenerate(reading, contracts, settings, roomNumber, toNumber).Generate?
    ensures HandleGenerate(reading, contracts, settings, roomNumber, toNumber).request.electricityPrice == JsValues.NaN
  {
  }

  /** Without any price settings, and with `Number("0")` being 0, no invoice is requested. */
  lemma UnconfiguredPricesStop(reading: MeterReadings.MeterReading, contracts: seq<Contracts.Contract>,
                               roomNumber: Option<string>, toNumber: string -> JsValues.JsNumber)
    requires toNumber("0") == JsValues.FromInt(0)
    ensures HandleGenerate(reading, contracts, [], roomNumber, toNumber).Stopped?
  {
  }

  /** The row being generated while `a` is pending: the reading's id when a request is made;
      the two early stops clear it again at once. */
  function GeneratingDuring(reading: MeterReadings.MeterReading, a: Attempt): (r: Option<int>)
    ensures r.Some? <==> a.Generate?
    ensures r.Some? ==> r.value == reading.id
  {
    if a.Generate? then Some(reading.id) else None
  }

  /** After the request settles: the success message and a refetch of the room's readings,
      or the rejection's message; the row is no longer being generated either way. */
  datatype Outcome = Outcome(message: Toast, refetch: Option<JsValues.JsNumber>, generating: Option<int>)

  function GenerateSettled(outcome: Wrappers.Settled, numericRoomId: JsValues.JsNumber): (r: Outcome)
    ensures r.generating.None?
    ensures r.refetch.Some? <==> outcome.Resolved?
    ensures r.refetch.Some? ==> r.refetch.value == numericRoomId
    ensures outcome.Resolved? ==> r.message == Success("Tạo hóa đơn thành công!")
    ensures outcome.Rejected? ==> r.message == Failure(outcome.reason)
  {
    match outcome
    case Resolved => Outcome(Success("Tạo hóa đơn thành công!"), Some(numericRoomId), None)
    case Rejected(reason) => Outcome(Failure(reason), None, None)
  }

  // ---------------------------------------------------------------- the invoice column

  /** The "Trạng thái Hóa đơn" cell: a done mark, or the generate button with its spinner and
      disabled flags. */
  datatype InvoiceCell = Done | Button(isLoading: bool, disabled: bool)

  function InvoiceCellOf(reading: MeterReadings.MeterReading, generating: Option<int>): (c: InvoiceCell)
    ensures c.Done? <==> reading.invoiceGenerated == Some(true)
    ensures c.Button? ==> (c.isLoading <==> generating == Some(reading.id))
    ensures c.Button? ==> (c.disabled <==> generating.Some?)
  {
    if reading.invoiceGenerated == Some(true) then Done
    else Button(generating == Some(reading.id), generating.Some?)
  }

  /** While one reading's invoice is being generated, every button is disabled and only that
      reading's button spins. */
  lemma OneGenerationAtATime(readings: seq<MeterReadings.MeterReading>, id: int)
    ensures forall i :: 0 <= i < |readings| && InvoiceCellOf(readings[i], Some(id)).Button? ==>
              InvoiceCellOf(readings[i], Some(id)).disabled
              && (InvoiceCellOf(readings[i], Some(id)).isLoading <==> readings[i].id == id)
  {
  }

  /** The title's room number, or "..." while the room is unknown or has an empty number. */
  function TitleRoom(room: Option<Rooms.Room>): (r: string)
    ensures room.Some? && room.value.roomNumber != "" ==> r == room.value.roomNumber
    ensures room.None? || room.value.roomNumber == "" ==> r == "..."
  {
    if room.Some? && room.value.roomNumber != "" then room.value.roomNumber else "..."
  }
}

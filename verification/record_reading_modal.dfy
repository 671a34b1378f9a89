/** `RecordReadingModal`: the dialog that records a room's new meter numbers for the current
    month. `F` is the type of a picked file. */
module RecordReadingModal {
  import opened Wrappers
  import opened Toasts
  import JsValues
  import Strings
  import FileInputs
  import Rooms

  /** A number input's value: text the user typed, or a number the form was reset to. */
  datatype Value = Typed(text: string) | Preset(n: JsValues.JsNumber)

  /** `Number(val)`. */
  function NumberOf(v: Value, toNumber: string -> JsValues.JsNumber): (n: JsValues.JsNumber)
    ensures v.Preset? ==> n == v.n
    ensures v.Typed? ==> n == toNumber(v.text)
  {
    match v
    case Typed(t) => toNumber(t)
    case Preset(n) => n
  }

  datatype Input<F> = Input(newElectricNumber: Value, newWaterNumber: Value,
                            electricImage: Option<seq<F>>, waterImage: Option<seq<F>>)

  datatype Field = NewElectricNumber | NewWaterNumber

  /** The schema: both new numbers must read as numbers of at least 0 (NaN fails); the images
      are optional. */
  function Issues<F>(x: Input<F>, toNumber: string -> JsValues.JsNumber): (bad: set<Field>)
    ensures NewElectricNumber in bad <==> !JsValues.ZodMin(NumberOf(x.newElectricNumber, toNumber), 0.0)
    ensures NewWaterNumber in bad <==> !JsValues.ZodMin(NumberOf(x.newWaterNumber, toNumber), 0.0)
    ensures forall f :: f in bad ==> f == NewElectricNumber || f == NewWaterNumber
  {
    (if JsValues.ZodMin(NumberOf(x.newElectricNumber, toNumber), 0.0) then {} else {NewElectricNumber})
    + (if JsValues.ZodMin(NumberOf(x.newWaterNumber, toNumber), 0.0) then {} else {NewWaterNumber})
  }

  /** The values the form is reset to whenever the dialog opens. */
  function Cleared<F>(): (x: Input<F>)
    ensures x.electricImage.None? && x.waterImage.None?
  {
    Input(Preset(JsValues.FromInt(0)), Preset(JsValues.FromInt(0)), None, None)
  }

  /** The cleared form passes the schema as it is, whatever `Number` does with text. */
  lemma ClearedIsValid<F>(toNumber: string -> JsValues.JsNumber)
    ensures Issues(Cleared<F>(), toNumber) == {}
  {
    var x := Cleared<F>();
    assert NumberOf(x.newElectricNumber, toNumber) == JsValues.Finite(0.0);
  }

  /** The open effect: the form is cleared when the dialog opens and left as it is otherwise. */
  function OnOpenChange<F>(isOpen: bool, current: Input<F>): (r: Input<F>)
    ensures isOpen ==> r == Cleared()
    ensures !isOpen ==> r == current
  {
    if isOpen then Cleared() else current
  }

  /** The `recordMeterReading` payload. */
  datatype Request<F> = Request(
    roomId: int,
    readingMonth: int,
    readingYear: int,
    newElectricNumber: JsValues.JsNumber,
    newWaterNumber: JsValues.JsNumber,
    electricImage: Option<F>,
    waterImage: Option<F>)

  /** `onSubmit`: nothing without a room; otherwise the room's id, the current period
      (`monthIndex` is `getMonth()`, counted from 0), the parsed numbers and the first file of
      each image input. */
  function Submit<F>(room: Option<Rooms.Room>, x: Input<F>, toNumber: string -> JsValues.JsNumber,
                     monthIndex: int, year: int): (r: Option<Request<F>>)
    requires 0 <= monthIndex < 12
    ensures r.Some? <==> room.Some?
    ensures r.Some? ==> r.value.roomId == room.value.id && r.value.readingYear == year
    ensures r.Some? ==> 1 <= r.value.readingMonth <= 12 && r.value.readingMonth - 1 == monthIndex
    ensures r.Some? ==> r.value.newElectricNumber == NumberOf(x.newElectricNumber, toNumber)
                        && r.value.newWaterNumber == NumberOf(x.newWaterNumber, toNumber)
    ensures r.Some? ==> r.value.electricImage == FileInputs.FirstFile(x.electricImage)
                        && r.value.waterImage == FileInputs.FirstFile(x.waterImage)
  {
    match room
    case None => None
    case Some(rm) =>
      Some(Request(rm.id, monthIndex + 1, year,
                   NumberOf(x.newElectricNumber, toNumber), NumberOf(x.newWaterNumber, toNumber),
                   FileInputs.FirstFile(x.electricImage), FileInputs.FirstFile(x.waterImage)))
  }

  /** The success message names the room. */
  function SuccessText(roomNumber: string): string
  {
    "Ghi chỉ số cho phòng " + roomNumber + " thành công!"
  }

  /** After the request settles: the room's success message and a closed dialog, or the
      rejection's message with the dialog left open. */
  function RecordSettled(room: Rooms.Room, outcome: Wrappers.Settled): (r: (Toast, bool))
    ensures r.1 <==> outcome.Resolved?
    ensures outcome.Resolved? ==> r.0 == Success(SuccessText(room.roomNumber))
    ensures outcome.Rejected? ==> r.0 == Failure(outcome.reason)
  {
    match outcome
    case Resolved => (Success(SuccessText(room.roomNumber)), true)
    case Rejected(reason) => (Failure(reason), false)
  }

  /** The period shown under the title: `Tháng m/y`, with the month counted from 1. */
  function PeriodText(monthIndex: nat, year: int): string
  {
    "Kỳ ghi: Tháng " + Strings.IntToString(monthIndex + 1) + "/" + Strings.IntToString(year)
  }

  /** The period under the title is the period a submission records. */
  lemma ShownPeriodIsRecorded<F>(room: Rooms.Room, x: Input<F>, toNumber: string -> JsValues.JsNumber,
                                 monthIndex: nat, year: int)
    requires monthIndex < 12
    ensures var q := Submit(Some(room), x, toNumber, monthIndex, year).value;
            PeriodText(monthIndex, year)
              == "Kỳ ghi: Tháng " + Strings.IntToString(q.readingMonth) + "/" + Strings.IntToString(q.readingYear)
  {
  }
}

/** `ContractFormPage`: the form that creates a contract, its validation schema, the room
    choices it offers and the payload it submits. */
module ContractForm {
  import opened Wrappers
  import opened Toasts
  import Seqs
  import Strings
  import JsValues
  import Slice
  import Rooms
  import Contracts

  /** The raw form values: the selects and dates as text, the amounts as typed (possibly with
      thousands separators), and the payment cycle as the number it defaults to. */
  datatype Input = Input(
    buildingId: string,
    roomId: string,
    tenantId: string,
    startDate: string,
    endDate: string,
    rentAmount: string,
    depositAmount: string,
    paymentCycle: JsValues.JsNumber)

  /** The form's initial values: nothing selected and a one-month payment cycle. */
  function Defaults(): Input
  {
    Input("", "", "", "", "", "", "", JsValues.FromInt(1))
  }

  datatype Field = BuildingId | RoomId | TenantId | StartDate | EndDate | RentAmount | DepositAmount | PaymentCycle

  /** The values after Zod's preprocessing: the amounts read as numbers. */
  datatype Data = Data(
    buildingId: string,
    roomId: string,
    tenantId: string,
    startDate: string,
    endDate: string,
    rentAmount: JsValues.JsNumber,
    depositAmount: JsValues.JsNumber,
    paymentCycle: JsValues.JsNumber)

  datatype Validation = Valid(data: Data) | Invalid(fields: set<Field>)

  /** `Number(String(val).replace(/,/g, ''))`. */
  function Amount(typed: string, toNumber: string -> JsValues.JsNumber): JsValues.JsNumber
  {
    toNumber(Strings.RemoveAll(typed, ','))
  }

  function AllFields(): set<Field>
  {
    {BuildingId, RoomId, TenantId, StartDate, EndDate, RentAmount, DepositAmount, PaymentCycle}
  }

  /** The check of one field: a non-empty choice for each select and date, rent of at least 1,
      a deposit of at least 0 and a payment cycle of at least 1 (NaN fails each number check). */
  predicate Fails(x: Input, toNumber: string -> JsValues.JsNumber, f: Field)
  {
    match f
    case BuildingId => |x.buildingId| < 1
    case RoomId => |x.roomId| < 1
    case TenantId => |x.tenantId| < 1
    case StartDate => |x.startDate| < 1
    case EndDate => |x.endDate| < 1
    case RentAmount => !JsValues.ZodMin(Amount(x.rentAmount, toNumber), 1.0)
    case DepositAmount => !JsValues.ZodMin(Amount(x.depositAmount, toNumber), 0.0)
    case PaymentCycle => !JsValues.ZodMin(x.paymentCycle, 1.0)
  }

  /** The fields failing their own checks. */
  function FieldIssues(x: Input, toNumber: string -> JsValues.JsNumber): (bad: set<Field>)
    ensures forall f :: f in bad <==> Fails(x, toNumber, f)
  {
    assert forall f: Field :: f in AllFields() by {
      forall f: Field ensures f in AllFields() {
        assert f.BuildingId? || f.RoomId? || f.TenantId? || f.StartDate? || f.EndDate?
               || f.RentAmount? || f.DepositAmount? || f.PaymentCycle?;
      }
    }
    set f | f in AllFields() && Fails(x, toNumber, f)
  }

  /** The schema's refinement: with both dates given, the start must come strictly before the
      end. `before` stands for `new Date(a) < new Date(b)`. */
  predicate DatesInOrder(startDate: string, endDate: string, before: (string, string) -> bool)
  {
    startDate != "" && endDate != "" ==> before(startDate, endDate)
  }

  /** `formSchema.safeParse`: the parsed values when every check passes; otherwise the failing
      fields, where a date-order failure is reported on the end date. */
  function Validate(x: Input, toNumber: string -> JsValues.JsNumber, before: (string, string) -> bool): (v: Validation)
    ensures v.Valid? <==> FieldIssues(x, toNumber) == {} && DatesInOrder(x.startDate, x.endDate, before)
    ensures v.Valid? ==> v.data == Data(x.buildingId, x.roomId, x.tenantId, x.startDate, x.endDate,
                                        Amount(x.rentAmount, toNumber), Amount(x.depositAmount, toNumber), x.paymentCycle)
    ensures v.Invalid? && FieldIssues(x, toNumber) == {} ==> v.fields == {EndDate}
    ensures v.Invalid? && FieldIssues(x, toNumber) != {} ==> v.fields == FieldIssues(x, toNumber)
  {
    var bad := FieldIssues(x, toNumber);
    if bad != {} then Invalid(bad)
    else if !DatesInOrder(x.startDate, x.endDate, before) then Invalid({EndDate})
    else Valid(Data(x.buildingId, x.roomId, x.tenantId, x.startDate, x.endDate,
                    Amount(x.rentAmount, toNumber), Amount(x.depositAmount, toNumber), x.paymentCycle))
  }

  /** Thousands separators do not change the amount that is checked and sent. */
  lemma SeparatorsIgnored(x: Input, y: Input, toNumber: string -> JsValues.JsNumber, before: (string, string) -> bool)
    requires y == x.(rentAmount := Strings.RemoveAll(x.rentAmount, ','),
                     depositAmount := Strings.RemoveAll(x.depositAmount, ','))
    ensures Validate(x, toNumber, before) == Validate(y, toNumber, before)
  {
    assert Amount(y.rentAmount, toNumber) == Amount(x.rentAmount, toNumber);
    assert Amount(y.depositAmount, toNumber) == Amount(x.depositAmount, toNumber);
    assert forall f :: Fails(x, toNumber, f) == Fails(y, toNumber, f);
    assert FieldIssues(x, toNumber) == FieldIssues(y, toNumber);
  }

  /** An untouched deposit field is accepted as a deposit of 0, since `Number("")` is 0, while
      an untouched rent is refused. */
  lemma EmptyAmounts(x: Input, toNumber: string -> JsValues.JsNumber)
    requires toNumber("") == JsValues.FromInt(0)
    requires x.rentAmount == "" && x.depositAmount == ""
    ensures DepositAmount !in FieldIssues(x, toNumber)
    ensures RentAmount in FieldIssues(x, toNumber)
  {
    assert Strings.RemoveAll("", ',') == "";
    assert !Fails(x, toNumber, DepositAmount) && Fails(x, toNumber, RentAmount);
  }

  /** The submitted payload: numeric room and tenant ids, the other values as validated, and no
      building id. */
  datatype Payload = Payload(
    roomId: JsValues.JsNumber,
    tenantId: JsValues.JsNumber,
    startDate: string,
    endDate: string,
    rentAmount: JsValues.JsNumber,
    depositAmount: JsValues.JsNumber,
    paymentCycle: JsValues.JsNumber)

  /** `onSubmit`'s payload mapping. */
  function PayloadOf(d: Data, toNumber: string -> JsValues.JsNumber): (p: Payload)
    ensures p.roomId == toNumber(d.roomId) && p.tenantId == toNumber(d.tenantId)
    ensures p.startDate == d.startDate && p.endDate == d.endDate
    ensures p.rentAmount == d.rentAmount && p.depositAmount == d.depositAmount
    ensures p.paymentCycle == d.paymentCycle
  {
    Payload(toNumber(d.roomId), toNumber(d.tenantId), d.startDate, d.endDate,
            d.rentAmount, d.depositAmount, d.paymentCycle)
  }

  /** Whatever the form submits satisfies the schema's amount and date rules. */
  lemma SubmittedPayloadIsChecked(x: Input, toNumber: string -> JsValues.JsNumber, before: (string, string) -> bool)
    requires Validate(x, toNumber, before).Valid?
    ensures var p := PayloadOf(Validate(x, toNumber, before).data, toNumber);
            JsValues.ZodMin(p.rentAmount, 1.0) && JsValues.ZodMin(p.depositAmount, 0.0)
            && JsValues.ZodMin(p.paymentCycle, 1.0) && before(p.startDate, p.endDate)
  {
    assert !Fails(x, toNumber, StartDate) && !Fails(x, toNumber, EndDate);
    assert !Fails(x, toNumber, RentAmount) && !Fails(x, toNumber, DepositAmount);
    assert !Fails(x, toNumber, PaymentCycle);
  }

  /** `r => r.status === AVAILABLE`. */
  function IsAvailable(r: Rooms.Room): bool
  {
    r.status == Rooms.Available
  }

  /** `availableRooms`: none until a building is chosen, then exactly the available rooms of
      the slice, in order. */
  function AvailableRooms(buildingId: string, rooms: seq<Rooms.Room>): (r: seq<Rooms.Room>)
    ensures buildingId == "" ==> r == []
    ensures buildingId != "" ==> r == Seqs.Filter(rooms, IsAvailable)
    ensures forall i :: 0 <= i < |r| ==> r[i] in rooms && r[i].status == Rooms.Available
    ensures buildingId != "" ==> forall i :: 0 <= i < |rooms| && rooms[i].status == Rooms.Available ==> rooms[i] in r
  {
    if buildingId == "" then [] else Seqs.Filter(rooms, IsAvailable)
  }

  /** The room select is disabled until a building is chosen and while no room is free. */
  function RoomSelectDisabled(buildingId: string, rooms: seq<Rooms.Room>): (disabled: bool)
    ensures !disabled <==> buildingId != "" && exists i :: 0 <= i < |rooms| && rooms[i].status == Rooms.Available
  {
    var available := AvailableRooms(buildingId, rooms);
    assert buildingId != "" && |available| > 0 ==>
             available[0] in rooms && available[0].status == Rooms.Available;
    buildingId == "" || |available| == 0
  }

  /** What the rooms effect dispatches when the chosen building changes. */
  datatype RoomsEffect = FetchRooms(page: int, size: int, buildingId: JsValues.JsNumber) | ClearRooms

  /** The rooms effect: the building's first hundred rooms for a positive building id, and a
      cleared rooms slice otherwise. */
  function OnBuildingChosen(buildingId: string, toNumber: string -> JsValues.JsNumber): (e: RoomsEffect)
    ensures e.FetchRooms? <==> buildingId != "" && JsValues.GreaterThan(toNumber(buildingId), 0.0)
    ensures e.FetchRooms? ==> e == FetchRooms(0, 100, toNumber(buildingId))
  {
    if buildingId != "" && JsValues.GreaterThan(toNumber(buildingId), 0.0) then
      FetchRooms(0, 100, toNumber(buildingId))
    else ClearRooms
  }

  /** Choosing no building clears the rooms, so no room can be offered. */
  lemma NoBuildingNoRooms(s: Rooms.State, toNumber: string -> JsValues.JsNumber)
    ensures OnBuildingChosen("", toNumber) == ClearRooms
    ensures AvailableRooms("", Rooms.Reduce(s, Rooms.ClearRooms).items) == []
  {
  }

  /** The mount effect: buildings and tenants (first hundred each) are fetched while their
      slices are idle. */
  function MountFetches(buildingsStatus: Slice.Status, tenantsStatus: Slice.Status): (r: (bool, bool))
    ensures r.0 <==> buildingsStatus == Slice.Idle
    ensures r.1 <==> tenantsStatus == Slice.Idle
  {
    (buildingsStatus == Slice.Idle, tenantsStatus == Slice.Idle)
  }

  /** The mount effect's cleanup, run on unmount and before every re-run (the effect depends on
      both slices' statuses): `resetContractStatus` idles the contracts slice and clears its
      error, keeping the contracts and counters. */
  function Cleanup(s: Contracts.State): (r: Contracts.State)
    ensures r.status == Slice.Idle && r.error == None
    ensures r.items == s.items && r.currentPage == s.currentPage && r.totalPages == s.totalPages
            && r.totalElements == s.totalElements
  {
    Contracts.Reduce(s, Contracts.ResetStatus)
  }

  /** A contract created before the page is left is still listed after the cleanup. */
  lemma CleanupKeepsCreated(s: Contracts.State, c: Contracts.Contract)
    ensures c in Cleanup(Contracts.Reduce(s, Contracts.CreateFulfilled(c))).items
  {
    var t := Contracts.Reduce(s, Contracts.CreateFulfilled(c));
    assert t.items[|t.items| - 1] == c;
  }

  /** After `createContract` settles: a success toast and a move to the contract list, or the
      rejection's message and no move. */
  function CreateSettled(outcome: Settled): (r: (Toast, Option<string>))
    ensures r.1.Some? <==> outcome.Resolved?
    ensures r.1.Some? ==> r.1.value == "/contracts"
    ensures outcome.Resolved? ==> r.0 == Success("Tạo hợp đồng thành công!")
    ensures outcome.Rejected? ==> r.0 == Failure(outcome.reason)
  {
    match outcome
    case Resolved => (Success("Tạo hợp đồng thành công!"), Some("/contracts"))
    case Rejected(reason) => (Failure(reason), None)
  }
}

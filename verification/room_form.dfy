/** `RoomFormPage`: the room form. Its submit handler sends nothing to the server; it only
    reports success and returns to the room list. */
module RoomForm {
  import opened Toasts
  import opened Wrappers
  import JsValues
  import Slice
  import RouteParams
  import Rooms

  /** The form values as typed; `F` is the type of a picked file. */
  datatype Input<F> = Input(roomNumber: string, buildingId: string, price: string, area: string,
                            image: Option<seq<F>>)

  datatype Field = RoomNumber | BuildingId | Price | Area

  /** One field's check: non-empty room number and building, and a price and an area whose
      `Number(...)` is at least 1 (NaN fails). */
  predicate Fails<F>(x: Input<F>, toNumber: string -> JsValues.JsNumber, f: Field)
  {
    match f
    case RoomNumber => |x.roomNumber| < 1
    case BuildingId => |x.buildingId| < 1
    case Price => !JsValues.ZodMin(toNumber(x.price), 1.0)
    case Area => !JsValues.ZodMin(toNumber(x.area), 1.0)
  }

  function AllFields(): set<Field>
  {
    {RoomNumber, BuildingId, Price, Area}
  }

  /** The fields failing the schema. */
  function Issues<F>(x: Input<F>, toNumber: string -> JsValues.JsNumber): (bad: set<Field>)
    ensures forall f :: f in bad <==> Fails(x, toNumber, f)
  {
    assert forall f: Field :: f in AllFields() by {
      forall f: Field ensures f in AllFields() {
        assert f.RoomNumber? || f.BuildingId? || f.Price? || f.Area?;
      }
    }
    set f | f in AllFields() && Fails(x, toNumber, f)
  }

  /** An untouched price is refused, since `Number("")` is 0. */
  lemma EmptyPriceRefused<F>(x: Input<F>, toNumber: string -> JsValues.JsNumber)
    requires toNumber("") == JsValues.FromInt(0) && x.price == ""
    ensures Price in Issues(x, toNumber)
  {
    assert Fails(x, toNumber, Price);
  }

  /** The buildings for the select are fetched while their slice is idle. */
  predicate FetchesBuildings(buildingStatus: Slice.Status)
  {
    buildingStatus == Slice.Idle
  }

  /** The breadcrumb segment: a placeholder when editing, "Tạo phòng mới" when creating. */
  function Segment(id: Option<string>): (r: string)
    ensures RouteParams.IsEditMode(id) ==> r == "Phòng ..."
    ensures !RouteParams.IsEditMode(id) ==> r == "Tạo phòng mới"
  {
    if RouteParams.IsEditMode(id) then "Phòng ..." else "Tạo phòng mới"
  }

  /** The breadcrumb effect's cleanup, run on unmount and whenever the route changes:
      `resetRoomStatus` idles the rooms slice and clears its error, keeping the rooms and
      counters. */
  function Cleanup(s: Rooms.State): (r: Rooms.State)
    ensures r.status == Slice.Idle && r.error == None
    ensures r.items == s.items && r.currentPage == s.currentPage && r.totalPages == s.totalPages
            && r.totalElements == s.totalElements
  {
    Rooms.Reduce(s, Rooms.ResetStatus)
  }

  /** A failed room fetch's error is gone once the form is left. */
  lemma CleanupClearsRejection(s: Rooms.State, reason: Option<string>)
    ensures Rooms.Reduce(s, Rooms.FetchRejected(reason)).status == Slice.Failed
    ensures Cleanup(Rooms.Reduce(s, Rooms.FetchRejected(reason))).status == Slice.Idle
    ensures Cleanup(Rooms.Reduce(s, Rooms.FetchRejected(reason))).error == None
  {
  }

  /** `onSubmit`: the mode's success message and a move to the room list, whatever was typed;
      the function takes no outcome because no request is made. */
  function Submit(id: Option<string>): (r: (Toast, string))
    ensures r.1 == "/rooms"
    ensures r.0.Success?
    ensures r.0.text == "Cập nhật phòng thành công!" <==> RouteParams.IsEditMode(id)
    ensures r.0.text == "Tạo phòng thành công!" <==> !RouteParams.IsEditMode(id)
  {
    (Success(if RouteParams.IsEditMode(id) then "Cập nhật phòng thành công!" else "Tạo phòng thành công!"), "/rooms")
  }
}

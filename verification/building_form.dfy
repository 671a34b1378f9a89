/** `BuildingFormPage`: the form that creates or edits a building, with its image preview.
    `F` is the type of a picked file. */
module BuildingForm {
  import opened Wrappers
  import opened Toasts
  import JsValues
  import Strings
  import IdList
  import RouteParams
  import Buildings
  import Slice
  import opened FileInputs

  /** The form values: the image is the picked file list, if any. */
  datatype Input<F> = Input(name: string, address: string, image: Option<seq<F>>)

  datatype Field = Name | Address

  /** The schema: a name of at least 3 UTF-16 code units and an address of at least 5; the
      image is any file list or none. */
  function Issues<F>(x: Input<F>): (bad: set<Field>)
    ensures Name in bad <==> Strings.Utf16Length(x.name) < 3
    ensures Address in bad <==> Strings.Utf16Length(x.address) < 5
    ensures forall f :: f in bad ==> f == Name || f == Address
  {
    (if Strings.Utf16Length(x.name) < 3 then {Name} else {})
    + (if Strings.Utf16Length(x.address) < 5 then {Address} else {})
  }

  /** `imageUrl || null`: an empty stored URL shows no preview. */
  function Preview(imageUrl: Option<string>): (r: Option<string>)
    ensures r.Some? <==> imageUrl.Some? && imageUrl.value != ""
    ensures r.Some? ==> r == imageUrl
  {
    if imageUrl.Some? && imageUrl.value != "" then imageUrl else None
  }

  /** The watch effect on the file input: a non-empty pick previews its first file through
      `objectUrl` (`URL.createObjectURL`); anything else keeps the current preview. */
  function PreviewAfterPick<F>(current: Option<string>, files: Option<seq<F>>, objectUrl: F -> string): (r: Option<string>)
    ensures files.Some? && |files.value| > 0 ==> r == Some(objectUrl(files.value[0]))
    ensures files.None? || files.value == [] ==> r == current
  {
    if files.Some? && |files.value| > 0 then Some(objectUrl(files.value[0])) else current
  }

  /** What the edit effect does: fill the form, preview and breadcrumb from a building, fetch
      it by id, or (when creating) only set the breadcrumb. */
  datatype Load =
    | ResetFrom(name: string, address: string, preview: Option<string>, segment: string)
    | FetchById(id: JsValues.JsNumber)
    | CreateTitle(segment: string)

  /** The form state a building fills in. */
  function ResetFor(b: Buildings.Building): Load
  {
    ResetFrom(b.name, b.address, Preview(b.imageUrl), b.name)
  }

  /** The edit effect: in edit mode, the first listed building whose id is `Number(id)` fills
      the form, and without one the building is fetched by `Number(id)`; in create mode the
      breadcrumb reads "Tạo tòa nhà mới". */
  function OnLoad(id: Option<string>, buildings: seq<Buildings.Building>, toNumber: string -> JsValues.JsNumber): (r: Load)
    ensures r.CreateTitle? <==> !RouteParams.IsEditMode(id)
    ensures r.CreateTitle? ==> r.segment == "Tạo tòa nhà mới"
    ensures r.FetchById? <==> RouteParams.IsEditMode(id)
                              && forall k :: 0 <= k < |buildings| ==> JsValues.FromInt(buildings[k].id) != toNumber(id.value)
    ensures r.FetchById? ==> r.id == toNumber(id.value)
    ensures r.ResetFrom? ==> exists k :: 0 <= k < |buildings| && JsValues.FromInt(buildings[k].id) == toNumber(id.value)
                                         && (forall i :: 0 <= i < k ==> JsValues.FromInt(buildings[i].id) != toNumber(id.value))
                                         && r == ResetFor(buildings[k])
  {
    if !RouteParams.IsEditMode(id) then CreateTitle("Tạo tòa nhà mới")
    else
      var n := RouteParams.NumberOf(id, toNumber);
      match IdList.FindByNumber(buildings, n, Buildings.IdOf)
      case Some(b) => ResetFor(b)
      case None => FetchById(n)
  }

  /** The edit effect's cleanup, run on unmount and before every re-run (the effect depends on
      the listed buildings): `resetStatus` idles the buildings slice and clears its error,
      keeping the buildings and counters. */
  function Cleanup(s: Buildings.State): (r: Buildings.State)
    ensures r.status == Slice.Idle && r.error == None
    ensures r.items == s.items && r.currentPage == s.currentPage && r.totalPages == s.totalPages
            && r.totalElements == s.totalElements
  {
    Buildings.Reduce(s, Buildings.ResetStatus)
  }

  /** The cleanup keeps the listed buildings, so an effect run after it loads as before. */
  lemma CleanupKeepsLoad(id: Option<string>, s: Buildings.State, toNumber: string -> JsValues.JsNumber)
    ensures OnLoad(id, Cleanup(s).items, toNumber) == OnLoad(id, s.items, toNumber)
  {
  }

  /** A failed building fetch leaves the slice failed with its reason; leaving the form (or the
      effect's re-run) returns it to idle with no error and the same buildings. */
  lemma CleanupClearsRejection(s: Buildings.State, reason: Option<string>)
    ensures Buildings.Reduce(s, Buildings.FetchRejected(reason)).status == Slice.Failed
    ensures Cleanup(Buildings.Reduce(s, Buildings.FetchRejected(reason))).status == Slice.Idle
    ensures Cleanup(Buildings.Reduce(s, Buildings.FetchRejected(reason))).error == None
    ensures Cleanup(Buildings.Reduce(s, Buildings.FetchRejected(reason))).items == s.items
  {
  }

  /** A building already listed under the route's id fills the form without a fetch. */
  lemma ListedBuildingIsNotFetched(buildings: seq<Buildings.Building>, k: int, id: string, toNumber: string -> JsValues.JsNumber)
    requires IdList.UniqueIds(buildings, Buildings.IdOf)
    requires 0 <= k < |buildings| && id != ""
    requires toNumber(id) == JsValues.FromInt(buildings[k].id)
    ensures OnLoad(Some(id), buildings, toNumber) == ResetFor(buildings[k])
  {
    var r := IdList.FindByNumber(buildings, toNumber(id), Buildings.IdOf);
    assert r.Some?;
    JsValues.StrictEqualsInt(toNumber(id), r.value.id);
    var j :| 0 <= j < |buildings| && buildings[j] == r.value;
  }

  /** The fetch in edit mode settles: the fetched building fills the form; a failure goes back
      to the building list. */
  datatype Fetched = Filled(load: Load) | Navigate(to: string)

  function FetchSettled(fetched: Option<Buildings.Building>): (r: Fetched)
    ensures r.Filled? <==> fetched.Some?
    ensures r.Filled? ==> r.load == ResetFor(fetched.value)
    ensures r.Navigate? ==> r.to == "/buildings"
  {
    match fetched
    case Some(b) => Filled(ResetFor(b))
    case None => Navigate("/buildings")
  }

  /** The submitted request: the first picked file travels as the image. */
  datatype Submission<F> =
    | Create(name: string, address: string, image: Option<F>)
    | Update(id: JsValues.JsNumber, name: string, address: string, image: Option<F>)

  /** `onSubmit`: update `Number(id)` in edit mode, create otherwise, with the form's name,
      address and first file either way. */
  function Submit<F>(id: Option<string>, data: Input<F>, toNumber: string -> JsValues.JsNumber): (r: Submission<F>)
    ensures r.Update? <==> RouteParams.IsEditMode(id)
    ensures r.Update? ==> r.id == toNumber(id.value)
    ensures r.name == data.name && r.address == data.address && r.image == FirstFile(data.image)
  {
    if RouteParams.IsEditMode(id) then
      Update(RouteParams.NumberOf(id, toNumber), data.name, data.address, FirstFile(data.image))
    else Create(data.name, data.address, FirstFile(data.image))
  }

  /** After the submission settles: the mode's success message and a move to the building
      list, or the rejection's message and no move. */
  function SubmitSettled<F>(s: Submission<F>, outcome: Settled): (r: (Toast, Option<string>))
    ensures r.1.Some? <==> outcome.Resolved?
    ensures r.1.Some? ==> r.1.value == "/buildings"
    ensures outcome.Resolved? && s.Update? ==> r.0 == Success("Cập nhật tòa nhà thành công!")
    ensures outcome.Resolved? && s.Create? ==> r.0 == Success("Thêm tòa nhà thành công!")
    ensures outcome.Rejected? ==> r.0 == Failure(outcome.reason)
  {
    match outcome
    case Resolved =>
      (Success(if s.Update? then "Cập nhật tòa nhà thành công!" else "Thêm tòa nhà thành công!"), Some("/buildings"))
    case Rejected(reason) => (Failure(reason), None)
  }
}

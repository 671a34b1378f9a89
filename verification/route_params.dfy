/** The `:id` route parameter of the detail and form pages. */
module RouteParams {
  import opened Wrappers
  import JsValues

  /** `Boolean(id)`: a form page edits a record exactly when the route carries a non-empty id. */
  predicate IsEditMode(id: Option<string>)
  {
    id.Some? && id.value != ""
  }

  /** `Number(id)`: a missing parameter reads as NaN. */
  function NumberOf(id: Option<string>, toNumber: string -> JsValues.JsNumber): (n: JsValues.JsNumber)
    ensures id.None? ==> n == JsValues.NaN
    ensures id.Some? ==> n == toNumber(id.value)
  {
    match id
    case None => JsValues.NaN
    case Some(v) => toNumber(v)
  }
}

/** The JavaScript number semantics the pages rely on. A number is finite, one of the two
    infinities, or NaN; `Number(text)` itself is left to the caller as a parameter of type
    `string -> JsNumber`, because the model does not reimplement JavaScript's string grammar. */
module JsValues {
  import opened Wrappers

  datatype JsNumber = Finite(value: real) | PosInfinity | NegInfinity | NaN

  /** The integer `i` as a JavaScript number. */
  function FromInt(i: int): JsNumber
  {
    Finite(i as real)
  }

  /** JavaScript truthiness of a number: everything except `0` and `NaN`. */
  predicate Truthy(n: JsNumber)
  {
    match n
    case Finite(v) => v != 0.0
    case NaN => false
    case _ => true
  }

  /** `n || 0`: a falsy number (zero or NaN) is replaced by zero. */
  function OrZero(n: JsNumber): (r: JsNumber)
    ensures r != NaN
    ensures Truthy(n) ==> r == n
    ensures !Truthy(n) ==> r == Finite(0.0)
  {
    if Truthy(n) then n else Finite(0.0)
  }

  /** `n > bound` in JavaScript: false for NaN, true for +Infinity. */
  predicate GreaterThan(n: JsNumber, bound: real)
  {
    match n
    case Finite(v) => v > bound
    case PosInfinity => true
    case _ => false
  }

  /** Zod's `z.number().min(bound)`: NaN is not a number to Zod, the infinities are. */
  predicate ZodMin(n: JsNumber, bound: real)
  {
    match n
    case Finite(v) => v >= bound
    case PosInfinity => true
    case _ => false
  }

  /** `n === 0`: only the finite zero (NaN is not equal to anything). */
  predicate IsZero(n: JsNumber)
  {
    n == Finite(0.0)
  }

  /** `n === id` for an integer record id: the integer whose value `n` is, if any. */
  function AsInteger(n: JsNumber): (r: Option<int>)
    ensures r.Some? <==> n.Finite? && n.value == n.value.Floor as real
    ensures r.Some? ==> n == FromInt(r.value)
  {
    match n
    case Finite(v) => if v == v.Floor as real then Some(v.Floor) else None
    case _ => None
  }

  /** `n === i` holds exactly when `n` is the integer `i`. */
  lemma StrictEqualsInt(n: JsNumber, i: int)
    ensures n == FromInt(i) <==> AsInteger(n) == Some(i)
  {
    if n == FromInt(i) {
      assert (i as real).Floor == i;
    }
  }
}

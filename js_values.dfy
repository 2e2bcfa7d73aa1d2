/**
 * The JavaScript values the front end receives from `res.json()` (everything JSON can
 * denote) together with `undefined`, which property reads produce for absent members.
 */
module JsValues {
  import opened Wrappers

  datatype JsValue =
    | Undefined
    | Null
    | Bool(b: bool)
    | Number(n: real)
    | Str(s: string)
    | Array(items: seq<JsValue>)
    | Object(props: map<string, JsValue>)

  /** `v == null` (loose equality): null or undefined. */
  predicate Nullish(v: JsValue) {
    v.Undefined? || v.Null?
  }

  /** JavaScript truthiness: false for undefined, null, false, 0 and "", true for the rest. */
  predicate Truthy(v: JsValue) {
    match v
    case Undefined => false
    case Null => false
    case Bool(b) => b
    case Number(n) => n != 0.0
    case Str(s) => s != ""
    case Array(_) => true
    case Object(_) => true
  }

  /**
   * `v.key` for a key that names no built-in property: the member of an object, undefined
   * on any other value, and None where reading a property of null or undefined throws a TypeError.
   */
  function Member(v: JsValue, key: string): (r: Option<JsValue>)
    ensures r.None? <==> Nullish(v)
    ensures v.Object? && key in v.props ==> r == Some(v.props[key])
    ensures !Nullish(v) && !(v.Object? && key in v.props) ==> r == Some(Undefined)
  {
    match v
    case Undefined => None
    case Null => None
    case Object(props) => Some(if key in props then props[key] else Undefined)
    case _ => Some(Undefined)
  }

  /** `v?.key`: like `v.key`, but undefined instead of a TypeError on null or undefined. */
  function OptionalMember(v: JsValue, key: string): (r: JsValue)
    ensures Nullish(v) ==> r == Undefined
    ensures !Nullish(v) ==> Some(r) == Member(v, key)
  {
    match Member(v, key)
    case None => Undefined
    case Some(m) => m
  }

  /** `a || b`: a when it is truthy, else b. */
  function Or(a: JsValue, b: JsValue): JsValue {
    if Truthy(a) then a else b
  }

  /** `a ?? b`: a unless it is null or undefined. */
  function Coalesce(a: JsValue, b: JsValue): JsValue {
    if Nullish(a) then b else a
  }
}

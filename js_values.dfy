/** JavaScript values as the GraphQL client sees them: the decoded JSON body of a
    response, the properties of a thrown value, and the variables passed through.
    Truthiness and the `||` operator are written out, since the client's branches
    test values with `if (x)` and default them with `x || d`. */
module JsValues {

  datatype Option<+T> = None | Some(value: T)

  /** A JSON value, plus `undefined` and `NaN`. Numbers are reals here: JavaScript's
      doubles are not modelled bit for bit, only their truthiness. */
  datatype JsValue =
    | Undefined
    | Null
    | Bool(b: bool)
    | Num(n: real)
    | NaN
    | Str(s: string)
    | Arr(elems: seq<JsValue>)
    | Obj(props: map<string, JsValue>)

  /** JavaScript's ToBoolean: `undefined`, `null`, `false`, `0`, `NaN` and `""` are falsy;
      every array and object is truthy, even an empty one. */
  predicate Truthy(v: JsValue) {
    match v
    case Undefined => false
    case Null => false
    case Bool(b) => b
    case Num(n) => n != 0.0
    case NaN => false
    case Str(s) => s != ""
    case Arr(_) => true
    case Obj(_) => true
  }

  /** `a || b`: the left operand when it is truthy, the right one otherwise. */
  function Or(a: JsValue, b: JsValue): (r: JsValue)
    ensures r == a || r == b
    ensures Truthy(a) ==> r == a
    ensures !Truthy(a) ==> r == b
    ensures Truthy(r) <==> Truthy(a) || Truthy(b)
  {
    if Truthy(a) then a else b
  }

  /** `undefined` and `null` are the two values whose properties cannot be read. */
  predicate Nullish(v: JsValue) {
    v.Undefined? || v.Null?
  }

  /** `v[key]` for a value whose properties can be read. Only objects carry the
      properties this client asks for (`data`, `errors`); on strings, numbers,
      booleans and arrays they read as `undefined`. */
  function Property(v: JsValue, key: string): (r: JsValue)
    requires !Nullish(v)
    ensures v.Obj? && key in v.props ==> r == v.props[key]
    ensures !(v.Obj? && key in v.props) ==> r == Undefined
  {
    match v
    case Obj(props) => if key in props then props[key] else Undefined
    case _ => Undefined
  }

  /** The test `typeof x === 'object' && !Array.isArray(x) && x !== null`. */
  predicate IsPlainObject(v: JsValue) {
    v.Obj?
  }

  /** An optional property of a literal object: absent, or present with a value
      that may still be `undefined` (`'k' in o` is true in the second case). */
  datatype Prop<+T> = Missing | Present(value: Option<T>)

  /** Reading `o.k` for such a property: `undefined` when it is absent. */
  function PropValue<T>(p: Prop<T>): (r: Option<T>)
    ensures p.Missing? ==> r.None?
    ensures p.Present? ==> r == p.value
  {
    match p
    case Missing => None
    case Present(v) => v
  }

  /** Truthiness of an optional string: set and not empty. */
  predicate NonEmpty(s: Option<string>) {
    s.Some? && s.value != ""
  }
}

/** Dynamically typed values as the portal's documents and React props carry
    them: an `any` object read with `?.`, tested for truthiness with `||` and
    compared with `===`. */
module Values {

  /** The usual optional value; failure-compatible so that `:-` can be used. */
  datatype Option<+T> = None | Some(value: T) {
    predicate IsFailure() { None? }
    function PropagateFailure<U>(): Option<U> requires None? { None }
    function Extract(): T requires Some? { value }
  }

  /** A JavaScript value. `Undefined` stands for a missing property. Numbers are
      exact reals: NaN, infinities and IEEE-754 rounding are not modelled. */
  datatype Value =
    | Undefined
    | Null
    | Bool(b: bool)
    | Num(n: real)
    | Str(s: string)
    | Arr(items: seq<Value>)
    | Obj(fields: map<string, Value>)

  /** A stored document: field name to value. */
  type Record = map<string, Value>

  /** JavaScript truthiness (`if (v)`, `v || d`). */
  predicate Truthy(v: Value) {
    match v
    case Undefined => false
    case Null => false
    case Bool(b) => b
    case Num(n) => n != 0.0
    case Str(s) => s != ""
    case Arr(_) => true
    case Obj(_) => true
  }

  /** Optional chaining `v?.key`: the property of an object, `undefined` for
      anything else (the properties read in this model are not built-in
      properties of strings or arrays). */
  function Get(v: Value, key: string): (r: Value)
    ensures v.Obj? && key in v.fields ==> r == v.fields[key]
    ensures !(v.Obj? && key in v.fields) ==> r == Undefined
  {
    match v
    case Obj(m) => if key in m then m[key] else Undefined
    case _ => Undefined
  }

  /** Strict equality `a === b`. Objects and arrays compare by reference in
      JavaScript; a value built here is never identical to one compared with it,
      so they compare unequal. */
  function StrictEquals(a: Value, b: Value): (r: bool)
    ensures r ==> a == b
    ensures a == b && !a.Arr? && !a.Obj? ==> r
  {
    match (a, b)
    case (Undefined, Undefined) => true
    case (Null, Null) => true
    case (Bool(x), Bool(y)) => x == y
    case (Num(x), Num(y)) => x == y
    case (Str(x), Str(y)) => x == y
    case _ => false
  }

  /** `s || fallback` for an optional string: the empty string is falsy. */
  function OrElse(s: Option<string>, fallback: string): (r: string)
    ensures s.Some? && s.value != "" ==> r == s.value
    ensures (s.None? || s.value == "") ==> r == fallback
  {
    if s.Some? && s.value != "" then s.value else fallback
  }

  /** Object spread `{...left, ...right}`: every key of either side, the right
      side winning where both have it. */
  function Merge(left: Record, right: Record): (r: Record)
    ensures r.Keys == left.Keys + right.Keys
    ensures forall k :: k in right ==> r[k] == right[k]
    ensures forall k :: k in left && k !in right ==> r[k] == left[k]
  {
    left + right
  }
}

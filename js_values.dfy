/** The dynamically typed values the TypeScript code handles as `any`:
    submitted form values, JSON bodies, static request parameters. Numbers
    are integers (no NaN, no fractions). */
module JsValues {

  datatype Value =
    | Undefined
    | Null
    | Bool(b: bool)
    | Num(n: int)
    | Str(s: string)
    | Arr(items: seq<Value>)
    | Obj(props: map<string, Value>)

  /** JavaScript truthiness: undefined, null, false, 0 and '' are falsy; arrays and
      objects (even empty ones) are truthy. */
  predicate Truthy(v: Value) {
    match v
    case Undefined => false
    case Null => false
    case Bool(b) => b
    case Num(n) => n != 0
    case Str(s) => s != ""
    case Arr(_) => true
    case Obj(_) => true
  }

  /** `record[key]` on a plain record: a missing key reads as undefined. */
  function Lookup(m: map<string, Value>, key: string): Value {
    if key in m then m[key] else Undefined
  }

  /** The outcome of a property access `v.key`: it throws a TypeError on undefined and
      null, yields the own property of an object, and undefined on every other value
      (prototype properties such as a string's `length` are not modelled here). */
  datatype Access = Got(value: Value) | TypeError

  function Prop(v: Value, key: string): (r: Access)
    ensures r.TypeError? <==> v.Undefined? || v.Null?
  {
    match v
    case Undefined => TypeError
    case Null => TypeError
    case Obj(m) => Got(Lookup(m, key))
    case _ => Got(Undefined)
  }

  /** `v.length > k`, as the server validator evaluates it on an arbitrary value:
      strings and arrays compare their length, objects compare a numeric own `length`
      property, everything else has an undefined length and the comparison is false. */
  predicate LengthExceeds(v: Value, k: int) {
    match v
    case Str(s) => |s| > k
    case Arr(a) => |a| > k
    case Obj(m) => "length" in m && m["length"].Num? && m["length"].n > k
    case _ => false
  }
}

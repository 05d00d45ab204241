/** The JavaScript values that flow through the plugin: fetched entries, the
    `addDataTo` locals object, request options and filters. */
module Values {
  import opened Results

  datatype Value =
    | Undefined
    | Null
    | Bool(b: bool)
    | Num(n: real)
    | Str(s: string)
    | Arr(elems: seq<Value>)
    | Obj(props: map<string, Value>)

  /** JavaScript truthiness (NaN is not a `Value`). */
  predicate Truthy(v: Value) {
    match v
    case Undefined => false
    case Null => false
    case Bool(b) => b
    case Num(n) => n != 0.0
    case Str(s) => s != ""
    case Arr(_) => true
    case Obj(_) => true
  }

  /** `o[key]` on a plain object: a missing key reads as `undefined`. */
  function Get(o: map<string, Value>, key: string): (v: Value)
    ensures key !in o ==> v.Undefined?
    ensures key in o ==> v == o[key]
  {
    if key in o then o[key] else Undefined
  }

  /** `v[key]`: a TypeError on `undefined` and `null`; an object yields its
      property; any other value has no such own data here and yields `undefined`. */
  function Member(v: Value, key: string): (r: Result<Value, string>)
    ensures r.Failure? <==> v.Undefined? || v.Null?
    ensures v.Obj? ==> r == Success(Get(v.props, key))
    ensures r.Success? && !v.Obj? ==> r.value.Undefined?
  {
    match v
    case Undefined => Failure("Cannot read property '" + key + "' of undefined")
    case Null => Failure("Cannot read property '" + key + "' of null")
    case Obj(props) => Success(Get(props, key))
    case _ => Success(Undefined)
  }
}

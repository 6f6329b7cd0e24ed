/** JSON values as the request handlers see them in a parsed request body,
    with the two JavaScript tests the handlers apply to them: truthiness
    (`!x`) and loose equality with null (`x == null`). */
module Json {

  /** A JavaScript value that can arrive in a parsed JSON body. `Undefined`
      stands for a property that is not there at all. Numbers are integers
      here; fractional numbers and NaN are not part of this model. */
  datatype Value =
    | Undefined
    | Null
    | Bool(b: bool)
    | Num(n: int)
    | Str(s: string)
    | Arr(elems: seq<Value>)
    | Obj(props: map<string, Value>)

  /** An object: a record in a collection, or a request body. */
  type Object = map<string, Value>

  /** JavaScript truthiness: `!x` is true exactly when `Truthy(x)` is false. */
  predicate Truthy(v: Value)
  {
    match v
    case Undefined => false
    case Null => false
    case Bool(b) => b
    case Num(n) => n != 0
    case Str(s) => s != ""
    case Arr(_) => true
    case Obj(_) => true
  }

  /** `x == null` in JavaScript holds for null and for undefined only. */
  predicate Nullish(v: Value)
  {
    v == Undefined || v == Null
  }

  /** Property access `o.f`: a missing property reads as undefined. */
  function Get(o: Object, f: string): Value
  {
    if f in o then o[f] else Undefined
  }

  /** The only falsy values that are not nullish are `false`, `0` and `""`;
      in particular a stock of `0` passes a `== null` test that a truthiness
      test would reject. */
  lemma FalsyButPresent(v: Value)
    ensures !Truthy(v) && !Nullish(v) <==> v == Bool(false) || v == Num(0) || v == Str("")
  {
  }
}

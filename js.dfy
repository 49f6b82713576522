/**
 The JavaScript values that flow through the resolvers: field arguments, store
 results and the objects the resolvers build. `Undefined` and `Null` are kept
 apart because a parameter default fires only on `undefined`, while `??` fires
 on both. Numbers are modelled as integers.
 */
module Js {

  datatype Option<T> = None | Some(value: T)

  datatype Value =
    | Undefined
    | Null
    | Bool(b: bool)
    | Num(n: int)
    | Str(s: string)
    | Arr(elems: seq<Value>)
    | Obj(fields: map<string, Value>)

  /** `null` or `undefined`: the values `??` replaces and property reads fail on. */
  predicate Nullish(v: Value): (r: bool)
    ensures r <==> v == Undefined || v == Null
    ensures r ==> !Truthy(v)
  {
    v.Undefined? || v.Null?
  }

  /** JavaScript truthiness (NaN is not modelled). */
  predicate Truthy(v: Value): (r: bool)
    ensures !r <==> v == Undefined || v == Null || v == Bool(false) || v == Num(0) || v == Str("")
  {
    match v
    case Undefined => false
    case Null => false
    case Bool(b) => b
    case Num(n) => n != 0
    case Str(s) => s != ""
    case Arr(_) => true
    case Obj(_) => true
  }

  /** `a ?? b` */
  function Coalesce(a: Value, b: Value): (r: Value)
    ensures !Nullish(a) ==> r == a
    ensures Nullish(a) ==> r == b
    ensures !Nullish(b) ==> !Nullish(r)
  {
    if Nullish(a) then b else a
  }

  /** The value a destructuring default `{ x = d } = o` gives `x` when `o.x` is `v`. */
  function WithDefault(v: Value, d: Value): (r: Value)
    ensures v != Undefined ==> r == v
    ensures v == Undefined ==> r == d
  {
    if v.Undefined? then d else v
  }

  /** An own property of an object; a missing one reads as `undefined`. */
  function Own(fields: map<string, Value>, name: string): (r: Value)
    ensures name in fields ==> r == fields[name]
    ensures name !in fields ==> r == Undefined
  {
    if name in fields then fields[name] else Undefined
  }

  /**
   `v.name`, or `None` where JavaScript throws a TypeError because `v` is
   `null` or `undefined`. Values other than objects have none of the
   properties the resolvers read, so those read as `undefined`.
   */
  function Read(v: Value, name: string): (r: Option<Value>)
    ensures r.None? <==> Nullish(v)
    ensures v.Obj? ==> r == Some(Own(v.fields, name))
    ensures !v.Obj? && !Nullish(v) ==> r == Some(Undefined)
  {
    match v
    case Undefined => None
    case Null => None
    case Obj(fields) => Some(Own(fields, name))
    case _ => Some(Undefined)
  }

  /** `??` and a parameter default agree except on `null`. */
  lemma CoalesceAndDefaultDifferOnlyOnNull(v: Value, d: Value)
    requires d != Null
    ensures Coalesce(v, d) != WithDefault(v, d) <==> v == Null
  {
  }
}

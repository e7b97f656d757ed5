/** JavaScript values as the notification core observes them. */
module Values {

  datatype Option<T> = None | Some(value: T)

  /** A value read from a state-holder. Primitives are kept by kind; an object
      (plain object, array or function) carries its identity and its own
      enumerable string-keyed properties, which is all `for...in` and property
      reads ever look at. */
  datatype Val =
    | Undef
    | Null
    | Bool(b: bool)
    | Num(n: int)
    | Str(s: string)
    | Obj(id: nat, fields: map<string, Val>)

  /** `Object.is(a, b)`, and `a === b` as well: the two differ only on NaN and
      signed zero, which this model does not represent. Objects compare by
      identity, never by contents. */
  predicate SameValue(a: Val, b: Val) {
    match (a, b)
    case (Undef, Undef) => true
    case (Null, Null) => true
    case (Bool(x), Bool(y)) => x == y
    case (Num(x), Num(y)) => x == y
    case (Str(x), Str(y)) => x == y
    case (Obj(i, _), Obj(j, _)) => i == j
    case _ => false
  }

  /** `v === undefined || v === null`: property reads on these throw a TypeError. */
  predicate IsNullish(v: Val) {
    v.Undef? || v.Null?
  }

  /** JavaScript truthiness. */
  predicate Truthy(v: Val) {
    match v
    case Undef => false
    case Null => false
    case Bool(b) => b
    case Num(n) => n != 0
    case Str(s) => s != ""
    case Obj(_, _) => true
  }

  /** The property read `v[k]` on a value that is not undefined or null; a
      missing property, and every property of a primitive, reads as undefined. */
  function Get(v: Val, k: string): Val
    requires !IsNullish(v)
  {
    if v.Obj? && k in v.fields then v.fields[k] else Undef
  }

  /** The keys `for (const k in v)` visits. */
  function Keys(v: Val): set<string> {
    if v.Obj? then v.fields.Keys else {}
  }

  lemma SameValueReflexive(v: Val)
    ensures SameValue(v, v)
  {
  }

  lemma SameValueSymmetric(a: Val, b: Val)
    ensures SameValue(a, b) == SameValue(b, a)
  {
  }
}

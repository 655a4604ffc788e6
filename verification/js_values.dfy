/** The loosely typed JavaScript values the public functions of `src/ssa.js`
    receive, with the three JavaScript operations the validation relies on:
    truthiness, `key in obj` and `Array.isArray`. */
module JsValues {
  import opened Wrappers
  import opened Mappers

  /** The object keys the library ever asks about. */
  datatype Key = Property | ValueMapper | Values | Offset

  /** A JavaScript argument. Arrays hold numbers and objects carry only the
      four keys above (each present or not); an absent positional argument
      is `Absent` (`undefined`). */
  datatype Arg =
    | Absent
    | Null
    | Bool(b: bool)
    | Num(x: real)
    | Str(s: string)
    | Arr(elems: seq<real>)
    | Obj(property: Option<string>, valueMapper: Option<Mapper>,
          values: Option<Arg>, offset: Option<real>)

  /** JavaScript truthiness: `undefined`, `null`, `false`, `0` and `""` are
      falsy; every other number, string, array and object is truthy. */
  predicate Truthy(a: Arg) {
    match a
    case Absent => false
    case Null => false
    case Bool(b) => b
    case Num(x) => x != 0.0
    case Str(s) => s != ""
    case Arr(_) => true
    case Obj(_, _, _, _) => true
  }

  /** Arrays and objects are JavaScript objects; everything else is a primitive. */
  predicate IsObject(a: Arg) {
    a.Arr? || a.Obj?
  }

  /** `key in a`: `None` when `a` is a primitive (JavaScript throws a
      `TypeError`), otherwise whether the key is an own or inherited property.
      Of the four keys, an array inherits only `values` (`Array.prototype.values`). */
  function HasKey(a: Arg, k: Key): (r: Option<bool>)
    ensures r.Some? <==> IsObject(a)
    ensures a.Obj? ==> r == Some(match k
                                 case Property => a.property.Some?
                                 case ValueMapper => a.valueMapper.Some?
                                 case Values => a.values.Some?
                                 case Offset => a.offset.Some?)
  {
    match a
    case Arr(_) => Some(k == Values)
    case Obj(p, m, v, o) =>
      Some(match k
           case Property => p.Some?
           case ValueMapper => m.Some?
           case Values => v.Some?
           case Offset => o.Some?)
    case _ => None
  }

  /** `a || fallback` for a numeric argument that is falsy or a number. */
  function NumberOr(a: Arg, fallback: real): (r: real)
    requires !Truthy(a) || a.Num?
    ensures Truthy(a) ==> r == a.x && r != 0.0
    ensures !Truthy(a) ==> r == fallback
  {
    if Truthy(a) then a.x else fallback
  }

  /** `a.length` as `Array(a.length)` reads it: the length of an array or a
      string; any other value has no length and `Array(undefined)` has one slot. */
  function LengthForArray(a: Arg): (n: nat)
    ensures a.Arr? ==> n == |a.elems|
  {
    match a
    case Arr(e) => |e|
    case Str(s) => |s|
    case _ => 1
  }

  /** A sequence of `n` zeros. */
  function Zeros(n: nat): (r: seq<real>)
    ensures |r| == n
    ensures forall i :: 0 <= i < n ==> r[i] == 0.0
  {
    seq(n, _ => 0.0)
  }
}

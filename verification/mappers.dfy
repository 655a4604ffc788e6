/** The predefined value mappers of `src/ssa.js`: each turns the numeric
    components of a style and a unit into a CSS value. A CSS value is kept
    abstract (a transform function or a plain value, a number and a suffix)
    instead of being rendered to text. */
module Mappers {
  import opened Wrappers

  /** The CSS transform functions the mappers produce. */
  datatype TransformFn = RotateFn | TranslateXFn | TranslateYFn | ScaleFn | ScaleXFn | ScaleYFn

  /** A CSS value: `fn(<amount><suffix>)` for a transform, `<amount><suffix>`
      for a plain value. `amount` is `None` when the mapper reads a component
      that does not exist (JavaScript's `undefined`). */
  datatype CssValue =
    | Transform(fn: TransformFn, amount: Option<real>, suffix: string)
    | Plain(amount: Option<real>, suffix: string)

  /** The eight entries of the mapper table. */
  datatype Mapper =
    | MapRotate | MapTranslateX | MapTranslateY | MapScale | MapScaleX | MapScaleY
    | MapDefault | MapDefaultWithUnit

  /** The key of each mapper in the mapper table. */
  function MapperKey(m: Mapper): string {
    match m
    case MapRotate => "rotate"
    case MapTranslateX => "translateX"
    case MapTranslateY => "translateY"
    case MapScale => "scale"
    case MapScaleX => "scaleX"
    case MapScaleY => "scaleY"
    case MapDefault => "default"
    case MapDefaultWithUnit => "defaultWithUnit"
  }

  /** The CSS name of each transform function. */
  function FnName(fn: TransformFn): string {
    match fn
    case RotateFn => "rotate"
    case TranslateXFn => "translateX"
    case TranslateYFn => "translateY"
    case ScaleFn => "scale"
    case ScaleXFn => "scaleX"
    case ScaleYFn => "scaleY"
  }

  /** The mappers whose output carries the configured unit. */
  predicate UsesUnit(m: Mapper) {
    m == MapTranslateX || m == MapTranslateY || m == MapDefaultWithUnit
  }

  /** The mappers that produce a CSS transform function. */
  predicate IsTransform(m: Mapper) {
    !(m == MapDefault || m == MapDefaultWithUnit)
  }

  /** `val[0]`: the first component, or `None` for an empty sequence. */
  function First(vals: seq<real>): (r: Option<real>)
    ensures r.Some? <==> |vals| > 0
    ensures r.Some? ==> r.value == vals[0]
  {
    if |vals| == 0 then None else Some(vals[0])
  }

  /** Applies a mapper to the values and the unit. */
  function Apply(m: Mapper, vals: seq<real>, unit: string): (r: CssValue)
    // the only number written is the first component
    ensures r.amount == First(vals)
    // the unit is appended exactly by the unit-carrying mappers
    ensures UsesUnit(m) ==> r.suffix == unit
    ensures !UsesUnit(m) ==> r.suffix == (if m == MapRotate then "deg" else "")
    ensures r.Transform? <==> IsTransform(m)
    // a transform mapper emits the CSS function named like its table key
    ensures r.Transform? ==> FnName(r.fn) == MapperKey(m)
  {
    match m
    case MapRotate => Transform(RotateFn, First(vals), "deg")
    case MapTranslateX => Transform(TranslateXFn, First(vals), unit)
    case MapTranslateY => Transform(TranslateYFn, First(vals), unit)
    case MapScale => Transform(ScaleFn, First(vals), "")
    case MapScaleX => Transform(ScaleXFn, First(vals), "")
    case MapScaleY => Transform(ScaleYFn, First(vals), "")
    case MapDefault => Plain(First(vals), "")
    case MapDefaultWithUnit => Plain(First(vals), unit)
  }

  /** Every mapper reads only the first component: two value sequences that
      agree on it are mapped to the same CSS value. */
  lemma ReadsOnlyFirst(m: Mapper, v1: seq<real>, v2: seq<real>, unit: string)
    requires |v1| > 0 && |v2| > 0 && v1[0] == v2[0]
    ensures Apply(m, v1, unit) == Apply(m, v2, unit)
  {
  }

  /** The mappers that do not carry a unit ignore it. */
  lemma UnitIgnored(m: Mapper, vals: seq<real>, u1: string, u2: string)
    requires !UsesUnit(m)
    ensures Apply(m, vals, u1) == Apply(m, vals, u2)
  {
  }

  /** The mappers that carry a unit tell units apart. */
  lemma UnitObservable(m: Mapper, vals: seq<real>, u1: string, u2: string)
    requires UsesUnit(m) && u1 != u2
    ensures Apply(m, vals, u1) != Apply(m, vals, u2)
  {
    assert Apply(m, vals, u1).suffix == u1;
  }

  /** A mapper's output determines the first component it was given. */
  lemma FirstRecoverable(m: Mapper, v1: seq<real>, v2: seq<real>, unit: string)
    requires |v1| > 0 && |v2| > 0 && Apply(m, v1, unit) == Apply(m, v2, unit)
    ensures v1[0] == v2[0]
  {
    assert Apply(m, v1, unit).amount == Some(v1[0]);
  }
}

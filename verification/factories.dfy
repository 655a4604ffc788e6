/** The thirteen property-specific constructors of `src/ssa.js`, each built
    by `animationFuncBuilder` from a fixed style descriptor, and the table of
    names the library exports. */
module Factories {
  import opened Wrappers
  import opened Mappers
  import opened JsValues
  import opened Animation

  /** One constructor per animated property. */
  datatype Factory =
    | RotateAnimation | OpacityAnimation | TranslateXAnimation | TranslateYAnimation
    | ScaleAnimation | ScaleXAnimation | ScaleYAnimation
    | TopAnimation | BottomAnimation | LeftAnimation | RightAnimation
    | WidthAnimation | HeightAnimation

  /** The style descriptor each constructor binds. */
  function StyleOf(f: Factory): Style {
    match f
    case RotateAnimation => Style("transform", MapRotate)
    case OpacityAnimation => Style("opacity", MapDefault)
    case TranslateXAnimation => Style("transform", MapTranslateX)
    case TranslateYAnimation => Style("transform", MapTranslateY)
    case ScaleAnimation => Style("transform", MapScale)
    case ScaleXAnimation => Style("transform", MapScaleX)
    case ScaleYAnimation => Style("transform", MapScaleY)
    case TopAnimation => Style("top", MapDefaultWithUnit)
    case BottomAnimation => Style("bottom", MapDefaultWithUnit)
    case LeftAnimation => Style("left", MapDefaultWithUnit)
    case RightAnimation => Style("right", MapDefaultWithUnit)
    case WidthAnimation => Style("width", MapDefaultWithUnit)
    case HeightAnimation => Style("height", MapDefaultWithUnit)
  }

  /** The descriptor table is consistent: a constructor animates `transform`
      exactly when its mapper produces a transform function, and the plain
      properties other than `opacity` carry the unit. */
  lemma StyleTableConsistent(f: Factory, vals: seq<real>, unit: string)
    ensures StyleOf(f).property == "transform" <==> Apply(StyleOf(f).valueMapper, vals, unit).Transform?
    ensures StyleOf(f).property != "transform" && StyleOf(f).property != "opacity" ==>
              Apply(StyleOf(f).valueMapper, vals, unit).suffix == unit
  {
  }

  /** Each constructor is bound to the style its exported name says: a
      transform constructor to the mapper of the same name, any other to the
      property of the same name; `opacity` alone writes a unitless number. */
  lemma StyleTableNames(f: Factory)
    ensures StyleOf(f).property == "opacity" ==> !UsesUnit(StyleOf(f).valueMapper)
    ensures StyleOf(f).property == "transform" ==> MapperKey(StyleOf(f).valueMapper) == ExportName(f)
    ensures StyleOf(f).property != "transform" ==> StyleOf(f).property == ExportName(f)
    ensures StyleOf(f).property != "transform" ==> !IsTransform(StyleOf(f).valueMapper)
  {
  }

  /** The name under which the library exports each constructor. */
  function ExportName(f: Factory): string {
    match f
    case RotateAnimation => "rotate"
    case OpacityAnimation => "opacity"
    case TranslateXAnimation => "translateX"
    case TranslateYAnimation => "translateY"
    case ScaleAnimation => "scale"
    case ScaleXAnimation => "scaleX"
    case ScaleYAnimation => "scaleY"
    case TopAnimation => "top"
    case BottomAnimation => "bottom"
    case LeftAnimation => "left"
    case RightAnimation => "right"
    case WidthAnimation => "width"
    case HeightAnimation => "height"
  }

  const AllFactories: seq<Factory> :=
    [RotateAnimation, OpacityAnimation, TranslateXAnimation, TranslateYAnimation,
     ScaleAnimation, ScaleXAnimation, ScaleYAnimation,
     TopAnimation, BottomAnimation, LeftAnimation, RightAnimation,
     WidthAnimation, HeightAnimation]

  /** Looks a constructor up by its exported name. */
  function Lookup(name: string): (r: Option<Factory>)
    ensures r.Some? ==> ExportName(r.value) == name
    ensures r.None? ==> forall f: Factory :: ExportName(f) != name
  {
    LookupIn(AllFactories, name)
  }

  function LookupIn(fs: seq<Factory>, name: string): (r: Option<Factory>)
    requires forall f: Factory :: f in fs || ExportName(f) != name
    ensures r.Some? ==> ExportName(r.value) == name
    ensures r.None? ==> forall f: Factory :: ExportName(f) != name
  {
    if |fs| == 0 then None
    else if ExportName(fs[0]) == name then Some(fs[0])
    else LookupIn(fs[1..], name)
  }

  /** Every constructor is found under its own name, and the names are distinct. */
  lemma LookupExportName(f: Factory)
    ensures Lookup(ExportName(f)) == Some(f)
  {
    var r := Lookup(ExportName(f));
    assert ExportName(r.value) == ExportName(f);
  }

  /** `rotation` is not an exported name (the example page calls it). */
  lemma RotationNotExported()
    ensures Lookup("rotation") == None
  {
  }

  /** A scalar argument of a wrapper: falsy or a number, as documented. */
  predicate ScalarArg(a: Arg) {
    !Truthy(a) || a.Num?
  }

  /** `v ? [v] : null`: a truthy scalar becomes a one-element array, a falsy
      one (including 0) becomes `null` and later takes the default. */
  function WrapScalar(v: Arg): (r: Arg)
    requires ScalarArg(v)
    ensures Truthy(v) ==> r == Arr([v.x])
    ensures !Truthy(v) ==> !Truthy(r)
  {
    if Truthy(v) then Arr([v.x]) else Null
  }

  /** The style descriptor as the object literal `{property, valueMapper}`. */
  function StyleObject(s: Style): (a: Arg)
    ensures StyleArg(a)
  {
    Obj(Some(s.property), Some(s.valueMapper), None, None)
  }

  /** A constructor call `f(elementId, endValue, endOffset, startValue,
      startOffset, unit)`: it forwards all seven arguments to `createAnimation`. */
  function Build(f: Factory, elementId: Arg, endValue: Arg, endOffset: Arg,
                 startValue: Arg, startOffset: Arg, unit: Arg): (r: Result<Spec, Error>)
    requires ScalarArg(endValue) && ScalarArg(startValue)
    requires OffsetArg(endOffset) && OffsetArg(startOffset) && UnitArg(unit)
    // the only error left is a non-string element id
    ensures r.Ok? <==> elementId.Str?
    ensures r.Err? ==> r.error == WrongArgumentsException(FirstArgumentNotString)
    ensures r.Ok? ==> r.value.element == elementId.s && r.value.style == StyleOf(f)
    // one-component values: the scalar when truthy, otherwise 0
    ensures r.Ok? ==> r.value.endPoint.values == [if Truthy(endValue) then endValue.x else 0.0]
    ensures r.Ok? ==> r.value.startPoint.values == [if Truthy(startValue) then startValue.x else 0.0]
    // offsets and unit are forwarded, falsy ones taking the defaults
    ensures r.Ok? ==> r.value.endPoint.offset == NumberOr(endOffset, 1.0)
    ensures r.Ok? ==> r.value.startPoint.offset == NumberOr(startOffset, 0.0)
    ensures r.Ok? ==> r.value.unit == (if Truthy(unit) then unit.s else "px")
  {
    CreateAnimation([elementId, StyleObject(StyleOf(f)), WrapScalar(endValue), endOffset,
                     WrapScalar(startValue), startOffset, unit])
  }

  /** `rotate("el", 360)` yields a transform animation from 0 to 360 degrees
      over the default band. */
  lemma RotateExample()
    ensures Build(RotateAnimation, Str("el"), Num(360.0), Absent, Absent, Absent, Absent)
         == Ok(Spec("el", Point(0.0, [0.0]), Point(1.0, [360.0]), "px", Style("transform", MapRotate)))
  {
  }

  /** Passing 0 as the end value is the same as leaving it out. */
  lemma ZeroScalarIsDefault(f: Factory, id: Arg, endOffset: Arg, startValue: Arg, startOffset: Arg, unit: Arg)
    requires ScalarArg(startValue) && OffsetArg(endOffset) && OffsetArg(startOffset) && UnitArg(unit)
    ensures Build(f, id, Num(0.0), endOffset, startValue, startOffset, unit)
         == Build(f, id, Absent, endOffset, startValue, startOffset, unit)
  {
  }
}

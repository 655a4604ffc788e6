/** The animation object of `src/ssa.js`: its construction by
    `createAnimation` (validation and defaults) and its chained setters
    `setUnit`, `setStart` and `setEnd`. The object is an immutable value
    here; a setter returns the updated object in place of `this`. */
module Animation {
  import opened Wrappers
  import opened Mappers
  import opened JsValues

  /** A point of the animation: an offset (fraction of the viewport height
      measured up from its bottom) and the style's numeric components there. */
  datatype Point = Point(offset: real, values: seq<real>)

  /** The animated style: a key of `element.style` and its value mapper. */
  datatype Style = Style(property: string, valueMapper: Mapper)

  /** An animation object. `element` is the element id: the element handle
      `document.getElementById` resolves is identified with it. */
  datatype Spec = Spec(element: string, startPoint: Point, endPoint: Point, unit: string, style: Style)

  /** What the library throws: its own `WrongArgumentsException`, or the
      `TypeError` JavaScript raises for `key in v` on a primitive `v`. */
  datatype Error = WrongArgumentsException(message: string) | TypeError

  const NotEnoughArguments := "Not enough arguments provided!"
  const FirstArgumentNotString := "First argument must be a string!"
  const WrongStyle := "Wrong style argument!"
  const ValuesNotArrays := "Start and end values must be an array!"
  const InvalidUnit := "Unit is not a valid type!"
  const PointKeysMissing := "Argument must be a object with 'values' and 'offset' as properties!"
  const PointValuesNotArray := "Values must be an array of numbers!"

  /** The `i`-th positional argument of a call, `undefined` when not passed. */
  function Param(args: seq<Arg>, i: nat): (a: Arg)
    ensures i >= |args| ==> a == Absent
  {
    if i < |args| then args[i] else Absent
  }

  /** An offset argument the source documents as a number (falsy ones take the default). */
  predicate OffsetArg(a: Arg) {
    !Truthy(a) || a.Num?
  }

  /** A unit argument the source documents as a string (falsy ones take the default). */
  predicate UnitArg(a: Arg) {
    !Truthy(a) || a.Str?
  }

  /** What `createAnimation` asks of the types of its optional arguments. */
  predicate ArgumentsTyped(args: seq<Arg>) {
    OffsetArg(Param(args, 3)) && OffsetArg(Param(args, 5)) && UnitArg(Param(args, 6))
  }

  /** A style argument is well formed when it has both descriptor keys. */
  predicate StyleArg(a: Arg) {
    a.Obj? && a.property.Some? && a.valueMapper.Some?
  }

  /** A values argument is acceptable when it is falsy (it takes the
      default) or an array. */
  predicate ValuesArg(a: Arg) {
    !Truthy(a) || a.Arr?
  }

  /** The calls `createAnimation` accepts, stated independently of its body. */
  predicate Accepted(args: seq<Arg>) {
    && |args| >= 2
    && args[0].Str?
    && StyleArg(args[1])
    && ValuesArg(Param(args, 2))
    && ValuesArg(Param(args, 4))
  }

  /** `createAnimation(elementId, style, endValues, endOffset, startValues,
      startOffset, unit)` called with the positional arguments `args`. */
  function CreateAnimation(args: seq<Arg>): (r: Result<Spec, Error>)
    requires ArgumentsTyped(args)
    ensures r.Ok? <==> Accepted(args)
    // only a primitive style reaches the `in` operator's TypeError
    ensures r == Err(TypeError) <==> |args| >= 2 && args[0].Str? && !IsObject(args[1])
    ensures r.Ok? ==> r.value.element == args[0].s
    ensures r.Ok? ==> r.value.style == Style(args[1].property.value, args[1].valueMapper.value)
    // end values: the array passed, otherwise [0]
    ensures r.Ok? && Truthy(Param(args, 2)) ==> r.value.endPoint.values == args[2].elems
    ensures r.Ok? && !Truthy(Param(args, 2)) ==> r.value.endPoint.values == [0.0]
    // start values: the array passed, otherwise zeros as long as the end values
    ensures r.Ok? && Truthy(Param(args, 4)) ==> r.value.startPoint.values == args[4].elems
    ensures r.Ok? && !Truthy(Param(args, 4)) ==>
              |r.value.startPoint.values| == |r.value.endPoint.values| &&
              forall i :: 0 <= i < |r.value.startPoint.values| ==> r.value.startPoint.values[i] == 0.0
    // offsets: a truthy number passed, otherwise 0 and 1; the end offset is never 0
    ensures r.Ok? && Truthy(Param(args, 3)) ==> r.value.endPoint.offset == args[3].x
    ensures r.Ok? && !Truthy(Param(args, 3)) ==> r.value.endPoint.offset == 1.0
    ensures r.Ok? ==> r.value.endPoint.offset != 0.0
    ensures r.Ok? && Truthy(Param(args, 5)) ==> r.value.startPoint.offset == args[5].x
    ensures r.Ok? && !Truthy(Param(args, 5)) ==> r.value.startPoint.offset == 0.0
    // unit: a non-empty string passed, otherwise "px"; never empty
    ensures r.Ok? && Truthy(Param(args, 6)) ==> r.value.unit == args[6].s
    ensures r.Ok? && !Truthy(Param(args, 6)) ==> r.value.unit == "px"
    ensures r.Ok? ==> r.value.unit != ""
  {
    if |args| < 2 then Err(WrongArgumentsException(NotEnoughArguments))
    else if !args[0].Str? then Err(WrongArgumentsException(FirstArgumentNotString))
    else
      var style := args[1];
      match HasKey(style, Property)
      case None => Err(TypeError)
      case Some(hasProperty) =>
        if !hasProperty || !HasKey(style, ValueMapper).value then
          Err(WrongArgumentsException(WrongStyle))
        else
          var startOffset := NumberOr(Param(args, 5), 0.0);
          var endOffset := NumberOr(Param(args, 3), 1.0);
          var endValues := if Truthy(Param(args, 2)) then Param(args, 2) else Arr([0.0]);
          var startValues := if Truthy(Param(args, 4)) then Param(args, 4)
                             else Arr(Zeros(LengthForArray(endValues)));
          if !endValues.Arr? || !startValues.Arr? then
            Err(WrongArgumentsException(ValuesNotArrays))
          else
            var unit := if Truthy(Param(args, 6)) then Param(args, 6).s else "px";
            Ok(Spec(args[0].s,
                    Point(startOffset, startValues.elems),
                    Point(endOffset, endValues.elems),
                    unit,
                    Style(style.property.value, style.valueMapper.value)))
  }

  /** The error `createAnimation` throws for a rejected call, in the order
      the source checks: argument count, id, style keys, values. */
  lemma CreateAnimationErrors(args: seq<Arg>)
    requires ArgumentsTyped(args)
    ensures |args| < 2 ==> CreateAnimation(args) == Err(WrongArgumentsException(NotEnoughArguments))
    ensures |args| >= 2 && !args[0].Str? ==>
              CreateAnimation(args) == Err(WrongArgumentsException(FirstArgumentNotString))
    ensures |args| >= 2 && args[0].Str? && IsObject(args[1]) && !StyleArg(args[1]) ==>
              CreateAnimation(args) == Err(WrongArgumentsException(WrongStyle))
    ensures |args| >= 2 && args[0].Str? && StyleArg(args[1]) &&
            !(ValuesArg(Param(args, 2)) && ValuesArg(Param(args, 4))) ==>
              CreateAnimation(args) == Err(WrongArgumentsException(ValuesNotArrays))
  {
  }

  /** With only an element id and a style, the object gets the documented
      defaults: start {offset: 0, values: [0]}, end {offset: 1, values: [0]}, "px". */
  lemma CreateAnimationDefaults(id: string, property: string, m: Mapper)
    ensures CreateAnimation([Str(id), Obj(Some(property), Some(m), None, None)])
         == Ok(Spec(id, Point(0.0, [0.0]), Point(1.0, [0.0]), "px", Style(property, m)))
  {
    var r := CreateAnimation([Str(id), Obj(Some(property), Some(m), None, None)]);
    assert r.value.startPoint.values == [0.0];
  }

  /** The `||` defaulting: an end offset of 0 is read as 1 and an empty unit
      as "px", exactly as if the arguments had been left out. */
  lemma FalsyArgumentsTakeDefaults(args: seq<Arg>)
    requires |args| == 7 && ArgumentsTyped(args)
    ensures CreateAnimation(args[3 := Num(0.0)]) == CreateAnimation(args[3 := Absent])
    ensures CreateAnimation(args[6 := Str("")]) == CreateAnimation(args[6 := Absent])
    ensures CreateAnimation(args[2 := Num(0.0)]) == CreateAnimation(args[2 := Null])
  {
  }

  /** `setUnit(unit)`: rejects a falsy or non-string unit, otherwise
      replaces the unit and nothing else. */
  function SetUnit(spec: Spec, unit: Arg): (r: Result<Spec, Error>)
    ensures r.Ok? <==> unit.Str? && unit.s != ""
    ensures r.Err? ==> r.error == WrongArgumentsException(InvalidUnit)
    ensures r.Ok? ==> r.value.unit == unit.s && r.value.(unit := spec.unit) == spec
  {
    if !Truthy(unit) || !unit.Str? then Err(WrongArgumentsException(InvalidUnit))
    else Ok(spec.(unit := unit.s))
  }

  /** `checkStartEndObj(obj)`: the point the object describes, or the error
      thrown. A primitive fails at the `in` operator; an array has no
      `offset` key. */
  function CheckStartEndObj(obj: Arg): (r: Result<Point, Error>)
    ensures r.Ok? <==> obj.Obj? && obj.values.Some? && obj.values.value.Arr? && obj.offset.Some?
    ensures r.Ok? ==> r.value == Point(obj.offset.value, obj.values.value.elems)
    ensures r == Err(TypeError) <==> !IsObject(obj)
    ensures IsObject(obj) && !(obj.Obj? && obj.values.Some? && obj.offset.Some?) ==>
              r == Err(WrongArgumentsException(PointKeysMissing))
    ensures obj.Obj? && obj.values.Some? && obj.offset.Some? && !obj.values.value.Arr? ==>
              r == Err(WrongArgumentsException(PointValuesNotArray))
  {
    match HasKey(obj, Values)
    case None => Err(TypeError)
    case Some(hasValues) =>
      if !hasValues || !HasKey(obj, Offset).value then
        Err(WrongArgumentsException(PointKeysMissing))
      else if !obj.values.value.Arr? then
        Err(WrongArgumentsException(PointValuesNotArray))
      else
        Ok(Point(obj.offset.value, obj.values.value.elems))
  }

  /** `setStart(obj)`: replaces the start point wholesale after checking it. */
  function SetStart(spec: Spec, obj: Arg): (r: Result<Spec, Error>)
    ensures r.Ok? <==> CheckStartEndObj(obj).Ok?
    ensures r.Err? ==> r.error == CheckStartEndObj(obj).error
    ensures r.Ok? ==> r.value.startPoint == CheckStartEndObj(obj).value
    ensures r.Ok? ==> r.value.(startPoint := spec.startPoint) == spec
  {
    match CheckStartEndObj(obj)
    case Err(e) => Err(e)
    case Ok(p) => Ok(spec.(startPoint := p))
  }

  /** `setEnd(obj)`: replaces the end point wholesale after checking it. */
  function SetEnd(spec: Spec, obj: Arg): (r: Result<Spec, Error>)
    ensures r.Ok? <==> CheckStartEndObj(obj).Ok?
    ensures r.Err? ==> r.error == CheckStartEndObj(obj).error
    ensures r.Ok? ==> r.value.endPoint == CheckStartEndObj(obj).value
    ensures r.Ok? ==> r.value.(endPoint := spec.endPoint) == spec
  {
    match CheckStartEndObj(obj)
    case Err(e) => Err(e)
    case Ok(p) => Ok(spec.(endPoint := p))
  }

  /** The setters' outcome does not depend on what they replace: the last
      accepted call wins, and setting the start and the end commute. */
  lemma SettersLastWriterWins(spec: Spec, u1: Arg, u2: Arg, p1: Arg, p2: Arg, q: Arg)
    requires SetUnit(spec, u1).Ok? && SetStart(spec, p1).Ok? && SetEnd(spec, q).Ok?
    ensures SetUnit(SetUnit(spec, u1).value, u2) == SetUnit(spec, u2)
    ensures SetStart(SetStart(spec, p1).value, p2) == SetStart(spec, p2)
    ensures SetEnd(SetStart(spec, p1).value, q).Ok?
    ensures SetEnd(SetStart(spec, p1).value, q).value == SetStart(SetEnd(spec, q).value, p1).value
  {
  }

  /** Chaining `setUnit("%").setStart({values: [0], offset: 0})` applies both
      changes and keeps the element, style and end point. */
  lemma ChainedSetters(spec: Spec)
    ensures SetUnit(spec, Str("%")).Ok?
    ensures SetStart(SetUnit(spec, Str("%")).value, Obj(None, None, Some(Arr([0.0])), Some(0.0)))
         == Ok(Spec(spec.element, Point(0.0, [0.0]), spec.endPoint, "%", spec.style))
  {
  }
}

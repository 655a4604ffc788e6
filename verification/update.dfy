/** The per-scroll `animate` step of an animation object: reset the style to
    the start values, measure where the element's top is relative to the
    viewport bottom, then write the interpolated, start or end values. The
    cached viewport height `h` and the element's bounding-box top `y` are
    inputs; the DOM reads and writes become a sequence of style writes. */
module Update {
  import opened Wrappers
  import opened Mappers
  import opened Animation

  /** The style slot a write goes to: an element and a key of its `style`. */
  datatype Target = Target(element: string, property: string)

  /** One assignment `element.style[property] = value`. */
  datatype StyleWrite = StyleWrite(target: Target, value: CssValue)

  /** How the final value of one `animate` call is chosen. */
  datatype Decision = AtStart | Interpolated(progress: real) | AtEnd

  function TargetOf(s: Spec): Target {
    Target(s.element, s.style.property)
  }

  /** `valueMapper(values, unit)` for the object's style and unit. */
  function Format(s: Spec, vals: seq<real>): CssValue {
    Apply(s.style.valueMapper, vals, s.unit)
  }

  /** What `animate` needs to index the end values: at least as many end
      components as start components. */
  predicate Animatable(s: Spec) {
    |s.startPoint.values| <= |s.endPoint.values|
  }

  /** The distance from the viewport bottom up to the element's top. */
  function Bottom(h: real, y: real): real {
    h - y
  }

  /** The start and end offsets converted to pixels. */
  function StartPx(s: Spec, h: real): real {
    s.startPoint.offset * h
  }

  function EndPx(s: Spec, h: real): real {
    s.endPoint.offset * h
  }

  /** `(bottom - startPx) / (endPx - startPx)`, computed only inside the band:
      the divisor is then positive and the progress lies strictly in (0, 1). */
  function Progress(s: Spec, h: real, bottom: real): (p: real)
    requires StartPx(s, h) < bottom < EndPx(s, h)
    ensures 0.0 < p < 1.0
  {
    var span := EndPx(s, h) - StartPx(s, h);
    ProperFraction(bottom - StartPx(s, h), span);
    (bottom - StartPx(s, h)) / span
  }

  /** A quotient `d / x` with `0 < d < x` lies strictly between 0 and 1. */
  lemma ProperFraction(d: real, x: real)
    requires 0.0 < d < x
    ensures 0.0 < d / x < 1.0
  {
    ScaleCompare(d / x, x, d);
  }

  /** A product of two positive reals is positive. */
  lemma MulPositive(a: real, b: real)
    requires a > 0.0 && b > 0.0
    ensures a * b > 0.0
  {
  }

  /** For a positive `x` and `d == r * x`, `d` compares with 0 and with `x`
      as `r` compares with 0 and with 1. */
  lemma ScaleCompare(r: real, x: real, d: real)
    requires x > 0.0 && r * x == d
    ensures r < 0.0 <==> d < 0.0
    ensures r == 0.0 <==> d == 0.0
    ensures r < 1.0 <==> d < x
    ensures r == 1.0 <==> d == x
    ensures r > 1.0 <==> d > x
  {
    assert (r - 1.0) * x == d - x;
    if r > 0.0 { MulPositive(r, x); }
    if r < 0.0 { MulPositive(-r, x); assert (-r) * x == -d; }
    if r > 1.0 { MulPositive(r - 1.0, x); }
    if r < 1.0 { MulPositive(1.0 - r, x); assert (1.0 - r) * x == x - d; }
  }

  /** Component-wise linear interpolation over the start values, reading the
      end value at the same index. */
  function Interpolate(start: seq<real>, end: seq<real>, p: real): (r: seq<real>)
    requires |start| <= |end|
    ensures |r| == |start|
  {
    seq(|start|, i requires 0 <= i < |start| => start[i] + p * (end[i] - start[i]))
  }

  /** Only the end values at the start values' indices are read. */
  lemma InterpolateReadsPrefix(start: seq<real>, end: seq<real>, p: real)
    requires |start| <= |end|
    ensures Interpolate(start, end, p) == Interpolate(start, end[..|start|], p)
  {
    var a, b := Interpolate(start, end, p), Interpolate(start, end[..|start|], p);
    assert forall i :: 0 <= i < |start| ==> a[i] == b[i];
  }

  /** Progress 0 gives the start values and progress 1 the end values. */
  lemma InterpolateEndpoints(start: seq<real>, end: seq<real>)
    requires |start| == |end|
    ensures Interpolate(start, end, 0.0) == start
    ensures Interpolate(start, end, 1.0) == end
  {
  }

  /** A component's position between its two end values, inclusive when they
      coincide. */
  predicate StrictlyBetween(v: real, a: real, b: real) {
    if a < b then a < v < b else if b < a then b < v < a else v == a
  }

  lemma ComponentBetween(a: real, b: real, p: real)
    requires 0.0 < p < 1.0
    ensures StrictlyBetween(a + p * (b - a), a, b)
  {
    if a < b {
      ScaleCompare(p, b - a, p * (b - a));
    } else if b < a {
      ScaleCompare(p, a - b, p * (a - b));
      assert p * (b - a) == -(p * (a - b));
    }
  }

  /** Inside the band each interpolated component lies strictly between its
      start and end value. */
  lemma InterpolateBetween(start: seq<real>, end: seq<real>, p: real)
    requires |start| <= |end| && 0.0 < p < 1.0
    ensures forall i :: 0 <= i < |start| ==> StrictlyBetween(Interpolate(start, end, p)[i], start[i], end[i])
  {
    forall i | 0 <= i < |start|
      ensures StrictlyBetween(Interpolate(start, end, p)[i], start[i], end[i])
    {
      ComponentBetween(start[i], end[i], p);
    }
  }

  /** The branch `animate` takes for a given bottom: the band is open at both
      ends, and the end values are chosen only strictly above the end offset. */
  function Decide(s: Spec, h: real, bottom: real): (d: Decision)
    ensures d.Interpolated? <==> StartPx(s, h) < bottom < EndPx(s, h)
    ensures d.Interpolated? ==> 0.0 < d.progress < 1.0
    ensures d.AtEnd? <==> bottom > EndPx(s, h) && bottom >= StartPx(s, h)
    ensures d.AtStart? <==>
              bottom < StartPx(s, h) ||
              (StartPx(s, h) <= bottom <= EndPx(s, h) && (bottom == StartPx(s, h) || bottom == EndPx(s, h)))
  {
    if bottom > StartPx(s, h) && bottom < EndPx(s, h) then Interpolated(Progress(s, h, bottom))
    else if bottom < StartPx(s, h) then AtStart
    else if bottom > EndPx(s, h) then AtEnd
    else AtStart
  }

  /** The values a decision selects. */
  function ValuesOf(s: Spec, d: Decision): (vals: seq<real>)
    requires Animatable(s)
  {
    match d
    case AtStart => s.startPoint.values
    case AtEnd => s.endPoint.values
    case Interpolated(p) => Interpolate(s.startPoint.values, s.endPoint.values, p)
  }

  /** `animate()`: the style writes it performs, in order. */
  function Animate(s: Spec, h: real, y: real): (writes: seq<StyleWrite>)
    requires Animatable(s)
    ensures 1 <= |writes| <= 2
    // the reset to the start values always comes first
    ensures writes[0] == StyleWrite(TargetOf(s), Format(s, s.startPoint.values))
    ensures forall i :: 0 <= i < |writes| ==> writes[i].target == TargetOf(s)
    // only the reset happens exactly on a closed edge of the band
    ensures |writes| == 1 <==>
              StartPx(s, h) <= Bottom(h, y) <= EndPx(s, h) &&
              (Bottom(h, y) == StartPx(s, h) || Bottom(h, y) == EndPx(s, h))
    ensures writes[|writes| - 1].value == Format(s, ValuesOf(s, Decide(s, h, Bottom(h, y))))
  {
    var reset := StyleWrite(TargetOf(s), Format(s, s.startPoint.values));
    var startPx := StartPx(s, h);
    var endPx := EndPx(s, h);
    var bottom := Bottom(h, y);
    if bottom > startPx && bottom < endPx then
      var values := Interpolate(s.startPoint.values, s.endPoint.values, Progress(s, h, bottom));
      [reset, StyleWrite(TargetOf(s), Format(s, values))]
    else if bottom < startPx then
      [reset, StyleWrite(TargetOf(s), Format(s, s.startPoint.values))]
    else if bottom > endPx then
      [reset, StyleWrite(TargetOf(s), Format(s, s.endPoint.values))]
    else
      [reset]
  }

  /** The style value an `animate` call leaves on the element. */
  function FinalStyle(s: Spec, h: real, y: real): CssValue
    requires Animatable(s)
  {
    var writes := Animate(s, h, y);
    writes[|writes| - 1].value
  }

  /** `min(1, max(0, x))`. */
  function Clamp01(x: real): (r: real)
    ensures 0.0 <= r <= 1.0
    ensures 0.0 <= x <= 1.0 ==> r == x
  {
    if x <= 0.0 then 0.0 else if x >= 1.0 then 1.0 else x
  }

  /** The unclamped progress of a bottom position through a proper band. */
  function Ratio(s: Spec, h: real, bottom: real): real
    requires StartPx(s, h) < EndPx(s, h)
  {
    (bottom - StartPx(s, h)) / (EndPx(s, h) - StartPx(s, h))
  }

  /** The ratio is below 0 under the band, in [0, 1] on it and above 1 over it. */
  lemma RatioRegions(s: Spec, h: real, bottom: real)
    requires StartPx(s, h) < EndPx(s, h)
    ensures bottom < StartPx(s, h) ==> Ratio(s, h, bottom) < 0.0
    ensures bottom == StartPx(s, h) ==> Ratio(s, h, bottom) == 0.0
    ensures bottom == EndPx(s, h) ==> Ratio(s, h, bottom) == 1.0
    ensures bottom > EndPx(s, h) ==> Ratio(s, h, bottom) > 1.0
  {
    var span := EndPx(s, h) - StartPx(s, h);
    var r := Ratio(s, h, bottom);
    assert r * span == bottom - StartPx(s, h);
    ScaleCompare(r, span, bottom - StartPx(s, h));
  }

  /** Reference semantics of `animate` on a proper band (start offset below
      the end offset) with equally long value arrays: the element shows the
      linear interpolation at the clamped progress, except exactly at the end
      offset, where it shows the start values. */
  lemma AnimateIsClampedInterpolation(s: Spec, h: real, y: real)
    requires |s.startPoint.values| == |s.endPoint.values|
    requires StartPx(s, h) < EndPx(s, h)
    ensures Bottom(h, y) != EndPx(s, h) ==>
              FinalStyle(s, h, y) == Format(s, Interpolate(s.startPoint.values, s.endPoint.values,
                                                           Clamp01(Ratio(s, h, Bottom(h, y)))))
    ensures Bottom(h, y) == EndPx(s, h) ==> FinalStyle(s, h, y) == Format(s, s.startPoint.values)
  {
    var b := Bottom(h, y);
    RatioRegions(s, h, b);
    InterpolateEndpoints(s.startPoint.values, s.endPoint.values);
    if StartPx(s, h) < b < EndPx(s, h) {
      var span := EndPx(s, h) - StartPx(s, h);
      assert Progress(s, h, b) * span == Ratio(s, h, b) * span;
      assert Progress(s, h, b) == Ratio(s, h, b);
    }
  }

  /** With the start offset at or above the end offset there is no band: the
      element shows the start values below the start offset and the end
      values from it on whenever it is above the end offset. */
  lemma AnimateWithoutBand(s: Spec, h: real, y: real)
    requires Animatable(s)
    requires EndPx(s, h) <= StartPx(s, h)
    ensures Bottom(h, y) < StartPx(s, h) ==> FinalStyle(s, h, y) == Format(s, s.startPoint.values)
    ensures Bottom(h, y) >= StartPx(s, h) && Bottom(h, y) > EndPx(s, h) ==>
              FinalStyle(s, h, y) == Format(s, s.endPoint.values)
    ensures Bottom(h, y) == StartPx(s, h) == EndPx(s, h) ==> FinalStyle(s, h, y) == Format(s, s.startPoint.values)
  {
  }

  /** At the start offset the element shows what it shows just below it. */
  lemma StartBoundaryMatchesBelow(s: Spec, h: real, y: real, yBelow: real)
    requires Animatable(s)
    requires StartPx(s, h) <= EndPx(s, h)
    requires Bottom(h, y) == StartPx(s, h) && Bottom(h, yBelow) < StartPx(s, h)
    ensures FinalStyle(s, h, y) == FinalStyle(s, h, yBelow)
  {
  }

  /** Linearity: animating `left` from 0 to 100 px, the element at
      the middle of the band is at 50px. */
  lemma HalfwayExample(id: string)
    ensures FinalStyle(Spec(id, Point(0.0, [0.0]), Point(1.0, [100.0]), "px", Style("left", MapDefaultWithUnit)),
                       800.0, 400.0)
         == Plain(Some(50.0), "px")
  {
    var s := Spec(id, Point(0.0, [0.0]), Point(1.0, [100.0]), "px", Style("left", MapDefaultWithUnit));
    assert Progress(s, 800.0, 400.0) == 0.5;
  }

  /** `rotate("el", 360)` with the element halfway up the viewport shows `rotate(180deg)`. */
  lemma RotateHalfwayExample()
    ensures FinalStyle(Spec("el", Point(0.0, [0.0]), Point(1.0, [360.0]), "px", Style("transform", MapRotate)),
                       800.0, 400.0)
         == Transform(RotateFn, Some(180.0), "deg")
  {
    var s := Spec("el", Point(0.0, [0.0]), Point(1.0, [360.0]), "px", Style("transform", MapRotate));
    assert Progress(s, 800.0, 400.0) == 0.5;
  }

  /** The end-offset glitch of `animate` as written: with `rotate("el", 360)`
      on an 800px viewport, the element just under the end offset is almost
      at 360deg and just over it at 360deg, but exactly on it (top at 0) it
      jumps back to 0deg, because no branch fires when bottom == endPx. */
  lemma EndBoundaryGlitch()
    ensures FinalStyle(RotateSpec(), 800.0, 1.0) == Transform(RotateFn, Some(359.55), "deg")
    ensures FinalStyle(RotateSpec(), 800.0, 0.0) == Transform(RotateFn, Some(0.0), "deg")
    ensures FinalStyle(RotateSpec(), 800.0, -1.0) == Transform(RotateFn, Some(360.0), "deg")
  {
    var s := RotateSpec();
    assert Progress(s, 800.0, 799.0) == 799.0 / 800.0;
  }

  function RotateSpec(): Spec {
    Spec("el", Point(0.0, [0.0]), Point(1.0, [360.0]), "px", Style("transform", MapRotate))
  }

  /** The corrected branch choice: end values from the end offset on
      (`bottom >= endPx`), everything else as written. */
  function DecideFixed(s: Spec, h: real, bottom: real): (d: Decision)
    ensures d.Interpolated? <==> StartPx(s, h) < bottom < EndPx(s, h)
    ensures d.Interpolated? ==> 0.0 < d.progress < 1.0
    ensures d.AtEnd? <==> bottom >= EndPx(s, h) && bottom >= StartPx(s, h)
    ensures d.AtStart? <==> bottom < StartPx(s, h) || (bottom == StartPx(s, h) && bottom < EndPx(s, h))
  {
    if bottom > StartPx(s, h) && bottom < EndPx(s, h) then Interpolated(Progress(s, h, bottom))
    else if bottom < StartPx(s, h) then AtStart
    else if bottom >= EndPx(s, h) then AtEnd
    else AtStart
  }

  /** `animate()` with the corrected end comparison. */
  function AnimateFixed(s: Spec, h: real, y: real): (writes: seq<StyleWrite>)
    requires Animatable(s)
    ensures 1 <= |writes| <= 2
    ensures writes[0] == StyleWrite(TargetOf(s), Format(s, s.startPoint.values))
    ensures forall i :: 0 <= i < |writes| ==> writes[i].target == TargetOf(s)
    ensures writes[|writes| - 1].value == Format(s, ValuesOf(s, DecideFixed(s, h, Bottom(h, y))))
  {
    var reset := StyleWrite(TargetOf(s), Format(s, s.startPoint.values));
    var startPx := StartPx(s, h);
    var endPx := EndPx(s, h);
    var bottom := Bottom(h, y);
    if bottom > startPx && bottom < endPx then
      var values := Interpolate(s.startPoint.values, s.endPoint.values, Progress(s, h, bottom));
      [reset, StyleWrite(TargetOf(s), Format(s, values))]
    else if bottom < startPx then
      [reset, StyleWrite(TargetOf(s), Format(s, s.startPoint.values))]
    else if bottom >= endPx then
      [reset, StyleWrite(TargetOf(s), Format(s, s.endPoint.values))]
    else
      [reset]
  }

  function FinalStyleFixed(s: Spec, h: real, y: real): CssValue
    requires Animatable(s)
  {
    var writes := AnimateFixed(s, h, y);
    writes[|writes| - 1].value
  }

  /** The corrected step is the clamped linear interpolation everywhere on a
      proper band, the end offset included. */
  lemma FixedIsClampedInterpolation(s: Spec, h: real, y: real)
    requires |s.startPoint.values| == |s.endPoint.values|
    requires StartPx(s, h) < EndPx(s, h)
    ensures FinalStyleFixed(s, h, y) == Format(s, Interpolate(s.startPoint.values, s.endPoint.values,
                                                             Clamp01(Ratio(s, h, Bottom(h, y)))))
  {
    var b := Bottom(h, y);
    RatioRegions(s, h, b);
    InterpolateEndpoints(s.startPoint.values, s.endPoint.values);
    if StartPx(s, h) < b < EndPx(s, h) {
      var span := EndPx(s, h) - StartPx(s, h);
      assert Progress(s, h, b) * span == Ratio(s, h, b) * span;
      assert Progress(s, h, b) == Ratio(s, h, b);
    }
  }

  /** With the correction, the end offset shows what is shown above it. */
  lemma FixedEndBoundaryMatchesAbove(s: Spec, h: real, y: real, yAbove: real)
    requires Animatable(s)
    requires StartPx(s, h) <= EndPx(s, h)
    requires Bottom(h, y) == EndPx(s, h) && Bottom(h, yAbove) > EndPx(s, h)
    ensures FinalStyleFixed(s, h, y) == FinalStyleFixed(s, h, yAbove)
  {
  }

  /** The correction changes the outcome only at the end offset. */
  lemma FixedAgreesOffEndOffset(s: Spec, h: real, y: real)
    requires Animatable(s)
    requires Bottom(h, y) != EndPx(s, h)
    ensures FinalStyleFixed(s, h, y) == FinalStyle(s, h, y)
    ensures AnimateFixed(s, h, y) == Animate(s, h, y)
  {
  }
}

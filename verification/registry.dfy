/** The module-level state of `src/ssa.js`: the list of started animation
    objects and the cached viewport height, with the three transitions that
    touch it (`start()`, the scroll handler and the resize handler). The DOM
    is reduced to a map from style slots to values, updated by the writes a
    scroll tick performs. */
module Registry {
  import opened Mappers
  import opened Animation
  import opened Update

  /** The started animation objects, in insertion order, and the viewport
      height cached at load and refreshed on resize. */
  datatype State = State(animations: seq<Spec>, clientHeight: real)

  /** Inline styles of the page, per element and property. */
  type Styles = map<Target, CssValue>

  /** Module load: nothing started yet, the viewport height read once. */
  function Load(height: real): (r: State)
    ensures r.animations == []
    ensures r.clientHeight == height
  {
    State([], height)
  }

  /** `spec.start()`: appends the object, with no check for duplicates. */
  function Start(r: State, spec: Spec): (r': State)
    ensures |r'.animations| == |r.animations| + 1
    ensures r'.animations[..|r.animations|] == r.animations
    ensures r'.animations[|r.animations|] == spec
    ensures r'.clientHeight == r.clientHeight
  {
    r.(animations := r.animations + [spec])
  }

  /** The resize handler: only the cached height changes. */
  function Resize(r: State, height: real): (r': State)
    ensures r'.animations == r.animations
    ensures r'.clientHeight == height
  {
    r.(clientHeight := height)
  }

  /** Starting the same object twice registers it twice. */
  lemma StartTwice(r: State, spec: Spec)
    ensures Start(Start(r, spec), spec).animations == r.animations + [spec, spec]
  {
  }

  predicate AllAnimatable(specs: seq<Spec>) {
    forall i :: 0 <= i < |specs| ==> Animatable(specs[i])
  }

  /** The style slots a list of animation objects writes to. */
  function Targets(specs: seq<Spec>): set<Target> {
    set i | 0 <= i < |specs| :: TargetOf(specs[i])
  }

  /** The writes of one scroll event: `animate()` on every entry in order,
      entry `i` measuring its element's top as `tops[i]`. */
  function ScrollWrites(specs: seq<Spec>, height: real, tops: seq<real>): (ws: seq<StyleWrite>)
    requires |tops| == |specs| && AllAnimatable(specs)
    ensures |specs| <= |ws| <= 2 * |specs|
    decreases |specs|
  {
    if |specs| == 0 then []
    else
      var n := |specs| - 1;
      ScrollWrites(specs[..n], height, tops[..n]) + Animate(specs[n], height, tops[n])
  }

  /** The scroll handler of a registry. */
  function Scroll(r: State, tops: seq<real>): (ws: seq<StyleWrite>)
    requires |tops| == |r.animations| && AllAnimatable(r.animations)
    ensures |r.animations| <= |ws| <= 2 * |r.animations|
  {
    ScrollWrites(r.animations, r.clientHeight, tops)
  }

  /** A scroll writes only to slots some entry animates. */
  lemma {:induction false} ScrollWritesOnlyTargets(specs: seq<Spec>, height: real, tops: seq<real>, t: Target)
    requires |tops| == |specs| && AllAnimatable(specs)
    requires t !in Targets(specs)
    ensures forall j :: 0 <= j < |ScrollWrites(specs, height, tops)| ==>
              ScrollWrites(specs, height, tops)[j].target != t
    decreases |specs|
  {
    if |specs| > 0 {
      var n := |specs| - 1;
      assert TargetOf(specs[n]) in Targets(specs);
      assert Targets(specs[..n]) <= Targets(specs) by {
        forall u | u in Targets(specs[..n]) ensures u in Targets(specs) {
          var i :| 0 <= i < n && u == TargetOf(specs[..n][i]);
          assert specs[..n][i] == specs[i];
        }
      }
      ScrollWritesOnlyTargets(specs[..n], height, tops[..n], t);
    }
  }

  /** After `start()`, a scroll animates the earlier entries exactly as
      before and then the new object, last. */
  lemma ScrollAfterStart(r: State, spec: Spec, tops: seq<real>, y: real)
    requires |tops| == |r.animations| && AllAnimatable(r.animations) && Animatable(spec)
    ensures AllAnimatable(Start(r, spec).animations)
    ensures Scroll(Start(r, spec), tops + [y]) == Scroll(r, tops) + Animate(spec, r.clientHeight, y)
  {
    var specs := r.animations + [spec];
    assert specs[..|r.animations|] == r.animations;
    assert (tops + [y])[..|tops|] == tops;
  }

  /** Applies style writes to the page in order. */
  function ApplyWrites(styles: Styles, ws: seq<StyleWrite>): (r: Styles)
    ensures styles.Keys <= r.Keys
    ensures forall j :: 0 <= j < |ws| ==> ws[j].target in r
    decreases |ws|
  {
    if |ws| == 0 then styles
    else
      var r := ApplyWrites(styles[ws[0].target := ws[0].value], ws[1..]);
      assert forall j :: 1 <= j < |ws| ==> ws[j] == ws[1..][j - 1];
      r
  }

  lemma {:induction false} ApplyWritesAppend(styles: Styles, a: seq<StyleWrite>, b: seq<StyleWrite>)
    ensures ApplyWrites(styles, a + b) == ApplyWrites(ApplyWrites(styles, a), b)
    decreases |a|
  {
    if |a| > 0 {
      assert (a + b)[0] == a[0];
      assert (a + b)[1..] == a[1..] + b;
      ApplyWritesAppend(styles[a[0].target := a[0].value], a[1..], b);
    } else {
      assert a + b == b;
    }
  }

  /** Writes to other slots leave a slot as it was. */
  lemma {:induction false} ApplyWritesElsewhere(styles: Styles, ws: seq<StyleWrite>, t: Target)
    requires forall j :: 0 <= j < |ws| ==> ws[j].target != t
    ensures t in ApplyWrites(styles, ws) <==> t in styles
    ensures t in styles ==> ApplyWrites(styles, ws)[t] == styles[t]
    decreases |ws|
  {
    if |ws| > 0 {
      ApplyWritesElsewhere(styles[ws[0].target := ws[0].value], ws[1..], t);
    }
  }

  /** After one `animate()` call its slot holds the final style of that call. */
  lemma ApplyAnimate(styles: Styles, spec: Spec, height: real, y: real)
    requires Animatable(spec)
    ensures TargetOf(spec) in ApplyWrites(styles, Animate(spec, height, y))
    ensures ApplyWrites(styles, Animate(spec, height, y))[TargetOf(spec)] == FinalStyle(spec, height, y)
  {
    var ws := Animate(spec, height, y);
    var s1 := styles[ws[0].target := ws[0].value];
    if |ws| == 2 {
      var s2 := s1[ws[1].target := ws[1].value];
      assert ApplyWrites(s1, ws[1..]) == ApplyWrites(s2, ws[2..]);
    }
  }

  /** Last registered wins: after a scroll, a style slot holds the final
      style of the LAST started object that animates it (objects on the same
      element and property overwrite each other in insertion order). */
  lemma {:induction false} ScrollLastRegisteredWins(styles: Styles, specs: seq<Spec>, height: real,
                                                    tops: seq<real>, k: nat)
    requires |tops| == |specs| && AllAnimatable(specs)
    requires k < |specs|
    requires forall j :: k < j < |specs| ==> TargetOf(specs[j]) != TargetOf(specs[k])
    ensures TargetOf(specs[k]) in ApplyWrites(styles, ScrollWrites(specs, height, tops))
    ensures ApplyWrites(styles, ScrollWrites(specs, height, tops))[TargetOf(specs[k])]
         == FinalStyle(specs[k], height, tops[k])
    decreases |specs|
  {
    var n := |specs| - 1;
    var before := ScrollWrites(specs[..n], height, tops[..n]);
    var last := Animate(specs[n], height, tops[n]);
    ApplyWritesAppend(styles, before, last);
    var mid := ApplyWrites(styles, before);
    if k == n {
      ApplyAnimate(mid, specs[n], height, tops[n]);
    } else {
      assert AllAnimatable(specs[..n]) by {
        forall i | 0 <= i < n ensures Animatable(specs[..n][i]) { assert specs[..n][i] == specs[i]; }
      }
      ScrollLastRegisteredWins(styles, specs[..n], height, tops[..n], k);
      assert specs[..n][k] == specs[k] && tops[..n][k] == tops[k];
      ApplyWritesElsewhere(mid, last, TargetOf(specs[k]));
    }
  }

  /** A scroll leaves every slot no started object animates untouched. */
  lemma ScrollLeavesOtherSlots(styles: Styles, r: State, tops: seq<real>, t: Target)
    requires |tops| == |r.animations| && AllAnimatable(r.animations)
    requires t !in Targets(r.animations)
    ensures t in ApplyWrites(styles, Scroll(r, tops)) <==> t in styles
    ensures t in styles ==> ApplyWrites(styles, Scroll(r, tops))[t] == styles[t]
  {
    ScrollWritesOnlyTargets(r.animations, r.clientHeight, tops, t);
    ApplyWritesElsewhere(styles, Scroll(r, tops), t);
  }

  /** The events the registry reacts to. A scroll changes the page, not the
      registry. */
  datatype Event = Started(spec: Spec) | Scrolled | Resized(height: real)

  function Step(r: State, e: Event): State {
    match e
    case Started(spec) => Start(r, spec)
    case Scrolled => r
    case Resized(height) => Resize(r, height)
  }

  function Run(r: State, events: seq<Event>): State
    decreases |events|
  {
    if |events| == 0 then r else Run(Step(r, events[0]), events[1..])
  }

  /** The objects started by a sequence of events, in order. */
  function StartedBy(events: seq<Event>): (specs: seq<Spec>)
    ensures |specs| <= |events|
    decreases |events|
  {
    if |events| == 0 then []
    else (if events[0].Started? then [events[0].spec] else []) + StartedBy(events[1..])
  }

  /** The height of the last resize in a sequence of events, if any. */
  function LastHeight(events: seq<Event>, height: real): real
    decreases |events|
  {
    if |events| == 0 then height
    else LastHeight(events[1..], if events[0].Resized? then events[0].height else height)
  }

  /** The registry is append-only: after any sequence of events it holds the
      earlier entries followed by exactly the objects started, in order, and
      the height of the last resize (or the initial one). */
  lemma {:induction false} RunAppendOnly(r: State, events: seq<Event>)
    ensures Run(r, events).animations == r.animations + StartedBy(events)
    ensures Run(r, events).clientHeight == LastHeight(events, r.clientHeight)
    decreases |events|
  {
    if |events| > 0 {
      RunAppendOnly(Step(r, events[0]), events[1..]);
      if events[0].Started? {
        assert r.animations + [events[0].spec] + StartedBy(events[1..])
            == r.animations + StartedBy(events);
      } else {
        assert StartedBy(events) == StartedBy(events[1..]);
      }
    }
  }

  /** So no event ever removes or reorders a started object. */
  lemma RunNeverShrinks(r: State, events: seq<Event>)
    ensures |Run(r, events).animations| >= |r.animations|
    ensures Run(r, events).animations[..|r.animations|] == r.animations
  {
    RunAppendOnly(r, events);
  }
}

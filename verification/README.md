# Simple Scroll Animation, modelled in Dafny

This project models `src/ssa.js`, a small browser library. The library animates one CSS property of an element in proportion to its scroll position.

- An **animation object** is built by `createAnimation` or by one of thirteen property-specific constructors. It holds an element, a style descriptor, a start and an end point, and a unit.
- A point is an offset plus the style's numeric components. The offset is a fraction of the viewport height, measured up from the viewport bottom.
- The object has chained setters (`setUnit`, `setStart`, `setEnd`).
- Calling `start()` appends the object to a module-wide list.
- On every scroll event, each listed object runs `animate()`. It first resets the style to the start values. It then measures `bottom = clientHeight - top` and writes either the linear interpolation, the start values or the end values.
- A resize event refreshes the cached `clientHeight`.

Modules, in dependency order:

- `Wrappers` (wrappers.dfy): `Option` and `Result`.
- `Mappers` (mappers.dfy): the eight value mappers. CSS values are abstract (`Transform(fn, amount, suffix)` or `Plain(amount, suffix)`) rather than rendered text.
- `JsValues` (js_values.dfy): the loosely typed arguments (`undefined`, `null`, booleans, numbers, strings, number arrays, and objects with the optional keys `property`, `valueMapper`, `values`, `offset`). It also gives JavaScript truthiness and `key in obj`.
- `Animation` (animation.dfy): the animation object, `createAnimation`, `setUnit`, `checkStartEndObj`, `setStart` and `setEnd`. The object is an immutable value, so a setter returns the updated object.
- `Factories` (factories.dfy): `animationFuncBuilder`, the thirteen constructors as one table, and the table of exported names.
- `Update` (update.dfy): `animate()` as a pure function of the object, the cached height `h` and the element's bounding-box top `y`. Its result is the sequence of style writes.
- `Registry` (registry.dfy): the list of started objects and the cached height, with `start()`, the scroll handler and the resize handler. The page's inline styles are a map from (element, property) to value.

`Update.Animate` is a function of the object, `h` and `y` alone. Two calls with the same inputs therefore perform the same writes. Because the reset comes first, the result does not depend on the style the element had before the call.

Boundary and edge behaviour of the code, as modelled:

- When the start offset is at or below the end offset, exactly at `bottom == endPx` no branch of src/ssa.js:144-159 fires. Only the reset at src/ssa.js:134 happens, so the element shows its start values there. On a proper band (start offset strictly below the end offset) it shows values near the end values just below that point and the end values just above it (see Findings).
- With an inverted band (start offset above the end offset), the value at `bottom == startPx` is the end values (src/ssa.js:157-158).
- A missing element is not skipped: the first scroll throws a `TypeError` at src/ssa.js:134.
- There are thirteen property constructors (src/ssa.js:55-67).

## Model

| member | source | states |
|---|---|---|
| Mappers.Apply | src/ssa.js:16-41 | The only number any mapper writes is the first component (`undefined` when there is none). Only `translateX`, `translateY` and `defaultWithUnit` append the unit. `rotate` appends `deg`. Exactly the six transform mappers produce a transform function, and each emits the CSS function named like its table key. |
| Mappers.ReadsOnlyFirst | src/ssa.js:17-40 | Two value arrays that agree on their first component give the same CSS value under every mapper. |
| Mappers.UnitIgnored | src/ssa.js:17-37 | `rotate`, `scale`, `scaleX`, `scaleY` and `default` give the same value whatever the unit. |
| Mappers.UnitObservable | src/ssa.js:20-40 | `translateX`, `translateY` and `defaultWithUnit` give different values for different units. |
| Mappers.FirstRecoverable | src/ssa.js:17-40 | A mapper's output determines the first component it was given. |
| Animation.CreateAnimation | src/ssa.js:77-128 | Succeeds exactly when there are at least 2 arguments, the id is a string, the style has both `property` and `valueMapper`, and end/start values are falsy or arrays. A primitive style throws `TypeError`. On success each field is the supplied truthy value or its default (`[0]`, zeros as long as the end values, offsets 0 and 1, unit "px"). The end offset is never 0 and the unit never empty. |
| Animation.CreateAnimationErrors | src/ssa.js:80-103 | Which `WrongArgumentsException` message each rejected call gets, in the source's check order. |
| Animation.CreateAnimationDefaults | src/ssa.js:92-105 | `(id, style)` alone yields start `{0, [0]}`, end `{1, [0]}` and unit "px". |
| Animation.FalsyArgumentsTakeDefaults | src/ssa.js:94-105 | An end offset of 0 behaves like an absent one (so it becomes 1). So does an empty unit (it becomes "px") and an end value of 0. |
| Animation.SetUnit | src/ssa.js:163-169 | Accepts exactly non-empty strings and otherwise throws the unit error. It changes the unit and nothing else. |
| Animation.CheckStartEndObj | src/ssa.js:194-202 | Accepts exactly objects with `values` and `offset` whose `values` is an array. A primitive throws `TypeError`. A missing key, including an array's missing `offset`, throws the keys message. Both keys present with a non-array `values` throws the values message. |
| Animation.SetStart | src/ssa.js:172-176 | Succeeds or fails as `checkStartEndObj` does. On success it replaces the start point wholesale and nothing else. |
| Animation.SetEnd | src/ssa.js:180-184 | Succeeds or fails as `checkStartEndObj` does. On success it replaces the end point wholesale and nothing else. |
| Animation.SettersLastWriterWins | src/ssa.js:163-184 | A second `setUnit` or `setStart` overrides the first. `setStart` and `setEnd` commute. |
| Animation.ChainedSetters | src/ssa.js:163-176 | `setUnit("%").setStart({values: [0], offset: 0})` applies both changes and keeps everything else. |
| Factories.StyleTableConsistent | src/ssa.js:55-67 | A constructor animates `transform` exactly when its mapper yields a transform function. The plain properties other than `opacity` carry the unit. |
| Factories.StyleTableNames | src/ssa.js:55-67 | A transform constructor uses the mapper named like its export name, and any other constructor animates the property named like it. Only `opacity` among the plain properties writes a unitless value. |
| Factories.Lookup | src/ssa.js:220-235 | The export table returns only a constructor exported under that name, and returns nothing when no constructor has the name. |
| Factories.LookupExportName | src/ssa.js:220-235 | Every constructor is found under its own exported name. |
| Factories.RotationNotExported | src/ssa.js:220-235 | No constructor is exported as `rotation`. |
| Factories.WrapScalar | src/ssa.js:46-47 | A truthy scalar becomes a one-element array. A falsy one, 0 included, becomes falsy. |
| Factories.Build | src/ssa.js:44-50 | A constructor call fails only for a non-string id, with the id message. Otherwise the object binds the constructor's fixed style and has one-component start/end values (the scalar, or 0 when falsy). The offsets and the unit are forwarded unchanged, each taking its default (1, 0, "px") when falsy. |
| Factories.RotateExample | src/ssa.js:55 | `rotate("el", 360)` is a `transform`/`rotate` animation from [0] at offset 0 to [360] at offset 1, in px. |
| Factories.ZeroScalarIsDefault | src/ssa.js:46-49 | Passing 0 as the end value is the same as omitting it. |
| Update.Progress | src/ssa.js:144-147 | Inside the band the divisor `endPx - startPx` is positive, so there is no division by zero, even when the offsets are equal. The progress is strictly between 0 and 1. |
| Update.Interpolate | src/ssa.js:150-152 | The interpolated array is as long as the start values. |
| Update.InterpolateReadsPrefix | src/ssa.js:150-152 | Only the first as-many end values as there are start values are read: end values beyond them never change the result. |
| Update.InterpolateEndpoints | src/ssa.js:150-152 | Interpolating at progress 0 gives the start values. At progress 1 it gives the end values when the arrays are equally long. |
| Update.InterpolateBetween | src/ssa.js:147-152 | For progress in (0, 1), each component lies strictly between its start and end value, or equals them when they coincide. |
| Update.Decide | src/ssa.js:144-159 | Interpolation happens iff `startPx < bottom < endPx`. End values iff `bottom > endPx` and `bottom >= startPx`. Start values otherwise: below the start offset, or exactly on a closed edge of the band. |
| Update.Animate | src/ssa.js:131-160 | Writes one or two values, all to the object's element and property. The first is always the reset to the start values. There is no second write exactly when `bottom` sits on a closed edge of the band. The last write is the mapped values of `Decide`'s branch. |
| Update.AnimateIsClampedInterpolation | src/ssa.js:137-159 | On a proper band with equal-length arrays, the element shows the interpolation at the progress clamped to [0, 1], except exactly at `endPx`, where it shows the start values. |
| Update.AnimateWithoutBand | src/ssa.js:144-159 | With the start offset at or above the end offset, the result is a step. Below the start offset the element shows the start values. From the start offset on, when also above the end offset, it shows the end values. |
| Update.StartBoundaryMatchesBelow | src/ssa.js:134-156 | On a proper band, the value at `bottom == startPx` equals the value below it. |
| Update.HalfwayExample | src/ssa.js:144-154 | `left` from 0 to 100 px at the middle of the band shows 50px. |
| Update.RotateHalfwayExample | src/ssa.js:144-154 | `rotate("el", 360)` with the element halfway up the viewport shows `rotate(180deg)`. |
| Update.EndBoundaryGlitch | src/ssa.js:144-159 | As written, at one pixel below, on and one pixel above the end offset, `rotate` shows 359.55deg, then 0deg, then 360deg. |
| Update.AnimateFixed | src/ssa.js:131-160 | The corrected step keeps the reset first and the single target. Its last write is the mapped values of the corrected branch choice. |
| Update.DecideFixed | src/ssa.js:144-159 | The corrected choice takes the end values from `bottom >= endPx` on, and keeps the rest as written. |
| Update.FixedIsClampedInterpolation | src/ssa.js:137-159 | With the correction, the element shows the clamped interpolation everywhere on a proper band, the end offset included. |
| Update.FixedEndBoundaryMatchesAbove | src/ssa.js:157-159 | With the correction, the value at `bottom == endPx` equals the value above it. |
| Update.FixedAgreesOffEndOffset | src/ssa.js:157-159 | The correction changes the writes only at `bottom == endPx`. |
| Registry.Load | src/ssa.js:4-7 | At load the list is empty and the height is the one read. |
| Registry.Start | src/ssa.js:187-189 | `start()` appends the object at the end and keeps the earlier entries and the height. |
| Registry.Resize | src/ssa.js:214-216 | A resize changes only the cached height. |
| Registry.StartTwice | src/ssa.js:187-189 | Starting an object twice lists it twice. |
| Registry.ScrollWrites | src/ssa.js:206-210 | A scroll performs between one and two writes per listed object. |
| Registry.Scroll | src/ssa.js:206-210 | The scroll handler runs every listed object's `animate()` with the cached height, performing between one and two writes per listed object. Its order and effect are fixed by `Registry.ScrollAfterStart` and `Registry.ScrollLastRegisteredWins`. |
| Registry.ScrollWritesOnlyTargets | src/ssa.js:206-210 | A scroll writes only to slots some listed object animates. |
| Registry.ScrollAfterStart | src/ssa.js:206-210 | After `start()`, a scroll performs the earlier entries' writes unchanged and then the new object's `animate()`, last. |
| Registry.ScrollLastRegisteredWins | src/ssa.js:206-210 | After a scroll, a slot holds the final value of the last listed object that animates it. |
| Registry.ScrollLeavesOtherSlots | src/ssa.js:206-210 | A slot no listed object animates keeps its value. |
| Registry.RunAppendOnly | src/ssa.js:187-216 | After any sequence of start/scroll/resize events, the list is the old list followed by exactly the started objects in order. The height is the last resize's, or the initial height. |
| Registry.RunNeverShrinks | src/ssa.js:187-189 | No event removes or reorders a listed object. |

## Findings

| source | as written | input that shows it | evidently intended | confidence | as-written member | corrected member |
|---|---|---|---|---|---|---|
| src/ssa.js:155-159 | The end values are written only when `bottom > endOffset`. When the start offset is at or below the end offset, at `bottom == endOffset` no branch fires and the reset leaves the start values. | `rotate("el", 360)`, `clientHeight` 800, element top at 0 (`bottom == endPx == 800`): shows `rotate(0deg)`. At top 1 it shows `rotate(359.55deg)`; at top -1 it shows `rotate(360deg)`. | `bottom >= endOffset`, so that the value is continuous at the end of the band | medium, not executed | Update.EndBoundaryGlitch | Update.FixedIsClampedInterpolation |

`Update.AnimateFixed` is the corrected step. `Update.FixedAgreesOffEndOffset` proves it differs from `Update.Animate` only at `bottom == endPx`. The registry keeps the step as the code writes it.

## Left out

- DOM access is replaced by inputs and outputs. The reads of `document.documentElement.clientHeight` (src/ssa.js:4, 215) are the heights passed to `Registry.Load` and `Registry.Resize`. `getBoundingClientRect().y` (src/ssa.js:141) is the parameter `y`, one per listed object in a scroll. Style assignments become `StyleWrite` values. `addEventListener` becomes the `Registry` transitions.
- `getElementById` is not modelled: the object keeps the element id, and equal ids mean the same element. A missing element makes the first scroll throw a `TypeError` at src/ssa.js:134. That is not modelled; a measured `y` presumes the element exists.
- Floating point is not modelled. Offsets and values are exact reals, so IEEE-754 rounding, `NaN` and JavaScript's number-to-text conversion in the mappers (src/ssa.js:18-39) are out.
- Custom value mappers are out. A style's `valueMapper` is one of the eight predefined mappers; a caller-supplied function is not representable.
- Only some argument shapes are representable. Arrays hold numbers, and objects carry only the four keys the library reads. An offset given as a truthy value must be a number and a unit a string, as the comments at src/ssa.js:74-76 require. A constructor's scalar must be falsy or a number. These are `requires` clauses; other JavaScript values are out.
- Update.Animate: requires at least as many end components as start components. Shorter end arrays read `undefined` and produce `NaN` (src/ssa.js:151).
- `setStart`/`setEnd` store the caller's object itself, so later mutation by the caller would show through. The value model stores a copy.
- Chaining returns the updated value rather than the same reference.
- Registry.Start: the registry keeps a copy of the object as it was when `start()` ran. In the source it keeps a reference (src/ssa.js:188), and the setters change that object in place (src/ssa.js:167, 174, 182). So a `setUnit`, `setStart` or `setEnd` called after `start()` changes every later scroll's writes. The model has no event for that and does not promise anything about it.
- Not modelled: the module's failure to load without a DOM, the `name` field of `WrongArgumentsException`, and arguments beyond the seventh (ignored by the source).
- `example/app.js` (a demo caller) and `gulpfile.js` (build tooling) are not part of this model.

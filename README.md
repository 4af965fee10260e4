# radialMenu core in Dafny

This project models the computational core of `RadialMenu`, the canvas pie
menu of `src/RadialMenu.js`:

- the constructor's validation and defaulting of the numeric options and
  of the buttons;
- `init`'s sector layout. It splits a full turn into one sector per
  button, writes the outer angles `ini`/`fin`, the inner angles
  `ini_inner`/`fin_inner` and the label anchor into each button, and
  records in `rest` the last sector that wraps past angle 0;
- `getButton`'s hit test. It rejects points off the ring, folds the
  `atan2` angle into (0, 2*PI], scans for the first sector holding it, and
  retries the wrap sector with the angle shifted by one turn;
- `checkButtons`, `addButtons`, and the checks `createGradient` makes of
  a gradient object.

Modules, one per file:

- `Common` (common.dfy): `Option`, `Outcome` and `Result`.
- `Angles` (angles.dfy): `Math.PI` as the exact value of the double, the
  JavaScript `%` by `TWOPI` (a truncated remainder) and the angle fold.
- `MenuOptions` (options.dfy): option values, the resolved settings, the
  errors the menu throws, and the gradient-object checks.
- `SectorLayout` (layout.dfy): the values `init` computes for button i of
  n, the wrap index it leaves in `rest`, and a reference description of
  the layout. The reference describes each sector by its unreduced ends
  `RawStart`/`RawEnd` and gives the arc-membership predicates `InArc` and
  `InsideArc`.
- `HitTesting` (hit_test.dfy): the hit test as written (`HitTest`), the
  evidently intended one (`HitTestFixed`), and their relation to the
  layout.
- `HitTestQuirks` (quirks.dfy): where the hit test as written departs
  from the drawn layout, with concrete menus that show it.
- `RadialMenus` (radial_menu.dfy): the `RadialMenu` class. Its
  `buttons: array<Button>` and `rest` fields are updated in place by
  `Init`, `AddButtons` and the constructor. `GetButton` scans the array.
  `NewRadialMenu` is the whole constructor, including the errors it throws.

A button is a value (`Button`) held in an array that the menu shares with
the caller, as the source shares the array it is given. `init` writes a
`Sector` into each button. `Math.cos`/`Math.sin` are parameters. The hit
test takes the pointer's distance `d` and its `atan2` angle `a`.

Behaviour of the code that its comments and documentation describe
differently. The model follows the code:

- The JSDoc (src/RadialMenu.js:7) gives PI/2 as the default rotation. The
  code stores `Math.abs(rotation % TWOPI) || 0`, which is 0 when no
  rotation is given. A negative rotation is mirrored, not wrapped.
- The fold `a > 0 ? a : TWOPI + a` maps angle 0 to 2*PI. With two or more
  buttons, no rotation and no gap, a pointer on the positive x axis
  therefore selects the last button, whose unreduced end is 2*PI (its
  `fin` is 0). With a single such button nothing is selected there.
- The inner gap `gap * PI * inner / outer` is wider than the outer gap
  whenever `PI * inner > outer`. It is `NaN` when `outer` is 0.
- A menu with no buttons is not an error. `step` is then `Infinity`, the
  layout loop does not run and nothing is ever hit.
- With a single button and no gap, `ini == fin`. That button is hit only
  at exactly its start angle.

## Model

A well-formed layout has at least one button, a rotation in [0, 2*PI), a
gap of at least 0 and below half a step, and, for a single button, a
positive gap (`ValidLayout`).

| member | source | states |
|---|---|---|
| Angles.Mod2Pi | src/RadialMenu.js:243 | `x % TWOPI` has the sign of x, lies within one turn of 0 (in [0, 2*PI) for x >= 0, in (-2*PI, 0] for x < 0), and differs from x by a whole number of turns |
| Angles.Mod2PiUnique | src/RadialMenu.js:243 | those three facts determine `x % TWOPI`: any value with x's sign, less than a turn in size and a whole number of turns from x is it |
| Angles.Mod2PiOnTwoTurns | src/RadialMenu.js:243-245 | on [0, 4*PI), `% TWOPI` is the identity below 2*PI and subtracts exactly one turn above |
| Angles.Fold | src/RadialMenu.js:607 | every `atan2` angle in (-PI, PI] folds into (0, 2*PI]; 0 folds to 2*PI; the result is a or a + 2*PI |
| Angles.FoldSameDirection | src/RadialMenu.js:605-607 | an `atan2` angle a whole number of turns from an angle x in (0, 4*PI) folds onto x or x - 2*PI |
| MenuOptions.ResolveRotation | src/RadialMenu.js:113 | the stored rotation lies in [0, 2*PI) and, for a numeric option, is `rotation % TWOPI` or its negation, hence its absolute value; a rotation in [0, 2*PI) is kept, one in (-2*PI, 0) is mirrored to -x, an absent or non-numeric one gives 0 |
| MenuOptions.RotationSevenStored | src/RadialMenu.js:113 | a rotation of 7 is stored as 7 - 2*PI, and so is a rotation of -7 |
| MenuOptions.Radius | src/RadialMenu.js:101-103 | definition: a numeric radius is kept, any other falls back to its default; DefaultRadii and ResolveOptions state its effect |
| MenuOptions.ResolveOptions | src/RadialMenu.js:93-133 | option resolution fails exactly when the font size is non-numeric, inner > outer, or inner < 0 (after defaulting), with the error of the first failing check in source order; on success the settings satisfy 0 <= inner <= outer and 0 <= rotation < 2*PI, and every field equals its `||` or `isNaN` default rule |
| MenuOptions.DefaultRadii | src/RadialMenu.js:101-111 | with neither radius given (and a numeric font size) option resolution succeeds with radii 50 and 100 |
| MenuOptions.CheckColorStopKeys | src/RadialMenu.js:539-545 | passes exactly when every colour-stop key is a number in [0, 1]; otherwise fails with "Invalid color position"; a pass means only that the key checks passed |
| MenuOptions.CheckGradient | src/RadialMenu.js:494-545 | a gradient object without a `gradient` key fails with "Invalid gradient object"; one naming no known kind fails with "Invalid gradient value"; otherwise it passes exactly when every colour-stop key is valid, else fails with "Invalid color position"; a pass means only that these checks passed |
| SectorLayout.OffsetIsProduct | src/RadialMenu.js:243 | i steps laid end to end are `i * step` |
| SectorLayout.FullTurn | src/RadialMenu.js:183 | n steps of `TWOPI / n` make exactly one turn |
| SectorLayout.OuterIni | src/RadialMenu.js:243 | definition of `ini`; it lies in [0, 2*PI) when rotation + gap >= 0, and ReducedEnds relates it to the unreduced start |
| SectorLayout.OuterFin | src/RadialMenu.js:245 | definition of `fin`; ReducedEnds relates it to the unreduced end and OuterAnglesInRange bounds it |
| SectorLayout.InnerGap | src/RadialMenu.js:239 | `innerMargin` is undefined (JavaScript's `NaN`) exactly when the outer radius is 0; InnerGapWiderIff compares it with the outer gap |
| SectorLayout.InnerIni | src/RadialMenu.js:247 | `ini_inner` is undefined (`NaN`) exactly when the outer radius is 0 |
| SectorLayout.InnerFin | src/RadialMenu.js:249 | `fin_inner` is undefined (`NaN`) exactly when the outer radius is 0 |
| SectorLayout.LabelAngle | src/RadialMenu.js:255 | definition of the label angle `a`; LabelAngleInside and LabelDirectionInside place it strictly inside its sector |
| SectorLayout.LabelX | src/RadialMenu.js:257 | definition of `centerX`; LayOutButton is proved to compute it as the loop body does |
| SectorLayout.LabelY | src/RadialMenu.js:259 | definition of `centerY`; LayOutButton is proved to compute it as the loop body does |
| SectorLayout.SectorAt | src/RadialMenu.js:241-259 | definition of everything `init` writes into button i; LayOutButton and Init are proved against it |
| SectorLayout.IsWrap | src/RadialMenu.js:251 | definition of the test `ini > fin`; WrapIff characterises it and AtMostOneWrap bounds it |
| SectorLayout.StepOrder | src/RadialMenu.js:241-245 | a later button's step begins after an earlier one's ends, and less than a turn after the earlier one begins |
| SectorLayout.LastWrap | src/RadialMenu.js:251-253 | the largest index below k whose sector has `ini > fin`, or none when no sector below k wraps |
| SectorLayout.RestAfterInit | src/RadialMenu.js:241-253 | after `init`, `rest` is the largest wrapping index if a sector wraps; otherwise the earlier `rest`, unchanged |
| SectorLayout.OuterAnglesInRange | src/RadialMenu.js:243-245 | with rotation >= 0, gap >= 0 and 2 * gap <= step, every `ini` and `fin` lies in [0, 2*PI) |
| SectorLayout.InnerGapWiderIff | src/RadialMenu.js:239 | for a positive gap, the inner gap is wider than the outer gap exactly when PI * inner > outer |
| SectorLayout.RawBounds | src/RadialMenu.js:243-245 | on a well-formed layout, each sector's unreduced ends lie in [0, 4*PI), in order, less than a turn apart |
| SectorLayout.ReducedEnds | src/RadialMenu.js:243-245 | on a well-formed layout, `ini` and `fin` are the sector's unreduced ends, each reduced by at most one turn |
| SectorLayout.WrapIff | src/RadialMenu.js:251 | on a well-formed layout, `ini > fin` exactly when the sector's unreduced span crosses 2*PI |
| SectorLayout.RawOrder | src/RadialMenu.js:241-245 | on a well-formed layout, a later sector starts after an earlier one ends, and ends before the earlier one starts again one turn on |
| SectorLayout.SectorsAdjoin | src/RadialMenu.js:241-245 | sector i + 1 starts exactly two gaps after sector i ends |
| SectorLayout.LayoutClosesTurn | src/RadialMenu.js:241-245 | the last sector ends exactly two gaps before the first one starts again one turn on: sectors and gaps make up one turn |
| SectorLayout.NoGapCoversTurn | src/RadialMenu.js:241-245 | with no gap, every angle of (0, 2*PI] lies on some sector's arc |
| SectorLayout.AtMostOneWrap | src/RadialMenu.js:251-253 | at most one sector of a well-formed layout wraps |
| SectorLayout.Separated | src/RadialMenu.js:241-245 | on a well-formed layout, a point strictly inside one sector is, shifted by any whole number of turns, on no other sector's span |
| SectorLayout.ArcsDisjoint | src/RadialMenu.js:241-245 | on a well-formed layout, sectors share at most their ends: an angle strictly inside one arc is on no other arc |
| SectorLayout.LabelAngleInside | src/RadialMenu.js:255 | on a well-formed layout, the label angle `ini + step / 2 - margin` lies strictly inside its sector |
| SectorLayout.LabelDirectionInside | src/RadialMenu.js:255 | on a well-formed layout, an `atan2` angle pointing at a label folds strictly inside that label's arc |
| HitTesting.Covers | src/RadialMenu.js:611 | definition of the scan's test `a >= ini && a <= fin`; CoversOnArc relates it to the arcs |
| HitTesting.RetryCovers | src/RadialMenu.js:623-629 | definition of the retry's shift and test; RetryIff relates it to the wrap sector's arc |
| HitTesting.Truthy | src/RadialMenu.js:621 | definition of the truthiness of `this.rest`: defined and not 0; WrapAtZeroMissed shows its effect |
| HitTesting.HitTest | src/RadialMenu.js:603-639 | definition of the hit test as written; GetButton is proved to compute it, HitTestCorrectWhenWrapNotFirst bounds where it is right, the HitTestQuirks lemmas where it is not |
| HitTesting.HitTestFixed | src/RadialMenu.js:603-639 | definition of the intended hit test; HitTestFixedSound and HitTestFixedComplete are its properties |
| HitTesting.FirstCover | src/RadialMenu.js:609-619 | the lowest index from `from` on whose `[ini, fin]` holds the angle, or none when no button's does |
| HitTesting.Locate | src/RadialMenu.js:603-639 | off the ring: no button; when some `[ini, fin]` holds the folded angle: the lowest such index; otherwise the retry of the given wrap index (a hit exactly when the shifted angle is in `[ini, fin + TWOPI]`), an error when the index is past the end, and no button when there is nothing to retry |
| HitTesting.CoversOnArc | src/RadialMenu.js:611 | on a well-formed layout, the scan's test `ini <= a <= fin` holds only on the arc of a sector that does not wrap, and holds strictly inside such an arc (not both ways: it can fail at a shared end) |
| HitTesting.RetryIff | src/RadialMenu.js:623-629 | on a well-formed layout, the retry test on the wrap sector holds exactly on that sector's arc |
| HitTesting.HitTestFixedSound | src/RadialMenu.js:621-635 | on a well-formed layout, the intended hit test, given the current layout's wrap index, never throws and only reports a button whose arc holds the angle |
| HitTesting.HitTestFixedComplete | src/RadialMenu.js:603-639 | on a well-formed layout, the intended hit test finds the button whose arc holds the angle strictly inside |
| HitTesting.LabelDirectionSelectsButton | src/RadialMenu.js:603-639 | on a well-formed layout, a pointer on the ring in the direction of a button's label makes the intended hit test (`HitTestFixed`) select that button; the hit test as written can miss it (see `WrapAtZeroExample`) |
| HitTesting.HitTestCorrectWhenWrapNotFirst | src/RadialMenu.js:621-635 | on a well-formed layout, when `rest` holds the current wrap index and it is not 0, the hit test as written never throws, is sound, and finds the button strictly containing the angle |
| HitTestQuirks.WrapAtZeroMissed | src/RadialMenu.js:621 | on a well-formed layout, when sector 0 wraps, `init` leaves `rest == 0`, and a pointer strictly inside sector 0 finds no button; the intended test finds button 0 |
| HitTestQuirks.WrapAtZeroExample | src/RadialMenu.js:621 | two buttons, rotation PI + 0.5, no gap: a pointer towards the middle of sector 0 finds no button |
| HitTestQuirks.StaleRestClaimsGaps | src/RadialMenu.js:251-253 | on a well-formed layout, after a layout without a wrap sector, a stale `rest` k claims every ring point on no arc (or throws if k is past the end); the intended test finds no button there |
| HitTestQuirks.StaleRestExample | src/RadialMenu.js:571-579 | three buttons, then `addButtons` with four (rotation PI/2 + 0.05, gap 0.1): `rest` stays 2 and a pointer at angle 0, in a gap, selects button 2 |
| HitTestQuirks.PositiveXAxisSelectsLastButton | src/RadialMenu.js:607 | four buttons, no rotation, no gap: `rest` is 3 and a pointer at angle 0 selects button 3 rather than button 0 |
| HitTestQuirks.PositiveXAxisSelectsLast | src/RadialMenu.js:607 | with two or more buttons, no rotation and no gap, `rest` is the last index and a pointer on the ring at angle 0 selects the last button |
| HitTestQuirks.SingleButtonWithoutGap | src/RadialMenu.js:243-253 | one button without gap: no sector wraps, `rest` stays undefined, and the button is hit exactly when the folded angle equals the rotation |
| RadialMenus.DefaultButtons | src/RadialMenu.js:149-157 | definition of the three default buttons; NewRadialMenu states that a menu built without buttons holds them, laid out |
| RadialMenus.CheckButtons | src/RadialMenu.js:559-567 | passes exactly when every button has a text and an action; otherwise fails with "Button must have a text and an action value" |
| RadialMenus.RadialMenu.constructor | src/RadialMenu.js:93-173 | stores the resolved settings and the given array, leaves `rest` undefined before `init`, and lays every button out |
| RadialMenus.RadialMenu.Init | src/RadialMenu.js:237-261 | the settings are unchanged; every button keeps its text, action and style and gains the sector computed for its index; `rest` becomes the last wrapping index, or stays as it was when no sector wraps |
| RadialMenus.RadialMenu.LayOutButton | src/RadialMenu.js:243-259 | the loop body's arithmetic yields exactly the sector the layout defines for button i |
| RadialMenus.RadialMenu.AddButtons | src/RadialMenu.js:571-579 | the settings are unchanged and the new array always replaces `buttons`; the call fails exactly when a button lacks text or action, leaving the buttons and `rest` untouched; otherwise the buttons are laid out and `rest` updated as by `init` |
| RadialMenus.RadialMenu.GetButton | src/RadialMenu.js:599-641 | the scan with `break` and the retry of `rest` compute exactly the hit test as written |
| RadialMenus.NewRadialMenu | src/RadialMenu.js:93-177 | construction fails with the options' error, then with "Buttons must be an Array", then with "Button must have a text and an action value" when the button check fails; on success the menu holds the resolved settings and the given array (or the three default buttons), laid out, with `rest` as `init` leaves it starting from undefined |

## Left out

- Canvas and DOM work is not modelled: sizing, styles, `getContext`, fonts, `draw`, `show`/`hide`/`setPos` and the shadow helpers. These are side effects on browser objects.
- Events, hover state, `hoverAction` and the long-press timer of `addEvent` are not modelled. They are I/O and callback plumbing.
- `Math.cos` and `Math.sin` are parameters. `Math.atan2`, `Math.sqrt` and `distance` are not modelled: the hit test takes the distance `d` and the angle `a` as inputs.
- `getButton`'s bounding-rectangle and device-pixel-ratio scaling (src/RadialMenu.js:589-597) is not modelled. It is a DOM call.
- Floating point is not modelled. Angles are exact reals and `Math.PI` is the exact value of the double, so rounding at the 2*PI boundary is not captured.
- Gradient construction (`createRadialGradient`, `createLinearGradient`, `addColorStop`) is not modelled. Only the checks of `createGradient` are, in `CheckGradient`.
- The colour options are not modelled, and `init`'s conversion of them (src/RadialMenu.js:213-235) is left out. Any colour option that is an object goes through `createGradient`, which can throw, so these options can make construction and `addButtons` fail. The first `init` also replaces such an option with a canvas gradient, which has no `gradient` key, so every later `init` from `addButtons` throws "Invalid gradient object".
- RadialMenus.NewRadialMenu: assumes every colour option is a plain string, so `init` cannot throw; `CheckGradient` is not called during construction.
- RadialMenus.RadialMenu.AddButtons: assumes every colour option is a plain string, so its `init` cannot throw.
- The layout and hit-test properties (the rows that say "on a well-formed layout") hold only for a gap in [0, step/2), and not for a single button without a gap. The source never checks `buttonGap` (src/RadialMenu.js:133), and the model's `Init` and `GetButton` reproduce it unchecked: with a gap of half a step or more, several sectors can have `ini > fin` and `rest` ends on the last of them; with a negative gap, neighbouring sectors overlap.
- The shadow and text-shadow numbers and `zIndex` are not modelled. They only feed drawing.
- RadialMenus.NewRadialMenu: assumes `isFixed` is falsy or `posX`/`posY` are numeric. With `isFixed` truthy the constructor's `addEvent` calls `setPos(posX, posY)` (src/RadialMenu.js:407-409), which throws "X and Y must be numbers" for a non-numeric position (src/RadialMenu.js:484-486); `posX`, `posY` and `isFixed` are not modelled.
- MenuOptions.CheckColorStopKeys: `addColorStop` (src/RadialMenu.js:545) runs after each key check and throws on a colour string the canvas cannot parse; colour values are not modelled, so a pass means only that the key checks passed.
- MenuOptions.CheckGradient: for the same reason, a pass means only that the gradient name and the keys were accepted.
- JavaScript coercions of unusual option values are not modelled: numeric strings, `null`, and a non-numeric `buttonGap`. An option is absent, a number, or non-numeric.
- `this.step`, `this.w`/`this.h` and the other derived fields are not stored. Step is a local value of `Init`.
- RadialMenus.RadialMenu.AddButtons: takes an array. The source stores a non-array argument and then throws "Buttons must be an Array"; that case is not modelled because the field is typed as an array.
- Button objects are values. The same object appearing twice in one array, and so receiving geometry twice, is not modelled.
- `action` is a number naming the callback. The callbacks themselves are not modelled.

## Findings

| source | as written | input that shows it | evidently intended | confidence | as-written member | corrected member |
|---|---|---|---|---|---|---|
| src/RadialMenu.js:621 | the wrap sector is retried only when `this.rest` is truthy, and index 0 is falsy | two buttons, rotation PI + 0.5, no gap, radii 50/100; pointer at distance 75 and `atan2` angle 0.5 - PI/2, the middle of sector 0, which wraps | retry whenever `rest` names a sector, so the pointer selects button 0 | not executed | HitTestQuirks.WrapAtZeroExample | HitTesting.HitTestFixedComplete |
| src/RadialMenu.js:251-253 | `init` never clears `this.rest`, so a wrap index from an earlier layout survives `addButtons` (src/RadialMenu.js:577) | three buttons with rotation PI/2 + 0.05 and gap 0.1 (sector 2 wraps), then `addButtons` with four (none wraps); pointer at distance 75 and angle 0, in the gap between sectors 2 and 3 | `rest` describes the current layout only, so a point in a gap selects no button | not executed | HitTestQuirks.StaleRestExample | HitTesting.HitTestFixedSound |

`HitTestFixed` is the intended hit test. It is given the current layout's
wrap index, `LastWrap`, and retries it whenever it is defined. The layout
properties (`HitTestFixedSound`, `HitTestFixedComplete`,
`LabelDirectionSelectsButton`) are stated for it. The `RadialMenu` class
follows the source as written, and `HitTestCorrectWhenWrapNotFirst`
bounds where the two agree.

# StaveGroup layout engine, in Dafny

A model of `Vex.Flow.StaveGroup` (`src/stavegroup.js`): a vertical group of
musical staves that share one horizontal span. The group keeps its origin,
width, stave count, a visibility flag per row, its derived height and the
position of its bottom text. It moves its modifiers when its x origin moves.
It computes the width taken by the prefix glyphs (clef, key signature, time
signature) and the y coordinate of every row. It hands a drawing surface to
its child stave renderers and draws one stave per row between a save and a
restore of the surface.

Modules:

- `Wrappers` (`wrappers.dfy`): `Option` and `Result`.
- `Geometry` (`geometry.dfy`): the line-thickness correction, the row y
  coordinates, the derived height and the visibility list, as pure functions
  of a `Frame` snapshot of the group's fields.
- `ModifierLayout` (`modifier_layout.dfy`): shifting modifiers by a distance,
  and the prefix glyph width with its padding rule (`XShift`).
- `Surface` (`surface.dfy`): the drawing surface seen as a trace of
  `Save` / `DrawStave(x, y, width)` / `Restore` events, the expected trace of
  a draw pass, save/restore depth, child renderers and context propagation,
  and the draw loop as written.
- `StaveGroups` (`stave_group.dfy`): the `StaveGroup` class. Its methods
  change its fields and its two arrays (`modifiers`, `staves`) in place and
  are proved against the functions above. `Valid()` ties the visibility list,
  the height and the bottom text position to the stave count.

Facts about the code, and whether the model follows each:

- `setNumStaves` does not check its argument. It stores whatever `parseInt`
  gives. A negative count gives an empty visibility list, a negative height
  term and a bottom text position of `n + 1`. The model follows this.
- The bounding box is set once by `init` (with height 0) and never updated.
  The model follows this.
- Nothing in the file sets or resets `this.staves`, the child renderers that
  `setContext` walks; changing the stave count leaves them as they are. The
  model follows this.
- `getModifierXShift` builds an `InvalidIndex` error but never throws it.
  `getYForStave` has no range check on its index. The model follows this.
- The option keys disagree with each other. The height reads
  `spacing_between_staves` (line 42). `getYForStave` reads
  `spacing_between_stave_px` and `space_above_staff_ln` (lines 140-141).
  `getSpacingBetweenStaves` and `getBottomY` read `spacing_between_staves_px`
  (lines 122 and 127), and `getBottomY` reads `space_below_staff_ln`
  (line 129). `init` sets only `space_above_stavegroup` and
  `space_below_stavegroup` (to 4). No key for the spacing is ever set, so as
  written the height and the row positions are NaN. The model does not
  follow this: it uses one defined `spacing` and one `spaceAbove`
  (initially 4) everywhere, which is evidently what was meant.
- `init` never sets the spacing, the modifiers, the children (`staves`), the
  glyphs or the vertical bar width, so as written `setX`, `setContext` and
  `getModifierXShift` would read undefined fields. The model does not follow
  this: the constructor takes them as parameters. The `options` argument of
  `init` is ignored, because the merge is commented out, and the model has
  no such argument.

One operation follows the intended code rather than the code as written:
`Draw` renders rows `0..numStaves-1`, while the loop at line 162 as written
renders none. Both are modelled; see "## Findings".

## Model

| member | source | states |
|---|---|---|
| `Geometry.AllVisible` | src/stavegroup.js:36-40 | the rebuilt visibility list has one entry per row (none for a negative count), and every entry is visible |
| `Geometry.Thickness` | src/stavegroup.js:12-13 | the thickness correction is 0 exactly when the configured line thickness is at most 1, and otherwise it is that thickness (so greater than 1) |
| `Geometry.StaveY` | src/stavegroup.js:143-144 | definition: the expression at lines 143-144, with one `spacing` and one `spaceAbove`; its properties are `UniformRowSpacing`, `RowDistance`, `RowsDescend` and `BottomBelowLastRow` |
| `Geometry.GroupHeight` | src/stavegroup.js:41-42 | definition: the expression at lines 41-42; `Valid()`, `GetHeight` and `HeightPerStave` carry its properties |
| `Geometry.UniformRowSpacing` | src/stavegroup.js:138-147 | consecutive rows are exactly one spacing unit apart, for every index |
| `Geometry.RowDistance` | src/stavegroup.js:138-147 | rows `i <= j` are `(j - i) * spacing` apart |
| `Geometry.RowsDescend` | src/stavegroup.js:138-147 | with a positive spacing a higher index lies strictly lower |
| `Geometry.BottomBelowLastRow` | src/stavegroup.js:134-136 | the bottom position is one spacing unit below the last row |
| `Geometry.HeightPerStave` | src/stavegroup.js:41-42 | each extra stave adds five staff lines of height |
| `Geometry.ThreeStaveExample` | src/stavegroup.js:138-147 | three staves, spacing 10, headroom 4, origin 0, hairline: rows at 40, 50 and 60, bottom at 70, height 190 |
| `ModifierLayout.Shifted` | src/stavegroup.js:68-73 | shifting keeps the number of modifiers |
| `ModifierLayout.ShiftedAt` | src/stavegroup.js:68-73 | each shifted modifier has its x moved by the distance if it had one, still has no x if it had none, and keeps its other data |
| `ModifierLayout.ShiftedCompose` | src/stavegroup.js:65-75 | shifting by `a` and then by `b` equals shifting by `a + b` |
| `ModifierLayout.ShiftedZero` | src/stavegroup.js:65-75 | shifting by zero (setting x to its current value) changes no modifier |
| `ModifierLayout.SetXTwiceIsSetXOnce` | src/stavegroup.js:65-75 | moving the origin from `x0` to `a` and then to `b` leaves the modifiers where a single move to `b` would |
| `ModifierLayout.SumNonNegative` | src/stavegroup.js:105-109 | non-negative glyph widths add up to a non-negative width |
| `ModifierLayout.SumPositiveIff` | src/stavegroup.js:105-112 | non-negative widths add up to a positive width exactly when some glyph has a positive width |
| `ModifierLayout.PaddingIffPositiveGlyph` | src/stavegroup.js:97-115 | with non-negative widths and an index inside the list, the shift is the prefix width plus `verticalBarWidth + 10` when some glyph up to the index is wider than zero, and exactly 0 otherwise |
| `ModifierLayout.EmptyPrefixHasNoShift` | src/stavegroup.js:98-114 | with no glyphs and no index the shift is 0 |
| `ModifierLayout.XShift` | src/stavegroup.js:97-115 | the prefix-width computation fails exactly when its loop would read a glyph past the end of the list, and a negative index gives 0 |
| `ModifierLayout.OmittedIndexIsLastGlyph` | src/stavegroup.js:98 | an omitted index never fails and gives the same result as the index of the last glyph |
| `Surface.DrawTrace` | src/stavegroup.js:162-169 | a draw pass over `n` rows emits three events per row, and none for a count of 0 or less |
| `Surface.DrawTraceAt` | src/stavegroup.js:162-169 | row `i` is emitted at positions `3i..3i+2`, in ascending row order, as Save, then DrawStave at the group's x, row `i`'s y and the group's width, then Restore |
| `Surface.RowsDrawnTopToBottom` | src/stavegroup.js:162-169 | with a positive spacing every stave is drawn above the staves drawn after it |
| `Surface.BracketKeepsBalance` | src/stavegroup.js:165-168 | one stave drawn between a save and a restore, appended to a balanced trace, leaves it balanced |
| `Surface.DrawTraceBalanced` | src/stavegroup.js:165-168 | saves and restores are balanced: the depth never goes below 0 or above 1 and is 0 at the end |
| `Surface.WithContext` | src/stavegroup.js:48-52 | propagation keeps the number of children |
| `Surface.WithContextAt` | src/stavegroup.js:48-52 | a child with a context setter now holds the new context, a child without one is unchanged, and no child gains or loses the setter |
| `Surface.DrawTraceAsWritten` | src/stavegroup.js:162 | the loop as written emits at most one row's events, since its guard compares `undefined` (and after one pass would compare a stave object), both of which compare false |
| `Surface.DrawLoopSkipsEveryRow` | src/stavegroup.js:162 | for one stave the loop as written emits nothing, where the intended loop emits Save, the stave and Restore |
| `Surface.DrawLoopAsWrittenIsEmpty` | src/stavegroup.js:162 | for every stave count the loop as written emits no event, and for a positive count that differs from the intended trace |
| `StaveGroups.StaveGroup.constructor` | src/stavegroup.js:15-34 | a new group has the given origin and width, no context, one visible stave, four staff lines of margin above and below, height `(5 + 4) * spacing`, bottom text position 2 and bounds `(x, y, width, 0)` |
| `StaveGroups.StaveGroup.ResetStaves` | src/stavegroup.js:36-44 | the visibility list is rebuilt to one visible entry per row, the height is `(numStaves * 5 + spaceAbove) * spacing` and the bottom text position is `numStaves + 1`; nothing else changes |
| `StaveGroups.StaveGroup.SetNumStaves` | src/stavegroup.js:58-62 | the stave count becomes `n` and the visibility list, height and bottom text position are rederived from it |
| `StaveGroups.StaveGroup.SetY` | src/stavegroup.js:63 | only `y` changes |
| `StaveGroups.StaveGroup.SetX` | src/stavegroup.js:65-75 | `x` becomes the new value and the modifiers in place become the old ones shifted by the change of x; nothing else changes |
| `StaveGroups.StaveGroup.SetWidth` | src/stavegroup.js:77-83 | only `width` changes; no modifier moves |
| `StaveGroups.StaveGroup.SetContext` | src/stavegroup.js:46-54 | the context is stored and the children in place become the old ones with the context handed to those that have a setter; nothing else changes |
| `StaveGroups.StaveGroup.GetModifierXShift` | src/stavegroup.js:97-115 | the accumulator loop returns exactly the prefix width with its padding rule, or the failure for an index past the last glyph |
| `StaveGroups.StaveGroup.GetHeight` | src/stavegroup.js:117-119 | in a valid group the height is `(numStaves * 5 + spaceAbove) * spacing` |
| `StaveGroups.StaveGroup.GetYForStave` | src/stavegroup.js:138-147 | definition: `Geometry.StaveY` applied to the group's current fields; its properties are those of `StaveY` |
| `StaveGroups.StaveGroup.GetBottomStaveY` | src/stavegroup.js:134-136 | the bottom position (`Geometry.BottomStaveY` of the current fields) is one spacing unit below the last row |
| `StaveGroups.StaveGroup.Draw` | src/stavegroup.js:152-169 | with no context the draw fails with `NoCanvasContext` and emits nothing; otherwise it emits exactly the intended trace over rows `0..numStaves-1` |
| `StaveGroups.SetXTwice` | src/stavegroup.js:65-75 | two calls of `SetX` leave the modifiers where the second call alone would put them |

## Left out

- Rendering itself: constructing and drawing a `Vex.Flow.Stave`, and the canvas `save`/`restore`. These are calls into code that is not part of this model. They appear only as trace events. The trace is returned by `Draw` and is not kept in the surface object. Lines 165-168 have no try/finally: if constructing or drawing a stave throws, `restore()` never runs and the surface stays saved. The model's `DrawStave` event cannot fail, so `Draw` and `DrawTraceBalanced` describe only passes in which no stave draw throws.
- `getBottomY`: it calls `getYForLine`, which this file does not define, so it has no behaviour to model.
- The commented-out measure-number rendering and the line-configuration functions (`getConfigForLines`, `setConfigForLine`, `setConfigForLines`). They are dead code, so their `StaveConfigError` paths are not behaviour either.
- `parseInt` in `setNumStaves`: the model takes an integer. String parsing and NaN counts are not modelled.
- `GetModifierXShift`: the index is an integer. A non-number index (where the source would build and drop an `InvalidIndex` error) is not modelled.
- `GetModifierXShift`: the local `x`, which starts at `glyph_start_x` and adds each glyph's width, is never read, so it is not modelled. Glyph widths are given as numbers, not read through `getMetrics()`.
- The `font` object, `setMeasure`, and the one-line getters `getContext`, `getX`, `getNumStaves` and `getWidth`. They read a field, and the model reads the field directly.
- `getSpacingBetweenStaves`: it returns `spacing_between_staves_px`, which is never set; the model's single `spacing` field stands for it.
- `return Stave` at the end of the module wrapper: `Stave` is not declared in the wrapper, so unless an enclosing scope defines it, reading it throws a ReferenceError when the wrapper runs; the evidently intended `return StaveGroup` is assumed. This is a packaging slip, not layout logic.
- Floating point: pixel values are `real`, and NaN, infinities and rounding are not modelled.
- `null` modifier positions: a modifier whose `x` is `null` passes the `mod.x !== undefined` test (line 70) and ends up with `x` equal to the shift. The model's `None` stands only for `undefined`, so this case is not modelled.
- Aliasing: modifiers and child renderers are values in arrays owned by the group. Objects shared with other owners are not modelled.
- The `undefined` keys described above: the model uses one defined `spacing` and one defined `spaceAbove` instead of the NaN the mismatched keys would produce.

## Findings

| source | as written | input that shows it | evidently intended | confidence | as-written member | corrected member |
|---|---|---|---|---|---|---|
| src/stavegroup.js:162 | the loop guard tests `stave < num_staves`. `stave` is the hoisted loop-body variable and is still `undefined` on the first test, so `undefined < n` is false and no row is drawn | a group with a context and `num_staves = 1` | `stave_index < num_staves`, which draws rows `0..num_staves-1` | high, not executed | `Surface.DrawLoopSkipsEveryRow` (about `Surface.DrawTraceAsWritten`) | `Surface.DrawTraceAt` (about `Surface.DrawTrace`, which `StaveGroups.StaveGroup.Draw` emits) |

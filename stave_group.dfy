/**
 * The stave group controller: a vertical group of staves sharing one
 * horizontal span. It owns the geometry configuration, the modifiers and
 * prefix glyphs, the child stave renderers and the drawing-surface handle,
 * and it drives the draw pass.
 */
module StaveGroups {
  import opened Wrappers
  import opened Geometry
  import opened ModifierLayout
  import opened Surface

  /** The bounding box recorded when the group is initialised. */
  datatype Bounds = Bounds(x: real, y: real, w: real, h: real)

  /** Rows a freshly initialised group has. */
  const InitialNumStaves: int := 1

  /** Staff lines of margin above and below a freshly initialised group. */
  const InitialSpaceAbove: real := 4.0
  const InitialSpaceBelow: real := 4.0

  class StaveGroup {
    var x: real
    var y: real
    var width: real
    var context: Option<Context>
    var numStaves: int
    /** Margins in staff lines, and pixels per staff line. */
    var spaceAbove: real
    var spaceBelow: real
    var spacing: real
    /** One visibility flag per row. */
    var staveConfig: seq<bool>
    var height: real
    var bottomTextPosition: int
    var bounds: Bounds
    /** The line-thickness correction, fixed when the group is created. */
    const thickness: real
    const modifiers: array<Modifier>
    const staves: array<Child>
    /** The widths of the prefix glyphs, and the bar width used for the padding after them. */
    var glyphWidths: seq<real>
    var verticalBarWidth: real

    /** The derived fields agree with the stave count, the margin and the spacing. */
    ghost predicate Valid()
      reads this
    {
      && staveConfig == AllVisible(numStaves)
      && height == GroupHeight(numStaves, spaceAbove, spacing)
      && bottomTextPosition == numStaves + 1
    }

    /** The snapshot of the fields the position resolver reads. */
    function Layout(): Frame
      reads this
    {
      Frame(x, y, width, spacing, spaceAbove, thickness)
    }

    /**
     * A group at (`x0`, `y0`) spanning `width0`, with one stave and four staff
     * lines of margin above and below; its visibility list, height and
     * bottom text position are then derived.
     */
    constructor (x0: real, y0: real, width0: real, spacing0: real, lineThickness: real,
                 verticalBarWidth0: real, modifiers0: array<Modifier>, staves0: array<Child>,
                 glyphWidths0: seq<real>)
      ensures Valid()
      ensures x == x0 && y == y0 && width == width0 && context == None
      ensures numStaves == InitialNumStaves && spaceAbove == InitialSpaceAbove && spaceBelow == InitialSpaceBelow
      ensures spacing == spacing0 && thickness == Thickness(lineThickness)
      ensures bounds == Bounds(x0, y0, width0, 0.0)
      ensures staveConfig == [true] && height == (5.0 + InitialSpaceAbove) * spacing0 && bottomTextPosition == 2
      ensures modifiers == modifiers0 && staves == staves0
      ensures glyphWidths == glyphWidths0 && verticalBarWidth == verticalBarWidth0
    {
      x, y, width := x0, y0, width0;
      context := None;
      numStaves := InitialNumStaves;
      spaceAbove, spaceBelow := InitialSpaceAbove, InitialSpaceBelow;
      spacing := spacing0;
      thickness := Thickness(lineThickness);
      bounds := Bounds(x0, y0, width0, 0.0);
      modifiers, staves := modifiers0, staves0;
      glyphWidths, verticalBarWidth := glyphWidths0, verticalBarWidth0;
      staveConfig, height, bottomTextPosition := [], 0.0, 0;
      new;
      ResetStaves();
      assert AllVisible(1) == [true] by { assert AllVisible(0) == []; }
    }

    /** Rebuilds the visibility list to one visible entry per row and recomputes the derived fields. */
    method ResetStaves()
      modifies this`staveConfig, this`height, this`bottomTextPosition
      ensures Valid()
      ensures staveConfig == AllVisible(numStaves)
      ensures height == GroupHeight(numStaves, spaceAbove, spacing)
      ensures bottomTextPosition == numStaves + 1
    {
      staveConfig := [];
      var i := 0;
      while i < numStaves
        invariant 0 <= i <= if numStaves < 0 then 0 else numStaves
        invariant staveConfig == AllVisible(i)
      {
        staveConfig := staveConfig + [true];
        i := i + 1;
      }
      height := (numStaves as real * 5.0 + spaceAbove) * spacing;
      bottomTextPosition := numStaves + 1;
    }

    /** Sets the stave count and rederives the visibility list, the height and the bottom text position. */
    method SetNumStaves(n: int)
      modifies this`numStaves, this`staveConfig, this`height, this`bottomTextPosition
      ensures Valid()
      ensures numStaves == n
      ensures staveConfig == AllVisible(n)
      ensures height == GroupHeight(n, spaceAbove, spacing)
      ensures bottomTextPosition == n + 1
    {
      numStaves := n;
      ResetStaves();
    }

    /** Moves the group's y origin; nothing else changes. */
    method SetY(y0: real)
      modifies this`y
      ensures y == y0
      ensures old(Valid()) ==> Valid()
    {
      y := y0;
    }

    /**
     * Moves the group's x origin to `x0` and every modifier that has an x by
     * the same distance, in place; modifiers without an x, the number and
     * order of modifiers and everything else stay as they were.
     */
    method SetX(x0: real)
      modifies this`x, modifiers
      ensures x == x0
      ensures modifiers[..] == Shifted(old(modifiers[..]), x0 - old(x))
      ensures old(Valid()) ==> Valid()
    {
      var shift := x0 - x;
      x := x0;
      var i := 0;
      while i < modifiers.Length
        invariant 0 <= i <= modifiers.Length && x == x0
        invariant forall k :: 0 <= k < i ==> modifiers[k] == ShiftModifier(old(modifiers[k]), shift)
        invariant forall k :: i <= k < modifiers.Length ==> modifiers[k] == old(modifiers[k])
      {
        var m := modifiers[i];
        if m.x.Some? {
          modifiers[i] := m.(x := Some(m.x.value + shift));
        }
        i := i + 1;
      }
      forall k | 0 <= k < modifiers.Length
        ensures modifiers[..][k] == Shifted(old(modifiers[..]), shift)[k]
      {
        ShiftedAt(old(modifiers[..]), shift, k);
      }
    }

    /** Changes the width only; in particular no modifier moves. */
    method SetWidth(width0: real)
      modifies this`width
      ensures width == width0
      ensures unchanged(modifiers)
      ensures old(Valid()) ==> Valid()
    {
      width := width0;
    }

    /**
     * Stores the drawing surface and hands it to every child renderer that
     * has a context setter, in place; children without one are skipped and
     * the list of children keeps its length and order.
     */
    method SetContext(c: Option<Context>)
      modifies this`context, staves
      ensures context == c
      ensures staves[..] == WithContext(old(staves[..]), c)
      ensures old(Valid()) ==> Valid()
    {
      context := c;
      var i := 0;
      while i < staves.Length
        invariant 0 <= i <= staves.Length && context == c
        invariant forall k :: 0 <= k < i ==> staves[k] == GiveContext(old(staves[k]), c)
        invariant forall k :: i <= k < staves.Length ==> staves[k] == old(staves[k])
      {
        if staves[i].canSetContext {
          staves[i] := staves[i].(context := c);
        }
        i := i + 1;
      }
      forall k | 0 <= k < staves.Length
        ensures staves[..][k] == WithContext(old(staves[..]), c)[k]
      {
        WithContextAt(old(staves[..]), c, k);
      }
    }

    /**
     * The pixels from the start of the stave to just after the prefix glyph
     * at `index` (the last glyph when omitted): the glyph widths up to it,
     * plus `verticalBarWidth + 10` when they add up to more than zero. An
     * index past the last glyph fails when the loop reaches the missing glyph.
     */
    method GetModifierXShift(index: Option<int>) returns (r: Result<real, ShiftError>)
      ensures r == XShift(glyphWidths, index, verticalBarWidth)
    {
      var last := if index.None? then |glyphWidths| - 1 else index.value;
      var shift := 0.0;
      var i := 0;
      while i < last + 1
        invariant 0 <= i <= |glyphWidths|
        invariant i <= if last < 0 then 0 else last + 1
        invariant shift == Sum(glyphWidths[..i])
      {
        if i >= |glyphWidths| {
          return Err(NoGlyphAtIndex(i));
        }
        assert glyphWidths[..i + 1][..i] == glyphWidths[..i];
        shift := shift + glyphWidths[i];
        i := i + 1;
      }
      if shift > 0.0 {
        shift := shift + verticalBarWidth + 10.0;
      }
      return Ok(shift);
    }

    /** The height derived at the last change of the stave count. */
    function GetHeight(): (h: real)
      reads this
      requires Valid()
      ensures h == (numStaves as real * 5.0 + spaceAbove) * spacing
    {
      height
    }

    /** The y coordinate of row `i`. */
    function GetYForStave(i: int): real
      reads this
    {
      StaveY(Layout(), i)
    }

    /** The y coordinate just below the last row: one spacing unit under it. */
    function GetBottomStaveY(): (bottom: real)
      reads this
      ensures bottom == GetYForStave(numStaves - 1) + spacing
    {
      BottomBelowLastRow(Layout(), numStaves);
      BottomStaveY(Layout(), numStaves)
    }

    /**
     * The draw pass: without a drawing surface it fails before drawing
     * anything; otherwise, for each row in ascending order, it saves the
     * surface, draws a stave at (x, that row's y) with the group's width,
     * and restores the surface.
     */
    method Draw() returns (r: Result<seq<Event>, DrawError>)
      ensures context.None? ==> r == Err(NoCanvasContext)
      ensures context.Some? ==> r == Ok(DrawTrace(Layout(), numStaves))
    {
      if context.None? {
        return Err(NoCanvasContext);
      }
      var n := numStaves;
      var trace: seq<Event> := [];
      var staveIndex := 0;
      while staveIndex < n
        invariant 0 <= staveIndex <= if n < 0 then 0 else n
        invariant trace == DrawTrace(Layout(), staveIndex)
      {
        var rowY := GetYForStave(staveIndex);
        trace := trace + [Save];
        trace := trace + [DrawStave(x, rowY, width)];
        trace := trace + [Restore];
        staveIndex := staveIndex + 1;
      }
      return Ok(trace);
    }
  }

  /** Moving the origin twice leaves the modifiers where the second move alone would have put them. */
  method SetXTwice(g: StaveGroup, a: real, b: real)
    modifies g`x, g.modifiers
    ensures g.x == b
    ensures g.modifiers[..] == Shifted(old(g.modifiers[..]), b - old(g.x))
  {
    g.SetX(a);
    g.SetX(b);
    SetXTwiceIsSetXOnce(old(g.modifiers[..]), old(g.x), a, b);
  }
}

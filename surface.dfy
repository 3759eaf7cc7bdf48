/**
 * The drawing side of a stave group: the events a draw pass sends to the
 * drawing surface, the child stave renderers that receive the surface, and
 * the draw loop as it is written next to the loop it evidently means.
 */
module Surface {
  import opened Wrappers
  import opened Geometry

  /** A drawing-surface handle, known only by its identity. */
  datatype Context = Context(id: nat)

  /**
   * What the surface sees of a draw pass: the save/restore bracket and one
   * stave drawn at (x, y) with the given width.
   */
  datatype Event = Save | DrawStave(x: real, y: real, width: real) | Restore

  /** Error kinds of the draw pass. */
  datatype DrawError = NoCanvasContext

  /** The events of row `i`: save, draw the stave at that row's y, restore. */
  function RowEvents(f: Frame, i: int): seq<Event>
  {
    [Save, DrawStave(f.x, StaveY(f, i), f.width), Restore]
  }

  /** The events of a draw pass over rows `0..numStaves-1`, in that order. */
  function DrawTrace(f: Frame, numStaves: int): (trace: seq<Event>)
    ensures |trace| == 3 * (if numStaves < 0 then 0 else numStaves)
  {
    if numStaves <= 0 then [] else DrawTrace(f, numStaves - 1) + RowEvents(f, numStaves - 1)
  }

  /** Row `i` occupies events `3i`, `3i+1` and `3i+2`: a save, its stave, a restore. */
  lemma {:induction false} DrawTraceAt(f: Frame, numStaves: int, i: int)
    requires 0 <= i < numStaves
    ensures DrawTrace(f, numStaves)[3 * i] == Save
    ensures DrawTrace(f, numStaves)[3 * i + 1] == DrawStave(f.x, StaveY(f, i), f.width)
    ensures DrawTrace(f, numStaves)[3 * i + 2] == Restore
  {
    if i < numStaves - 1 {
      DrawTraceAt(f, numStaves - 1, i);
    }
  }

  /** With a positive spacing, rows are drawn top to bottom: an earlier stave event has a smaller y. */
  lemma RowsDrawnTopToBottom(f: Frame, numStaves: int, i: int, j: int)
    requires f.spacing > 0.0 && 0 <= i < j < numStaves
    ensures DrawTrace(f, numStaves)[3 * i + 1].DrawStave? && DrawTrace(f, numStaves)[3 * j + 1].DrawStave?
    ensures DrawTrace(f, numStaves)[3 * i + 1].y < DrawTrace(f, numStaves)[3 * j + 1].y
  {
    DrawTraceAt(f, numStaves, i);
    DrawTraceAt(f, numStaves, j);
    RowsDescend(f, i, j);
  }

  /** The number of saves not yet restored after the events `es`. */
  function Depth(es: seq<Event>): int
  {
    if es == [] then 0
    else
      var last := es[|es| - 1];
      Depth(es[..|es| - 1]) + (if last.Save? then 1 else if last.Restore? then -1 else 0)
  }

  /** The depth of a concatenation is the sum of the depths. */
  lemma {:induction false} DepthAppend(a: seq<Event>, b: seq<Event>)
    ensures Depth(a + b) == Depth(a) + Depth(b)
    decreases |b|
  {
    if b == [] {
      assert a + b == a;
    } else {
      var init := b[..|b| - 1];
      assert (a + b)[..|a + b| - 1] == a + init;
      DepthAppend(a, init);
    }
  }

  /** A save/restore depth that starts at 0, stays within 0 and 1 on every prefix and ends at 0. */
  ghost predicate Balanced(es: seq<Event>)
  {
    && Depth(es) == 0
    && forall p :: 0 <= p <= |es| ==> 0 <= Depth(es[..p]) <= 1
  }

  /** Appending one bracketed stave to a balanced trace keeps it balanced. */
  lemma BracketKeepsBalance(before: seq<Event>, stave: Event)
    requires stave.DrawStave? && Balanced(before)
    ensures Balanced(before + [Save, stave, Restore])
  {
    var row := [Save, stave, Restore];
    var trace := before + row;
    assert Depth(row[..1]) == 1 by { assert row[..1][..0] == []; }
    assert Depth(row[..2]) == 1 by { assert row[..2][..1] == row[..1]; }
    assert Depth(row) == 0 by { assert row[..2] == row[..|row| - 1]; }
    DepthAppend(before, row);
    forall p | 0 <= p <= |trace|
      ensures 0 <= Depth(trace[..p]) <= 1
    {
      if p <= |before| {
        assert trace[..p] == before[..p];
      } else {
        var j := p - |before|;
        assert trace[..p] == before + row[..j];
        DepthAppend(before, row[..j]);
        assert j == 3 ==> row[..j] == row;
      }
    }
  }

  /**
   * Saves and restores are balanced: no prefix of a draw pass restores more
   * than it saved or nests two saves, and the whole pass ends at depth 0.
   */
  lemma {:induction false} DrawTraceBalanced(f: Frame, numStaves: int)
    ensures Depth(DrawTrace(f, numStaves)) == 0
    ensures forall p :: 0 <= p <= |DrawTrace(f, numStaves)| ==> 0 <= Depth(DrawTrace(f, numStaves)[..p]) <= 1
  {
    if numStaves > 0 {
      DrawTraceBalanced(f, numStaves - 1);
      BracketKeepsBalance(DrawTrace(f, numStaves - 1), DrawStave(f.x, StaveY(f, numStaves - 1), f.width));
    }
  }

  /** A child stave renderer: whether it offers a context setter, and the context it holds. */
  datatype Child = Child(canSetContext: bool, context: Option<Context>)

  /** A child after the group hands it `c`: only a child with a setter takes it. */
  function GiveContext(child: Child, c: Option<Context>): Child
  {
    if child.canSetContext then child.(context := c) else child
  }

  /** Every child of `cs`, in order, after the group hands it `c`. */
  function WithContext(cs: seq<Child>, c: Option<Context>): (r: seq<Child>)
    ensures |r| == |cs|
  {
    if cs == [] then [] else [GiveContext(cs[0], c)] + WithContext(cs[1..], c)
  }

  /**
   * Child `k` after propagation: a child with a setter now holds `c`, a child
   * without one is exactly as before, and no child gains or loses the setter.
   */
  lemma {:induction false} WithContextAt(cs: seq<Child>, c: Option<Context>, k: int)
    requires 0 <= k < |cs|
    ensures WithContext(cs, c)[k].canSetContext == cs[k].canSetContext
    ensures cs[k].canSetContext ==> WithContext(cs, c)[k].context == c
    ensures !cs[k].canSetContext ==> WithContext(cs, c)[k] == cs[k]
  {
    if k > 0 {
      WithContextAt(cs[1..], c, k - 1);
    }
  }

  /**
   * JavaScript's `undefined < b` for a number `b`: `undefined` converts to
   * NaN, and every comparison with NaN is false.
   */
  function UndefinedLessThan(b: real): bool
  {
    false
  }

  /**
   * The draw loop as written: its guard tests the function-scoped `stave`,
   * which is hoisted and still `undefined` when the guard is first tested,
   * instead of the counter `stave_index`. A first pass would leave a stave
   * object in `stave`, which compares false as well, so at most row 0 could
   * be drawn; in fact the guard fails before any row.
   */
  function DrawTraceAsWritten(f: Frame, numStaves: int): (trace: seq<Event>)
    ensures |trace| <= 3
  {
    if UndefinedLessThan(numStaves as real) then RowEvents(f, 0) else []
  }

  /** For a single stave the loop as written draws nothing, where the intended loop draws the row. */
  lemma DrawLoopSkipsEveryRow(f: Frame)
    ensures DrawTraceAsWritten(f, 1) == []
    ensures DrawTrace(f, 1) == [Save, DrawStave(f.x, StaveY(f, 0), f.width), Restore]
  {
  }

  /** For every stave count the loop as written emits no event at all. */
  lemma DrawLoopAsWrittenIsEmpty(f: Frame, numStaves: int)
    ensures DrawTraceAsWritten(f, numStaves) == []
    ensures numStaves > 0 ==> DrawTraceAsWritten(f, numStaves) != DrawTrace(f, numStaves)
  {
  }
}

/**
 * Horizontal layout of a stave group's modifiers: shifting the modifiers
 * when the group's x origin moves, and the width taken by the prefix glyphs
 * (clef, key signature, time signature) before the first note.
 */
module ModifierLayout {
  import opened Wrappers

  /** A horizontally placed modifier; `x` is `None` for a modifier that has no x yet. */
  datatype Modifier = Modifier(x: Option<real>, kind: string)

  /** A modifier moved by `d` pixels, if it has an x. */
  function ShiftModifier(m: Modifier, d: real): Modifier
  {
    match m.x
    case None => m
    case Some(mx) => m.(x := Some(mx + d))
  }

  /** Every modifier of `ms`, in order, moved by `d` pixels. */
  function Shifted(ms: seq<Modifier>, d: real): (r: seq<Modifier>)
    ensures |r| == |ms|
  {
    if ms == [] then [] else [ShiftModifier(ms[0], d)] + Shifted(ms[1..], d)
  }

  /** Entry `k` of a shifted list: its x moved by `d` when it has one, absent otherwise, its kind kept. */
  lemma {:induction false} ShiftedAt(ms: seq<Modifier>, d: real, k: int)
    requires 0 <= k < |ms|
    ensures Shifted(ms, d)[k].x == (if ms[k].x.Some? then Some(ms[k].x.value + d) else None)
    ensures Shifted(ms, d)[k].kind == ms[k].kind
  {
    if k > 0 {
      ShiftedAt(ms[1..], d, k - 1);
    }
  }

  /** Shifting by `a` and then by `b` is shifting by `a + b`. */
  lemma {:induction false} ShiftedCompose(ms: seq<Modifier>, a: real, b: real)
    ensures Shifted(Shifted(ms, a), b) == Shifted(ms, a + b)
  {
    if ms != [] {
      ShiftedCompose(ms[1..], a, b);
      assert Shifted(ms, a)[1..] == Shifted(ms[1..], a);
    }
  }

  /** Shifting by zero changes nothing. */
  lemma {:induction false} ShiftedZero(ms: seq<Modifier>)
    ensures Shifted(ms, 0.0) == ms
  {
    if ms != [] {
      ShiftedZero(ms[1..]);
    }
  }

  /**
   * Moving the origin from `x0` to `a` and then to `b` leaves the modifiers
   * where one move from `x0` to `b` puts them.
   */
  lemma SetXTwiceIsSetXOnce(ms: seq<Modifier>, x0: real, a: real, b: real)
    ensures Shifted(Shifted(ms, a - x0), b - a) == Shifted(ms, b - x0)
  {
    ShiftedCompose(ms, a - x0, b - a);
  }

  /** The sum of the widths in `ws`. */
  function Sum(ws: seq<real>): real
  {
    if ws == [] then 0.0 else Sum(ws[..|ws| - 1]) + ws[|ws| - 1]
  }

  /** Error kinds of the prefix-width computation. */
  datatype ShiftError =
    /** The loop reached a glyph position past the end of the glyph list. */
    | NoGlyphAtIndex(index: int)

  /** The index the computation runs to: the given one, or the last glyph's when omitted. */
  function EffectiveIndex(ws: seq<real>, index: Option<int>): int
  {
    if index.None? then |ws| - 1 else index.value
  }

  /**
   * The pixels from the start of the stave to just after the glyph at
   * `index`: the widths of glyphs `0..index`, plus a fixed padding of
   * `verticalBarWidth + 10` when that sum is positive.
   */
  function XShift(ws: seq<real>, index: Option<int>, verticalBarWidth: real): (r: Result<real, ShiftError>)
    ensures r.Err? <==> EffectiveIndex(ws, index) >= |ws|
    ensures r.Ok? && EffectiveIndex(ws, index) < 0 ==> r.value == 0.0
  {
    var k := EffectiveIndex(ws, index);
    if k >= |ws| then Err(NoGlyphAtIndex(|ws|))
    else
      var width := if k < 0 then 0.0 else Sum(ws[..k + 1]);
      if width > 0.0 then Ok(width + verticalBarWidth + 10.0) else Ok(width)
  }

  /** A sum of non-negative widths is non-negative. */
  lemma {:induction false} SumNonNegative(ws: seq<real>)
    requires forall j :: 0 <= j < |ws| ==> ws[j] >= 0.0
    ensures Sum(ws) >= 0.0
  {
    if ws != [] {
      SumNonNegative(ws[..|ws| - 1]);
    }
  }

  /** A sum of non-negative widths is positive exactly when some width is positive. */
  lemma {:induction false} SumPositiveIff(ws: seq<real>)
    requires forall j :: 0 <= j < |ws| ==> ws[j] >= 0.0
    ensures Sum(ws) > 0.0 <==> exists j :: 0 <= j < |ws| && ws[j] > 0.0
  {
    if ws != [] {
      var init := ws[..|ws| - 1];
      SumPositiveIff(init);
      SumNonNegative(init);
      if exists j :: 0 <= j < |init| && init[j] > 0.0 {
        var j :| 0 <= j < |init| && init[j] > 0.0;
        assert ws[j] > 0.0;
      }
      if exists j :: 0 <= j < |ws| && ws[j] > 0.0 {
        var j :| 0 <= j < |ws| && ws[j] > 0.0;
        if j < |init| {
          assert init[j] > 0.0;
        }
      }
    }
  }

  /**
   * With non-negative glyph widths and an index inside the list, the shift is
   * the prefix width plus the padding when some glyph up to `index` has a
   * positive width, and exactly 0 otherwise (in particular for an empty or
   * zero-width prefix).
   */
  lemma PaddingIffPositiveGlyph(ws: seq<real>, index: Option<int>, verticalBarWidth: real)
    requires forall j :: 0 <= j < |ws| ==> ws[j] >= 0.0
    requires EffectiveIndex(ws, index) < |ws|
    ensures var k := EffectiveIndex(ws, index);
      && XShift(ws, index, verticalBarWidth).Ok?
      && ((exists j :: 0 <= j <= k && ws[j] > 0.0) ==>
            XShift(ws, index, verticalBarWidth).value == Sum(ws[..k + 1]) + verticalBarWidth + 10.0)
      && (!(exists j :: 0 <= j <= k && ws[j] > 0.0) ==> XShift(ws, index, verticalBarWidth).value == 0.0)
  {
    var k := EffectiveIndex(ws, index);
    if k >= 0 {
      var prefix := ws[..k + 1];
      SumPositiveIff(prefix);
      SumNonNegative(prefix);
      if exists j :: 0 <= j <= k && ws[j] > 0.0 {
        var j :| 0 <= j <= k && ws[j] > 0.0;
        assert prefix[j] > 0.0;
      }
      if exists j :: 0 <= j < |prefix| && prefix[j] > 0.0 {
        var j :| 0 <= j < |prefix| && prefix[j] > 0.0;
        assert ws[j] > 0.0;
      }
    }
  }

  /** Without any glyph the omitted index yields a shift of exactly 0. */
  lemma EmptyPrefixHasNoShift(verticalBarWidth: real)
    ensures XShift([], None, verticalBarWidth) == Ok(0.0)
  {
  }

  /** An omitted index never fails and means the last glyph. */
  lemma OmittedIndexIsLastGlyph(ws: seq<real>, verticalBarWidth: real)
    ensures XShift(ws, None, verticalBarWidth).Ok?
    ensures XShift(ws, None, verticalBarWidth) == XShift(ws, Some(|ws| - 1), verticalBarWidth)
  {
  }
}

/**
 * The stave position resolver of a stave group: the y coordinate of every
 * row, the derived height of the group and the line-thickness correction.
 * Everything here is a pure function of a snapshot of the group's fields.
 */
module Geometry {

  /**
   * The fields the resolver reads: origin, width, pixels per staff line
   * (`spacing`), the margin above the group in staff lines (`spaceAbove`)
   * and the line-thickness correction `thickness`.
   */
  datatype Frame = Frame(x: real, y: real, width: real, spacing: real, spaceAbove: real, thickness: real)

  /**
   * The module-level line-thickness constant: the configured stave line
   * thickness when it is greater than one pixel, and zero for hairlines.
   */
  function Thickness(lineThickness: real): (t: real)
    ensures t == 0.0 <==> lineThickness <= 1.0
    ensures t != 0.0 ==> t == lineThickness && t > 1.0
  {
    if lineThickness > 1.0 then lineThickness else 0.0
  }

  /** The y coordinate of row `i`: origin, `i` rows and the headroom, less half the thickness. */
  function StaveY(f: Frame, i: int): real
  {
    f.y + ((i as real * f.spacing) + (f.spaceAbove * f.spacing)) - f.thickness / 2.0
  }

  /** The y coordinate just below the last of `numStaves` rows. */
  function BottomStaveY(f: Frame, numStaves: int): real
  {
    StaveY(f, numStaves)
  }

  /** The derived height: five staff lines per stave plus the headroom, in pixels. */
  function GroupHeight(numStaves: int, spaceAbove: real, spacing: real): real
  {
    (numStaves as real * 5.0 + spaceAbove) * spacing
  }

  /** The visibility list rebuilt for `numStaves` rows: one visible entry per row, none for a negative count. */
  function AllVisible(numStaves: int): (config: seq<bool>)
    ensures |config| == if numStaves < 0 then 0 else numStaves
    ensures forall k :: 0 <= k < |config| ==> config[k]
  {
    if numStaves <= 0 then [] else AllVisible(numStaves - 1) + [true]
  }

  /** Consecutive rows are exactly one spacing unit apart, whatever the index. */
  lemma UniformRowSpacing(f: Frame, i: int)
    ensures StaveY(f, i + 1) - StaveY(f, i) == f.spacing
  {
  }

  /** Two rows are `j - i` spacing units apart; the formula is linear in the index. */
  lemma RowDistance(f: Frame, i: int, j: int)
    requires i <= j
    ensures StaveY(f, j) - StaveY(f, i) == (j - i) as real * f.spacing
  {
  }

  /** With a positive spacing a later row lies strictly lower on the page. */
  lemma RowsDescend(f: Frame, i: int, j: int)
    requires f.spacing > 0.0 && i < j
    ensures StaveY(f, i) < StaveY(f, j)
  {
    RowDistance(f, i, j);
  }

  /** The bottom position is one spacing unit below the last row. */
  lemma BottomBelowLastRow(f: Frame, numStaves: int)
    ensures BottomStaveY(f, numStaves) == StaveY(f, numStaves - 1) + f.spacing
  {
    UniformRowSpacing(f, numStaves - 1);
  }

  /** Each extra stave adds five staff lines to the height. */
  lemma HeightPerStave(numStaves: int, spaceAbove: real, spacing: real)
    ensures GroupHeight(numStaves + 1, spaceAbove, spacing) - GroupHeight(numStaves, spaceAbove, spacing) == 5.0 * spacing
  {
  }

  /** Three staves, ten pixels per line, four lines of headroom, origin (0, 0) and hairline strokes. */
  lemma ThreeStaveExample()
    ensures var f := Frame(0.0, 0.0, 100.0, 10.0, 4.0, Thickness(1.0));
      && StaveY(f, 0) == 40.0 && StaveY(f, 1) == 50.0 && StaveY(f, 2) == 60.0
      && BottomStaveY(f, 3) == 70.0
      && GroupHeight(3, 4.0, 10.0) == 190.0
  {
  }
}

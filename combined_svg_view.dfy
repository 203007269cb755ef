/** The dual-pane click-to-seam surface of src/components/CombinedSVGView.jsx:
    the layout rule, the mapping between surface and pane-local coordinates,
    the two-click pairing machine and the render-time inverse mapping.
    All coordinates are reals; click coordinates are already relative to the
    surface's top-left corner. */
module CombinedSvgView {
  import opened Wrappers

  /** The fixed gap between the two panes. */
  const Gap: real := 40.0

  /** The result of the pane classification for a click in the gap. */
  const GapIndex: int := -1

  const Red: string := "red"
  const Blue: string := "blue"

  /** A captured point: pane-local x, y, and the pane it belongs to. */
  datatype Point = Point(x: real, y: real, svgIndex: int)

  /** A seam line as handed to the line store. */
  datatype Line = Line(start: Point, end: Point, color: string)

  /** The component's measured layout; `svgWidth` is absent until measured. */
  datatype Dimensions = Dimensions(width: real, height: real, svgWidth: Option<real>)

  /** The dimensions before the layout has been measured. */
  const Unmeasured: Dimensions := Dimensions(0.0, 0.0, None)

  // ---------------------------------------------------------------------------
  // Layout

  /** The width of each pane. Nothing clamps it: a surface narrower than the
      gap gives a negative pane width. */
  function PaneWidth(containerWidth: real): (w: real)
    ensures 2.0 * w + Gap == containerWidth
    ensures w < 0.0 <==> containerWidth < Gap
  {
    (containerWidth - Gap) / 2.0
  }

  /** The dimensions after a measurement of the surface's bounding box. */
  function Measure(rectWidth: real, rectHeight: real): (d: Dimensions)
    ensures d.svgWidth.Some?
    ensures d.width == rectWidth && d.height == rectHeight
    ensures 2.0 * d.svgWidth.value + Gap == d.width
  {
    Dimensions(rectWidth, rectHeight, Some(PaneWidth(rectWidth)))
  }

  // ---------------------------------------------------------------------------
  // Coordinate mapping

  /** The pane a surface x falls in: 0, 1, or GapIndex. Comparisons with an
      unmeasured width are false, so every x is then in the gap. */
  function Classify(x: real, svgWidth: Option<real>): (i: int)
    ensures i == 0 <==> svgWidth.Some? && x < svgWidth.value
    ensures i == 1 <==> svgWidth.Some? && x > svgWidth.value + Gap
    ensures i == GapIndex <==> svgWidth.None? || svgWidth.value <= x <= svgWidth.value + Gap
  {
    match svgWidth
    case None => GapIndex
    case Some(w) => if x < w then 0 else if x > w + Gap then 1 else GapIndex
  }

  /** The surface x at which a stored point is drawn. For pane 1 with an
      unmeasured width the sum is NaN, here None. */
  function RenderX(p: Point, svgWidth: Option<real>): (r: Option<real>)
    ensures p.svgIndex == 0 ==> r == Some(p.x)
    ensures p.svgIndex != 0 ==> (r.Some? <==> svgWidth.Some?)
    ensures r.Some? && p.svgIndex != 0 ==> r.value - svgWidth.value - Gap == p.x
  {
    if p.svgIndex == 0 then Some(p.x)
    else match svgWidth
      case None => None
      case Some(w) => Some(p.x + w + Gap)
  }

  /** The point a click at surface (x, y) captures, or None in the gap.
      Drawing the captured point gives back the clicked x. */
  function Locate(x: real, y: real, svgWidth: Option<real>): (r: Option<Point>)
    ensures r.None? <==> Classify(x, svgWidth) == GapIndex
    ensures r.Some? ==> r.value.svgIndex == Classify(x, svgWidth) && r.value.y == y
    ensures r.Some? ==> RenderX(r.value, svgWidth) == Some(x)
    ensures r.Some? && r.value.svgIndex == 0 ==> r.value.x == x && r.value.x < svgWidth.value
    ensures r.Some? && r.value.svgIndex == 1 ==> r.value.x > 0.0
  {
    var svgIndex := Classify(x, svgWidth);
    if svgIndex == GapIndex then None
    else
      var adjustedX := if svgIndex == 0 then x else x - svgWidth.value - Gap;
      Some(Point(adjustedX, y, svgIndex))
  }

  /** Conversely, a point inside its pane is captured again by a click where
      it is drawn. */
  lemma LocateRendered(p: Point, svgWidth: real)
    requires p.svgIndex == 0 || p.svgIndex == 1
    requires p.svgIndex == 0 ==> p.x < svgWidth
    requires p.svgIndex == 1 ==> p.x > 0.0
    ensures RenderX(p, Some(svgWidth)).Some?
    ensures Locate(RenderX(p, Some(svgWidth)).value, p.y, Some(svgWidth)) == Some(p)
  {
  }

  // ---------------------------------------------------------------------------
  // Render-time lines

  /** A line as drawn on the overlay, in surface coordinates. */
  datatype SvgLine = SvgLine(x1: Option<real>, y1: real, x2: Option<real>, y2: real, stroke: string)

  /** A point lies inside the pane it belongs to. */
  predicate InPane(p: Point, svgWidth: real) {
    (p.svgIndex == 0 && p.x < svgWidth) || (p.svgIndex == 1 && p.x > 0.0)
  }

  /** A stored line drawn on the overlay. When both ends lie inside their
      panes each end is drawn in its own pane, so a seam crosses the gap. */
  function RenderLine(l: Line, svgWidth: Option<real>): (r: SvgLine)
    ensures r.y1 == l.start.y && r.y2 == l.end.y && r.stroke == l.color
    ensures r.x1 == RenderX(l.start, svgWidth) && r.x2 == RenderX(l.end, svgWidth)
    ensures svgWidth.Some? && InPane(l.start, svgWidth.value) && InPane(l.end, svgWidth.value) ==>
              r.x1.Some? && r.x2.Some? &&
              Classify(r.x1.value, svgWidth) == l.start.svgIndex &&
              Classify(r.x2.value, svgWidth) == l.end.svgIndex
    ensures svgWidth.Some? && InPane(l.start, svgWidth.value) && InPane(l.end, svgWidth.value) && IsSeam(l) ==>
              Classify(r.x1.value, svgWidth) != Classify(r.x2.value, svgWidth)
  {
    SvgLine(RenderX(l.start, svgWidth), l.start.y, RenderX(l.end, svgWidth), l.end.y, l.color)
  }

  /** One drawn line per stored line, in store order. */
  function RenderLines(lines: seq<Line>, svgWidth: Option<real>): (r: seq<SvgLine>)
    ensures |r| == |lines|
    ensures forall i :: 0 <= i < |lines| ==> r[i] == RenderLine(lines[i], svgWidth)
  {
    if lines == [] then [] else [RenderLine(lines[0], svgWidth)] + RenderLines(lines[1..], svgWidth)
  }

  // ---------------------------------------------------------------------------
  // The two-click pairing machine, as a function of its state

  /** The buttons that take part in pairing: primary (0) and secondary (2). */
  predicate IsPairButton(button: int) {
    button == 0 || button == 2
  }

  function ColorFor(button: int): (c: string)
    ensures c == Red <==> button == 0
    ensures c == Red || c == Blue
  {
    if button == 0 then Red else Blue
  }

  /** The pairing state together with the line store it appends to. */
  datatype PickerState = PickerState(anchor: Option<Point>, store: seq<Line>)

  const Idle: PickerState := PickerState(None, [])

  /** A click on the surface, in surface coordinates, with its button. */
  datatype Click = Click(x: real, y: real, button: int)

  /** One click: a gap click and a click with another button change nothing;
      an idle click captures the anchor; an anchored click appends a line when
      it is on the other pane and clears the anchor either way. */
  function Apply(st: PickerState, c: Click, svgWidth: Option<real>): (r: PickerState)
    ensures Locate(c.x, c.y, svgWidth).None? ==> r == st
    ensures !IsPairButton(c.button) ==> r == st
    ensures |st.store| <= |r.store| <= |st.store| + 1 && r.store[..|st.store|] == st.store
    ensures |r.store| == |st.store| + 1 <==>
              IsPairButton(c.button) && st.anchor.Some? &&
              Locate(c.x, c.y, svgWidth).Some? &&
              Locate(c.x, c.y, svgWidth).value.svgIndex != st.anchor.value.svgIndex
    ensures |r.store| == |st.store| + 1 ==>
              r.store[|st.store|] == Line(st.anchor.value, Locate(c.x, c.y, svgWidth).value, ColorFor(c.button)) &&
              r.anchor.None?
    ensures IsPairButton(c.button) && Locate(c.x, c.y, svgWidth).Some? ==>
              r.anchor == (if st.anchor.None? then Locate(c.x, c.y, svgWidth) else None)
  {
    match Locate(c.x, c.y, svgWidth)
    case None => st
    case Some(p) =>
      if !IsPairButton(c.button) then st
      else match st.anchor
        case None => PickerState(Some(p), st.store)
        case Some(a) =>
          if a.svgIndex != p.svgIndex then PickerState(None, st.store + [Line(a, p, ColorFor(c.button))])
          else PickerState(None, st.store)
  }

  /** A stored line joins the two panes. */
  predicate IsSeam(l: Line) {
    (l.start.svgIndex == 0 || l.start.svgIndex == 1) &&
    (l.end.svgIndex == 0 || l.end.svgIndex == 1) &&
    l.start.svgIndex != l.end.svgIndex
  }

  /** The invariant of the pairing state: the anchor lies in a pane and every
      stored line is a seam. */
  predicate WellFormed(st: PickerState) {
    (st.anchor.Some? ==> st.anchor.value.svgIndex == 0 || st.anchor.value.svgIndex == 1) &&
    forall i :: 0 <= i < |st.store| ==> IsSeam(st.store[i])
  }

  lemma ApplyKeepsWellFormed(st: PickerState, c: Click, svgWidth: Option<real>)
    requires WellFormed(st)
    ensures WellFormed(Apply(st, c, svgWidth))
  {
  }

  /** The state after a sequence of clicks, one `handleClick` each. */
  function Replay(st: PickerState, clicks: seq<Click>, svgWidth: Option<real>): PickerState
    decreases |clicks|
  {
    if clicks == [] then st else Replay(Apply(st, clicks[0], svgWidth), clicks[1..], svgWidth)
  }

  /** Whatever the clicks, every stored line joins the two panes. */
  lemma {:induction false} ReplayKeepsWellFormed(st: PickerState, clicks: seq<Click>, svgWidth: Option<real>)
    requires WellFormed(st)
    ensures WellFormed(Replay(st, clicks, svgWidth))
    decreases |clicks|
  {
    if clicks != [] {
      ApplyKeepsWellFormed(st, clicks[0], svgWidth);
      ReplayKeepsWellFormed(Apply(st, clicks[0], svgWidth), clicks[1..], svgWidth);
    }
  }

  /** Clicks only append: earlier lines are never changed or removed. */
  lemma {:induction false} ReplayExtendsStore(st: PickerState, clicks: seq<Click>, svgWidth: Option<real>)
    ensures |st.store| <= |Replay(st, clicks, svgWidth).store|
    ensures Replay(st, clicks, svgWidth).store[..|st.store|] == st.store
    decreases |clicks|
  {
    if clicks != [] {
      var next := Apply(st, clicks[0], svgWidth);
      ReplayExtendsStore(next, clicks[1..], svgWidth);
      var r := Replay(next, clicks[1..], svgWidth).store;
      assert r[..|st.store|] == r[..|next.store|][..|st.store|];
    }
  }

  function AnchorCount(st: PickerState): nat {
    if st.anchor.Some? then 1 else 0
  }

  /** Every line takes two clicks: twice the lines added, plus an anchor left
      pending, never exceeds the clicks made plus an anchor already pending. */
  lemma {:induction false} ReplayTwoClicksPerLine(st: PickerState, clicks: seq<Click>, svgWidth: Option<real>)
    ensures var r := Replay(st, clicks, svgWidth);
      |st.store| <= |r.store| &&
      2 * (|r.store| - |st.store|) + AnchorCount(r) <= |clicks| + AnchorCount(st)
    decreases |clicks|
  {
    if clicks != [] {
      ReplayTwoClicksPerLine(Apply(st, clicks[0], svgWidth), clicks[1..], svgWidth);
    }
  }

  /** Before the layout is measured every click lands in the gap. */
  lemma {:induction false} UnmeasuredIgnoresClicks(st: PickerState, clicks: seq<Click>)
    ensures Replay(st, clicks, None) == st
    decreases |clicks|
  {
    if clicks != [] {
      UnmeasuredIgnoresClicks(st, clicks[1..]);
    }
  }

  /** A surface 840 wide: panes are 400 wide, so x = 440 is the right edge of
      the gap and a click there does not complete the pair; x = 441 does. */
  lemma EdgeOfGap()
    ensures PaneWidth(840.0) == 400.0
    ensures Replay(Idle, [Click(100.0, 50.0, 0), Click(440.0, 60.0, 0)], Some(400.0))
            == PickerState(Some(Point(100.0, 50.0, 0)), [])
    ensures Replay(Idle, [Click(100.0, 50.0, 0), Click(441.0, 60.0, 0)], Some(400.0))
            == PickerState(None, [Line(Point(100.0, 50.0, 0), Point(1.0, 60.0, 1), Red)])
  {
  }

  /** A line completed by two clicks is drawn from the first click to the
      second, at the surface positions where they were made. */
  lemma DrawnWhereClicked(c1: Click, c2: Click, svgWidth: Option<real>)
    requires |Replay(Idle, [c1, c2], svgWidth).store| == 1
    ensures RenderLine(Replay(Idle, [c1, c2], svgWidth).store[0], svgWidth)
            == SvgLine(Some(c1.x), c1.y, Some(c2.x), c2.y, ColorFor(c2.button))
  {
    var s1 := Apply(Idle, c1, svgWidth);
    assert Replay(Idle, [c1, c2], svgWidth) == Replay(s1, [c2], svgWidth);
    assert [c2][1..] == [];
    var s2 := Apply(s1, c2, svgWidth);
    assert Replay(s1, [c2], svgWidth) == s2;
    assert s1.anchor == Locate(c1.x, c1.y, svgWidth);
  }

  // ---------------------------------------------------------------------------
  // The component

  /** The component's state: its layout, its anchor, and the line store that
      `onAddLine` appends to (owned by a parent not in the source; modelled
      as starting empty). */
  class View {
    var dimensions: Dimensions
    var startPoint: Option<Point>
    var lines: seq<Line>

    ghost predicate Valid()
      reads this
    {
      WellFormed(PickerState(startPoint, lines))
    }

    constructor ()
      ensures Valid()
      ensures dimensions == Unmeasured && startPoint.None? && lines == []
    {
      dimensions := Unmeasured;
      startPoint := None;
      lines := [];
    }

    /** The effect that runs when the uploaded files change: with exactly two
        files it measures the surface; otherwise nothing changes. */
    method FilesChanged(fileCount: nat, rectWidth: real, rectHeight: real)
      requires Valid()
      modifies this
      ensures Valid()
      ensures dimensions == if fileCount == 2 then Measure(rectWidth, rectHeight) else old(dimensions)
      ensures startPoint == old(startPoint) && lines == old(lines)
    {
      if fileCount == 2 {
        dimensions := Measure(rectWidth, rectHeight);
      }
    }

    /** A click at surface (x, y) with the given button. */
    method HandleClick(x: real, y: real, button: int)
      requires Valid()
      modifies this
      ensures Valid()
      ensures dimensions == old(dimensions)
      ensures PickerState(startPoint, lines)
              == Apply(PickerState(old(startPoint), old(lines)), Click(x, y, button), dimensions.svgWidth)
      ensures Classify(x, dimensions.svgWidth) == GapIndex ==>
                startPoint == old(startPoint) && lines == old(lines)
    {
      var svgIndex := Classify(x, dimensions.svgWidth);
      if svgIndex == GapIndex {
        return;
      }
      // The branches follow CombinedSVGView.jsx:58-76 one by one; the
      // ensures tie them to Locate and Apply.
      var adjustedX := if svgIndex == 0 then x else x - dimensions.svgWidth.value - Gap;
      if button == 0 || button == 2 {
        if startPoint.None? {
          startPoint := Some(Point(adjustedX, y, svgIndex));
        } else {
          if startPoint.value.svgIndex != svgIndex {
            lines := lines + [Line(startPoint.value, Point(adjustedX, y, svgIndex), ColorFor(button))];
          }
          startPoint := None;
        }
      }
    }

    /** The overlay lines drawn for the current store. */
    function Rendered(): (r: seq<SvgLine>)
      reads this
      ensures |r| == |lines|
      ensures forall i :: 0 <= i < |lines| ==> r[i] == RenderLine(lines[i], dimensions.svgWidth)
    {
      RenderLines(lines, dimensions.svgWidth)
    }
  }
}

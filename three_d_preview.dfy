/** The geometry of src/components/ThreeDPreview.jsx: each stored seam line
    becomes a 3-D segment between two parallel planes, z = -1 for the left
    pane and z = +1 otherwise, with x and y normalised by half the larger
    of the given width and height. */
module ThreeDPreview {
  import opened Wrappers
  import opened CombinedSvgView

  const RedHex: int := 0xff0000
  const BlueHex: int := 0x0000ff

  /** A 3-D point. x and y are None where the division is not finite
      (a zero scale gives Infinity or NaN). */
  datatype Vec3 = Vec3(x: Option<real>, y: Option<real>, z: real)

  datatype Segment3 = Segment3(start: Vec3, end: Vec3, color: int)

  /** The colour of a segment: "red" is red, every other colour blue. */
  function HexColor(color: string): (h: int)
    ensures h == RedHex <==> color == Red
    ensures h == RedHex || h == BlueHex
  {
    if color == Red then RedHex else BlueHex
  }

  /** Half the larger of the two dimensions. */
  function ScaleFactor(width: real, height: real): (s: real)
    ensures s == width / 2.0 || s == height / 2.0
    ensures s >= width / 2.0 && s >= height / 2.0
    ensures width > 0.0 || height > 0.0 ==> s > 0.0
  {
    (if width >= height then width else height) / 2.0
  }

  /** JavaScript division; None for a non-finite quotient. */
  function Div(a: real, b: real): (r: Option<real>)
    ensures r.None? <==> b == 0.0
    ensures r.Some? ==> r.value * b == a
  {
    if b == 0.0 then None else Some(a / b)
  }

  /** One endpoint: its stored (pane-local) x, with no pane offset, and its y
      flipped so that up is positive. With a nonzero scale the point can be
      recovered from its projection. */
  function ProjectPoint(p: Point, width: real, height: real): (v: Vec3)
    ensures v.z == -1.0 <==> p.svgIndex == 0
    ensures v.z == -1.0 || v.z == 1.0
    ensures v.x.None? <==> ScaleFactor(width, height) == 0.0
    ensures v.y.None? <==> ScaleFactor(width, height) == 0.0
    ensures v.x.Some? ==> p.x == width / 2.0 + v.x.value * ScaleFactor(width, height)
    ensures v.y.Some? ==> p.y == height / 2.0 - v.y.value * ScaleFactor(width, height)
  {
    var s := ScaleFactor(width, height);
    Vec3(Div(p.x - width / 2.0, s), Div(height / 2.0 - p.y, s), if p.svgIndex == 0 then -1.0 else 1.0)
  }

  function ProjectLine(l: Line, width: real, height: real): (r: Segment3)
    ensures r.start == ProjectPoint(l.start, width, height)
    ensures r.end == ProjectPoint(l.end, width, height)
    ensures r.color == HexColor(l.color)
    ensures IsSeam(l) ==> r.start.z == -r.end.z
  {
    Segment3(ProjectPoint(l.start, width, height), ProjectPoint(l.end, width, height), HexColor(l.color))
  }

  /** One segment per line, in input order. */
  function ProjectAll(lines: seq<Line>, width: real, height: real): (r: seq<Segment3>)
    ensures |r| == |lines|
    ensures forall i :: 0 <= i < |lines| ==> r[i] == ProjectLine(lines[i], width, height)
  {
    if lines == [] then [] else [ProjectLine(lines[0], width, height)] + ProjectAll(lines[1..], width, height)
  }

  /** The preview's segments: none when the lines are missing or empty. */
  function Preview(lines: Option<seq<Line>>, width: real, height: real): (r: seq<Segment3>)
    ensures lines.None? ==> r == []
    ensures lines.Some? ==> |r| == |lines.value|
    ensures lines.Some? ==> forall i :: 0 <= i < |r| ==> r[i] == ProjectLine(lines.value[i], width, height)
  {
    match lines
    case None => []
    case Some(ls) => if |ls| == 0 then [] else ProjectAll(ls, width, height)
  }

  /** For a store of seams every segment runs from one plane to the other. */
  lemma PreviewJoinsPlanes(lines: seq<Line>, width: real, height: real)
    requires forall i :: 0 <= i < |lines| ==> IsSeam(lines[i])
    ensures forall i :: 0 <= i < |lines| ==>
      var s := Preview(Some(lines), width, height)[i];
      {s.start.z, s.end.z} == {-1.0, 1.0}
  {
  }

  /** The preview of a view's store: every segment runs from one plane to
      the other, because the view only ever stores seams. */
  lemma ViewPreviewJoinsPlanes(v: View, width: real, height: real)
    requires v.Valid()
    ensures |Preview(Some(v.lines), width, height)| == |v.lines|
    ensures forall i :: 0 <= i < |v.lines| ==>
      var s := Preview(Some(v.lines), width, height)[i];
      {s.start.z, s.end.z} == {-1.0, 1.0}
  {
  }

  /** The centre of the surface projects onto the z axis. */
  lemma CentreToAxis(k: int, width: real, height: real)
    requires width > 0.0 || height > 0.0
    ensures ProjectPoint(Point(width / 2.0, height / 2.0, k), width, height).x == Some(0.0)
    ensures ProjectPoint(Point(width / 2.0, height / 2.0, k), width, height).y == Some(0.0)
  {
  }

  /** The vertical axis is flipped: lower on the surface is lower in 3-D. */
  lemma VerticalFlip(p: Point, q: Point, width: real, height: real)
    requires width > 0.0 || height > 0.0
    requires p.y < q.y
    ensures ProjectPoint(p, width, height).y.value > ProjectPoint(q, width, height).y.value
  {
  }

  /** Horizontal order is kept. */
  lemma HorizontalOrder(p: Point, q: Point, width: real, height: real)
    requires width > 0.0 || height > 0.0
    requires p.x < q.x
    ensures ProjectPoint(p, width, height).x.value < ProjectPoint(q, width, height).x.value
  {
    var s := ScaleFactor(width, height);
    var vp, vq := ProjectPoint(p, width, height).x.value, ProjectPoint(q, width, height).x.value;
    assert (vq - vp) * s == q.x - p.x;
  }

  /** No pane offset is added: points with the same stored coordinates on the
      two panes land at the same x and y, on opposite planes. */
  lemma NoPaneOffset(x: real, y: real, width: real, height: real)
    ensures var a, b := ProjectPoint(Point(x, y, 0), width, height), ProjectPoint(Point(x, y, 1), width, height);
      a.x == b.x && a.y == b.y && a.z == -1.0 && b.z == 1.0
  {
  }

  /** A surface 840 by 600: the pane-0 point (100, 300) projects to
      (-320/420, 0, -1). */
  lemma ProjectExample()
    ensures ProjectPoint(Point(100.0, 300.0, 0), 840.0, 600.0) == Vec3(Some(-320.0 / 420.0), Some(0.0), -1.0)
  {
  }
}

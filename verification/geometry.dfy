// Bounding-box arithmetic of the drawing tools: the box of a rectangle or
// circle drag, and the box and relative path of a free-form stroke.

module Geometry {
  import opened Protocol
  import opened PathData

  datatype Point = Point(x: int, y: int)

  /** A box by its top-left corner and its extent. */
  datatype Box = Box(left: int, top: int, width: int, height: int)

  predicate Inside(b: Box, p: Point) {
    b.left <= p.x <= b.left + b.width && b.top <= p.y <= b.top + b.height
  }

  /** The box of a rectangle or circle drawn from the anchor (sx, sy) to the
      pointer (cx, cy): the two points are opposite corners, whichever way
      the pointer went. */
  function DragBox(sx: int, sy: int, cx: int, cy: int): (b: Box)
    ensures b.width >= 0 && b.height >= 0
    ensures Inside(b, Point(sx, sy)) && Inside(b, Point(cx, cy))
    ensures {b.left, b.left + b.width} == {sx, cx}
    ensures {b.top, b.top + b.height} == {sy, cy}
  {
    var width := if cx < sx then sx - cx else cx - sx;
    var height := if cy < sy then sy - cy else cy - sy;
    var left := if cx < sx then cx else sx;
    var top := if cy < sy then cy else sy;
    Box(left, top, width, height)
  }

  /** Swapping anchor and pointer gives the same box. */
  lemma DragBoxSymmetric(sx: int, sy: int, cx: int, cy: int)
    ensures DragBox(sx, sy, cx, cy) == DragBox(cx, cy, sx, sy)
  {
  }

  function MinOf(xs: seq<int>): (m: int)
    requires |xs| > 0
    ensures m in xs
    ensures forall i :: 0 <= i < |xs| ==> m <= xs[i]
    decreases |xs|
  {
    if |xs| == 1 then xs[0]
    else
      var rest := MinOf(xs[1..]);
      if xs[0] <= rest then xs[0] else rest
  }

  function MaxOf(xs: seq<int>): (m: int)
    requires |xs| > 0
    ensures m in xs
    ensures forall i :: 0 <= i < |xs| ==> xs[i] <= m
    decreases |xs|
  {
    if |xs| == 1 then xs[0]
    else
      var rest := MaxOf(xs[1..]);
      if xs[0] >= rest then xs[0] else rest
  }

  function Xs(ps: seq<Point>): (xs: seq<int>)
    ensures |xs| == |ps|
  {
    seq(|ps|, i requires 0 <= i < |ps| => ps[i].x)
  }

  function Ys(ps: seq<Point>): (ys: seq<int>)
    ensures |ys| == |ps|
  {
    seq(|ps|, i requires 0 <= i < |ps| => ps[i].y)
  }

  /** The smallest box holding every collected point: each point is inside
      and each of the four edges passes through some point. */
  function BoundingBox(ps: seq<Point>): (b: Box)
    requires |ps| > 0
    ensures b.width >= 0 && b.height >= 0
    ensures forall i :: 0 <= i < |ps| ==> Inside(b, ps[i])
    ensures b.left in Xs(ps) && b.left + b.width in Xs(ps)
    ensures b.top in Ys(ps) && b.top + b.height in Ys(ps)
  {
    var xs, ys := Xs(ps), Ys(ps);
    var minX, maxX, minY, maxY := MinOf(xs), MaxOf(xs), MinOf(ys), MaxOf(ys);
    assert forall i :: 0 <= i < |ps| ==> xs[i] == ps[i].x && ys[i] == ps[i].y;
    Box(minX, minY, maxX - minX, maxY - minY)
  }

  /** The points re-expressed relative to the box's top-left corner, a
      move-to for the first and a line-to for every later one. */
  function Offsets(ps: seq<Point>, b: Box): (cs: seq<Command>)
    requires forall i :: 0 <= i < |ps| ==> Inside(b, ps[i])
    ensures |cs| == |ps|
    ensures forall i :: 0 <= i < |cs| ==> (cs[i].MoveTo? <==> i == 0)
    ensures forall i :: 0 <= i < |cs| ==> cs[i].dx <= b.width && cs[i].dy <= b.height
  {
    var cs := seq(|ps|, i requires 0 <= i < |ps| =>
      assert Inside(b, ps[i]);
      var dx: nat := ps[i].x - b.left;
      var dy: nat := ps[i].y - b.top;
      if i == 0 then MoveTo(dx, dy) else LineTo(dx, dy));
    assert forall i :: 0 <= i < |ps| ==> Inside(b, ps[i]) && cs[i].dx == ps[i].x - b.left && cs[i].dy == ps[i].y - b.top;
    cs
  }

  /** The page points a path denotes once it is placed at the box's corner. */
  function Absolute(cs: seq<Command>, b: Box): seq<Point> {
    seq(|cs|, i requires 0 <= i < |cs| => Point(cs[i].dx + b.left, cs[i].dy + b.top))
  }

  /** Adding the corner back to every offset reproduces the points. */
  lemma AbsoluteOffsets(ps: seq<Point>, b: Box)
    requires forall i :: 0 <= i < |ps| ==> Inside(b, ps[i])
    ensures Absolute(Offsets(ps, b), b) == ps
  {
  }

  /** The path string stored on a free-form shape for its collected points. */
  function FreeformPath(ps: seq<Point>): string
    requires |ps| > 0
  {
    Render(Offsets(ps, BoundingBox(ps)))
  }

  /** A free-form path string holds one command per collected point, a
      move-to first and line-tos after, each offset inside the box, and
      adding the box's corner back to the parsed offsets reproduces the
      stroke. */
  lemma FreeformPathRoundTrip(ps: seq<Point>)
    requires |ps| > 0
    ensures Parse(FreeformPath(ps)).Some?
    ensures var cs := Parse(FreeformPath(ps)).value; var b := BoundingBox(ps);
      && |cs| == |ps|
      && cs[0].MoveTo?
      && (forall i :: 1 <= i < |cs| ==> cs[i].LineTo?)
      && (forall i :: 0 <= i < |cs| ==> cs[i].dx <= b.width && cs[i].dy <= b.height)
      && Absolute(cs, b) == ps
  {
    var b := BoundingBox(ps);
    RenderParse(Offsets(ps, b));
    AbsoluteOffsets(ps, b);
  }
}

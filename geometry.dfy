/** The two collision primitives of the engine (script.js, "collision helpers"). Coordinates are
    canvas coordinates: x grows to the right, y grows downward, a box is given by its top-left
    corner and its extent. */
module Geometry {
  import opened Basics

  datatype Box = Box(x: real, y: real, width: real, height: real)

  /** The point (px, py) lies in the closed box. */
  predicate InBox(b: Box, px: real, py: real)
  {
    b.x <= px <= b.x + b.width && b.y <= py <= b.y + b.height
  }

  /** Squared Euclidean distance between two points. */
  function SqDist(ax: real, ay: real, qx: real, qy: real): real
  {
    (ax - qx) * (ax - qx) + (ay - qy) * (ay - qy)
  }

  /** `rectCircleCollide`: clamp the circle's centre into the box to find the box's nearest point,
      then compare the squared distance to it with the squared radius. */
  function RectCircleCollide(rx: real, ry: real, rw: real, rh: real, cx: real, cy: real, cr: real): (hit: bool)
    ensures InBox(Box(rx, ry, rw, rh), cx, cy) ==> hit
  {
    var closestX := Max(rx, Min(cx, rx + rw));
    var closestY := Max(ry, Min(cy, ry + rh));
    var dx := cx - closestX;
    var dy := cy - closestY;
    dx * dx + dy * dy <= cr * cr
  }

  /** `rectRect`: the boxes are not separated along x and not separated along y. */
  function RectRect(a: Box, b: Box): (overlap: bool)
    ensures b.width >= 0.0 && b.height >= 0.0 && InBox(a, b.x, b.y) ==> overlap
    ensures a.width >= 0.0 && a.height >= 0.0 && InBox(b, a.x, a.y) ==> overlap
  {
    !(a.x + a.width < b.x || a.x > b.x + b.width || a.y + a.height < b.y || a.y > b.y + b.height)
  }

  lemma SquareMonotone(a: real, b: real)
    requires 0.0 <= a <= b
    ensures a * a <= b * b
  {
    assert a * a <= a * b;
    assert a * b <= b * b;
  }

  /** Clamping c into [lo, hi] gives the point of [lo, hi] nearest to c. */
  lemma ClampIsNearest(lo: real, hi: real, c: real, p: real)
    requires lo <= p <= hi
    ensures var k := Max(lo, Min(c, hi)); lo <= k <= hi && (c - k) * (c - k) <= (c - p) * (c - p)
  {
    var k := Max(lo, Min(c, hi));
    if c < lo {
      SquareMonotone(lo - c, p - c);
      assert (c - k) * (c - k) == (lo - c) * (lo - c);
      assert (c - p) * (c - p) == (p - c) * (p - c);
    } else if c > hi {
      SquareMonotone(c - hi, c - p);
    } else {
      assert k == c;
    }
  }

  /** The clamped centre is the point of the box nearest to the circle's centre. */
  lemma ClampedPointIsNearest(b: Box, cx: real, cy: real, px: real, py: real)
    requires InBox(b, px, py)
    ensures var kx := Max(b.x, Min(cx, b.x + b.width));
            var ky := Max(b.y, Min(cy, b.y + b.height));
            InBox(b, kx, ky) && SqDist(cx, cy, kx, ky) <= SqDist(cx, cy, px, py)
  {
    ClampIsNearest(b.x, b.x + b.width, cx, px);
    ClampIsNearest(b.y, b.y + b.height, cy, py);
  }

  /** For a box of non-negative extent, `rectCircleCollide` holds exactly when some point of the
      closed box lies within the circle (distance at most the radius, so touching counts). */
  lemma {:induction false} RectCircleMeansSharedPoint(rx: real, ry: real, rw: real, rh: real, cx: real, cy: real, cr: real)
    requires rw >= 0.0 && rh >= 0.0
    ensures RectCircleCollide(rx, ry, rw, rh, cx, cy, cr) <==>
            exists px, py :: InBox(Box(rx, ry, rw, rh), px, py) && SqDist(cx, cy, px, py) <= cr * cr
  {
    var b := Box(rx, ry, rw, rh);
    var kx := Max(rx, Min(cx, rx + rw));
    var ky := Max(ry, Min(cy, ry + rh));
    assert RectCircleCollide(rx, ry, rw, rh, cx, cy, cr) == (SqDist(cx, cy, kx, ky) <= cr * cr);
    ClampedPointIsNearest(b, cx, cy, rx, ry);
    forall px, py | InBox(b, px, py) && SqDist(cx, cy, px, py) <= cr * cr
      ensures SqDist(cx, cy, kx, ky) <= cr * cr
    {
      ClampedPointIsNearest(b, cx, cy, px, py);
    }
  }

  /** A circle whose centre lies in the box always collides with it, whatever its radius. */
  lemma CentreInsideCollides(rx: real, ry: real, rw: real, rh: real, cx: real, cy: real, cr: real)
    requires InBox(Box(rx, ry, rw, rh), cx, cy)
    ensures RectCircleCollide(rx, ry, rw, rh, cx, cy, cr)
  {
    assert Max(rx, Min(cx, rx + rw)) == cx;
    assert Max(ry, Min(cy, ry + rh)) == cy;
  }

  /** Overlap does not depend on the order of the boxes. */
  lemma RectRectSymmetric(a: Box, b: Box)
    ensures RectRect(a, b) == RectRect(b, a)
  {
  }

  /** For boxes of non-negative extent, `rectRect` holds exactly when the closed boxes share a
      point; boxes that only share an edge or a corner therefore overlap. */
  lemma RectRectMeansSharedPoint(a: Box, b: Box)
    requires a.width >= 0.0 && a.height >= 0.0 && b.width >= 0.0 && b.height >= 0.0
    ensures RectRect(a, b) <==> exists px, py :: InBox(a, px, py) && InBox(b, px, py)
  {
    if RectRect(a, b) {
      var px, py := Max(a.x, b.x), Max(a.y, b.y);
      assert InBox(a, px, py) && InBox(b, px, py);
    }
  }

  /** Two boxes that touch along an edge overlap: either one's right edge is the other's left
      edge and their vertical extents meet, or one's bottom edge is the other's top edge and
      their horizontal extents meet. Touching at a corner is the case where the extents meet
      in a single point. */
  lemma SharedEdgeOverlaps(a: Box, b: Box)
    requires a.width >= 0.0 && a.height >= 0.0 && b.width >= 0.0 && b.height >= 0.0
    requires || ((b.x == a.x + a.width || a.x == b.x + b.width) && a.y <= b.y + b.height && b.y <= a.y + a.height)
             || ((b.y == a.y + a.height || a.y == b.y + b.height) && a.x <= b.x + b.width && b.x <= a.x + a.width)
    ensures RectRect(a, b)
  {
  }
}

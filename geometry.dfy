/**
 Plane geometry of the line-and-text label layer: points, sizes and frames in
 real-valued view coordinates, the left/right side test on a slice's
 mid-angle, and the formulas that place the end of the leader line, the two
 labels and the marker dot.
 */
module Geometry {

  datatype Point = Point(x: real, y: real)

  datatype Size = Size(width: real, height: real)

  /** A view frame: its top-left corner and its size. */
  datatype Rect = Rect(origin: Point, size: Size)

  /** The host's value of pi (floating-point rounding is not modelled). */
  const Pi: real := 3.141592653589793

  /** One full turn, the divisor of the side test. */
  const Turn: real := 2.0 * Pi

  function Center(r: Rect): Point
  {
    Point(r.origin.x + r.size.width / 2.0, r.origin.y + r.size.height / 2.0)
  }

  /** The frame of the same size whose centre is `c` (what assigning a view's centre does). */
  function Recentered(r: Rect, c: Point): (s: Rect)
    ensures s.size == r.size
    ensures Center(s) == c
  {
    Rect(Point(c.x - r.size.width / 2.0, c.y - r.size.height / 2.0), r.size)
  }

  /** True when `d` is a whole number of turns. */
  predicate IsWholeTurns(d: real)
  {
    (d / Turn).Floor as real == d / Turn
  }

  /**
   The remainder of `angle` divided by a full turn, with the quotient rounded
   toward zero (a truncating remainder): the result keeps the sign of `angle`.
   */
  function AngleRemainder(angle: real): (r: real)
    ensures 0.0 <= angle ==> 0.0 <= r < Turn
    ensures angle < 0.0 ==> -Turn < r <= 0.0
    ensures IsWholeTurns(angle - r)
  {
    var turns := if 0.0 <= angle then (angle / Turn).Floor else -((-angle) / Turn).Floor;
    assert (angle - (angle - turns as real * Turn)) / Turn == turns as real;
    angle - turns as real * Turn
  }

  /**
   The side test: a slice is on the right side when its mid-angle's
   truncating remainder lies in [0, pi/2] or in (3pi/2, 2pi]. A negative
   remainder is never on the right side; on a non-negative one the left side
   is exactly the half turn (pi/2, 3pi/2].
   */
  function IsRightSide(midAngle: real): (right: bool)
    ensures right ==> 0.0 <= AngleRemainder(midAngle)
    ensures 0.0 <= AngleRemainder(midAngle) ==>
      (right <==> !(Pi / 2.0 < AngleRemainder(midAngle) <= Pi * 3.0 / 2.0))
  {
    var a := AngleRemainder(midAngle);
    (0.0 <= a && a <= Pi / 2.0) || (Pi * 3.0 / 2.0 < a && a <= Pi * 2.0)
  }

  /** A remainder that is already in [0, 2pi) is the angle itself. */
  lemma RemainderOfNormalizedAngle(a: real)
    requires 0.0 <= a < Turn
    ensures AngleRemainder(a) == a
  {
  }

  /** On an angle in [0, 2pi) the side test is the quadrant test: right iff a <= pi/2 or a > 3pi/2. */
  lemma SideOfNormalizedAngle(a: real)
    requires 0.0 <= a < Turn
    ensures IsRightSide(a) <==> a <= Pi / 2.0 || Pi * 3.0 / 2.0 < a
  {
    RemainderOfNormalizedAngle(a);
  }

  /** For non-negative angles, adding a full turn does not change the side. */
  lemma SideOfNonNegativeAngleIsPeriodic(angle: real)
    requires 0.0 <= angle
    ensures AngleRemainder(angle + Turn) == AngleRemainder(angle)
    ensures IsRightSide(angle + Turn) == IsRightSide(angle)
  {
    var r0, r1 := AngleRemainder(angle), AngleRemainder(angle + Turn);
    var k0, k1 := ((angle - r0) / Turn).Floor, ((angle + Turn - r1) / Turn).Floor;
    assert angle - r0 == k0 as real * Turn;
    assert angle + Turn - r1 == k1 as real * Turn;
    assert r0 - r1 == (k1 - k0 - 1) as real * Turn;
    assert -1 < k1 - k0 - 1 < 1;
  }

  /**
   Because the remainder keeps the sign, negative angles are not reduced to
   [0, 2pi): -pi/4 and -pi/4 + 2pi name the same direction but fall on
   different sides.
   */
  lemma SideOfNegativeAngleIsNotPeriodic()
    ensures !IsRightSide(-Pi / 4.0)
    ensures IsRightSide(-Pi / 4.0 + Turn)
  {
  }

  /** Mid-angle 0 is on the right side and mid-angle pi on the left side. */
  lemma SidesOfAxisAngles()
    ensures IsRightSide(0.0)
    ensures !IsRightSide(Pi)
  {
  }

  /**
   The end of the leader line: the horizontal second segment of length
   `segment2Length` leaves the bend `p2` outward, rightward on the right side
   and leftward on the left side.
   */
  function ThirdPoint(p2: Point, isRightSide: bool, segment2Length: real): (p3: Point)
    ensures p3.y == p2.y
    ensures isRightSide ==> p3.x - p2.x == segment2Length
    ensures !isRightSide ==> p2.x - p3.x == segment2Length
  {
    Point(p2.x + (if isRightSide then segment2Length else -segment2Length), p2.y)
  }

  /**
   The frame of a label of measured size `size` hung on the line end `p3`: on
   the right side its left edge is `xOffset` to the right of `p3`, on the left
   side its right edge is `xOffset` to the left of `p3`; its vertical centre
   is `p3.y` moved by `+yOffset` for the title and `-yOffset` for the value.
   */
  function LabelFrame(p3: Point, isRightSide: bool, size: Size, isTitle: bool, xOffset: real, yOffset: real): (r: Rect)
    ensures r.size == size
    ensures isRightSide ==> r.origin.x == p3.x + xOffset
    ensures !isRightSide ==> r.origin.x + size.width == p3.x - xOffset
    ensures Center(r).y == p3.y + (if isTitle then yOffset else -yOffset)
  {
    Rect(Point(p3.x - (if isRightSide then 0.0 else size.width) + (if isRightSide then 1.0 else -1.0) * xOffset,
               p3.y - size.height / 2.0 + (if isTitle then yOffset else -yOffset)),
         size)
  }

  /**
   With a non-negative offset and width, a label never crosses the line end:
   it lies wholly to the right of `p3` on the right side and wholly to its
   left on the left side; title and value centres are `2 * yOffset` apart.
   */
  lemma LabelLiesOnItsSide(p3: Point, isRightSide: bool, size: Size, isTitle: bool, xOffset: real, yOffset: real)
    requires 0.0 <= xOffset && 0.0 <= size.width
    ensures var r := LabelFrame(p3, isRightSide, size, isTitle, xOffset, yOffset);
      if isRightSide then p3.x <= r.origin.x else r.origin.x + r.size.width <= p3.x
    ensures Center(LabelFrame(p3, isRightSide, size, true, xOffset, yOffset)).y
         - Center(LabelFrame(p3, isRightSide, size, false, xOffset, yOffset)).y == 2.0 * yOffset
  {
  }

  /** The marker dot: a frame of the configured size centred on `p1`. */
  function MarkerFrame(p1: Point, size: Size): (r: Rect)
    ensures r.size == size
    ensures Center(r) == p1
  {
    Rect(Point(p1.x - size.width / 2.0, p1.y - size.height / 2.0), size)
  }

  /**
   Overlap of two frames: on both axes each frame starts strictly before the
   other ends. Frames that only touch along an edge do not overlap.
   */
  predicate Intersects(a: Rect, b: Rect)
  {
    && a.origin.x < b.origin.x + b.size.width
    && b.origin.x < a.origin.x + a.size.width
    && a.origin.y < b.origin.y + b.size.height
    && b.origin.y < a.origin.y + a.size.height
  }

  /** The point `p` lies strictly inside the frame `r`. */
  predicate Inside(p: Point, r: Rect)
  {
    && r.origin.x < p.x < r.origin.x + r.size.width
    && r.origin.y < p.y < r.origin.y + r.size.height
  }

  /**
   Two frames overlap when some point lies strictly inside both; for frames
   of positive width and height that is also the only way they overlap.
   */
  lemma IntersectsIffCommonInteriorPoint(a: Rect, b: Rect)
    ensures (exists p :: Inside(p, a) && Inside(p, b)) ==> Intersects(a, b)
    ensures 0.0 < a.size.width && 0.0 < a.size.height && 0.0 < b.size.width && 0.0 < b.size.height ==>
      (Intersects(a, b) ==> exists p :: Inside(p, a) && Inside(p, b))
  {
    if Intersects(a, b) && 0.0 < a.size.width && 0.0 < a.size.height && 0.0 < b.size.width && 0.0 < b.size.height {
      var left := if a.origin.x < b.origin.x then b.origin.x else a.origin.x;
      var right := if a.origin.x + a.size.width < b.origin.x + b.size.width
                   then a.origin.x + a.size.width else b.origin.x + b.size.width;
      var top := if a.origin.y < b.origin.y then b.origin.y else a.origin.y;
      var bottom := if a.origin.y + a.size.height < b.origin.y + b.size.height
                    then a.origin.y + a.size.height else b.origin.y + b.size.height;
      var p := Point((left + right) / 2.0, (top + bottom) / 2.0);
      assert Inside(p, a) && Inside(p, b);
    }
  }
}

/**
 * The geometry helpers of the pose pipeline: the landmark accessor with its
 * origin default, and the joint angle folded into [0, 180] degrees.
 */
module PoseDetection {
  import opened Wrappers

  /** One landmark as the pose model reports it: normalised image
      coordinates, a depth and an optional visibility score. */
  datatype Landmark = Landmark(x: real, y: real, z: real, visibility: Option<real>)

  /** The two-field point the accessor returns. */
  datatype Point = Point(x: real, y: real)

  /** The landmark list of one frame; `None` when the list is absent. */
  type LandmarkList = Option<seq<Landmark>>

  const Origin := Point(0.0, 0.0)

  /** A direction in degrees, as `Math.atan2(dy, dx) * 180 / Math.PI`
      yields it: `atan2` lies in [-pi, pi], -pi being reached at a negative
      zero `dy` with negative `dx`. */
  type Direction = d: real | -180.0 <= d <= 180.0

  /** The direction of the ray (dx, dy), argument order as in `atan2(dy, dx)`.
      It is kept abstract: the model holds for every such function. */
  type Heading = (real, real) -> Direction

  /** Whether `landmarks[index]` is a present landmark. */
  predicate HasLandmark(landmarks: LandmarkList, index: int)
  {
    landmarks.Some? && 0 <= index < |landmarks.value|
  }

  /** `getCoordinates`: the x and y of landmark `index`, or the origin when
      the list is absent or has no landmark at that index. */
  function GetCoordinates(landmarks: LandmarkList, index: int): (p: Point)
    ensures !HasLandmark(landmarks, index) ==> p == Origin
    ensures HasLandmark(landmarks, index) ==>
              p.x == landmarks.value[index].x && p.y == landmarks.value[index].y
  {
    if HasLandmark(landmarks, index) then
      Point(landmarks.value[index].x, landmarks.value[index].y)
    else
      Origin
  }

  /** The accessor reads nothing but the x and y of the one landmark it is
      asked for: other landmarks, and the depth and visibility of this one,
      do not affect it. */
  lemma GetCoordinatesLocal(landmarks: seq<Landmark>, index: int, other: seq<Landmark>)
    requires |other| == |landmarks|
    requires 0 <= index < |landmarks| ==>
               other[index].x == landmarks[index].x && other[index].y == landmarks[index].y
    ensures GetCoordinates(Some(other), index) == GetCoordinates(Some(landmarks), index)
  {
  }

  function Abs(x: real): (r: real)
    ensures r >= 0.0 && (r == x || r == -x)
  {
    if x < 0.0 then -x else x
  }

  /** The folding step of `calculateAngle`: the absolute difference, replaced
      by its complement to 360 when it exceeds 180. */
  function Fold(raw: real): (r: real)
    ensures r <= 180.0
    ensures -360.0 <= raw <= 360.0 ==> 0.0 <= r
    ensures r == Abs(raw) || r == 360.0 - Abs(raw)
  {
    var angle := Abs(raw);
    if angle > 180.0 then 360.0 - angle else angle
  }

  /** Folding leaves an angle that is already in [0, 180] as it is. */
  lemma FoldIdentity(x: real)
    requires 0.0 <= x <= 180.0
    ensures Fold(x) == x
  {
  }

  /** Folding ignores the sign of the raw difference. */
  lemma FoldEven(x: real)
    ensures Fold(-x) == Fold(x)
  {
  }

  /** A raw difference and the same difference taken one full turn the other
      way fold to the same angle, so the result does not depend on which of
      the two equivalent `atan2` branches the rays fall on. */
  lemma FoldFullTurn(x: real)
    requires 0.0 <= x <= 360.0
    ensures Fold(x - 360.0) == Fold(x)
  {
  }

  /** The raw difference of two directions: in [-360, 360]. */
  function RawDifference(heading: Heading, a: Point, b: Point, c: Point): (d: real)
    ensures -360.0 <= d <= 360.0
  {
    heading(c.y - b.y, c.x - b.x) - heading(a.y - b.y, a.x - b.x)
  }

  /** `calculateAngle`: the angle at vertex `b` between the rays to `a` and
      to `c`, in degrees. */
  function CalculateAngle(heading: Heading, a: Point, b: Point, c: Point): (r: real)
    ensures 0.0 <= r <= 180.0
  {
    Fold(RawDifference(heading, a, b, c))
  }

  /** Swapping the outer points negates the raw difference, which the
      absolute value removes. */
  lemma CalculateAngleSymmetric(heading: Heading, a: Point, b: Point, c: Point)
    ensures CalculateAngle(heading, a, b, c) == CalculateAngle(heading, c, b, a)
  {
    assert RawDifference(heading, c, b, a) == -RawDifference(heading, a, b, c);
    FoldEven(RawDifference(heading, a, b, c));
  }
}

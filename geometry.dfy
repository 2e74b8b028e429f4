/**
 * Integer screen geometry shared by every sprite: pygame rectangles, centres,
 * squared distances, the four-way facing rule and the nearest-target scan.
 */
module Geometry {
  import opened Wrappers

  datatype Point = Point(x: int, y: int)

  /** A float vector (direction, velocity, knockback). */
  datatype Vec = Vec(x: real, y: real) {
    predicate NonZero() { x != 0.0 || y != 0.0 }
  }

  /** A pygame Rect: integer top-left corner and a non-negative size. */
  datatype Rect = Rect(left: int, top: int, width: nat, height: nat) {
    function RightEdge(): int { left + width }
    function BottomEdge(): int { top + height }
    /** pygame's `center`: top-left plus half the size, rounded down. */
    function Center(): Point { Point(left + width / 2, top + height / 2) }
    function Move(dx: int, dy: int): Rect { Rect(left + dx, top + dy, width, height) }
  }

  datatype Dir = Up | Down | Left | Right

  /**
   * pygame stores rect coordinates as integers: a float written to a rect
   * coordinate loses its fraction, rounding toward zero.
   */
  function Trunc(r: real): (n: int)
    ensures 0.0 <= r ==> n as real <= r < n as real + 1.0
    ensures r < 0.0 ==> n as real - 1.0 < r <= n as real
  {
    if r >= 0.0 then r.Floor else -((-r).Floor)
  }

  /**
   * `rect.center = c + v`: pygame truncates the new centre and places the
   * corner half the size before it, so the size is kept and the centre read
   * back is the truncated one.
   */
  function Recentre(r: Rect, v: Vec): (q: Rect)
    ensures q.width == r.width && q.height == r.height
    ensures q.Center() == Point(Trunc(r.Center().x as real + v.x), Trunc(r.Center().y as real + v.y))
  {
    var c := r.Center();
    Rect(Trunc(c.x as real + v.x) - r.width / 2, Trunc(c.y as real + v.y) - r.height / 2, r.width, r.height)
  }

  /** `rect.x += v.x; rect.y += v.y`: each coordinate is truncated on its own. */
  function Nudge(r: Rect, v: Vec): (q: Rect)
    ensures q.width == r.width && q.height == r.height
    ensures v.x >= 0.0 ==> r.left <= q.left
    ensures v.x <= 0.0 ==> q.left <= r.left
    ensures v.y >= 0.0 ==> r.top <= q.top
    ensures v.y <= 0.0 ==> q.top <= r.top
  {
    Rect(Trunc(r.left as real + v.x), Trunc(r.top as real + v.y), r.width, r.height)
  }

  /** pygame's `colliderect`: the interiors overlap; an empty rect meets nothing. */
  predicate Overlaps(a: Rect, b: Rect)
  {
    && a.width > 0 && a.height > 0 && b.width > 0 && b.height > 0
    && a.left < b.RightEdge() && b.left < a.RightEdge()
    && a.top < b.BottomEdge() && b.top < a.BottomEdge()
  }

  function DistSq(a: Point, b: Point): nat
  {
    (a.x - b.x) * (a.x - b.x) + (a.y - b.y) * (a.y - b.y)
  }

  /**
   * The facing rule of `update_direction` and of the combatants' `move`: the
   * larger component wins; a tie between |x| and |y| goes vertical, and a
   * zero vertical component faces up.
   */
  function Facing(x: real, y: real): (d: Dir)
  {
    if Abs(x) > Abs(y) then (if x > 0.0 then Right else Left)
    else if y > 0.0 then Down else Up
  }

  function Abs(r: real): real { if r < 0.0 then -r else r }

  /**
   * The source normalises a vector before taking its facing; scaling by any
   * positive factor leaves the facing unchanged, so the model may use the raw
   * vector.
   */
  lemma FacingScaleInvariant(x: real, y: real, k: real)
    requires k > 0.0
    ensures Facing(k * x, k * y) == Facing(x, y)
  {
    AbsScales(x, k);
    AbsScales(y, k);
    ScaleKeepsOrder(Abs(x), Abs(y), k);
    ScaleKeepsOrder(x, 0.0, k);
    ScaleKeepsOrder(y, 0.0, k);
  }

  lemma AbsScales(a: real, k: real)
    requires k > 0.0
    ensures Abs(k * a) == k * Abs(a)
  {
    if a < 0.0 { assert k * a == -(k * (-a)); assert k * (-a) > 0.0; } else { assert k * a >= 0.0; }
  }

  lemma ScaleKeepsOrder(a: real, b: real, k: real)
    requires k > 0.0
    ensures k * a > k * b <==> a > b
  {
    assert k * a - k * b == k * (a - b);
    if a > b { assert k * (a - b) > 0.0; } else { assert k * (b - a) >= 0.0; }
  }

  /** The facing picks the dominant axis and that axis's sign. */
  lemma FacingMeaning(x: real, y: real)
    ensures Facing(x, y) == Right <==> (x > 0.0 && Abs(x) > Abs(y))
    ensures Facing(x, y) == Left <==> (x <= 0.0 && Abs(x) > Abs(y))
    ensures Facing(x, y) == Down <==> (Abs(x) <= Abs(y) && y > 0.0)
    ensures Facing(x, y) == Up <==> (Abs(x) <= Abs(y) && y <= 0.0)
  {
  }

  /**
   * Whether a target at squared distance `d` is within reach of `limit`:
   * strictly inside for the combatants (`distance < vision_radius`), on the
   * circle included for the player (`distance <= max_distance`).
   */
  predicate InReach(d: nat, limit: nat, inclusive: bool)
  {
    if inclusive then d <= limit * limit else d < limit * limit
  }

  /**
   * Candidate `k` is the one the nearest-target scan picks: in reach, no
   * farther than any candidate in reach, and strictly nearer than every
   * earlier candidate.
   */
  predicate IsClosest(me: Point, cands: seq<Point>, limit: nat, inclusive: bool, k: nat)
  {
    && k < |cands| && InReach(DistSq(me, cands[k]), limit, inclusive)
    && (forall j :: 0 <= j < |cands| && InReach(DistSq(me, cands[j]), limit, inclusive) ==>
          DistSq(me, cands[k]) <= DistSq(me, cands[j]))
    && (forall j :: 0 <= j < k ==> DistSq(me, cands[k]) < DistSq(me, cands[j]))
  }

  /** At most one candidate is the scan's pick. */
  lemma ClosestIsUnique(me: Point, cands: seq<Point>, limit: nat, inclusive: bool, k: nat, l: nat)
    requires IsClosest(me, cands, limit, inclusive, k) && IsClosest(me, cands, limit, inclusive, l)
    ensures k == l
  {
  }

  /**
   * The nearest-target scan every `find_closest_enemy` runs: candidates are
   * visited in order and one replaces the running best only when strictly
   * nearer, so the first of several equally near candidates wins.
   */
  method ClosestIndex(me: Point, cands: seq<Point>, limit: nat, inclusive: bool) returns (best: Option<nat>)
    ensures best.None? <==> forall k :: 0 <= k < |cands| ==> !InReach(DistSq(me, cands[k]), limit, inclusive)
    ensures best.Some? ==> best.value < |cands| && InReach(DistSq(me, cands[best.value]), limit, inclusive)
    ensures best.Some? ==> forall k :: 0 <= k < |cands| && InReach(DistSq(me, cands[k]), limit, inclusive) ==>
      DistSq(me, cands[best.value]) <= DistSq(me, cands[k])
    ensures best.Some? ==> forall k :: 0 <= k < best.value ==> DistSq(me, cands[best.value]) < DistSq(me, cands[k])
    ensures best.Some? ==> IsClosest(me, cands, limit, inclusive, best.value)
  {
    best := None;
    var i := 0;
    while i < |cands|
      invariant 0 <= i <= |cands|
      invariant best.None? <==> forall k :: 0 <= k < i ==> !InReach(DistSq(me, cands[k]), limit, inclusive)
      invariant best.Some? ==> best.value < i && InReach(DistSq(me, cands[best.value]), limit, inclusive)
      invariant best.Some? ==> forall k :: 0 <= k < i && InReach(DistSq(me, cands[k]), limit, inclusive) ==>
        DistSq(me, cands[best.value]) <= DistSq(me, cands[k])
      invariant best.Some? ==> forall k :: 0 <= k < best.value ==> DistSq(me, cands[best.value]) < DistSq(me, cands[k])
    {
      var d := DistSq(me, cands[i]);
      if InReach(d, limit, inclusive) && (best.None? || d < DistSq(me, cands[best.value])) {
        best := Some(i);
      }
      i := i + 1;
    }
  }
}

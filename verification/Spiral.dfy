/** The order in which chunks are sent: a square spiral around the centre, driven by a leg counter. */
module Spiral {
  import opened Prelude

  datatype Point = Point(x: int, y: int)

  datatype Direction = Right | Up | Left | Down {
    function Turn(): Direction {
      match this
      case Right => Up
      case Up => Left
      case Left => Down
      case Down => Right
    }
  }

  function Abs(n: int): nat { if n < 0 then -n else n }

  // The ring of an offset from the centre: its Chebyshev distance.
  function Ring(p: Point): (k: int)
    ensures k >= 0
  {
    Max(Abs(p.x), Abs(p.y))
  }

  // ---- The place of an offset in the spiral, in closed form ---------------------------------

  function Square(n: int): int { n * n }

  // Ring k > 0 is entered at (k, k - 1) and left at (k, k).
  function PlaceInRing(p: Point): int {
    var k := Ring(p);
    if k == 0 then 0
    else if p.x == k && p.y < k then k - 1 - p.y
    else if p.y == -k then 3 * k - 1 - p.x
    else if p.x == -k then 5 * k - 1 + p.y
    else 7 * k - 1 + p.x
  }

  // The points inside ring k number (2k - 1)^2.
  function Rank(p: Point): int {
    (if Ring(p) == 0 then 0 else Square(2 * Ring(p) - 1)) + PlaceInRing(p)
  }

  lemma SquareStep(k: nat)
    ensures Square(2 * k + 1) == (if k == 0 then 1 else Square(2 * k - 1) + 8 * k)
  {
  }

  lemma SquareMonotone(a: nat, b: nat)
    requires a <= b
    ensures Square(a) <= Square(b)
  {
  }

  // A ring occupies one block of consecutive ranks.
  lemma RankInRing(p: Point)
    ensures 0 <= PlaceInRing(p) < (if Ring(p) == 0 then 1 else 8 * Ring(p))
    ensures 0 <= Rank(p) < Square(2 * Ring(p) + 1)
    ensures Ring(p) > 0 ==> Square(2 * Ring(p) - 1) <= Rank(p)
  {
    SquareStep(Ring(p));
    assert Ring(p) > 0 ==> Square(2 * Ring(p) - 1) >= 0;
  }

  // Ranks below (2r + 1)^2 are exactly those of the points within distance r.
  lemma RankWithin(p: Point, r: nat)
    ensures Rank(p) < Square(2 * r + 1) <==> Ring(p) <= r
  {
    RankInRing(p);
    if Ring(p) <= r {
      SquareMonotone(2 * Ring(p) + 1, 2 * r + 1);
    } else {
      SquareMonotone(2 * r + 1, 2 * Ring(p) - 1);
    }
  }

  // No two points share a rank.
  lemma RankIsInjective(p: Point, q: Point)
    requires Rank(p) == Rank(q)
    ensures p == q
  {
    RankWithin(p, Ring(q));
    RankWithin(q, Ring(p));
    RankInRing(p);
    RankInRing(q);
    assert Ring(p) == Ring(q) && PlaceInRing(p) == PlaceInRing(q);
  }

  // ---- The iterator -------------------------------------------------------------------------

  predicate IsI32(n: int) { I32_MIN <= n <= I32_MAX }

  // The leg the spiral is on at offset p, and the steps left in it.
  datatype Leg = Leg(direction: Direction, length: int, remaining: int, growNext: bool)

  function LegAt(p: Point): Leg {
    var k := Ring(p);
    if p.y == k then Leg(Right, 2 * k + 1, k + 1 - p.x, false)
    else if p.x == k && p.y > -k then Leg(Up, 2 * k - 1, p.y + k, true)
    else if p.y == -k && p.x > -k then Leg(Left, 2 * k, p.x + k, false)
    else Leg(Down, 2 * k, k - p.y, true)
  }

  function Move(p: Point, direction: Direction): Point {
    match direction
    case Right => p.(x := p.x + 1)
    case Up => p.(y := p.y - 1)
    case Left => p.(x := p.x - 1)
    case Down => p.(y := p.y + 1)
  }

  // The leg after one more step.
  function Advance(l: Leg): Leg {
    if l.remaining == 1 then
      var length := if l.growNext then l.length + 1 else l.length;
      Leg(l.direction.Turn(), length, length, !l.growNext)
    else l.(remaining := l.remaining - 1)
  }

  function Successor(p: Point): Point { Move(p, LegAt(p).direction) }

  // A step stays in the ring, except from its last corner.
  lemma MoveRing(p: Point)
    ensures var k, q := Ring(p), Successor(p);
            if p == Point(k, k) then q == Point(k + 1, k) && Ring(q) == k + 1 else Ring(q) == k
  {
  }

  lemma MoveLeg(p: Point)
    ensures LegAt(Successor(p)) == Advance(LegAt(p))
  {
    MoveRing(p);
  }

  lemma MovePlace(p: Point)
    ensures if p == Point(Ring(p), Ring(p))
            then PlaceInRing(Successor(p)) == 0
                 && PlaceInRing(p) == (if Ring(p) == 0 then 0 else 8 * Ring(p) - 1)
            else PlaceInRing(Successor(p)) == PlaceInRing(p) + 1
  {
    MoveRing(p);
  }

  // Moving along the leg leads to the next rank.
  lemma MoveRank(p: Point)
    ensures Rank(Successor(p)) == Rank(p) + 1
  {
    MoveRing(p);
    MovePlace(p);
    SquareStep(Ring(p));
  }

  class SpiralIterator {
    const centerX: int
    const centerY: int
    var currentX: int
    var currentY: int
    var direction: Direction
    var legLength: int
    var stepsRemainingInLeg: int
    var growNextLeg: bool
    const maxRadius: int

    ghost function Offset(): Point
      reads this
    {
      Point(currentX - centerX, currentY - centerY)
    }

    // The five counters always describe the current offset; no value leaves the 32-bit range.
    ghost predicate Valid()
      reads this
    {
      && Leg(direction, legLength, stepsRemainingInLeg, growNextLeg) == LegAt(Offset())
      && FitsI32(centerX, centerY, maxRadius)
      && Ring(Offset()) <= Max(maxRadius, -1) + 1
      && (Ring(Offset()) > maxRadius && maxRadius >= 0 ==> Offset() == Point(maxRadius + 1, maxRadius))
    }

    constructor (centerX: int, centerY: int, maxRadius: int)
      requires FitsI32(centerX, centerY, maxRadius)
      ensures Valid() && Offset() == Point(0, 0)
      ensures this.centerX == centerX && this.centerY == centerY && this.maxRadius == maxRadius
    {
      this.centerX, this.centerY := centerX, centerY;
      currentX, currentY := centerX, centerY;
      direction := Right;
      legLength, stepsRemainingInLeg, growNextLeg := 1, 1, false;
      this.maxRadius := maxRadius;
    }

    // No counter ever leaves the 32-bit range.
    lemma CountersAreI32()
      requires Valid()
      ensures IsI32(currentX) && IsI32(currentY) && IsI32(legLength) && IsI32(stepsRemainingInLeg)
    {
    }

    method Next() returns (result: Option<Point>)
      requires Valid()
      modifies this
      ensures Valid()
      ensures if old(Ring(Offset())) > maxRadius then
                result == None && unchanged(this)
              else
                && result == Some(Point(old(currentX), old(currentY)))
                && Offset() == Successor(old(Offset())) && Rank(Offset()) == old(Rank(Offset())) + 1
    {
      var distanceX := Abs(currentX - centerX);
      var distanceY := Abs(currentY - centerY);
      if Max(distanceX, distanceY) > maxRadius {
        return None;
      }
      hide Rank, PlaceInRing;
      ghost var before := Offset();
      MoveRing(before);
      MoveLeg(before);
      MoveRank(before);
      result := Some(Point(currentX, currentY));
      match direction {
        case Right => currentX := currentX + 1;
        case Up => currentY := currentY - 1;
        case Left => currentX := currentX - 1;
        case Down => currentY := currentY + 1;
      }
      stepsRemainingInLeg := stepsRemainingInLeg - 1;
      if stepsRemainingInLeg == 0 {
        direction := direction.Turn();
        if growNextLeg {
          legLength := legLength + 1;
        }
        growNextLeg := !growNextLeg;
        stepsRemainingInLeg := legLength;
      }
      assert Offset() == Successor(before);
      assert Leg(direction, legLength, stepsRemainingInLeg, growNextLeg) == Advance(LegAt(before));
    }
  }

  // The square of radius r around the centre, and the one step beyond it, stay in 32-bit range.
  predicate FitsI32(x: int, y: int, r: int) {
    && IsI32(x) && IsI32(y)
    && (r >= 0 ==> IsI32(x - r) && IsI32(x + r + 1) && IsI32(y - r) && IsI32(y + r) && IsI32(2 * r + 1))
  }

  // ---- The enumeration ----------------------------------------------------------------------

  function Relative(p: Point, x: int, y: int): Point { Point(p.x - x, p.y - y) }

  predicate InSquare(p: Point, x: int, y: int, r: int) {
    x - r <= p.x <= x + r && y - r <= p.y <= y + r
  }

  // Every point of the square once, none outside, nearer rings first.
  ghost predicate Enumerates(points: seq<Point>, x: int, y: int, r: int) {
    && |points| == (if r < 0 then 0 else (2 * r + 1) * (2 * r + 1))
    && (forall i :: 0 <= i < |points| ==> InSquare(points[i], x, y, r))
    && (forall p :: InSquare(p, x, y, r) ==> p in points)
    && (forall i, j :: 0 <= i < j < |points| ==> points[i] != points[j])
    && (forall i, j :: 0 <= i < j < |points| ==> Ring(Relative(points[i], x, y)) <= Ring(Relative(points[j], x, y)))
  }

  ghost predicate RankedFrom(points: seq<Point>, x: int, y: int) {
    forall i :: 0 <= i < |points| ==> Rank(Relative(points[i], x, y)) == i
  }

  lemma RankedEnumerates(points: seq<Point>, x: int, y: int, r: int)
    requires RankedFrom(points, x, y) && |points| == if r < 0 then 0 else Square(2 * r + 1)
    ensures Enumerates(points, x, y, r)
  {
    forall i | 0 <= i < |points|
      ensures InSquare(points[i], x, y, r)
    {
      RankWithin(Relative(points[i], x, y), r);
    }
    forall p | InSquare(p, x, y, r)
      ensures p in points
    {
      var q := Relative(p, x, y);
      RankWithin(q, r);
      RankInRing(q);
      RankIsInjective(q, Relative(points[Rank(q)], x, y));
      assert points[Rank(q)] == p;
    }
    forall i, j | 0 <= i < j < |points|
      ensures points[i] != points[j] && Ring(Relative(points[i], x, y)) <= Ring(Relative(points[j], x, y))
    {
      RankWithin(Relative(points[i], x, y), Ring(Relative(points[j], x, y)));
      RankWithin(Relative(points[j], x, y), Ring(Relative(points[j], x, y)));
    }
  }

  lemma AppendRanked(points: seq<Point>, p: Point, x: int, y: int)
    requires RankedFrom(points, x, y) && Rank(Relative(p, x, y)) == |points|
    ensures RankedFrom(points + [p], x, y)
  {
  }

  // The number of points of the square.
  function Area(r: int): nat { if r < 0 then 0 else Square(2 * r + 1) }

  lemma InsideArea(p: Point, r: int)
    ensures 0 <= Rank(p) && (Rank(p) < Area(r) <==> Ring(p) <= r)
  {
    RankInRing(p);
    if r >= 0 {
      RankWithin(p, r);
    }
  }

  // Draining the iterator yields the whole square; from then on it stays exhausted.
  method Drain(it: SpiralIterator) returns (points: seq<Point>)
    requires it.Valid() && it.Offset() == Point(0, 0)
    modifies it
    ensures Enumerates(points, it.centerX, it.centerY, it.maxRadius)
    ensures it.Valid() && Ring(it.Offset()) > it.maxRadius
  {
    points := [];
    var exhausted := false;
    while !exhausted
      invariant it.Valid() && Rank(it.Offset()) == |points| <= Area(it.maxRadius)
      invariant RankedFrom(points, it.centerX, it.centerY)
      invariant exhausted ==> Ring(it.Offset()) > it.maxRadius
      decreases Area(it.maxRadius) - |points|, !exhausted
    {
      InsideArea(it.Offset(), it.maxRadius);
      var next := it.Next();
      match next
      case None => exhausted := true;
      case Some(p) =>
        AppendRanked(points, p, it.centerX, it.centerY);
        points := points + [p];
    }
    InsideArea(it.Offset(), it.maxRadius);
    RankedEnumerates(points, it.centerX, it.centerY, it.maxRadius);
  }
}

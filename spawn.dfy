/**
 * Where a new level puts the rocket: `getRandomRocketPosition` draws
 * uniform points in the lower-left quarter of the view until one lies at
 * least 150 points from the planet's centre. The random draws are inputs:
 * each is a pair of fractions in [0, 1) that `CGPoint.random` scales into
 * its rectangle, and a finite sequence of them stands for the draws the
 * recursion makes.
 */
module Spawn {
  import opened Optional
  import opened Geometry

  const MinX := -480.0
  const MaxX := 0.0
  const MinY := -320.0
  const MaxY := 0.0
  /** No rocket spawns closer than this to the planet's centre. */
  const ExclusionRadius := 150.0

  /** One call of `CGPoint.random`: the fractions of the two `CGFloat.random(in:)` draws. */
  datatype UnitDraw = UnitDraw(u: real, v: real)

  predicate IsUnitDraw(draw: UnitDraw) {
    0.0 <= draw.u < 1.0 && 0.0 <= draw.v < 1.0
  }

  predicate AllUnitDraws(draws: seq<UnitDraw>) {
    forall i | 0 <= i < |draws| :: IsUnitDraw(draws[i])
  }

  /** `fraction` of the way across an interval of the given length. */
  function ScaledFraction(fraction: real, length: real): (offset: real)
    requires 0.0 <= fraction < 1.0 && length > 0.0
    ensures 0.0 <= offset < length
  {
    fraction * length
  }

  /** `CGPoint.random(minX:maxX:minY:maxY:)`: a point of the half-open rectangle. */
  function RandomPoint(minX: real, maxX: real, minY: real, maxY: real, draw: UnitDraw): (p: Point)
    requires minX < maxX && minY < maxY
    requires IsUnitDraw(draw)
    ensures minX <= p.x < maxX
    ensures minY <= p.y < maxY
  {
    var width, height := maxX - minX, maxY - minY;
    var randomX, randomY := ScaledFraction(draw.u, width), ScaledFraction(draw.v, height);
    Point(minX + randomX, minY + randomY)
  }

  /** The point one draw gives inside the spawn rectangle. */
  function Candidate(draw: UnitDraw): (p: Point)
    requires IsUnitDraw(draw)
    ensures InSpawnArea(p)
  {
    RandomPoint(MinX, MaxX, MinY, MaxY, draw)
  }

  /** The rejection test of the sampler: `pow(x, 2) + pow(y, 2) < pow(150, 2)`. */
  predicate TooClose(p: Point) {
    p.x * p.x + p.y * p.y < ExclusionRadius * ExclusionRadius
  }

  predicate InSpawnArea(p: Point) {
    MinX <= p.x < MaxX && MinY <= p.y < MaxY
  }

  /**
   * `getRandomRocketPosition`: the first candidate that is not too close.
   * The source recurses until it finds one; here the recursion ends with
   * `None` when the given draws run out.
   */
  function RandomRocketPosition(draws: seq<UnitDraw>): (r: Option<Point>)
    requires AllUnitDraws(draws)
    ensures r.Some? ==> InSpawnArea(r.value) && !TooClose(r.value)
    ensures r.Some? <==> exists i | 0 <= i < |draws| :: !TooClose(Candidate(draws[i]))
    decreases |draws|
  {
    if draws == [] then None
    else
      var random := Candidate(draws[0]);
      if TooClose(random) then
        var rest := RandomRocketPosition(draws[1..]);
        assert forall i | 1 <= i < |draws| :: draws[i] == draws[1..][i - 1];
        rest
      else
        Some(random)
  }

  /** The sampler's test measures the squared distance from the planet's centre. */
  lemma TooCloseIsNearPlanet(p: Point)
    ensures TooClose(p) <==> SquaredDistance(p, Origin) < ExclusionRadius * ExclusionRadius
  {
  }

  /** The position returned is the first draw's candidate that the test accepts. */
  lemma {:induction false} RandomRocketPositionIsFirstAccepted(draws: seq<UnitDraw>)
    requires AllUnitDraws(draws)
    ensures RandomRocketPosition(draws).Some? ==>
      exists k | 0 <= k < |draws| ::
        && RandomRocketPosition(draws).value == Candidate(draws[k])
        && forall j | 0 <= j < k :: TooClose(Candidate(draws[j]))
  {
    if draws != [] && TooClose(Candidate(draws[0])) {
      RandomRocketPositionIsFirstAccepted(draws[1..]);
      if RandomRocketPosition(draws[1..]).Some? {
        var k :| 0 <= k < |draws[1..]|
          && RandomRocketPosition(draws[1..]).value == Candidate(draws[1..][k])
          && forall j | 0 <= j < k :: TooClose(Candidate(draws[1..][j]));
        assert forall j | 1 <= j < k + 1 :: draws[j] == draws[1..][j - 1];
        assert RandomRocketPosition(draws).value == Candidate(draws[k + 1]);
      }
    }
  }

  /** A spawned rocket is at least the exclusion radius away from the planet's centre. */
  lemma RocketSpawnAvoidsPlanet(draws: seq<UnitDraw>)
    requires AllUnitDraws(draws)
    requires RandomRocketPosition(draws).Some?
    ensures SquaredDistance(RandomRocketPosition(draws).value, Origin) >= ExclusionRadius * ExclusionRadius
    ensures RandomRocketPosition(draws).value.x != 0.0 && RandomRocketPosition(draws).value.y != 0.0
  {
  }
}

/** The scoring half of the advanced predictor: the five-factor risk
    assessment and the location-based parameter estimate. */
module RiskAssessment {
  import opened Wrappers
  import opened Geo
  import opened Reals
  import opened ReferenceData
  import opened Geology
  import opened Blend
  import opened Levels

  // ---------------------------------------------------------------------
  // Risk factors, shared with the integrated system
  // ---------------------------------------------------------------------

  /** `max(0, (radius - d) / radius)`; an absent distance is Python's
      infinity, which makes the factor 0. */
  function Proximity(d: Option<real>, radius: real): (f: real)
    requires radius > 0.0
    ensures f >= 0.0
    ensures d.Some? && d.value >= 0.0 ==> f <= 1.0
    ensures f == 0.0 <==> d.None? || d.value >= radius
  {
    match d
    case None => 0.0
    case Some(x) => Max(0.0, (radius - x) / radius)
  }

  /** `min(1, x / scale)`. */
  function Capped(x: real, scale: real): (f: real)
    requires scale > 0.0
    ensures f <= 1.0
    ensures x >= 0.0 ==> f >= 0.0
    ensures f == 1.0 <==> x >= scale
  {
    Min(1.0, x / scale)
  }

  /** Shallow quakes score high: `max(0, (50 - depth) / 50)`. */
  function DepthFactor(depth: real): (f: real)
    ensures f >= 0.0
    ensures depth >= 0.0 ==> f <= 1.0
    ensures f == 0.0 <==> depth >= 50.0
  {
    Max(0.0, (50.0 - depth) / 50.0)
  }

  /** The unclamped `magnitude / 10`. */
  function MagnitudeFactor(magnitude: real): (f: real)
    ensures 0.0 <= magnitude <= 10.0 ==> 0.0 <= f <= 1.0
    ensures f > 1.0 <==> magnitude > 10.0
  {
    magnitude / 10.0
  }

  /** Distance of a boundary hit, absent for the empty-table result. */
  function HitDistance(hit: BoundaryHit): (d: Option<real>)
    ensures d.None? <==> hit.NoBoundary?
  {
    if hit.Hit? then Some(hit.distance) else None
  }

  // ---------------------------------------------------------------------
  // Five-factor assessment
  // ---------------------------------------------------------------------

  /** Magnitude, shallow depth, boundary proximity, tectonic stress and
      volcanic activity, in this order. */
  function BasicFactors(magnitude: real, depth: real, plateDistance: Option<real>, stress: real, volcanicRisk: real): (fs: seq<real>)
    ensures |fs| == 5
    ensures fs[0] == MagnitudeFactor(magnitude) && fs[1] == DepthFactor(depth)
    ensures fs[2] == Proximity(plateDistance, 500.0)
    ensures fs[3] == Capped(stress, 50.0) && fs[4] == Capped(volcanicRisk, 5.0)
    ensures (&& 0.0 <= magnitude <= 10.0 && depth >= 0.0
             && (plateDistance.Some? ==> plateDistance.value >= 0.0)
             && stress >= 0.0 && volcanicRisk >= 0.0)
            ==> AllInUnit(fs)
  {
    [ MagnitudeFactor(magnitude),
      DepthFactor(depth),
      Proximity(plateDistance, 500.0),
      Capped(stress, 50.0),
      Capped(volcanicRisk, 5.0) ]
  }

  datatype Assessment = Assessment(score: real, level: RiskLevel, factors: seq<real>)

  /** Risk at `q` as the plain mean of the five factors, labelled on the
      0.3 / 0.5 / 0.7 scale. */
  function EnhancedRiskAssessment(
    plates: seq<TectonicPlate>, volcanoes: seq<Volcano>, q: Point,
    magnitude: real, depth: real, dist: Distance): (r: Assessment)
    ensures |r.factors| == 5 && r.score == Mean(r.factors)
    ensures r.factors == BasicFactors(magnitude, depth, HitDistance(NearestBoundary(plates, q, dist)),
                                      PredictPlateMovement(plates, q, dist).stress,
                                      VolcanicInfluence(volcanoes, q, dist).risk)
    ensures r.level == BasicLevel(r.score) && r.level != Extreme
  {
    var movement := PredictPlateMovement(plates, q, dist);
    var hit := NearestBoundary(plates, q, dist);
    var influence := VolcanicInfluence(volcanoes, q, dist);
    var fs := BasicFactors(magnitude, depth, HitDistance(hit), movement.stress, influence.risk);
    var score := Mean(fs);
    Assessment(score, BasicLevel(score), fs)
  }

  /** With a magnitude in [0, 10] and a non-negative depth every factor lies
      in [0, 1], and so does the score. */
  lemma EnhancedRiskInUnitInterval(
    plates: seq<TectonicPlate>, volcanoes: seq<Volcano>, q: Point,
    magnitude: real, depth: real, dist: Distance)
    requires PlatesWellFormed(plates)
    requires 0.0 <= magnitude <= 10.0 && depth >= 0.0
    ensures 0.0 <= EnhancedRiskAssessment(plates, volcanoes, q, magnitude, depth, dist).score <= 1.0
  {
    VolcanicInfluenceNonNegative(volcanoes, q, dist);
    var hit := NearestBoundary(plates, q, dist);
    var fs := EnhancedRiskAssessment(plates, volcanoes, q, magnitude, depth, dist).factors;
    assert fs == BasicFactors(magnitude, depth, HitDistance(hit),
                              PredictPlateMovement(plates, q, dist).stress,
                              VolcanicInfluence(volcanoes, q, dist).risk);
    MeanOfUnitValues(fs);
  }

  /** The magnitude factor is not clamped: above magnitude 50 the score
      leaves [0, 1] whatever the other factors are. */
  lemma LargeMagnitudeExceedsUnitInterval(
    plates: seq<TectonicPlate>, volcanoes: seq<Volcano>, q: Point,
    magnitude: real, depth: real, dist: Distance)
    requires PlatesWellFormed(plates)
    requires magnitude > 50.0
    ensures EnhancedRiskAssessment(plates, volcanoes, q, magnitude, depth, dist).score > 1.0
  {
    VolcanicInfluenceNonNegative(volcanoes, q, dist);
    var r := EnhancedRiskAssessment(plates, volcanoes, q, magnitude, depth, dist);
    var fs := r.factors;
    assert fs[0] > 5.0;
    assert fs[1] >= 0.0 && fs[2] >= 0.0 && fs[3] >= 0.0 && fs[4] >= 0.0;
    SumBoundsEachTerm(fs, 0);
  }

  // ---------------------------------------------------------------------
  // Parameter estimate
  // ---------------------------------------------------------------------

  /** Magnitude before the volcanic bump: banded by boundary distance
      (below 100 km, below 300 km, farther or no boundary). */
  function BaseMagnitude(plateDistance: Option<real>, activity: real): (m: real)
    ensures 0.0 <= activity <= 1.0 ==>
      && (Band(plateDistance) == 0 ==> 6.5 <= m <= 8.0)
      && (Band(plateDistance) == 1 ==> 5.5 <= m <= 6.5)
      && (Band(plateDistance) == 2 ==> 4.5 <= m <= 5.0)
  {
    if plateDistance.Some? && plateDistance.value < 100.0 then 6.5 + activity * 1.5
    else if plateDistance.Some? && plateDistance.value < 300.0 then 5.5 + activity * 1.0
    else 4.5 + activity * 0.5
  }

  /** Which of the three bands a boundary distance falls in. */
  function Band(plateDistance: Option<real>): nat {
    if plateDistance.Some? && plateDistance.value < 100.0 then 0
    else if plateDistance.Some? && plateDistance.value < 300.0 then 1
    else 2
  }

  /** The base magnitude depends on the distance only through its band. */
  lemma BaseMagnitudeDependsOnBand(d1: Option<real>, d2: Option<real>, activity: real)
    requires Band(d1) == Band(d2)
    ensures BaseMagnitude(d1, activity) == BaseMagnitude(d2, activity)
  {
  }

  /** For an activity in [0, 1], a nearer boundary never lowers the base
      magnitude. */
  lemma BaseMagnitudeAntitone(d1: real, d2: real, activity: real)
    requires d1 <= d2 && 0.0 <= activity <= 1.0
    ensures BaseMagnitude(Some(d1), activity) >= BaseMagnitude(Some(d2), activity)
    ensures BaseMagnitude(Some(d2), activity) >= BaseMagnitude(None, activity)
  {
  }

  /** `0.3 * min(active_nearby, 3)` when any active volcano is in range. */
  function VolcanicBump(activeNearby: nat): (b: real)
    ensures 0.0 <= b <= 0.9
    ensures b == 0.0 <==> activeNearby == 0
    ensures activeNearby >= 3 ==> b == 0.9
  {
    if activeNearby > 0 then 0.3 * (if activeNearby < 3 then activeNearby else 3) as real else 0.0
  }

  /** `max(lo, min(hi, x))`. */
  function Clamp(x: real, lo: real, hi: real): (r: real)
    requires lo <= hi
    ensures lo <= r <= hi
    ensures lo <= x <= hi ==> r == x
    ensures x < lo ==> r == lo
    ensures x > hi ==> r == hi
  {
    Max(lo, Min(hi, x))
  }

  /** Mean and spread of the normal distribution the depth is drawn from:
      deeper for convergent, moderate for transform, shallow otherwise. */
  function DepthDistribution(kind: Option<BoundaryKind>): (r: (real, real))
    ensures r.1 > 0.0
  {
    if kind == Some(Convergent) then (25.0, 10.0)
    else if kind == Some(Transform) then (15.0, 5.0)
    else (10.0, 5.0)
  }

  datatype LocationEstimate = LocationEstimate(
    magnitude: real,
    depth: real,
    plateDistance: Option<real>,
    plateName: Option<string>,
    kind: Option<BoundaryKind>,
    activeNearby: nat)

  /** Plausible quake parameters for `q`. The random depth draw is the
      parameter `normal(mean, spread)`. */
  function EstimateLocationParameters(
    plates: seq<TectonicPlate>, volcanoes: seq<Volcano>, q: Point,
    dist: Distance, normal: (real, real) -> real): (r: LocationEstimate)
    ensures 3.0 <= r.magnitude <= 8.5
    ensures 1.0 <= r.depth <= 100.0
    ensures
      var hit := NearestBoundary(plates, q, dist);
      var raw := BaseMagnitude(HitDistance(hit), if hit.Hit? then hit.activity else 0.0)
                 + VolcanicBump(VolcanicInfluence(volcanoes, q, dist).activeNearby);
      && (3.0 <= raw <= 8.5 ==> r.magnitude == raw)
      && r.magnitude == Clamp(raw, 3.0, 8.5)
    ensures
      var hit := NearestBoundary(plates, q, dist);
      var kind := if hit.Hit? then Some(hit.kind) else None;
      && r.kind == kind
      && r.plateName == (if hit.Hit? then Some(hit.plateName) else None)
      && r.depth == Clamp(normal(DepthDistribution(kind).0, DepthDistribution(kind).1), 1.0, 100.0)
    ensures r.plateDistance == HitDistance(NearestBoundary(plates, q, dist))
    ensures r.activeNearby == VolcanicInfluence(volcanoes, q, dist).activeNearby
  {
    var hit := NearestBoundary(plates, q, dist);
    var influence := VolcanicInfluence(volcanoes, q, dist);
    var activity := if hit.Hit? then hit.activity else 0.0;
    var base := BaseMagnitude(HitDistance(hit), activity) + VolcanicBump(influence.activeNearby);
    var kind := if hit.Hit? then Some(hit.kind) else None;
    var spread := DepthDistribution(kind);
    var depth := normal(spread.0, spread.1);
    LocationEstimate(
      Clamp(base, 3.0, 8.5),
      Clamp(depth, 1.0, 100.0),
      HitDistance(hit),
      if hit.Hit? then Some(hit.plateName) else None,
      kind,
      influence.activeNearby)
  }

  /** Near an active boundary with three active volcanoes in range the raw
      magnitude exceeds 8.5, so the estimate is capped there. */
  lemma EstimateMagnitudeSaturates(
    plates: seq<TectonicPlate>, volcanoes: seq<Volcano>, q: Point,
    dist: Distance, normal: (real, real) -> real)
    requires NearestBoundary(plates, q, dist).Hit?
    requires NearestBoundary(plates, q, dist).distance < 100.0
    requires NearestBoundary(plates, q, dist).activity == 1.0
    requires VolcanicInfluence(volcanoes, q, dist).activeNearby >= 3
    ensures EstimateLocationParameters(plates, volcanoes, q, dist, normal).magnitude == 8.5
  {
    var hit := NearestBoundary(plates, q, dist);
    assert BaseMagnitude(HitDistance(hit), hit.activity) == 8.0;
  }

  /** A convergent boundary with the draw landing past 100 km gives the
      deepest estimate, 100 km. */
  lemma EstimateDepthSaturates(
    plates: seq<TectonicPlate>, volcanoes: seq<Volcano>, q: Point,
    dist: Distance, normal: (real, real) -> real)
    requires NearestBoundary(plates, q, dist).Hit?
    requires NearestBoundary(plates, q, dist).kind == Convergent
    requires normal(25.0, 10.0) > 100.0
    ensures EstimateLocationParameters(plates, volcanoes, q, dist, normal).depth == 100.0
  {
  }
}

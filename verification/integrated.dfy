/** The integrated system: the dominant-plate feature added at training
    time and the seven-factor comprehensive risk analysis that combines the
    advanced predictor with the plate simulator. */
module IntegratedSystem {
  import opened Wrappers
  import opened Geo
  import opened Reals
  import opened Nearest
  import opened Blend
  import opened Levels
  import opened ReferenceData
  import opened Geology
  import opened RiskAssessment
  import Sorting
  import Sim = PlateSimulator

  // ---------------------------------------------------------------------
  // Dominant plate (training feature)
  // ---------------------------------------------------------------------

  /** Distances from `q` to each plate's current centre. */
  function CenterDistances(ms: seq<Sim.Movement>, q: Point, dist: Distance): (ds: seq<real>)
    ensures |ds| == |ms|
    ensures forall k :: 0 <= k < |ms| ==> ds[k] == dist(q, ms[k].current)
  {
    seq(|ms|, k requires 0 <= k < |ms| => dist(q, ms[k].current))
  }

  /** The per-sample plate feature: distance to and speed of the nearest
      plate centre, and the influence derived from them. With no plates the
      distance stays infinite (`None`) and the speed 0. */
  datatype Dominance = Dominance(plate: Option<nat>, distance: Option<real>, velocity: real, influence: real)

  /** `max(0, (3000 - d) / 3000) * (v / 1000)`. */
  function PlateInfluenceFactor(distance: Option<real>, velocity: real): (f: real)
    ensures velocity >= 0.0 && (distance.Some? ==> distance.value >= 0.0) ==> 0.0 <= f <= velocity / 1000.0
    ensures distance.None? || distance.value >= 3000.0 ==> f == 0.0
    ensures distance.Some? && 0.0 <= distance.value < 3000.0 && velocity > 0.0 ==> f > 0.0
  {
    var p := Proximity(distance, 3000.0);
    assert velocity >= 0.0 && (distance.Some? ==> distance.value >= 0.0) ==> p * (velocity / 1000.0) <= velocity / 1000.0 by {
      if velocity >= 0.0 && (distance.Some? ==> distance.value >= 0.0) {
        MultiplyMonotone(velocity / 1000.0, p, 1.0);
      }
    }
    p * (velocity / 1000.0)
  }

  /** The first plate at the smallest centre distance wins. */
  function DominantPlate(ms: seq<Sim.Movement>, q: Point, dist: Distance): (r: Dominance)
    ensures r.plate.None? <==> |ms| == 0
    ensures r.plate.None? ==> r.distance.None? && r.velocity == 0.0 && r.influence == 0.0
    ensures r.plate.Some? ==>
      && r.plate.value < |ms|
      && r.distance == Some(dist(q, ms[r.plate.value].current))
      && r.velocity == ms[r.plate.value].velocityCmYear
      && (forall k :: 0 <= k < |ms| ==> r.distance.value <= dist(q, ms[k].current))
      && (forall k :: 0 <= k < r.plate.value ==> dist(q, ms[k].current) > r.distance.value)
    ensures r.influence == PlateInfluenceFactor(r.distance, r.velocity)
  {
    var ds := CenterDistances(ms, q, dist);
    match FirstMin(ds)
    case None => Dominance(None, None, 0.0, PlateInfluenceFactor(None, 0.0))
    case Some(k) =>
      var d := Some(ds[k]);
      Dominance(Some(k), d, ms[k].velocityCmYear, PlateInfluenceFactor(d, ms[k].velocityCmYear))
  }

  /** A sample farther than 3000 km from every plate centre gets no plate
      influence, and one inside that radius of a moving plate gets some. */
  lemma DominantInfluenceRange(ms: seq<Sim.Movement>, q: Point, dist: Distance)
    requires |ms| > 0
    requires forall k :: 0 <= k < |ms| ==> ms[k].velocityCmYear > 0.0
    ensures (forall k :: 0 <= k < |ms| ==> dist(q, ms[k].current) >= 3000.0)
      <==> DominantPlate(ms, q, dist).influence == 0.0
  {
    var r := DominantPlate(ms, q, dist);
    if r.influence == 0.0 {
      assert r.distance.value >= 3000.0;
    }
  }

  // ---------------------------------------------------------------------
  // Collision and stress inputs
  // ---------------------------------------------------------------------

  /** Distances from `q` to each zone's estimated location. */
  function ZoneDistances(zs: seq<Sim.Zone>, q: Point, dist: Distance): (ds: seq<real>)
    ensures |ds| == |zs|
    ensures forall k :: 0 <= k < |zs| ==> ds[k] == dist(q, zs[k].location)
  {
    seq(|zs|, k requires 0 <= k < |zs| => dist(q, zs[k].location))
  }

  /** Index of the closest collision zone: the first zone at the smallest
      distance, absent when there are no zones. */
  function ClosestCollision(zs: seq<Sim.Zone>, q: Point, dist: Distance): (r: Option<nat>)
    ensures r.None? <==> |zs| == 0
    ensures r.Some? ==>
      && r.value < |zs|
      && (forall k :: 0 <= k < |zs| ==> dist(q, zs[r.value].location) <= dist(q, zs[k].location))
      && (forall k :: 0 <= k < r.value ==> dist(q, zs[k].location) > dist(q, zs[r.value].location))
  {
    FirstMin(ZoneDistances(zs, q, dist))
  }

  /** Distance to the closest collision zone; absent when there is none,
      which the collision factor treats like an infinite distance. */
  function ClosestCollisionDistance(zs: seq<Sim.Zone>, q: Point, dist: Distance): (d: Option<real>)
    ensures d.None? <==> |zs| == 0
    ensures d.Some? ==>
      && d.value >= 0.0
      && (exists k :: 0 <= k < |zs| && d.value == dist(q, zs[k].location))
      && (forall k :: 0 <= k < |zs| ==> d.value <= dist(q, zs[k].location))
  {
    match ClosestCollision(zs, q, dist)
    case None => None
    case Some(k) => Some(dist(q, zs[k].location))
  }

  /** A hotspot's contribution to the local stress: its stress scaled down
      linearly to 0 at 100 km. */
  function Attenuated(h: Sim.Hotspot, d: real): real {
    h.stress * (100.0 - d) / 100.0
  }

  /** Hotspot `k` lies within 100 km of `q` and attenuates to `s`. */
  ghost predicate Nearby(hs: seq<Sim.Hotspot>, q: Point, dist: Distance, k: nat, s: real)
    requires k < |hs|
  {
    dist(q, hs[k].location) < 100.0 && s == Attenuated(hs[k], dist(q, hs[k].location))
  }

  /** Running maximum of the attenuated stress of the first `n` hotspots
      within 100 km, starting from 0. */
  function LocalStressPrefix(hs: seq<Sim.Hotspot>, q: Point, dist: Distance, n: nat): (s: real)
    requires n <= |hs|
    ensures s >= 0.0
    ensures forall k :: 0 <= k < n && dist(q, hs[k].location) < 100.0 ==>
      s >= Attenuated(hs[k], dist(q, hs[k].location))
    ensures s == 0.0 || exists k :: 0 <= k < n && Nearby(hs, q, dist, k, s)
  {
    if n == 0 then 0.0
    else
      var prev := LocalStressPrefix(hs, q, dist, n - 1);
      var d := dist(q, hs[n - 1].location);
      if d < 100.0 then
        var s := Max(prev, Attenuated(hs[n - 1], d));
        assert s == Attenuated(hs[n - 1], d) ==> Nearby(hs, q, dist, n - 1, s);
        s
      else prev
  }

  /** Local stress at `q`: the strongest attenuated hotspot within 100 km,
      or 0. */
  function LocalStress(hs: seq<Sim.Hotspot>, q: Point, dist: Distance): (s: real)
    ensures s >= 0.0
    ensures forall k :: 0 <= k < |hs| && dist(q, hs[k].location) < 100.0 ==>
      s >= Attenuated(hs[k], dist(q, hs[k].location))
    ensures s == 0.0 || exists k :: 0 <= k < |hs| && Nearby(hs, q, dist, k, s)
  {
    LocalStressPrefix(hs, q, dist, |hs|)
  }

  /** With no hotspot within 100 km the local stress is 0. */
  lemma NoNearbyHotspotNoStress(hs: seq<Sim.Hotspot>, q: Point, dist: Distance)
    requires forall k :: 0 <= k < |hs| ==> dist(q, hs[k].location) >= 100.0
    ensures LocalStress(hs, q, dist) == 0.0
  {
  }

  /** With hotspot stresses in `[0, top]` the local stress stays in
      `[0, top]`: attenuation never amplifies. */
  lemma LocalStressAtMostTop(hs: seq<Sim.Hotspot>, q: Point, dist: Distance, top: real)
    requires top >= 0.0
    requires forall k :: 0 <= k < |hs| ==> 0.0 <= hs[k].stress <= top
    ensures LocalStress(hs, q, dist) <= top
  {
    var s := LocalStress(hs, q, dist);
    if s != 0.0 {
      var k :| 0 <= k < |hs| && Nearby(hs, q, dist, k, s);
      AttenuationBounded(hs[k], dist(q, hs[k].location), top);
    }
  }

  lemma AttenuationBounded(h: Sim.Hotspot, d: real, top: real)
    requires 0.0 <= h.stress <= top && 0.0 <= d < 100.0
    ensures Attenuated(h, d) <= top
  {
    var scale := (100.0 - d) / 100.0;
    assert Attenuated(h, d) == h.stress * scale;
    MultiplyMonotone(h.stress, scale, 1.0);
  }

  // ---------------------------------------------------------------------
  // Seven-factor score
  // ---------------------------------------------------------------------

  /** Weights of magnitude, depth, boundary proximity, tectonic stress,
      volcanic activity, collision proximity and stress accumulation. */
  function Weights(): (ws: seq<real>)
    ensures |ws| == 7 && AllNonNegative(ws)
  {
    [0.25, 0.15, 0.20, 0.15, 0.10, 0.10, 0.05]
  }

  /** The weights form a convex combination. */
  lemma WeightsSumToOne()
    ensures Sum(Weights()) == 1.0
  {
    var ws := Weights();
    assert ws[..0] == [] && ws[..7] == ws;
    SumStep(ws, 0);
    SumStep(ws, 1);
    SumStep(ws, 2);
    SumStep(ws, 3);
    SumStep(ws, 4);
    SumStep(ws, 5);
    SumStep(ws, 6);
  }

  /** The seven factors, in the order of `Weights()`. */
  function IntegratedFactors(
    magnitude: real, depth: real, plateDistance: Option<real>, stress: real,
    volcanicRisk: real, collisionDistance: Option<real>, localStress: real): (fs: seq<real>)
    ensures |fs| == 7
    ensures fs[..5] == BasicFactors(magnitude, depth, plateDistance, stress, volcanicRisk)
    ensures fs[0] == MagnitudeFactor(magnitude) && fs[1] == DepthFactor(depth)
    ensures fs[5] == 0.0 <==> collisionDistance.None? || collisionDistance.value >= 1000.0
    ensures fs[5] == Proximity(collisionDistance, 1000.0) && fs[6] == Capped(localStress, 100.0)
    ensures (&& 0.0 <= magnitude <= 10.0 && depth >= 0.0
             && (plateDistance.Some? ==> plateDistance.value >= 0.0)
             && (collisionDistance.Some? ==> collisionDistance.value >= 0.0)
             && stress >= 0.0 && volcanicRisk >= 0.0 && localStress >= 0.0)
            ==> AllInUnit(fs)
  {
    var basic := BasicFactors(magnitude, depth, plateDistance, stress, volcanicRisk);
    assert basic[0] == MagnitudeFactor(magnitude) && basic[1] == DepthFactor(depth);
    basic + [Proximity(collisionDistance, 1000.0), Capped(localStress, 100.0)]
  }

  /** The fixed data-quality ratings whose mean is the confidence score. */
  function DataQuality(): seq<real> {
    [0.85, 0.80, 0.75, 0.70]
  }

  /** The confidence is the same for every query: 0.775, labelled MODERATE. */
  function ConfidenceScore(): (c: real)
    ensures c == 0.775 && ConfidenceLevel(c) == Moderate
  {
    var qs := DataQuality();
    assert qs[..0] == [] && qs[..4] == qs;
    SumStep(qs, 0);
    SumStep(qs, 1);
    SumStep(qs, 2);
    SumStep(qs, 3);
    Mean(qs)
  }

  datatype Report = Report(
    riskScore: real,
    riskLevel: RiskLevel,
    confidenceScore: real,
    confidenceLevel: RiskLevel,
    factors: seq<real>,
    recommendation: string)

  /** Horizon of the collision and stress analysis, in years. */
  const AnalysisYears: real := 100.0
  /** Grid spacing of the stress analysis, in degrees. */
  const AnalysisResolution: int := 5
  /** Stress above which a grid cell is a hotspot. */
  const HotspotThreshold: real := 10.0

  /** The system's state: the predictor's boundary and volcano tables and
      the plate simulator. */
  datatype System = System(plates: seq<TectonicPlate>, volcanoes: seq<Volcano>, simulator: Sim.Simulator)

  /** A fresh system over the built-in tables. */
  function NewSystem(): (sys: System)
    ensures PlatesWellFormed(sys.plates)
    ensures |sys.volcanoes| == 78 && |sys.simulator.plates| == 4
  {
    BuiltinPlatesWellFormed();
    System(TectonicPlates(), Volcanoes(), Sim.NewSimulator())
  }

  /** The plate simulator's projection over the analysis horizon. */
  function Projected(sys: System, speed: Sim.Speed): seq<Sim.Movement> {
    Sim.SimulatePlateMovement(sys.simulator.plates, AnalysisYears, speed)
  }

  /** Hotspots of the grid computed from `ms`. */
  function AnalysisHotspots(sim: Sim.Simulator, ms: seq<Sim.Movement>, dist: Distance): (hs: seq<Sim.Hotspot>)
    ensures forall k :: 0 <= k < |hs| ==> hs[k].stress > HotspotThreshold
    ensures Sorting.SortedDesc(hs, Sim.StressOf)
    ensures
      var g := Sim.StressAccumulation(ms, AnalysisResolution, dist).value;
      forall i: nat, j: nat :: Sim.InGrid(g, i, j) && g.stress[i][j] > HotspotThreshold ==> Sim.HotspotAt(g, i, j) in hs
  {
    var withGrid := Sim.CalculateStressAccumulation(sim, ms, AnalysisResolution, dist);
    var hs := Sim.PredictSeismicHotspots(withGrid.value, HotspotThreshold).value;
    assert forall k :: 0 <= k < |hs| ==> hs[k] in hs;
    hs
  }

  /** What the analysis reads from the predictor and the simulator at `q`. */
  datatype Inputs = Inputs(
    boundaryDistance: Option<real>,
    tectonicStress: real,
    volcanicRisk: real,
    collisionDistance: Option<real>,
    localStress: real)

  ghost predicate InputsWellFormed(i: Inputs) {
    && (i.boundaryDistance.Some? ==> i.boundaryDistance.value >= 0.0)
    && i.tectonicStress >= 0.0
    && i.volcanicRisk >= 0.0
    && (i.collisionDistance.Some? ==> i.collisionDistance.value >= 0.0)
    && i.localStress >= 0.0
  }

  /** Sections 1 to 4 of the analysis: nearest boundary and its stress,
      volcanic influence, the nearest collision zone after `AnalysisYears`,
      and the local stress on the grid built from the same projection. */
  function GatherInputs(sys: System, q: Point, dist: Distance, speed: Sim.Speed): (i: Inputs)
    ensures i.boundaryDistance == HitDistance(NearestBoundary(sys.plates, q, dist))
    ensures i.tectonicStress == PredictPlateMovement(sys.plates, q, dist).stress
    ensures i.volcanicRisk == VolcanicInfluence(sys.volcanoes, q, dist).risk
    ensures i.collisionDistance == ClosestCollisionDistance(Sim.DetectCollisionZones(Projected(sys, speed), dist), q, dist)
    ensures i.localStress == LocalStress(AnalysisHotspots(sys.simulator, Projected(sys, speed), dist), q, dist)
    ensures PlatesWellFormed(sys.plates) ==> InputsWellFormed(i)
  {
    VolcanicInfluenceNonNegative(sys.volcanoes, q, dist);
    var ms := Projected(sys, speed);
    Inputs(
      HitDistance(NearestBoundary(sys.plates, q, dist)),
      PredictPlateMovement(sys.plates, q, dist).stress,
      VolcanicInfluence(sys.volcanoes, q, dist).risk,
      ClosestCollisionDistance(Sim.DetectCollisionZones(ms, dist), q, dist),
      LocalStress(AnalysisHotspots(sys.simulator, ms, dist), q, dist))
  }

  /** The comprehensive analysis at `q`. An absent magnitude defaults to
      6.0 and an absent depth to 15.0. */
  function ComprehensiveRiskAnalysis(sys: System, q: Point, magnitude: Option<real>, depth: Option<real>,
                                     dist: Distance, speed: Sim.Speed): (r: Report)
    ensures |r.factors| == 7
    ensures r.riskScore == WeightedSum(r.factors, Weights())
    ensures r.riskLevel == IntegratedLevel(r.riskScore)
    ensures r.recommendation == Recommendation(r.riskLevel)
    ensures r.confidenceScore == 0.775 && r.confidenceLevel == Moderate
    ensures r.factors[0] == MagnitudeFactor(if magnitude.Some? then magnitude.value else 6.0)
    ensures r.factors[1] == DepthFactor(if depth.Some? then depth.value else 15.0)
    ensures
      var i := GatherInputs(sys, q, dist, speed);
      r.factors == IntegratedFactors(if magnitude.Some? then magnitude.value else 6.0,
                                     if depth.Some? then depth.value else 15.0,
                                     i.boundaryDistance, i.tectonicStress, i.volcanicRisk,
                                     i.collisionDistance, i.localStress)
  {
    var m := if magnitude.Some? then magnitude.value else 6.0;
    var d := if depth.Some? then depth.value else 15.0;
    var i := GatherInputs(sys, q, dist, speed);
    var fs := IntegratedFactors(m, d, i.boundaryDistance, i.tectonicStress, i.volcanicRisk,
                                i.collisionDistance, i.localStress);
    var score := WeightedSum(fs, Weights());
    var level := IntegratedLevel(score);
    var c := ConfidenceScore();
    Report(score, level, c, ConfidenceLevel(c), fs, Recommendation(level))
  }

  /** With a magnitude in [0, 10] and a non-negative depth (the defaults
      qualify) every factor lies in [0, 1], so the weighted score does. */
  lemma ComprehensiveRiskInUnitInterval(sys: System, q: Point, magnitude: Option<real>, depth: Option<real>,
                                        dist: Distance, speed: Sim.Speed)
    requires PlatesWellFormed(sys.plates)
    requires magnitude.Some? ==> 0.0 <= magnitude.value <= 10.0
    requires depth.Some? ==> depth.value >= 0.0
    ensures 0.0 <= ComprehensiveRiskAnalysis(sys, q, magnitude, depth, dist, speed).riskScore <= 1.0
  {
    var r := ComprehensiveRiskAnalysis(sys, q, magnitude, depth, dist, speed);
    var i := GatherInputs(sys, q, dist, speed);
    assert r.factors == IntegratedFactors(
      if magnitude.Some? then magnitude.value else 6.0,
      if depth.Some? then depth.value else 15.0,
      i.boundaryDistance, i.tectonicStress, i.volcanicRisk, i.collisionDistance, i.localStress);
    WeightsSumToOne();
    WeightedSumOfUnitValues(r.factors, Weights());
  }

  /** Unlike the five-factor mean, the seven-factor score reaches the
      EXTREME band: a shallow magnitude-10 event on a stressed boundary next
      to active volcanoes scores 0.85 with no collision or grid stress. */
  lemma ExtremeIsReachable()
    ensures IntegratedLevel(WeightedSum(IntegratedFactors(10.0, 0.0, Some(0.0), 50.0, 5.0, None, 0.0), Weights())) == Extreme
  {
    var fs := IntegratedFactors(10.0, 0.0, Some(0.0), 50.0, 5.0, None, 0.0);
    var ws := Weights();
    assert fs == [1.0, 1.0, 1.0, 1.0, 1.0, 0.0, 0.0];
    assert fs[..0] == [] && ws[..0] == [] && fs[..7] == fs && ws[..7] == ws;
    WeightedSumStep(fs, ws, 0);
    WeightedSumStep(fs, ws, 1);
    WeightedSumStep(fs, ws, 2);
    WeightedSumStep(fs, ws, 3);
    WeightedSumStep(fs, ws, 4);
    WeightedSumStep(fs, ws, 5);
    WeightedSumStep(fs, ws, 6);
    assert WeightedSum(fs, ws) == 0.85;
  }

  /** When no two simulated plates approach each other over the horizon
      there is no collision zone, and the collision factor is 0. */
  lemma NoApproachNoCollisionFactor(sys: System, q: Point, magnitude: Option<real>, depth: Option<real>,
                                    dist: Distance, speed: Sim.Speed)
    requires forall i, j :: 0 <= i < j < |Projected(sys, speed)| ==> !Sim.Approaching(Projected(sys, speed), i, j, dist)
    ensures ComprehensiveRiskAnalysis(sys, q, magnitude, depth, dist, speed).factors[5] == 0.0
  {
    var zs := Sim.DetectCollisionZones(Projected(sys, speed), dist);
    // A listed zone would need an approaching pair, so none is listed.
    assert forall k :: 0 <= k < |zs| ==> zs[k] !in zs;
    assert GatherInputs(sys, q, dist, speed).collisionDistance.None?;
  }

  /** A collision zone of an approaching pair within 1000 km of `q` makes
      the collision factor positive. */
  lemma NearbyCollisionRaisesFactor(sys: System, q: Point, magnitude: Option<real>, depth: Option<real>,
                                    dist: Distance, speed: Sim.Speed, i: nat, j: nat)
    requires i < j < |Projected(sys, speed)| && Sim.Approaching(Projected(sys, speed), i, j, dist)
    requires dist(q, Sim.MakeZone(Projected(sys, speed), i, j, dist).location) < 1000.0
    ensures ComprehensiveRiskAnalysis(sys, q, magnitude, depth, dist, speed).factors[5] > 0.0
  {
    var ms := Projected(sys, speed);
    var zs := Sim.DetectCollisionZones(ms, dist);
    var z := Sim.MakeZone(ms, i, j, dist);
    assert z in zs;
    var k :| 0 <= k < |zs| && zs[k] == z;
    var d := ClosestCollisionDistance(zs, q, dist);
    assert d.value <= dist(q, zs[k].location);
  }

  /** The stress factor is the local stress over the analysis hotspots,
      scaled by 100 and capped at 1; with no hotspot within 100 km it is 0. */
  lemma StressFactorFromHotspots(sys: System, q: Point, magnitude: Option<real>, depth: Option<real>,
                                 dist: Distance, speed: Sim.Speed)
    ensures
      var hs := AnalysisHotspots(sys.simulator, Projected(sys, speed), dist);
      var f := ComprehensiveRiskAnalysis(sys, q, magnitude, depth, dist, speed).factors[6];
      && f == Capped(LocalStress(hs, q, dist), 100.0)
      && ((forall k :: 0 <= k < |hs| ==> dist(q, hs[k].location) >= 100.0) ==> f == 0.0)
  {
    var hs := AnalysisHotspots(sys.simulator, Projected(sys, speed), dist);
    if forall k :: 0 <= k < |hs| ==> dist(q, hs[k].location) >= 100.0 {
      NoNearbyHotspotNoStress(hs, q, dist);
    }
  }

  /** The state the analysis leaves behind: the simulator now holds the
      5-degree grid of the 100-year projection, everything else unchanged,
      so a later hotspot query succeeds and returns the hotspots the
      analysis used. */
  function SystemAfterAnalysis(sys: System, dist: Distance, speed: Sim.Speed): (after: System)
    ensures after.plates == sys.plates && after.volcanoes == sys.volcanoes
    ensures after.simulator.plates == sys.simulator.plates
    ensures after.simulator.stressGrid == Some(Sim.StressAccumulation(Projected(sys, speed), AnalysisResolution, dist).value)
    ensures forall t :: Sim.PredictSeismicHotspots(after.simulator, t).Success?
    ensures Sim.PredictSeismicHotspots(after.simulator, HotspotThreshold).value
      == AnalysisHotspots(sys.simulator, Projected(sys, speed), dist)
  {
    var withGrid := Sim.CalculateStressAccumulation(sys.simulator, Projected(sys, speed), AnalysisResolution, dist);
    sys.(simulator := withGrid.value)
  }
}

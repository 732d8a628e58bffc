/** The tectonic plate simulator: linear projection of plate centres,
    detection of approaching plate pairs, the global stress grid and the
    hotspots read off it. */
module PlateSimulator {
  import opened Wrappers
  import opened Geo
  import opened Reals
  import opened Sorting
  import opened Levels
  import ReferenceData

  // ---------------------------------------------------------------------
  // Plates
  // ---------------------------------------------------------------------

  datatype SimBoundary = SimBoundary(location: Point, kind: ReferenceData.BoundaryKind)

  /** A plate: centre, velocity in degrees per year, area (km^2),
      thickness (km), density (g/cm^3), age (million years). */
  datatype SimPlate = SimPlate(
    name: string,
    center: Point,
    velocity: Velocity,
    area: real,
    thickness: real,
    density: real,
    age: real,
    boundaries: seq<SimBoundary>)

  /** The four plates of the simulator, in table order. */
  function InitializePlates(): (plates: seq<SimPlate>)
    ensures |plates| == 4
    ensures forall i :: 0 <= i < |plates| ==> plates[i].thickness > 0.0 && plates[i].density > 0.0
    ensures forall i, j :: 0 <= i < j < |plates| ==> plates[i].name != plates[j].name
  {
    [
      SimPlate("Pacific", Point(0.0, -150.0), Velocity(0.02, 0.05), 103300000.0, 70.0, 2.9, 180.0, [
        SimBoundary(Point(60.0, -140.0), ReferenceData.Transform),
        SimBoundary(Point(40.0, -125.0), ReferenceData.Transform),
        SimBoundary(Point(20.0, -105.0), ReferenceData.Divergent),
        SimBoundary(Point(-20.0, -70.0), ReferenceData.Convergent),
        SimBoundary(Point(-40.0, -75.0), ReferenceData.Transform)
      ]),
      SimPlate("North_American", Point(45.0, -100.0), Velocity(-0.01, -0.02), 75900000.0, 40.0, 2.7, 200.0, [
        SimBoundary(Point(60.0, -140.0), ReferenceData.Transform),
        SimBoundary(Point(40.0, -125.0), ReferenceData.Transform),
        SimBoundary(Point(30.0, -85.0), ReferenceData.Divergent)
      ]),
      SimPlate("Eurasian", Point(55.0, 100.0), Velocity(0.01, 0.03), 67800000.0, 35.0, 2.7, 250.0, [
        SimBoundary(Point(70.0, -10.0), ReferenceData.Divergent),
        SimBoundary(Point(35.0, 70.0), ReferenceData.Convergent),
        SimBoundary(Point(28.0, 85.0), ReferenceData.Convergent)
      ]),
      SimPlate("Indo_Australian", Point(-25.0, 135.0), Velocity(0.04, 0.06), 58900000.0, 50.0, 2.8, 130.0, [
        SimBoundary(Point(28.0, 85.0), ReferenceData.Convergent),
        SimBoundary(Point(0.0, 90.0), ReferenceData.Divergent),
        SimBoundary(Point(-20.0, 110.0), ReferenceData.Transform)
      ])
    ]
  }

  /** Plate speed in cm/year over a horizon. The source derives it with a
      square root and a cosine; the model takes it as a non-negative input. */
  type Speed = f: (SimPlate, real) -> real
    | forall p, years :: f(p, years) >= 0.0
    witness (p: SimPlate, years: real) => 0.0

  // ---------------------------------------------------------------------
  // Projection
  // ---------------------------------------------------------------------

  /** Current and projected centre of one plate. `plate` is the table row
      the movement was computed from. */
  datatype Movement = Movement(
    name: string,
    plate: SimPlate,
    current: Point,
    future: Point,
    velocityCmYear: real)

  function MovementOf(p: SimPlate, years: real, speed: Speed): Movement {
    Movement(p.name, p, p.center, Project(p.center, p.velocity, years), speed(p, years))
  }

  /** One movement per plate, in table order: the centre stays as stored
      and the projection moves it by `velocity * years`. */
  function SimulatePlateMovement(plates: seq<SimPlate>, years: real, speed: Speed): (ms: seq<Movement>)
    ensures |ms| == |plates|
    ensures forall i :: 0 <= i < |ms| ==>
      && ms[i].name == plates[i].name
      && ms[i].plate == plates[i]
      && ms[i].current == plates[i].center
      && ms[i].future.lat - ms[i].current.lat == plates[i].velocity.lat * years
      && ms[i].future.lon - ms[i].current.lon == plates[i].velocity.lon * years
      && ms[i].velocityCmYear >= 0.0
  {
    seq(|plates|, i requires 0 <= i < |plates| => MovementOf(plates[i], years, speed))
  }

  /** The plates with their centres moved to the projected position. */
  function Advance(plates: seq<SimPlate>, years: real): (moved: seq<SimPlate>)
    ensures |moved| == |plates|
  {
    seq(|plates|, i requires 0 <= i < |plates| =>
      plates[i].(center := Project(plates[i].center, plates[i].velocity, years)))
  }

  /** Projecting `a` years and then `b` more lands where projecting `a + b`
      years does; a zero horizon leaves every centre in place. */
  lemma SimulationComposes(plates: seq<SimPlate>, a: real, b: real, speed: Speed)
    ensures forall i :: 0 <= i < |plates| ==>
      SimulatePlateMovement(Advance(plates, a), b, speed)[i].future
        == SimulatePlateMovement(plates, a + b, speed)[i].future
    ensures forall i :: 0 <= i < |plates| ==>
      SimulatePlateMovement(plates, 0.0, speed)[i].future == plates[i].center
  {
    forall i | 0 <= i < |plates|
      ensures SimulatePlateMovement(Advance(plates, a), b, speed)[i].future
        == SimulatePlateMovement(plates, a + b, speed)[i].future
      ensures SimulatePlateMovement(plates, 0.0, speed)[i].future == plates[i].center
    {
      ProjectComposes(plates[i].center, plates[i].velocity, a, b);
      ProjectZero(plates[i].center, plates[i].velocity);
    }
  }

  // ---------------------------------------------------------------------
  // Collision zones
  // ---------------------------------------------------------------------

  /** The pairs `(i, j)` with `i < j` that start at row `i`. */
  function PairRow(i: nat, n: nat): (row: seq<(nat, nat)>)
    requires i < n
    ensures |row| == n - i - 1
    ensures forall k :: 0 <= k < |row| ==> row[k] == (i, i + 1 + k)
  {
    seq(n - i - 1, k requires 0 <= k < n - i - 1 => (i, i + 1 + k))
  }

  /** All pairs `(i, j)` with `from <= i < j < n`, row by row. */
  function PairsFrom(from: nat, n: nat): seq<(nat, nat)>
    decreases n - from
  {
    if from >= n then [] else PairRow(from, n) + PairsFrom(from + 1, n)
  }

  /** The nested `i`, `j > i` loop visits exactly the pairs with `i < j`. */
  lemma {:induction false} PairsFromMembers(from: nat, n: nat)
    ensures forall p :: p in PairsFrom(from, n) <==> from <= p.0 < p.1 < n
    decreases n - from
  {
    if from < n {
      PairsFromMembers(from + 1, n);
      var row := PairRow(from, n);
      forall p: (nat, nat) | from <= p.0 < p.1 < n && p.0 == from
        ensures p in row
      {
        assert row[p.1 - from - 1] == p;
      }
    }
  }

  /** No pair is visited twice. */
  lemma {:induction false} PairsFromDistinct(from: nat, n: nat)
    ensures forall a, b :: 0 <= a < b < |PairsFrom(from, n)| ==> PairsFrom(from, n)[a] != PairsFrom(from, n)[b]
    decreases n - from
  {
    if from < n {
      PairsFromDistinct(from + 1, n);
      PairsFromMembers(from + 1, n);
      var row := PairRow(from, n);
      var rest := PairsFrom(from + 1, n);
      var all := row + rest;
      forall a, b | 0 <= a < b < |all|
        ensures all[a] != all[b]
      {
        if b < |row| {
        } else if a < |row| {
          assert all[b] == rest[b - |row|];
          assert all[b] in rest;
        } else {
          assert all[a] == rest[a - |row|] && all[b] == rest[b - |row|];
        }
      }
    }
  }

  /** The pairs of `n` plates in visiting order. */
  function Pairs(n: nat): (ps: seq<(nat, nat)>)
    ensures forall p :: p in ps <==> p.0 < p.1 < n
    ensures forall a, b :: 0 <= a < b < |ps| ==> ps[a] != ps[b]
  {
    PairsFromMembers(0, n);
    PairsFromDistinct(0, n);
    PairsFrom(0, n)
  }

  /** Plates `i` and `j` end up nearer than they start. */
  predicate Approaching(ms: seq<Movement>, i: nat, j: nat, dist: Distance)
    requires i < |ms| && j < |ms|
  {
    dist(ms[i].future, ms[j].future) < dist(ms[i].current, ms[j].current)
  }

  datatype Zone = Zone(
    plate1: string,
    plate2: string,
    currentDistance: real,
    futureDistance: real,
    approachRate: real,
    probability: real,
    location: Point)

  /** The zone reported for an approaching pair: the probability is the
      relative shrinkage of the distance, located half-way between the
      projected centres. */
  function MakeZone(ms: seq<Movement>, i: nat, j: nat, dist: Distance): (z: Zone)
    requires i < |ms| && j < |ms| && Approaching(ms, i, j, dist)
    ensures z.plate1 == ms[i].name && z.plate2 == ms[j].name
    ensures z.currentDistance == dist(ms[i].current, ms[j].current)
    ensures z.futureDistance == dist(ms[i].future, ms[j].future)
    ensures z.approachRate > 0.0 && z.approachRate == z.currentDistance - z.futureDistance
    ensures 0.0 < z.probability <= 1.0
    ensures z.probability * z.currentDistance == z.approachRate
    ensures z.location == Midpoint(ms[i].future, ms[j].future)
  {
    var current := dist(ms[i].current, ms[j].current);
    var future := dist(ms[i].future, ms[j].future);
    var p := Max(0.0, (current - future) / current);
    assert 0.0 < (current - future) / current <= 1.0 by {
      ShrinkageInUnit(current, future);
    }
    Zone(ms[i].name, ms[j].name, current, future, current - future, p, Midpoint(ms[i].future, ms[j].future))
  }

  /** `z` is the zone reported for the approaching pair `(i, j)`. */
  ghost predicate IsZoneOf(ms: seq<Movement>, i: nat, j: nat, z: Zone, dist: Distance) {
    i < |ms| && j < |ms| && Approaching(ms, i, j, dist) && z == MakeZone(ms, i, j, dist)
  }

  lemma ShrinkageInUnit(current: real, future: real)
    requires 0.0 <= future < current
    ensures 0.0 < (current - future) / current <= 1.0
  {
    var p := (current - future) / current;
    assert p * current == current - future;
    assert (1.0 - p) * current == future;
    assert p > 1.0 ==> (1.0 - p) * current < 0.0;
  }

  ghost predicate ValidPairs(ps: seq<(nat, nat)>, n: nat) {
    forall k :: 0 <= k < |ps| ==> ps[k].0 < n && ps[k].1 < n
  }

  /** The zones of the approaching pairs among `ps`, in visiting order. */
  function ZonesOf(ms: seq<Movement>, ps: seq<(nat, nat)>, dist: Distance): (zs: seq<Zone>)
    requires ValidPairs(ps, |ms|)
    ensures forall k :: 0 <= k < |ps| && Approaching(ms, ps[k].0, ps[k].1, dist) ==>
      MakeZone(ms, ps[k].0, ps[k].1, dist) in zs
    ensures forall z :: z in zs ==> exists k :: 0 <= k < |ps| && IsZoneOf(ms, ps[k].0, ps[k].1, z, dist)
  {
    if |ps| == 0 then []
    else
      var rest := ZonesOf(ms, ps[1..], dist);
      var (i, j) := ps[0];
      var zs := if Approaching(ms, i, j, dist) then [MakeZone(ms, i, j, dist)] + rest else rest;
      assert forall z :: z in zs ==> exists k :: 0 <= k < |ps| && IsZoneOf(ms, ps[k].0, ps[k].1, z, dist) by {
        forall z | z in zs
          ensures exists k :: 0 <= k < |ps| && IsZoneOf(ms, ps[k].0, ps[k].1, z, dist)
        {
          if z in rest {
            var k :| 0 <= k < |ps[1..]| && IsZoneOf(ms, ps[1..][k].0, ps[1..][k].1, z, dist);
            assert ps[1..][k] == ps[k + 1];
            assert IsZoneOf(ms, ps[k + 1].0, ps[k + 1].1, z, dist);
          } else {
            assert IsZoneOf(ms, ps[0].0, ps[0].1, z, dist);
          }
        }
      }
      assert forall k :: 0 <= k < |ps| && Approaching(ms, ps[k].0, ps[k].1, dist) ==>
        MakeZone(ms, ps[k].0, ps[k].1, dist) in zs by {
        forall k | 0 <= k < |ps| && Approaching(ms, ps[k].0, ps[k].1, dist)
          ensures MakeZone(ms, ps[k].0, ps[k].1, dist) in zs
        {
          if k > 0 {
            assert ps[1..][k - 1] == ps[k];
          }
        }
      }
      zs
  }

  /** The approaching pairs among `ps`, in visiting order. */
  ghost function ApproachingPairs(ms: seq<Movement>, ps: seq<(nat, nat)>, dist: Distance): (ap: seq<(nat, nat)>)
    requires ValidPairs(ps, |ms|)
    ensures ValidPairs(ap, |ms|)
    ensures forall k :: 0 <= k < |ap| ==> Approaching(ms, ap[k].0, ap[k].1, dist)
  {
    if |ps| == 0 then []
    else if Approaching(ms, ps[0].0, ps[0].1, dist) then [ps[0]] + ApproachingPairs(ms, ps[1..], dist)
    else ApproachingPairs(ms, ps[1..], dist)
  }

  /** The zones are exactly one zone per approaching pair, in the order
      the pairs are visited. */
  lemma {:induction false} ZonesOfPerPair(ms: seq<Movement>, ps: seq<(nat, nat)>, dist: Distance)
    requires ValidPairs(ps, |ms|)
    ensures
      var ap := ApproachingPairs(ms, ps, dist);
      var zs := ZonesOf(ms, ps, dist);
      && |zs| == |ap|
      && forall k :: 0 <= k < |zs| ==> zs[k] == MakeZone(ms, ap[k].0, ap[k].1, dist)
  {
    if |ps| > 0 {
      ZonesOfPerPair(ms, ps[1..], dist);
    }
  }

  function ProbabilityOf(z: Zone): real {
    z.probability
  }

  /** Zones for every approaching pair `i < j` and no others, most probable
      first. */
  function DetectCollisionZones(ms: seq<Movement>, dist: Distance): (zs: seq<Zone>)
    ensures SortedDesc(zs, ProbabilityOf)
    ensures forall z :: z in zs ==>
      && 0.0 < z.probability <= 1.0
      && z.futureDistance < z.currentDistance
      && z.approachRate == z.currentDistance - z.futureDistance
    ensures forall i, j :: 0 <= i < j < |ms| && Approaching(ms, i, j, dist) ==>
      MakeZone(ms, i, j, dist) in zs
    ensures forall z :: z in zs ==> exists i, j :: 0 <= i < j < |ms| && IsZoneOf(ms, i, j, z, dist)
    ensures multiset(zs) == multiset(ZonesOf(ms, Pairs(|ms|), dist))
  {
    var found := ZonesOf(ms, Pairs(|ms|), dist);
    SortDescMembers(found, ProbabilityOf);
    PairZonesSound(ms, dist);
    PairZonesComplete(ms, dist);
    SortDesc(found, ProbabilityOf)
  }

  /** Exactly one zone per approaching pair `i < j` is reported. */
  lemma CollisionZonesPerPair(ms: seq<Movement>, dist: Distance)
    ensures |DetectCollisionZones(ms, dist)| == |ApproachingPairs(ms, Pairs(|ms|), dist)|
  {
    var zs := DetectCollisionZones(ms, dist);
    ZonesOfPerPair(ms, Pairs(|ms|), dist);
    assert |zs| == |multiset(zs)|;
  }

  /** Every zone found over the visited pairs belongs to an approaching
      pair `i < j`, and so has a probability in (0, 1]. */
  lemma PairZonesSound(ms: seq<Movement>, dist: Distance)
    ensures forall z :: z in ZonesOf(ms, Pairs(|ms|), dist) ==>
      && 0.0 < z.probability <= 1.0
      && z.futureDistance < z.currentDistance
      && z.approachRate == z.currentDistance - z.futureDistance
      && exists i, j :: 0 <= i < j < |ms| && IsZoneOf(ms, i, j, z, dist)
  {
    var ps := Pairs(|ms|);
    forall z | z in ZonesOf(ms, ps, dist)
      ensures exists i, j :: 0 <= i < j < |ms| && IsZoneOf(ms, i, j, z, dist)
    {
      var k :| 0 <= k < |ps| && IsZoneOf(ms, ps[k].0, ps[k].1, z, dist);
      assert ps[k] in ps;
    }
  }

  /** Every approaching pair `i < j` is found. */
  lemma PairZonesComplete(ms: seq<Movement>, dist: Distance)
    ensures forall i, j :: 0 <= i < j < |ms| && Approaching(ms, i, j, dist) ==>
      MakeZone(ms, i, j, dist) in ZonesOf(ms, Pairs(|ms|), dist)
  {
    var ps := Pairs(|ms|);
    forall i, j | 0 <= i < j < |ms| && Approaching(ms, i, j, dist)
      ensures MakeZone(ms, i, j, dist) in ZonesOf(ms, ps, dist)
    {
      assert (i, j) in ps;
      var k :| 0 <= k < |ps| && ps[k] == (i, j);
    }
  }

  // ---------------------------------------------------------------------
  // Stress grid
  // ---------------------------------------------------------------------

  /** Number of values `np.arange(start, stop, step)` produces. */
  function AxisLength(start: int, stop: int, step: int): nat
    requires step != 0
  {
    if step > 0 then (if stop > start then (stop - start + step - 1) / step else 0)
    else (if start > stop then (start - stop + (-step) - 1) / (-step) else 0)
  }

  /** `np.arange(start, stop, step)` over integers. */
  function Axis(start: int, stop: int, step: int): (xs: seq<int>)
    requires step != 0
    ensures |xs| == AxisLength(start, stop, step)
    ensures forall k :: 0 <= k < |xs| ==> xs[k] == start + k * step
  {
    seq(AxisLength(start, stop, step), k requires 0 <= k < AxisLength(start, stop, step) => start + k * step)
  }

  /** With a positive step the axis stops at the first value at or past
      `stop`: `n` steps reach `stop` and `n - 1` steps stay below it. */
  lemma AxisLengthBounds(start: int, stop: int, step: int)
    requires step > 0 && stop > start
    ensures AxisLength(start, stop, step) * step >= stop - start
    ensures (AxisLength(start, stop, step) - 1) * step < stop - start
  {
    var a := stop - start + step - 1;
    var n := a / step;
    assert a == n * step + a % step;
    assert 0 <= a % step < step;
    assert (n - 1) * step == n * step - step;
  }

  /** A multiple of `step` leaves no remainder. */
  lemma MultipleHasNoRemainder(k: int, step: int)
    requires step > 0
    ensures (k * step) % step == 0
  {
    var q := (k * step) / step;
    var r := (k * step) % step;
    assert k * step == q * step + r;
    assert (k - q) * step == r;
    assert k - q >= 1 ==> (k - q) * step >= step;
    assert k - q <= -1 ==> (k - q) * step <= -step;
  }

  /** Every axis value lies in `[start, stop)` a whole number of steps
      from `start`. */
  lemma AxisValuesInRange(start: int, stop: int, step: int, k: nat)
    requires step > 0 && k < |Axis(start, stop, step)|
    ensures start <= Axis(start, stop, step)[k] < stop
    ensures (Axis(start, stop, step)[k] - start) % step == 0
  {
    AxisLengthBounds(start, stop, step);
    var n := AxisLength(start, stop, step);
    assert k * step <= (n - 1) * step;
    MultipleHasNoRemainder(k, step);
  }

  /** Every value in `[start, stop)` a whole number of steps from `start`
      is on the axis. */
  lemma AxisCoversRange(start: int, stop: int, step: int, x: int)
    requires step > 0 && start <= x < stop && (x - start) % step == 0
    ensures x in Axis(start, stop, step)
  {
    var xs := Axis(start, stop, step);
    var n := AxisLength(start, stop, step);
    var k := (x - start) / step;
    assert x - start == k * step;
    AxisLengthBounds(start, stop, step);
    assert k >= n ==> k * step >= n * step;
    assert xs[k] == x;
  }

  /** A positive step enumerates exactly the values from `start` below
      `stop` that are a whole number of steps from `start`. */
  lemma AxisMembers(start: int, stop: int, step: int, x: int)
    requires step > 0
    ensures x in Axis(start, stop, step) <==> start <= x < stop && (x - start) % step == 0
  {
    var xs := Axis(start, stop, step);
    if x in xs {
      var k :| 0 <= k < |xs| && xs[k] == x;
      AxisValuesInRange(start, stop, step, k);
    }
    if start <= x < stop && (x - start) % step == 0 {
      AxisCoversRange(start, stop, step, x);
    }
  }

  /** Values of a non-zero step are all different. */
  lemma AxisDistinct(start: int, stop: int, step: int)
    requires step != 0
    ensures Distinct(Axis(start, stop, step))
  {
    var xs := Axis(start, stop, step);
    forall a, b | 0 <= a < b < |xs|
      ensures xs[a] != xs[b]
    {
      assert xs[b] - xs[a] == (b - a) * step;
    }
  }

  ghost predicate Distinct(xs: seq<int>) {
    forall a, b :: 0 <= a < b < |xs| ==> xs[a] != xs[b]
  }

  /** Cells farther than this (km) from a plate centre get nothing from it. */
  const StressRadius: real := 3000.0

  /** What one plate adds to a cell at distance `d` from its centre. */
  function Contribution(m: Movement, d: real): (c: real)
    requires d >= 0.0
    ensures d >= StressRadius ==> c == 0.0
    ensures m.velocityCmYear >= 0.0 && m.plate.thickness >= 0.0 && m.plate.density >= 0.0 ==> c >= 0.0
  {
    if d < StressRadius then
      m.velocityCmYear * m.plate.thickness * m.plate.density / (1.0 + d / 1000.0)
    else 0.0
  }

  /** The contribution is the plate's load divided by `1 + d / 1000`
      inside the radius: no more than the load itself, and halved at 1000 km. */
  lemma ContributionInsideRadius(m: Movement, d: real)
    requires 0.0 <= d < StressRadius
    requires m.velocityCmYear >= 0.0 && m.plate.thickness >= 0.0 && m.plate.density >= 0.0
    ensures Contribution(m, d) * (1.0 + d / 1000.0) == m.velocityCmYear * m.plate.thickness * m.plate.density
    ensures Contribution(m, d) <= m.velocityCmYear * m.plate.thickness * m.plate.density
    ensures d == 1000.0 ==> 2.0 * Contribution(m, d) == m.velocityCmYear * m.plate.thickness * m.plate.density
  {
    var load := m.velocityCmYear * m.plate.thickness * m.plate.density;
    var c := Contribution(m, d);
    assert c * (1.0 + d / 1000.0) == load;
    assert c * (d / 1000.0) >= 0.0;
  }

  /** Stress accumulated at `cell` from the first `n` movements. */
  function CellStress(ms: seq<Movement>, cell: Point, dist: Distance, n: nat): (s: real)
    requires n <= |ms|
    ensures LoadsNonNegative(ms) ==> s >= 0.0
  {
    if n == 0 then 0.0
    else CellStress(ms, cell, dist, n - 1) + Contribution(ms[n - 1], dist(cell, ms[n - 1].current))
  }

  ghost predicate LoadsNonNegative(ms: seq<Movement>) {
    forall k :: 0 <= k < |ms| ==> ms[k].velocityCmYear >= 0.0 && ms[k].plate.thickness >= 0.0 && ms[k].plate.density >= 0.0
  }

  /** A cell at least 3000 km from every centre stays at zero. */
  lemma {:induction false} FarCellStaysZero(ms: seq<Movement>, cell: Point, dist: Distance, n: nat)
    requires n <= |ms|
    requires forall k :: 0 <= k < n ==> dist(cell, ms[k].current) >= StressRadius
    ensures CellStress(ms, cell, dist, n) == 0.0
  {
    if n > 0 {
      FarCellStaysZero(ms, cell, dist, n - 1);
    }
  }

  /** With non-negative loads a cell never goes negative, and a plate
      within range adds its full contribution on top of the others. */
  lemma {:induction false} CellStressNonNegative(ms: seq<Movement>, cell: Point, dist: Distance, n: nat)
    requires n <= |ms| && LoadsNonNegative(ms)
    ensures CellStress(ms, cell, dist, n) >= 0.0
    ensures forall k :: 0 <= k < n ==> CellStress(ms, cell, dist, n) >= Contribution(ms[k], dist(cell, ms[k].current))
  {
    if n > 0 {
      CellStressNonNegative(ms, cell, dist, n - 1);
    }
  }

  /** Grid values: `stress[j][i]` belongs to longitude `lons[j]` and
      latitude `lats[i]`. */
  datatype StressGrid = StressGrid(lats: seq<int>, lons: seq<int>, stress: seq<seq<real>>)

  function CellPoint(lat: int, lon: int): Point {
    Point(lat as real, lon as real)
  }

  /** The grid at `resolution` degrees; `np.arange` rejects a zero step. */
  function StressAccumulation(ms: seq<Movement>, resolution: int, dist: Distance): (r: Result<StressGrid>)
    ensures r.Failure? <==> resolution == 0
    ensures r.Success? ==>
      && r.value.lats == Axis(-90, 91, resolution)
      && r.value.lons == Axis(-180, 181, resolution)
      && |r.value.stress| == |r.value.lons|
      && forall j :: 0 <= j < |r.value.lons| ==>
           && |r.value.stress[j]| == |r.value.lats|
           && forall i :: 0 <= i < |r.value.lats| ==>
                r.value.stress[j][i] == CellStress(ms, CellPoint(r.value.lats[i], r.value.lons[j]), dist, |ms|)
  {
    if resolution == 0 then Failure("division by zero")
    else
      var lats := Axis(-90, 91, resolution);
      var lons := Axis(-180, 181, resolution);
      Success(StressGrid(lats, lons,
        seq(|lons|, j requires 0 <= j < |lons| =>
          seq(|lats|, i requires 0 <= i < |lats| =>
            CellStress(ms, CellPoint(lats[i], lons[j]), dist, |ms|)))))
  }

  /** Simulator state: the plate table and the last grid computed. */
  datatype Simulator = Simulator(plates: seq<SimPlate>, stressGrid: Option<StressGrid>)

  function NewSimulator(): (sim: Simulator)
    ensures sim.stressGrid.None? && |sim.plates| == 4
  {
    Simulator(InitializePlates(), None)
  }

  /** `calculate_stress_accumulation`: computes the grid and keeps it. */
  function CalculateStressAccumulation(sim: Simulator, ms: seq<Movement>, resolution: int, dist: Distance): (r: Result<Simulator>)
    ensures r.Failure? <==> resolution == 0
    ensures r.Success? ==>
      && r.value.plates == sim.plates
      && r.value.stressGrid == Some(StressAccumulation(ms, resolution, dist).value)
  {
    match StressAccumulation(ms, resolution, dist)
    case Failure(e) => Failure(e)
    case Success(g) => Success(sim.(stressGrid := Some(g)))
  }

  // ---------------------------------------------------------------------
  // Hotspots
  // ---------------------------------------------------------------------

  datatype Hotspot = Hotspot(location: Point, stress: real, category: RiskLevel)

  function StressOf(h: Hotspot): real {
    h.stress
  }

  /** Index pair `(i, j)` addresses `stress[i][j]` and names a coordinate. */
  predicate InGrid(g: StressGrid, i: nat, j: nat) {
    i < |g.stress| && j < |g.stress[i]| && i < |g.lons| && j < |g.lats|
  }

  function HotspotAt(g: StressGrid, i: nat, j: nat): (h: Hotspot)
    requires InGrid(g, i, j)
    ensures h.stress == g.stress[i][j] && h.category == StressCategory(h.stress)
  {
    Hotspot(CellPoint(g.lats[j], g.lons[i]), g.stress[i][j], StressCategory(g.stress[i][j]))
  }

  /** `h` is the hotspot reported for cell `(i, j)` above `threshold`. */
  ghost predicate IsHotspotOf(g: StressGrid, threshold: real, i: nat, j: nat, h: Hotspot) {
    InGrid(g, i, j) && g.stress[i][j] > threshold && h == HotspotAt(g, i, j)
  }

  /** Hotspots of row `i` from column `j` on, in column order. */
  function RowHotspots(g: StressGrid, threshold: real, i: nat, j: nat): (hs: seq<Hotspot>)
    requires i < |g.stress| && j <= |g.stress[i]|
    ensures |hs| <= |g.stress[i]| - j
    decreases |g.stress[i]| - j
  {
    if j == |g.stress[i]| then []
    else
      var rest := RowHotspots(g, threshold, i, j + 1);
      if g.stress[i][j] > threshold && InGrid(g, i, j) then [HotspotAt(g, i, j)] + rest else rest
  }

  /** A row reports only in-range cells above the threshold. */
  lemma {:induction false} RowHotspotsSound(g: StressGrid, threshold: real, i: nat, j: nat)
    requires i < |g.stress| && j <= |g.stress[i]|
    ensures forall h :: h in RowHotspots(g, threshold, i, j) ==>
      exists jj: nat :: j <= jj && IsHotspotOf(g, threshold, i, jj, h)
    decreases |g.stress[i]| - j
  {
    if j < |g.stress[i]| {
      RowHotspotsSound(g, threshold, i, j + 1);
      if g.stress[i][j] > threshold && InGrid(g, i, j) {
        assert IsHotspotOf(g, threshold, i, j, HotspotAt(g, i, j));
      }
    }
  }

  /** A row reports every in-range cell above the threshold. */
  lemma {:induction false} RowHotspotsComplete(g: StressGrid, threshold: real, i: nat, j: nat)
    requires i < |g.stress| && j <= |g.stress[i]|
    ensures forall jj :: j <= jj < |g.stress[i]| && InGrid(g, i, jj) && g.stress[i][jj] > threshold ==>
      HotspotAt(g, i, jj) in RowHotspots(g, threshold, i, j)
    decreases |g.stress[i]| - j
  {
    if j < |g.stress[i]| {
      RowHotspotsComplete(g, threshold, i, j + 1);
    }
  }

  /** Hotspots of rows `i` onwards, in the row-major order of `np.where`. */
  function GridHotspots(g: StressGrid, threshold: real, i: nat): (hs: seq<Hotspot>)
    decreases |g.stress| - i
  {
    if i >= |g.stress| then []
    else RowHotspots(g, threshold, i, 0) + GridHotspots(g, threshold, i + 1)
  }

  /** The scan reports only in-range cells above the threshold. */
  lemma {:induction false} GridHotspotsSound(g: StressGrid, threshold: real, i: nat)
    ensures forall h :: h in GridHotspots(g, threshold, i) ==>
      exists ii: nat, jj: nat :: i <= ii && IsHotspotOf(g, threshold, ii, jj, h)
    decreases |g.stress| - i
  {
    if i < |g.stress| {
      GridHotspotsSound(g, threshold, i + 1);
      RowHotspotsSound(g, threshold, i, 0);
      forall h | h in RowHotspots(g, threshold, i, 0)
        ensures exists ii: nat, jj: nat :: i <= ii && IsHotspotOf(g, threshold, ii, jj, h)
      {
        var jj: nat :| 0 <= jj && IsHotspotOf(g, threshold, i, jj, h);
      }
    }
  }

  /** The scan reports every in-range cell above the threshold. */
  lemma {:induction false} GridHotspotsComplete(g: StressGrid, threshold: real, i: nat)
    ensures forall ii: nat, jj: nat :: i <= ii && InGrid(g, ii, jj) && g.stress[ii][jj] > threshold ==>
      HotspotAt(g, ii, jj) in GridHotspots(g, threshold, i)
    decreases |g.stress| - i
  {
    if i < |g.stress| {
      GridHotspotsComplete(g, threshold, i + 1);
      RowHotspotsComplete(g, threshold, i, 0);
    }
  }

  /** Grid cells above `threshold`, most stressed first; raises when no grid
      has been computed yet. */
  function PredictSeismicHotspots(sim: Simulator, threshold: real): (r: Result<seq<Hotspot>>)
    ensures r.Failure? <==> sim.stressGrid.None?
    ensures r.Success? ==>
      var g := sim.stressGrid.value;
      && SortedDesc(r.value, StressOf)
      && (forall h :: h in r.value ==>
            && h.stress > threshold
            && h.category == StressCategory(h.stress)
            && exists i: nat, j: nat :: IsHotspotOf(g, threshold, i, j, h))
      && (forall i: nat, j: nat :: InGrid(g, i, j) && g.stress[i][j] > threshold ==> HotspotAt(g, i, j) in r.value)
  {
    match sim.stressGrid
    case None => Failure("Must calculate stress grid first")
    case Some(g) =>
      var found := GridHotspots(g, threshold, 0);
      GridHotspotsSound(g, threshold, 0);
      GridHotspotsComplete(g, threshold, 0);
      SortDescMembers(found, StressOf);
      Success(SortDesc(found, StressOf))
  }

  /** Different cells of a grid with distinct axis values give different
      hotspots. */
  lemma HotspotAtInjective(g: StressGrid, i1: nat, j1: nat, i2: nat, j2: nat)
    requires Distinct(g.lats) && Distinct(g.lons)
    requires InGrid(g, i1, j1) && InGrid(g, i2, j2)
    requires (i1, j1) != (i2, j2)
    ensures HotspotAt(g, i1, j1) != HotspotAt(g, i2, j2)
  {
    if i1 != i2 {
      assert g.lons[i1] != g.lons[i2];
      assert (g.lons[i1] as real) != (g.lons[i2] as real);
    } else {
      assert g.lats[j1] != g.lats[j2];
      assert (g.lats[j1] as real) != (g.lats[j2] as real);
    }
  }

  lemma {:induction false} RowCount(g: StressGrid, threshold: real, i: nat, j: nat, it: nat, jt: nat)
    requires Distinct(g.lats) && Distinct(g.lons)
    requires i < |g.stress| && j <= |g.stress[i]|
    requires InGrid(g, it, jt) && g.stress[it][jt] > threshold
    ensures multiset(RowHotspots(g, threshold, i, j))[HotspotAt(g, it, jt)]
      == if i == it && j <= jt then 1 else 0
    decreases |g.stress[i]| - j
  {
    var target := HotspotAt(g, it, jt);
    if j < |g.stress[i]| {
      RowCount(g, threshold, i, j + 1, it, jt);
      var rest := RowHotspots(g, threshold, i, j + 1);
      if g.stress[i][j] > threshold && InGrid(g, i, j) {
        var h := HotspotAt(g, i, j);
        assert RowHotspots(g, threshold, i, j) == [h] + rest;
        assert multiset([h] + rest) == multiset{h} + multiset(rest);
        if (i, j) != (it, jt) {
          HotspotAtInjective(g, i, j, it, jt);
        }
      } else {
        assert RowHotspots(g, threshold, i, j) == rest;
        assert (i, j) != (it, jt);
      }
    }
  }

  lemma {:induction false} GridCount(g: StressGrid, threshold: real, i: nat, it: nat, jt: nat)
    requires Distinct(g.lats) && Distinct(g.lons)
    requires InGrid(g, it, jt) && g.stress[it][jt] > threshold
    ensures multiset(GridHotspots(g, threshold, i))[HotspotAt(g, it, jt)] == if i <= it then 1 else 0
    decreases |g.stress| - i
  {
    if i < |g.stress| {
      GridCount(g, threshold, i + 1, it, jt);
      RowCount(g, threshold, i, 0, it, jt);
      var row := RowHotspots(g, threshold, i, 0);
      var rest := GridHotspots(g, threshold, i + 1);
      assert GridHotspots(g, threshold, i) == row + rest;
      assert multiset(row + rest) == multiset(row) + multiset(rest);
    }
  }

  /** Every cell above the threshold is reported exactly once, given that
      the grid's coordinates are distinct (as `np.arange` makes them). */
  lemma HotspotsListedOnce(sim: Simulator, threshold: real, i: nat, j: nat)
    requires sim.stressGrid.Some?
    requires Distinct(sim.stressGrid.value.lats) && Distinct(sim.stressGrid.value.lons)
    requires InGrid(sim.stressGrid.value, i, j) && sim.stressGrid.value.stress[i][j] > threshold
    ensures multiset(PredictSeismicHotspots(sim, threshold).value)[HotspotAt(sim.stressGrid.value, i, j)] == 1
  {
    GridCount(sim.stressGrid.value, threshold, 0, i, j);
  }
}

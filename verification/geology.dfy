/** The geological analysis of the advanced predictor: nearest plate
    boundary, volcanic influence and plate stress at a query point. */
module Geology {
  import opened Wrappers
  import opened Geo
  import opened Reals
  import opened Nearest
  import opened ReferenceData

  // ---------------------------------------------------------------------
  // Nearest plate boundary
  // ---------------------------------------------------------------------

  /** A boundary together with the position of its plate in the table. */
  datatype BoundaryEntry = BoundaryEntry(plate: nat, boundary: Boundary)

  /** The boundaries in the order the nested plate/boundary loop visits
      them: plate by plate, and within a plate in listed order. */
  function Entries(plates: seq<TectonicPlate>): (es: seq<BoundaryEntry>)
    ensures forall k :: 0 <= k < |es| ==>
      es[k].plate < |plates| && es[k].boundary in plates[es[k].plate].boundaries
    ensures forall i, b :: 0 <= i < |plates| && b in plates[i].boundaries ==>
      BoundaryEntry(i, b) in es
    ensures forall k1, k2 :: 0 <= k1 < k2 < |es| ==> es[k1].plate <= es[k2].plate
    decreases |plates|
  {
    if |plates| == 0 then []
    else
      var n := |plates| - 1;
      var front := Entries(plates[..n]);
      var last := PlateEntries(plates, n);
      assert forall i, b :: 0 <= i < n && b in plates[i].boundaries ==> BoundaryEntry(i, b) in front by {
        forall i, b | 0 <= i < n && b in plates[i].boundaries
          ensures BoundaryEntry(i, b) in front
        {
          assert plates[..n][i] == plates[i];
        }
      }
      assert forall b :: b in plates[n].boundaries ==> BoundaryEntry(n, b) in last by {
        forall b | b in plates[n].boundaries
          ensures BoundaryEntry(n, b) in last
        {
          var k :| 0 <= k < |plates[n].boundaries| && plates[n].boundaries[k] == b;
          assert last[k] == BoundaryEntry(n, b);
        }
      }
      front + last
  }

  /** The entries of plate `i`'s boundaries, in listed order. */
  function PlateEntries(plates: seq<TectonicPlate>, i: nat): (es: seq<BoundaryEntry>)
    requires i < |plates|
    ensures |es| == |plates[i].boundaries|
    ensures forall k :: 0 <= k < |es| ==> es[k] == BoundaryEntry(i, plates[i].boundaries[k])
  {
    seq(|plates[i].boundaries|, k requires 0 <= k < |plates[i].boundaries| => BoundaryEntry(i, plates[i].boundaries[k]))
  }

  /** The visit is the visit of all but the last plate, then the last plate's boundaries. */
  lemma EntriesSplit(plates: seq<TectonicPlate>)
    requires |plates| > 0
    ensures Entries(plates) == Entries(plates[..|plates| - 1]) + PlateEntries(plates, |plates| - 1)
  {
  }

  /** Number of boundaries over all plates. */
  function BoundaryCount(plates: seq<TectonicPlate>): nat {
    if |plates| == 0 then 0
    else BoundaryCount(plates[..|plates| - 1]) + |plates[|plates| - 1].boundaries|
  }

  /** Position in visiting order of plate `i`'s first boundary. */
  function Offset(plates: seq<TectonicPlate>, i: nat): nat
    requires i <= |plates|
  {
    BoundaryCount(plates[..i])
  }

  /** The same visit order as `Entries`, defined without a contract so
      that index reasoning about it stays cheap. */
  function Layout(plates: seq<TectonicPlate>): seq<BoundaryEntry>
    decreases |plates|
  {
    if |plates| == 0 then []
    else Layout(plates[..|plates| - 1]) + PlateEntries(plates, |plates| - 1)
  }

  lemma {:induction false} EntriesIsLayout(plates: seq<TectonicPlate>)
    ensures Entries(plates) == Layout(plates)
    decreases |plates|
  {
    if |plates| > 0 {
      EntriesSplit(plates);
      EntriesIsLayout(plates[..|plates| - 1]);
    }
  }

  /** The visit holds as many entries as the table has boundaries. */
  lemma {:induction false} LayoutCount(plates: seq<TectonicPlate>)
    ensures |Layout(plates)| == BoundaryCount(plates)
    decreases |plates|
  {
    if |plates| > 0 {
      LayoutCount(plates[..|plates| - 1]);
    }
  }

  /** Boundary `j` of plate `i` sits at position `Offset(plates, i) + j`. */
  lemma {:induction false} LayoutAt(plates: seq<TectonicPlate>, i: nat, j: nat)
    requires i < |plates| && j < |plates[i].boundaries|
    ensures Offset(plates, i) + j < |Layout(plates)|
    ensures Layout(plates)[Offset(plates, i) + j] == BoundaryEntry(i, plates[i].boundaries[j])
    decreases |plates|
  {
    var n := |plates| - 1;
    var init := plates[..n];
    LayoutCount(init);
    if i < n {
      LayoutAt(init, i, j);
      assert init[..i] == plates[..i];
    } else {
      assert plates[..i] == init;
    }
  }

  /** Boundary `j` of plate `i` sits at position `Offset(plates, i) + j`
      of the visit. */
  ghost predicate PlacedAt(plates: seq<TectonicPlate>, i: nat, j: nat)
    requires i < |plates| && j < |plates[i].boundaries|
  {
    var es := Entries(plates);
    Offset(plates, i) + j < |es| && es[Offset(plates, i) + j] == BoundaryEntry(i, plates[i].boundaries[j])
  }

  /** The visit lists every boundary exactly once, plate by plate and
      within a plate in listed order. */
  lemma EntriesLayout(plates: seq<TectonicPlate>)
    ensures |Entries(plates)| == BoundaryCount(plates)
    ensures forall i: nat, j: nat :: i < |plates| && j < |plates[i].boundaries| ==> PlacedAt(plates, i, j)
  {
    EntriesIsLayout(plates);
    LayoutCount(plates);
    forall i: nat, j: nat | i < |plates| && j < |plates[i].boundaries|
      ensures PlacedAt(plates, i, j)
    {
      LayoutAt(plates, i, j);
    }
  }


  /** The table has no boundary at all exactly when every plate's list is empty. */
  lemma EntriesEmpty(plates: seq<TectonicPlate>)
    ensures |Entries(plates)| == 0 <==> forall i :: 0 <= i < |plates| ==> |plates[i].boundaries| == 0
  {
    var es := Entries(plates);
    if exists i :: 0 <= i < |plates| && |plates[i].boundaries| > 0 {
      var i :| 0 <= i < |plates| && |plates[i].boundaries| > 0;
      assert BoundaryEntry(i, plates[i].boundaries[0]) in es;
    }
    if |es| > 0 {
      assert es[0].boundary in plates[es[0].plate].boundaries;
    }
  }

  /** Distances from `q` to every entry, in visiting order. */
  function EntryDistances(es: seq<BoundaryEntry>, q: Point, dist: Distance): (ds: seq<real>)
    ensures |ds| == |es|
    ensures forall k :: 0 <= k < |es| ==> ds[k] == dist(q, es[k].boundary.location)
  {
    seq(|es|, k requires 0 <= k < |es| => dist(q, es[k].boundary.location))
  }

  /** Result of the boundary search; `NoBoundary` stands for the initial
      `(inf, None, None, 0)` that only an empty table leaves in place.
      `entry` is the winner's position in visiting order. */
  datatype BoundaryHit =
    | NoBoundary
    | Hit(entry: nat, plate: nat, plateName: string, distance: real, kind: BoundaryKind, activity: real)

  /** Nearest plate boundary to `q`; strict comparison, so the first
      boundary at the minimum distance wins. */
  function NearestBoundary(plates: seq<TectonicPlate>, q: Point, dist: Distance): (r: BoundaryHit)
    ensures r.NoBoundary? <==> forall i :: 0 <= i < |plates| ==> |plates[i].boundaries| == 0
    ensures r.Hit? ==>
      var es := Entries(plates);
      && r.entry < |es|
      && r.plate == es[r.entry].plate < |plates|
      && r.plateName == plates[r.plate].name
      && es[r.entry].boundary in plates[r.plate].boundaries
      && r.distance == dist(q, es[r.entry].boundary.location)
      && r.kind == es[r.entry].boundary.kind
      && r.activity == es[r.entry].boundary.activity
      && (forall i, b :: 0 <= i < |plates| && b in plates[i].boundaries ==> r.distance <= dist(q, b.location))
      && (forall k :: 0 <= k < r.entry ==> r.distance < dist(q, es[k].boundary.location))
  {
    EntriesEmpty(plates);
    var es := Entries(plates);
    var ds := EntryDistances(es, q, dist);
    match FirstMin(ds)
    case None => NoBoundary
    case Some(k) =>
      assert forall i, b :: 0 <= i < |plates| && b in plates[i].boundaries ==> ds[k] <= dist(q, b.location) by {
        forall i, b | 0 <= i < |plates| && b in plates[i].boundaries
          ensures ds[k] <= dist(q, b.location)
        {
          var j :| 0 <= j < |es| && es[j] == BoundaryEntry(i, b);
          assert ds[j] == dist(q, b.location);
        }
      }
      var e := es[k];
      Hit(k, e.plate, plates[e.plate].name, ds[k], e.boundary.kind, e.boundary.activity)
  }

  /** The built-in table is not empty, so the search always finds a named
      plate and a finite distance. */
  lemma BuiltinBoundaryAlwaysFound(q: Point, dist: Distance)
    ensures NearestBoundary(TectonicPlates(), q, dist).Hit?
    ensures NearestBoundary(TectonicPlates(), q, dist).plateName != ""
  {
    var plates := TectonicPlates();
    assert |plates[0].boundaries| > 0;
    var r := NearestBoundary(plates, q, dist);
    assert r.plateName in {plates[0].name, plates[1].name, plates[2].name};
  }

  // ---------------------------------------------------------------------
  // Plate stress
  // ---------------------------------------------------------------------

  /** Stress multiplier per boundary type, 1.0 for any other tag. */
  function StressMultiplier(k: BoundaryKind): (m: real)
    ensures m > 0.0
  {
    match k
    case Convergent => 1.5
    case Transform => 1.2
    case Divergent => 0.8
    case OtherKind(_) => 1.0
  }

  /** Convergent boundaries load the most stress, divergent the least. */
  lemma StressMultiplierOrder(tag: string)
    ensures StressMultiplier(Divergent) < StressMultiplier(OtherKind(tag))
    ensures StressMultiplier(OtherKind(tag)) < StressMultiplier(Transform)
    ensures StressMultiplier(Transform) < StressMultiplier(Convergent)
  {
  }

  /** `rate * multiplier * activity * 1000 / max(distance, 1)`; the
      distance is floored at 1 km so that the division is always defined. */
  function PlateStress(rate: real, kind: BoundaryKind, activity: real, distance: real): (s: real)
    ensures rate >= 0.0 && activity >= 0.0 ==> s >= 0.0
  {
    rate * StressMultiplier(kind) * activity * (1000.0 / Max(distance, 1.0))
  }

  /** Stress grows as the boundary gets nearer, and saturates within 1 km. */
  lemma PlateStressAntitone(rate: real, kind: BoundaryKind, activity: real, d1: real, d2: real)
    requires rate >= 0.0 && activity >= 0.0
    requires d1 <= d2
    ensures PlateStress(rate, kind, activity, d1) >= PlateStress(rate, kind, activity, d2)
    ensures d2 <= 1.0 ==> PlateStress(rate, kind, activity, d1) == PlateStress(rate, kind, activity, d2)
  {
    var c := rate * StressMultiplier(kind) * activity;
    assert c >= 0.0;
    var m1 := Max(d1, 1.0);
    var m2 := Max(d2, 1.0);
    DivisionAntitone(1000.0, m1, m2);
    MultiplyMonotone(c, 1000.0 / m2, 1000.0 / m1);
    assert PlateStress(rate, kind, activity, d1) == c * (1000.0 / m1);
    assert PlateStress(rate, kind, activity, d2) == c * (1000.0 / m2);
  }

  lemma DivisionAntitone(x: real, m1: real, m2: real)
    requires x >= 0.0 && 0.0 < m1 <= m2
    ensures x / m1 >= x / m2
  {
    var a := x / m1;
    assert x / m2 == a * (m1 / m2);
    assert m1 / m2 <= 1.0;
    MultiplyMonotone(a, m1 / m2, 1.0);
  }

  lemma MultiplyMonotone(c: real, a: real, b: real)
    requires c >= 0.0 && a <= b
    ensures c * a <= c * b
  {
    assert c * b - c * a == c * (b - a);
  }

  /** `(plate_stress, movement_rate, boundary_type)`; `kind == None` is the
      `'none'` tag of the fallback triple. */
  datatype PlateMovement = PlateMovement(stress: real, movementRate: real, kind: Option<BoundaryKind>)

  /** Stress at `q` from its nearest boundary. The source tests the plate
      name for truthiness, so an empty name also takes the fallback. */
  function PredictPlateMovement(plates: seq<TectonicPlate>, q: Point, dist: Distance): (r: PlateMovement)
    ensures
      var hit := NearestBoundary(plates, q, dist);
      && (hit.NoBoundary? || hit.plateName == "" <==> r == PlateMovement(0.0, 0.0, None))
      && (hit.Hit? && hit.plateName != "" ==>
            && r.kind == Some(hit.kind)
            && r.movementRate == plates[hit.plate].movementRate
            && r.stress == PlateStress(plates[hit.plate].movementRate, hit.kind, hit.activity, hit.distance))
    ensures PlatesWellFormed(plates) ==> r.stress >= 0.0
  {
    var hit := NearestBoundary(plates, q, dist);
    if hit.NoBoundary? || hit.plateName == "" then PlateMovement(0.0, 0.0, None)
    else
      var rate := plates[hit.plate].movementRate;
      PlateMovement(PlateStress(rate, hit.kind, hit.activity, hit.distance), rate, Some(hit.kind))
  }

  // ---------------------------------------------------------------------
  // Volcanic influence
  // ---------------------------------------------------------------------

  /** Volcanoes at or beyond this distance (km) contribute nothing. */
  const InfluenceRadius: real := 500.0

  /** The year eruption recency is measured from. */
  const ReferenceYear: int := 2024

  /** An active volcano counts as recently erupted below this many years. */
  const RecentYears: int := 50

  /** `(volcanic_risk, nearest_volcano_distance, active_volcanoes_nearby)`;
      `nearest == None` is the initial infinite distance. */
  datatype Influence = Influence(risk: real, nearest: Option<real>, activeNearby: nat)

  /** Within range and active: counted as a nearby active volcano. */
  predicate ActiveNearby(v: Volcano, d: real) {
    d < InfluenceRadius && v.status == Active
  }

  /** Risk term of an active volcano within range that erupted recently. */
  function RecentActiveTerm(v: Volcano, d: real): real {
    if ActiveNearby(v, d) && ReferenceYear - v.lastEruption < RecentYears
    then (v.vei as real / 10.0) * (InfluenceRadius - d) / InfluenceRadius
    else 0.0
  }

  /** Risk term of a dormant volcano within range. */
  function DormantTerm(v: Volcano, d: real): real {
    if d < InfluenceRadius && v.status == Dormant
    then (v.vei as real / 20.0) * (InfluenceRadius - d) / InfluenceRadius
    else 0.0
  }

  /** One iteration of the loop over the volcano table. */
  function Visit(acc: Influence, v: Volcano, d: real): (r: Influence)
    ensures r.risk == acc.risk + RecentActiveTerm(v, d) + DormantTerm(v, d)
    ensures r.activeNearby == acc.activeNearby + (if ActiveNearby(v, d) then 1 else 0)
    ensures r.nearest == Some(if acc.nearest.None? then d else Min(acc.nearest.value, d))
  {
    var nearest := if acc.nearest.None? || d < acc.nearest.value then Some(d) else acc.nearest;
    if d < InfluenceRadius then
      if v.status == Active then
        var risk := if ReferenceYear - v.lastEruption < RecentYears
                    then acc.risk + (v.vei as real / 10.0) * (InfluenceRadius - d) / InfluenceRadius
                    else acc.risk;
        Influence(risk, nearest, acc.activeNearby + 1)
      else if v.status == Dormant then
        Influence(acc.risk + (v.vei as real / 20.0) * (InfluenceRadius - d) / InfluenceRadius, nearest, acc.activeNearby)
      else
        Influence(acc.risk, nearest, acc.activeNearby)
    else
      Influence(acc.risk, nearest, acc.activeNearby)
  }

  /** The loop state after the first `n` volcanoes. */
  function InfluencePrefix(vs: seq<Volcano>, q: Point, dist: Distance, n: nat): Influence
    requires n <= |vs|
  {
    if n == 0 then Influence(0.0, None, 0)
    else Visit(InfluencePrefix(vs, q, dist, n - 1), vs[n - 1], dist(q, vs[n - 1].location))
  }

  /** Sum of the recent-active terms over the first `n` volcanoes. */
  function RecentActiveRisk(vs: seq<Volcano>, q: Point, dist: Distance, n: nat): real
    requires n <= |vs|
  {
    if n == 0 then 0.0
    else RecentActiveRisk(vs, q, dist, n - 1) + RecentActiveTerm(vs[n - 1], dist(q, vs[n - 1].location))
  }

  /** Sum of the dormant terms over the first `n` volcanoes. */
  function DormantRisk(vs: seq<Volcano>, q: Point, dist: Distance, n: nat): real
    requires n <= |vs|
  {
    if n == 0 then 0.0
    else DormantRisk(vs, q, dist, n - 1) + DormantTerm(vs[n - 1], dist(q, vs[n - 1].location))
  }

  /** Positions among the first `n` volcanoes that are active and within range. */
  function ActiveNearbySet(vs: seq<Volcano>, q: Point, dist: Distance, n: nat): set<nat>
    requires n <= |vs|
  {
    set i: nat | i < n && ActiveNearby(vs[i], dist(q, vs[i].location))
  }

  /** The running minimum after `n` volcanoes is the least of their distances. */
  lemma {:induction false} NearestPrefixSpec(vs: seq<Volcano>, q: Point, dist: Distance, n: nat)
    requires n <= |vs|
    ensures var r := InfluencePrefix(vs, q, dist, n);
      && (r.nearest.None? <==> n == 0)
      && (r.nearest.Some? ==>
            && (forall i :: 0 <= i < n ==> r.nearest.value <= dist(q, vs[i].location))
            && (exists i :: 0 <= i < n && r.nearest.value == dist(q, vs[i].location)))
  {
    if n > 0 {
      NearestPrefixSpec(vs, q, dist, n - 1);
      var prev := InfluencePrefix(vs, q, dist, n - 1);
      var r := InfluencePrefix(vs, q, dist, n);
      var d := dist(q, vs[n - 1].location);
      assert r.nearest == (if prev.nearest.None? || d < prev.nearest.value then Some(d) else prev.nearest);
      if prev.nearest.None? || d < prev.nearest.value {
        assert r.nearest.value == dist(q, vs[n - 1].location);
      } else {
        var i :| 0 <= i < n - 1 && prev.nearest.value == dist(q, vs[i].location);
        assert r.nearest.value == dist(q, vs[i].location);
      }
    }
  }

  /** The counter after `n` volcanoes is the number of active ones in range. */
  lemma {:induction false} CountPrefixSpec(vs: seq<Volcano>, q: Point, dist: Distance, n: nat)
    requires n <= |vs|
    ensures InfluencePrefix(vs, q, dist, n).activeNearby == |ActiveNearbySet(vs, q, dist, n)|
  {
    if n > 0 {
      CountPrefixSpec(vs, q, dist, n - 1);
      var s0 := ActiveNearbySet(vs, q, dist, n - 1);
      var s1 := ActiveNearbySet(vs, q, dist, n);
      if ActiveNearby(vs[n - 1], dist(q, vs[n - 1].location)) {
        assert s1 == s0 + {n - 1};
        assert n - 1 !in s0;
      } else {
        assert s1 == s0;
      }
    }
  }

  /** The accumulated risk after `n` volcanoes splits into the recent-active
      and the dormant terms. */
  lemma {:induction false} RiskPrefixSpec(vs: seq<Volcano>, q: Point, dist: Distance, n: nat)
    requires n <= |vs|
    ensures InfluencePrefix(vs, q, dist, n).risk == RecentActiveRisk(vs, q, dist, n) + DormantRisk(vs, q, dist, n)
  {
    if n > 0 {
      RiskPrefixSpec(vs, q, dist, n - 1);
    }
  }

  /** Volcanic influence at `q`. The nearest distance is taken over the
      whole table, with no radius; the active count ignores recency. */
  function VolcanicInfluence(vs: seq<Volcano>, q: Point, dist: Distance): (r: Influence)
    ensures r.nearest.None? <==> |vs| == 0
    ensures r.nearest.Some? ==>
      && (forall i :: 0 <= i < |vs| ==> r.nearest.value <= dist(q, vs[i].location))
      && (exists i :: 0 <= i < |vs| && r.nearest.value == dist(q, vs[i].location))
    ensures r.activeNearby == |ActiveNearbySet(vs, q, dist, |vs|)|
    ensures r.risk == RecentActiveRisk(vs, q, dist, |vs|) + DormantRisk(vs, q, dist, |vs|)
  {
    NearestPrefixSpec(vs, q, dist, |vs|);
    CountPrefixSpec(vs, q, dist, |vs|);
    RiskPrefixSpec(vs, q, dist, |vs|);
    InfluencePrefix(vs, q, dist, |vs|)
  }

  /** Every term, and hence the risk, is non-negative (VEI is a natural number). */
  lemma {:induction false} VolcanicRiskNonNegative(vs: seq<Volcano>, q: Point, dist: Distance, n: nat)
    requires n <= |vs|
    ensures RecentActiveRisk(vs, q, dist, n) >= 0.0
    ensures DormantRisk(vs, q, dist, n) >= 0.0
  {
    if n > 0 {
      VolcanicRiskNonNegative(vs, q, dist, n - 1);
    }
  }

  /** The aggregate risk is never negative. */
  lemma VolcanicInfluenceNonNegative(vs: seq<Volcano>, q: Point, dist: Distance)
    ensures VolcanicInfluence(vs, q, dist).risk >= 0.0
  {
    VolcanicRiskNonNegative(vs, q, dist, |vs|);
  }

  /** Appending an extinct volcano changes neither the risk nor the count. */
  lemma ExtinctContributesNothing(vs: seq<Volcano>, v: Volcano, q: Point, dist: Distance)
    requires v.status == Extinct
    ensures VolcanicInfluence(vs + [v], q, dist).risk == VolcanicInfluence(vs, q, dist).risk
    ensures VolcanicInfluence(vs + [v], q, dist).activeNearby == VolcanicInfluence(vs, q, dist).activeNearby
  {
    var ws := vs + [v];
    assert InfluencePrefix(ws, q, dist, |vs|) == InfluencePrefix(vs, q, dist, |vs|) by {
      PrefixAgrees(ws, vs, q, dist, |vs|);
    }
  }

  /** The loop state after `n` steps only depends on the first `n` volcanoes. */
  lemma {:induction false} PrefixAgrees(ws: seq<Volcano>, vs: seq<Volcano>, q: Point, dist: Distance, n: nat)
    requires n <= |ws| && n <= |vs|
    requires ws[..n] == vs[..n]
    ensures InfluencePrefix(ws, q, dist, n) == InfluencePrefix(vs, q, dist, n)
  {
    if n > 0 {
      assert ws[..n - 1] == vs[..n - 1] by {
        assert ws[..n - 1] == ws[..n][..n - 1];
        assert vs[..n - 1] == vs[..n][..n - 1];
      }
      assert ws[n - 1] == ws[..n][n - 1] == vs[..n][n - 1] == vs[n - 1];
      PrefixAgrees(ws, vs, q, dist, n - 1);
    }
  }

  /** Querying Kilauea's own coordinates finds a volcano at distance 0 and
      at least one active volcano nearby. */
  lemma KilaueaQuery(dist: Distance)
    ensures VolcanicInfluence(Volcanoes(), Point(19.42, -155.29), dist).nearest == Some(0.0)
    ensures VolcanicInfluence(Volcanoes(), Point(19.42, -155.29), dist).activeNearby >= 1
  {
    var vs := Volcanoes();
    assert vs[14] == Volcano("Kilauea", Point(19.42, -155.29), 1247, Active, 2023, 2);
    QueryAtActiveVolcano(vs, 14, dist);
  }

  /** Querying the site of an active volcano finds a volcano at distance 0
      and counts at least one active volcano nearby. */
  lemma QueryAtActiveVolcano(vs: seq<Volcano>, k: nat, dist: Distance)
    requires k < |vs| && vs[k].status == Active
    ensures VolcanicInfluence(vs, vs[k].location, dist).nearest == Some(0.0)
    ensures VolcanicInfluence(vs, vs[k].location, dist).activeNearby >= 1
  {
    var q := vs[k].location;
    var r := VolcanicInfluence(vs, q, dist);
    assert dist(q, vs[k].location) == 0.0;
    var i :| 0 <= i < |vs| && r.nearest.value == dist(q, vs[i].location);
    assert r.nearest.value <= 0.0;
    assert k in ActiveNearbySet(vs, q, dist, |vs|);
  }

  /** The catalogue lists Nemrut twice, so it is counted twice. */
  lemma NemrutListedTwice()
    ensures Volcanoes()[52] == Volcanoes()[64]
    ensures Volcanoes()[52].name == "Nemrut"
  {
  }
}

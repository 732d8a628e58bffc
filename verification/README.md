# Earthquake risk scoring, modelled in Dafny

This project models the deterministic core of an earthquake-risk demo
system. Three parts are covered:

- **The advanced predictor.** It holds a fixed table of plate boundaries
  and a fixed table of 78 volcanoes. It finds the nearest boundary and
  derives a tectonic stress index from it. It adds up a volcanic
  influence, scores a location as the mean of five risk factors, and
  estimates plausible quake parameters.
- **The plate simulator.** It holds four plates and projects their
  centres linearly in time. It reports the plate pairs that approach each
  other as collision zones, most probable first. It builds a global
  stress grid with a 3000 km cut-off and reads hotspots off that grid.
- **The integrated system.** At training time it adds a dominant-plate
  feature to each sample. Its comprehensive analysis blends seven factors
  with weights that total 1. It labels the result, attaches a
  recommendation, and reports a constant confidence.

## Modelling choices

- **Distance is abstract.** Great-circle distance is the parameter
  `dist: Geo.Distance`. The type only promises that a distance is
  non-negative and that the distance from a point to itself is 0.
- **Speed is abstract.** A plate's speed in cm/year is the parameter
  `speed: PlateSimulator.Speed`, which is only promised to be
  non-negative.
- **"No minimum yet" is explicit.** Every Python search that starts from
  `inf` returns an explicit "nothing found" value: `Option.None`,
  `Geology.NoBoundary`, or `Dominance.plate == None`.
- **First match wins.** The nearest-boundary, dominant-plate and
  closest-collision searches are the running minimum in `Nearest`. It
  replaces its candidate only on a strictly smaller distance, so on a tie
  the earliest entry wins. The nearest-volcano distance is a running
  minimum of its own inside `Geology.Visit`, alongside the risk and the
  count.
- **Reals, not floats.** All arithmetic is exact. The source's integer
  grid axes are Dafny `int`.
- **The score is not clamped.** Neither the magnitude factor
  (advanced_earthquake_predictor.py:485) nor the depth factor (:486) is
  clamped, so the score can leave [0, 1]. The bound is proved for
  magnitudes in [0, 10] and non-negative depths;
  `RiskAssessment.LargeMagnitudeExceedsUnitInterval` shows it failing
  above magnitude 50.
- **The volcano table is modelled as written.** Names are the source's
  literal strings, including the nine whose accented letters the source
  file stores as two-character sequences (`Po\U{221A}\U{B0}s` for line 136).
  The table lists Nemrut twice, at advanced_earthquake_predictor.py lines
  161 and 177, and the model keeps both rows. `Geology.NemrutListedTwice`
  records this.
- **The analysis leaves its grid behind.** `comprehensive_risk_analysis`
  stores the 5-degree grid in the simulator. The report is
  `IntegratedSystem.ComprehensiveRiskAnalysis`; the state it leaves is
  `IntegratedSystem.SystemAfterAnalysis`.

## Model

| member | source | states |
|---|---|---|
| ReferenceData.TectonicPlates | advanced_earthquake_predictor.py:32-76 | three named plates, each with a non-empty boundary list |
| ReferenceData.Volcanoes | advanced_earthquake_predictor.py:78-200 | the volcano table has 78 rows, in source order, with the source's literal names, coordinates, elevations, statuses, eruption years and VEIs |
| ReferenceData.BuiltinPlatesWellFormed | advanced_earthquake_predictor.py:32-76 | every built-in movement rate is non-negative and every boundary activity lies in [0, 1] |
| Geology.NemrutListedTwice | advanced_earthquake_predictor.py:161-177 | rows 52 and 64 of the volcano table are the same Nemrut record |
| Nearest.Scan | advanced_earthquake_predictor.py:209-216 | the running strict-`<` minimum ends at the first position of a minimum, and at "nothing" only for an empty list |
| Nearest.FirstMin | advanced_earthquake_predictor.py:203-216 | starting from infinity, the search finds the first minimum, or nothing for an empty list |
| Nearest.FirstMinUnique | advanced_earthquake_predictor.py:209-216 | at most one position is the first minimum |
| Nearest.FirstMinCharacterised | advanced_earthquake_predictor.py:209-216 | the search returns exactly the first minimum whenever one exists |
| Geology.Entries | advanced_earthquake_predictor.py:208-209 | the nested plate/boundary loop visits exactly the table's boundaries, in non-decreasing plate order |
| Geology.EntriesLayout | advanced_earthquake_predictor.py:208-209 | the visit holds every boundary exactly once: boundary j of plate i sits at position (boundaries of the earlier plates) + j |
| Geology.EntriesEmpty | advanced_earthquake_predictor.py:208-209 | the loop visits nothing iff every plate's boundary list is empty |
| Geology.NearestBoundary | advanced_earthquake_predictor.py:202-218 | finds a boundary iff some plate has one; the distance is at most every boundary's distance; plate, type and activity come from that boundary; every earlier boundary is strictly farther |
| Geology.BuiltinBoundaryAlwaysFound | advanced_earthquake_predictor.py:204-218 | on the built-in table the search always finds a boundary with a non-empty plate name |
| Geology.StressMultiplier | advanced_earthquake_predictor.py:254-260 | each boundary type has a positive multiplier |
| Geology.StressMultiplierOrder | advanced_earthquake_predictor.py:254-260 | the multipliers rank divergent < unknown < transform < convergent |
| Geology.PlateStress | advanced_earthquake_predictor.py:260-261 | the stress index is non-negative for a non-negative rate and activity |
| Geology.PlateStressAntitone | advanced_earthquake_predictor.py:260-261 | a nearer boundary never lowers the stress, and distances at or below 1 km all score the same |
| Geology.PredictPlateMovement | advanced_earthquake_predictor.py:245-265 | the result is (0, 0, none) iff no boundary is found or the plate name is empty; otherwise it is the rate and stress of the nearest boundary's plate; the stress is non-negative on a well-formed table |
| Geology.VolcanicInfluence | advanced_earthquake_predictor.py:220-243 | the nearest distance is the minimum over all volcanoes with no cut-off; the count is the number of active volcanoes within 500 km; the risk is the sum of the recent-active and dormant terms |
| Geology.Visit | advanced_earthquake_predictor.py:226-241 | one loop step adds the recent-active and dormant terms to the risk, counts an active volcano within 500 km, and keeps the smaller of the nearest distance and d |
| Geology.NearestPrefixSpec | advanced_earthquake_predictor.py:226-230 | after any prefix of the loop, the nearest distance is the minimum over that prefix |
| Geology.CountPrefixSpec | advanced_earthquake_predictor.py:232-235 | after any prefix of the loop, the count equals the set of active volcanoes within 500 km, whatever their eruption year |
| Geology.RiskPrefixSpec | advanced_earthquake_predictor.py:232-241 | after any prefix of the loop, the risk is the sum of `(vei/10)(500-d)/500` over recent active volcanoes plus `(vei/20)(500-d)/500` over dormant ones |
| Geology.VolcanicRiskNonNegative | advanced_earthquake_predictor.py:232-241 | both term sums are non-negative |
| Geology.VolcanicInfluenceNonNegative | advanced_earthquake_predictor.py:220-243 | the volcanic risk is never negative |
| Geology.ExtinctContributesNothing | advanced_earthquake_predictor.py:232-241 | appending an extinct volcano changes neither the risk nor the active count |
| Geology.KilaueaQuery | advanced_earthquake_predictor.py:226-235 | at Kilauea's coordinates the nearest volcano is 0 km away and at least one active volcano is nearby |
| Geology.QueryAtActiveVolcano | advanced_earthquake_predictor.py:226-235 | at the site of any active volcano in the table the nearest volcano is 0 km away and the active count is at least 1 |
| RiskAssessment.Proximity | advanced_earthquake_predictor.py:487 | `max(0, (r - d) / r)` is non-negative, at most 1 for a real distance, and 0 exactly when there is no distance or it is at least r |
| RiskAssessment.Capped | advanced_earthquake_predictor.py:488-489 | `min(1, x / s)` is at most 1, non-negative for x >= 0, and 1 exactly when x >= s |
| RiskAssessment.DepthFactor | advanced_earthquake_predictor.py:486 | the shallow-depth factor is non-negative, at most 1 for depths >= 0, and 0 exactly at 50 km or deeper |
| RiskAssessment.MagnitudeFactor | advanced_earthquake_predictor.py:485 | `magnitude / 10` lies in [0, 1] for magnitudes in [0, 10] and exceeds 1 exactly above 10 |
| RiskAssessment.BasicFactors | advanced_earthquake_predictor.py:484-490 | the five factors are, in order, magnitude/10, the shallow-depth factor, proximity to the boundary within 500 km, stress/50 capped at 1 and volcanic risk/5 capped at 1; each lies in [0, 1] when the magnitude is in [0, 10] and the other inputs are non-negative |
| RiskAssessment.EnhancedRiskAssessment | advanced_earthquake_predictor.py:466-517 | the factors are the five basic factors of the query's nearest-boundary distance, that boundary's stress and the volcanic risk at the query; the score is their mean; the label is the basic threshold label, never EXTREME |
| RiskAssessment.EnhancedRiskInUnitInterval | advanced_earthquake_predictor.py:484-492 | with a magnitude in [0, 10] and a non-negative depth, the score lies in [0, 1] |
| RiskAssessment.LargeMagnitudeExceedsUnitInterval | advanced_earthquake_predictor.py:484-492 | above magnitude 50 the score exceeds 1, because nothing clamps the magnitude factor |
| Levels.BasicLevel | advanced_earthquake_predictor.py:501-512 | VERY HIGH iff the score is > 0.7, HIGH iff in (0.5, 0.7], MODERATE iff in (0.3, 0.5], LOW otherwise |
| Levels.BasicLevelMonotone | advanced_earthquake_predictor.py:501-512 | a higher score never gets a less severe label |
| Blend.Mean | advanced_earthquake_predictor.py:492 | the mean of non-negative factors is non-negative |
| Blend.MeanOfUnitValues | advanced_earthquake_predictor.py:492 | the mean of factors in [0, 1] lies in [0, 1] |
| Blend.SumStep | advanced_earthquake_predictor.py:492 | `sum` accumulates left to right: each prefix sum is the previous one plus the next value |
| RiskAssessment.BaseMagnitudeDependsOnBand | advanced_earthquake_predictor.py:526-531 | the base magnitude depends on the distance only through the < 100 / < 300 / farther band |
| RiskAssessment.BaseMagnitudeAntitone | advanced_earthquake_predictor.py:526-531 | for an activity in [0, 1], a nearer boundary never lowers the base magnitude, and having no boundary is the lowest band |
| RiskAssessment.BaseMagnitude | advanced_earthquake_predictor.py:526-531 | for an activity in [0, 1] the base magnitude lies in [6.5, 8] below 100 km, in [5.5, 6.5] below 300 km, and in [4.5, 5] farther or with no boundary |
| RiskAssessment.VolcanicBump | advanced_earthquake_predictor.py:534-535 | the bump lies in [0, 0.9], is 0 iff no active volcano is nearby, and saturates at 3 volcanoes |
| RiskAssessment.Clamp | advanced_earthquake_predictor.py:546-547 | `max(lo, min(hi, x))` lies in [lo, hi] and keeps x when x is already inside |
| RiskAssessment.DepthDistribution | advanced_earthquake_predictor.py:538-543 | every boundary type draws the depth from a distribution with a positive spread |
| RiskAssessment.EstimateLocationParameters | advanced_earthquake_predictor.py:519-554 | the magnitude is the base magnitude plus the volcanic bump clamped to [3, 8.5]; the depth is the draw for the nearest boundary's type clamped to [1, 100]; the context repeats the boundary distance, plate name, boundary type and active count |
| RiskAssessment.EstimateMagnitudeSaturates | advanced_earthquake_predictor.py:526-546 | within 100 km of a fully active boundary with three active volcanoes nearby the raw magnitude is 8.9, so the estimate is capped at 8.5 |
| RiskAssessment.EstimateDepthSaturates | advanced_earthquake_predictor.py:538-547 | at a convergent boundary a draw beyond 100 km gives the deepest estimate, 100 km |
| PlateSimulator.InitializePlates | plate_movement_simulator.py:22-80 | four plates with distinct names and positive thickness and density |
| PlateSimulator.SimulatePlateMovement | plate_movement_simulator.py:82-108 | one movement per plate, in order; the current centre is the stored centre; the future centre is displaced by velocity times years in each coordinate; the speed is non-negative |
| Geo.Project | plate_movement_simulator.py:91-92 | projection moves each coordinate by velocity times years |
| Geo.ProjectComposes | plate_movement_simulator.py:91-92 | projecting a years and then b years equals projecting a + b years |
| PlateSimulator.SimulationComposes | plate_movement_simulator.py:86-92 | simulating from centres already advanced by a years equals simulating a + b years; a zero horizon leaves every centre in place |
| PlateSimulator.Pairs | plate_movement_simulator.py:115-116 | the nested loop visits each pair i < j exactly once and no other pair |
| PlateSimulator.PairsFromMembers | plate_movement_simulator.py:115-116 | the pairs visited from row `from` on are exactly those with from <= i < j < n |
| PlateSimulator.PairsFromDistinct | plate_movement_simulator.py:115-116 | no pair is visited twice |
| PlateSimulator.MakeZone | plate_movement_simulator.py:133-145 | for an approaching pair, the approach rate is current minus future distance and positive; the probability lies in (0, 1] and equals rate / current distance; the location is the midpoint of the future centres |
| PlateSimulator.ZonesOf | plate_movement_simulator.py:115-145 | every approaching pair among the visited pairs yields its zone, and every zone comes from such a pair |
| PlateSimulator.ZonesOfPerPair | plate_movement_simulator.py:115-145 | the zones are exactly one zone per approaching pair, in the order the pairs are visited |
| PlateSimulator.DetectCollisionZones | plate_movement_simulator.py:110-147 | zones are sorted by non-increasing probability and are a permutation of the per-pair zones; each has a probability in (0, 1] and a shrinking distance; there is a zone for every approaching pair i < j and no other |
| PlateSimulator.CollisionZonesPerPair | plate_movement_simulator.py:110-147 | exactly as many zones are reported as there are approaching pairs i < j |
| PlateSimulator.PairZonesSound | plate_movement_simulator.py:115-145 | every zone found over the visited pairs comes from an approaching pair i < j and has a probability in (0, 1] |
| PlateSimulator.PairZonesComplete | plate_movement_simulator.py:115-145 | every approaching pair i < j yields its zone |
| Sorting.SortDesc | plate_movement_simulator.py:147 | the output is non-increasing in the key and is a permutation of the input |
| Sorting.SortDescMembers | plate_movement_simulator.py:209 | sorting neither adds nor drops an element |
| PlateSimulator.Axis | plate_movement_simulator.py:152-153 | `np.arange` produces `start + k * step` at position k |
| PlateSimulator.AxisMembers | plate_movement_simulator.py:152-153 | with a positive step, a value is on the axis iff it is in [start, stop) and a whole number of steps from start |
| PlateSimulator.AxisDistinct | plate_movement_simulator.py:152-153 | a non-zero step gives distinct axis values |
| PlateSimulator.Contribution | plate_movement_simulator.py:177-182 | a plate adds nothing at 3000 km or more, and never a negative amount for a non-negative load |
| PlateSimulator.ContributionInsideRadius | plate_movement_simulator.py:177-181 | inside 3000 km the contribution times `1 + d/1000` is the plate's load; it never exceeds the load and is half of it at 1000 km |
| PlateSimulator.CellStress | plate_movement_simulator.py:158-182 | with non-negative loads the accumulated stress of a cell is non-negative |
| PlateSimulator.FarCellStaysZero | plate_movement_simulator.py:158-182 | a cell at least 3000 km from every plate centre stays at 0 |
| PlateSimulator.CellStressNonNegative | plate_movement_simulator.py:158-182 | with non-negative loads every cell is non-negative and at least each plate's contribution |
| PlateSimulator.StressAccumulation | plate_movement_simulator.py:149-185 | fails iff the resolution is 0; otherwise the axes are the two `arange`s and `stress[j][i]` is the accumulated stress at (lats[i], lons[j]) |
| PlateSimulator.CalculateStressAccumulation | plate_movement_simulator.py:149-185 | stores that grid in the simulator and leaves the plates unchanged |
| PlateSimulator.RowHotspots | plate_movement_simulator.py:200-207 | a row reports at most one hotspot per remaining cell |
| PlateSimulator.RowHotspotsSound | plate_movement_simulator.py:200-207 | a row reports only in-range cells above the threshold |
| PlateSimulator.RowHotspotsComplete | plate_movement_simulator.py:200-207 | a row reports every in-range cell above the threshold |
| PlateSimulator.GridHotspotsSound | plate_movement_simulator.py:198-207 | the row-major scan reports only in-range cells above the threshold |
| PlateSimulator.GridHotspotsComplete | plate_movement_simulator.py:198-207 | the row-major scan reports every in-range cell above the threshold |
| PlateSimulator.PredictSeismicHotspots | plate_movement_simulator.py:187-209 | fails iff no grid has been computed; otherwise every hotspot is an in-range cell above the threshold with the category of its stress, every such cell is reported, and the list is sorted by non-increasing stress |
| PlateSimulator.HotspotsListedOnce | plate_movement_simulator.py:197-209 | with distinct axis values, each cell above the threshold appears exactly once |
| PlateSimulator.RowCount | plate_movement_simulator.py:200-207 | a row lists a given above-threshold cell once if it is that cell's row and the scan has not passed it, and otherwise not at all |
| PlateSimulator.GridCount | plate_movement_simulator.py:200-207 | the scan from row i lists a given above-threshold cell once if its row is at or after i, and otherwise not at all |
| Levels.StressCategory | plate_movement_simulator.py:211-222 | EXTREME iff > 100, VERY HIGH iff in (75, 100], HIGH iff in (50, 75], MODERATE iff in (25, 50], LOW otherwise |
| Levels.StressCategoryMonotone | plate_movement_simulator.py:211-222 | more stress never gets a less severe category |
| IntegratedSystem.PlateInfluenceFactor | integrated_earthquake_system.py:60 | the factor lies in [0, v/1000] for v >= 0; it is 0 when there is no plate or d >= 3000; it is positive inside 3000 km for a moving plate |
| IntegratedSystem.DominantPlate | integrated_earthquake_system.py:41-61 | no plate iff there are no movements; otherwise the dominant plate is the first one at the smallest centre distance, and its speed and influence are reported |
| IntegratedSystem.DominantInfluenceRange | integrated_earthquake_system.py:41-61 | for moving plates, the influence is 0 iff every plate centre is at least 3000 km away |
| IntegratedSystem.ClosestCollision | integrated_earthquake_system.py:124-137 | no zone iff there are no zones; otherwise the first zone at the smallest distance |
| IntegratedSystem.ClosestCollisionDistance | integrated_earthquake_system.py:124-137 | the distance is absent iff there are no zones; otherwise it is the minimum of the zone distances |
| IntegratedSystem.LocalStressPrefix | integrated_earthquake_system.py:154-161 | the running value is non-negative, at least every attenuated hotspot within 100 km seen so far, and either 0 or one of them |
| IntegratedSystem.LocalStress | integrated_earthquake_system.py:154-161 | the local stress is the maximum of `stress * (100 - d) / 100` over hotspots within 100 km, or 0 |
| IntegratedSystem.LocalStressAtMostTop | integrated_earthquake_system.py:154-161 | attenuation never amplifies: with hotspot stresses in [0, top] the local stress is at most top |
| IntegratedSystem.AnalysisHotspots | integrated_earthquake_system.py:150-151 | the hotspots of the 5-degree grid of the projection are above 10, sorted by non-increasing stress, and include every grid cell above 10 |
| IntegratedSystem.IntegratedFactors | integrated_earthquake_system.py:171-179 | the first five factors are the basic assessment's; the collision factor is proximity within 1000 km of the closest zone, 0 iff there is no zone or it is at least 1000 km away; the stress factor is local stress/100 capped at 1; all seven lie in [0, 1] under the basic bounds |
| IntegratedSystem.Weights | integrated_earthquake_system.py:182-190 | seven non-negative weights, one per factor |
| IntegratedSystem.WeightsSumToOne | integrated_earthquake_system.py:182-190 | the seven weights total 1 |
| Blend.WeightedSumBounds | integrated_earthquake_system.py:192 | with non-negative weights, the weighted sum of factors in [0, 1] lies between 0 and the total weight |
| Blend.WeightedSumStep | integrated_earthquake_system.py:192 | the weighted sum accumulates factor times weight left to right |
| Blend.WeightedSumOfUnitValues | integrated_earthquake_system.py:192 | weights totalling 1 blend factors in [0, 1] into a score in [0, 1] |
| IntegratedSystem.ConfidenceScore | integrated_earthquake_system.py:233-253 | the confidence is always 0.775, labelled MODERATE |
| IntegratedSystem.GatherInputs | integrated_earthquake_system.py:97-161 | the boundary distance, stress and volcanic risk come from the predictor; the collision distance is the closest zone of the 100-year projection; the local stress is read off that projection's hotspots; on a well-formed table every input is non-negative |
| IntegratedSystem.ComprehensiveRiskAnalysis | integrated_earthquake_system.py:79-263 | missing magnitude and depth default to 6.0 and 15.0; the factors are the seven integrated factors of the gathered inputs; the score is their weighted sum; the label and recommendation follow the score; confidence is 0.775, MODERATE |
| IntegratedSystem.NoApproachNoCollisionFactor | integrated_earthquake_system.py:121-177 | when no two plates approach over the horizon there is no collision zone and the collision factor is 0 |
| IntegratedSystem.NearbyCollisionRaisesFactor | integrated_earthquake_system.py:121-177 | a collision zone within 1000 km of the query makes the collision factor positive |
| IntegratedSystem.StressFactorFromHotspots | integrated_earthquake_system.py:150-178 | the stress factor is the local stress over the analysis hotspots /100 capped at 1, and 0 when no hotspot is within 100 km |
| IntegratedSystem.SystemAfterAnalysis | integrated_earthquake_system.py:150-151 | the analysis leaves the simulator holding the 5-degree grid of the 100-year projection, with everything else unchanged, so a later hotspot query succeeds and returns the analysis hotspots |
| IntegratedSystem.ComprehensiveRiskInUnitInterval | integrated_earthquake_system.py:171-192 | with a magnitude in [0, 10] and a non-negative depth, the overall risk lies in [0, 1] |
| IntegratedSystem.ExtremeIsReachable | integrated_earthquake_system.py:204-207 | unlike the five-factor mean, the weighted score can reach EXTREME |
| Levels.IntegratedLevel | integrated_earthquake_system.py:204-223 | EXTREME iff > 0.8, VERY HIGH iff in (0.6, 0.8], HIGH iff in (0.4, 0.6], MODERATE iff in (0.2, 0.4], LOW otherwise |
| Levels.IntegratedLevelMonotone | integrated_earthquake_system.py:204-223 | a higher score never gets a less severe label |
| Levels.RecommendationInjective | integrated_earthquake_system.py:204-223 | each label has its own recommendation |
| Levels.RecommendationForScore | integrated_earthquake_system.py:204-223 | each recommendation string is given exactly for its score range: > 0.8, (0.6, 0.8], (0.4, 0.6], (0.2, 0.4] and at most 0.2 |
| Levels.ConfidenceLevel | integrated_earthquake_system.py:248-253 | HIGH iff > 0.8, MODERATE iff in (0.6, 0.8], LOW otherwise |

## Left out

- Great-circle distance (`geodesic` on the WGS-84 ellipsoid and `haversine_distance`) needs trigonometry on floats. It is the abstract `dist` parameter, so symmetry and exact values are not modelled.
- `movement_distance_km`, `velocity_cm_year` and `direction` in `simulate_plate_movement` use `sqrt`, `cos` and `arctan2`. The speed is the non-negative `speed` parameter, so neither the division by a zero horizon nor the negative speed a negative horizon gives is modelled.
- Floating point: the model computes in exact reals, so a score within rounding distance of a threshold such as 0.3 or 0.8 may be labelled differently than in IEEE arithmetic.
- The depth draw in `estimate_location_parameters` is random. It is the `normal` parameter of `RiskAssessment.EstimateLocationParameters`.
- Machine learning (all scikit-learn training and prediction), synthetic data generation, pandas column plumbing, and the training loop around the dominant-plate feature are not deterministic or are thin library wrappers. Only the per-sample feature (`IntegratedSystem.DominantPlate`) is modelled.
- Printing, `input()` prompts, the USGS HTTP fetch, `main()` functions, maps, plots and the printed-table scripts are I/O or rendering.
- `min_hotspot_dist` in `comprehensive_risk_analysis` is only printed, so it is not modelled.
- Sorting.SortDesc: stability (the order of equal keys that Python's `sorted` keeps) is not proved; the contract states ordering and permutation only.
- PlateSimulator.StressAccumulation: only integer grid resolutions are modelled. `np.arange` also accepts fractional steps.
- PlateSimulator.GridHotspots: its threshold, soundness and completeness facts are stated by `GridHotspotsSound` and `GridHotspotsComplete` rather than in its own contract, to keep the exact-count proofs cheap.
- PlateSimulator.HotspotsListedOnce: requires distinct axis values. `PlateSimulator.AxisDistinct` proves that every `np.arange` axis with a non-zero step has them.
- The stress loop looks a plate's thickness and density up by name in the simulator's table. The model reads them from the plate each movement was projected from, which is the same row whenever the movements come from that simulator.

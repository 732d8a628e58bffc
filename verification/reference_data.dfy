/** The static reference tables of the advanced predictor: plate
    boundaries grouped by named plate, and the volcano catalogue. */
module ReferenceData {
  import opened Geo

  /** Boundary types. `OtherKind` carries any tag other than
      "convergent", "transform" and "divergent", which have constructors of
      their own; it gets the default stress multiplier. */
  datatype BoundaryKind = Convergent | Transform | Divergent | OtherKind(tag: string)

  /** One sampled point of a plate boundary; `activity` lies in [0, 1]. */
  datatype Boundary = Boundary(location: Point, kind: BoundaryKind, activity: real)

  /** A named boundary system with its movement rate in cm/year. */
  datatype TectonicPlate = TectonicPlate(
    name: string,
    boundaries: seq<Boundary>,
    movementRate: real,
    direction: string)

  datatype VolcanoStatus = Active | Dormant | Extinct

  /** A volcano; `lastEruption` is a signed year (negative is BCE) and `vei`
      the Volcanic Explosivity Index. */
  datatype Volcano = Volcano(
    name: string,
    location: Point,
    elevation: int,
    status: VolcanoStatus,
    lastEruption: int,
    vei: nat)

  /** Activities lie in [0, 1] and movement rates are non-negative. */
  ghost predicate PlatesWellFormed(plates: seq<TectonicPlate>) {
    forall i :: 0 <= i < |plates| ==>
      && plates[i].movementRate >= 0.0
      && forall b :: b in plates[i].boundaries ==> 0.0 <= b.activity <= 1.0
  }

  /** The boundary table, in the order the search visits it. */
  function TectonicPlates(): (plates: seq<TectonicPlate>)
    ensures |plates| == 3
    ensures forall i :: 0 <= i < |plates| ==> |plates[i].boundaries| > 0
  {
    [
      TectonicPlate("Pacific_Ring_of_Fire", [
        Boundary(Point(60.0, -140.0), Transform, 0.8),
        Boundary(Point(40.0, -125.0), Transform, 0.9),
        Boundary(Point(35.0, -120.0), Transform, 0.95),
        Boundary(Point(20.0, -105.0), Divergent, 0.7),
        Boundary(Point(0.0, -90.0), Convergent, 0.85),
        Boundary(Point(-20.0, -70.0), Convergent, 0.8),
        Boundary(Point(-40.0, -75.0), Transform, 0.6)
      ], 3.5, "northwest"),
      TectonicPlate("Mid_Atlantic_Ridge", [
        Boundary(Point(70.0, -10.0), Divergent, 0.6),
        Boundary(Point(50.0, -30.0), Divergent, 0.7),
        Boundary(Point(30.0, -40.0), Divergent, 0.65),
        Boundary(Point(0.0, -25.0), Divergent, 0.8),
        Boundary(Point(-30.0, -15.0), Divergent, 0.7),
        Boundary(Point(-50.0, 0.0), Divergent, 0.6)
      ], 2.5, "spreading"),
      TectonicPlate("Himalayan_Front", [
        Boundary(Point(35.0, 70.0), Convergent, 0.9),
        Boundary(Point(30.0, 80.0), Convergent, 0.95),
        Boundary(Point(28.0, 85.0), Convergent, 1.0),
        Boundary(Point(30.0, 90.0), Convergent, 0.9),
        Boundary(Point(32.0, 95.0), Convergent, 0.85)
      ], 5.0, "northward")
    ]
  }

  /** The volcano catalogue, region by region in table order. */
  function Volcanoes(): (volcanoes: seq<Volcano>)
    ensures |volcanoes| == 78
  {
    WesternAmericas()
      + CaliforniaNevada()
      + Alaska()
      + Hawaii()
      + Japan()
      + Indonesia()
      + Philippines()
      + NewZealand()
      + CentralAmerica()
      + SouthAmerica()
      + Italy()
      + Iceland()
      + Turkey()
      + Kamchatka()
      + KurilIslands()
      + Supervolcanoes()
      + EastAfrica()
      + Mexico()
      + Caribbean()
  }

  /** Cascade arc of the Pacific north-west. */
  function WesternAmericas(): (vs: seq<Volcano>)
    ensures |vs| == 6
  {
    [
      Volcano("Mount St. Helens", Point(46.20, -122.18), 2549, Active, 2008, 5),
      Volcano("Mount Rainier", Point(46.85, -121.76), 4392, Active, 1894, 4),
      Volcano("Mount Baker", Point(48.78, -121.81), 3286, Active, 1880, 3),
      Volcano("Mount Shasta", Point(41.41, -122.19), 4322, Active, 1786, 4),
      Volcano("Lassen Peak", Point(40.49, -121.51), 3187, Active, 1917, 3),
      Volcano("Mount Mazama", Point(42.94, -122.11), 2487, Extinct, -5677, 7)
    ]
  }

  /** Eastern California, near the San Andreas system. */
  function CaliforniaNevada(): (vs: seq<Volcano>)
    ensures |vs| == 4
  {
    [
      Volcano("Mammoth Mountain", Point(37.63, -119.03), 3369, Active, 1260, 3),
      Volcano("Long Valley Caldera", Point(37.70, -118.87), 2500, Active, 1350, 6),
      Volcano("Mono-Inyo Craters", Point(37.88, -119.03), 2581, Active, 1350, 3),
      Volcano("Coso Volcanic Field", Point(36.03, -117.82), 2400, Active, 1040, 2)
    ]
  }

  /** Alaska and the Aleutian arc. */
  function Alaska(): (vs: seq<Volcano>)
    ensures |vs| == 4
  {
    [
      Volcano("Mount Redoubt", Point(60.49, -152.74), 3108, Active, 2009, 4),
      Volcano("Mount Cleveland", Point(52.82, -169.95), 1730, Active, 2023, 3),
      Volcano("Katmai", Point(58.28, -154.96), 2047, Active, 1912, 6),
      Volcano("Aniakchak", Point(56.88, -158.17), 1341, Active, 1931, 5)
    ]
  }

  /** The Hawaiian hotspot. */
  function Hawaii(): (vs: seq<Volcano>)
    ensures |vs| == 3
  {
    [
      Volcano("Kilauea", Point(19.42, -155.29), 1247, Active, 2023, 2),
      Volcano("Mauna Loa", Point(19.48, -155.61), 4169, Active, 2022, 2),
      Volcano("Hualalai", Point(19.69, -155.87), 2521, Active, 1801, 2)
    ]
  }

  /** Japan. */
  function Japan(): (vs: seq<Volcano>)
    ensures |vs| == 5
  {
    [
      Volcano("Mount Fuji", Point(35.36, 138.73), 3776, Active, 1707, 3),
      Volcano("Sakurajima", Point(31.59, 130.66), 1117, Active, 2024, 4),
      Volcano("Mount Asama", Point(36.40, 138.53), 2568, Active, 2019, 3),
      Volcano("Unzen", Point(32.76, 130.30), 1483, Active, 1996, 3),
      Volcano("Aso", Point(32.88, 131.10), 1592, Active, 2021, 4)
    ]
  }

  /** Indonesia (Sumatra, Java, Sumbawa). */
  function Indonesia(): (vs: seq<Volcano>)
    ensures |vs| == 6
  {
    [
      Volcano("Krakatoa", Point(-6.10, 105.42), 813, Active, 2020, 6),
      Volcano("Tambora", Point(-8.25, 118.00), 2722, Active, 1967, 7),
      Volcano("Merapi", Point(-7.54, 110.45), 2910, Active, 2023, 4),
      Volcano("Kelud", Point(-7.93, 112.31), 1731, Active, 2014, 4),
      Volcano("Sinabung", Point(3.17, 98.39), 2460, Active, 2023, 3),
      Volcano("Toba", Point(2.69, 98.83), 505, Dormant, -72000, 8)
    ]
  }

  /** The Philippines. */
  function Philippines(): (vs: seq<Volcano>)
    ensures |vs| == 3
  {
    [
      Volcano("Mayon", Point(13.26, 123.69), 2463, Active, 2023, 4),
      Volcano("Pinatubo", Point(15.13, 120.35), 1486, Active, 1993, 6),
      Volcano("Taal", Point(14.00, 120.99), 311, Active, 2022, 4)
    ]
  }

  /** New Zealand's North Island. */
  function NewZealand(): (vs: seq<Volcano>)
    ensures |vs| == 3
  {
    [
      Volcano("Ruapehu", Point(-39.28, 175.57), 2797, Active, 2007, 3),
      Volcano("Tarawera", Point(-38.23, 176.51), 1111, Active, 1886, 5),
      Volcano("White Island", Point(-37.52, 177.18), 321, Active, 2019, 2)
    ]
  }

  /** Costa Rica and Nicaragua. */
  function CentralAmerica(): (vs: seq<Volcano>)
    ensures |vs| == 4
  {
    [
      Volcano("Arenal", Point(10.46, -84.70), 1633, Active, 2010, 3),
      Volcano("Po\U{221A}\U{B0}s", Point(10.20, -84.23), 2708, Active, 2021, 2),
      Volcano("Iraz\U{221A}\U{222B}", Point(9.98, -83.85), 3432, Active, 1994, 3),
      Volcano("Masaya", Point(11.98, -86.16), 635, Active, 2023, 2)
    ]
  }

  /** The Andes of Ecuador and Chile. */
  function SouthAmerica(): (vs: seq<Volcano>)
    ensures |vs| == 4
  {
    [
      Volcano("Cotopaxi", Point(-0.68, -78.44), 5897, Active, 2016, 4),
      Volcano("Reventador", Point(-0.08, -77.66), 3562, Active, 2024, 3),
      Volcano("Villarrica", Point(-39.42, -71.93), 2847, Active, 2023, 2),
      Volcano("Llaima", Point(-38.69, -71.73), 3125, Active, 2009, 2)
    ]
  }

  /** Southern Italy. */
  function Italy(): (vs: seq<Volcano>)
    ensures |vs| == 4
  {
    [
      Volcano("Mount Vesuvius", Point(40.82, 14.43), 1281, Active, 1944, 4),
      Volcano("Mount Etna", Point(37.75, 14.99), 3329, Active, 2024, 3),
      Volcano("Stromboli", Point(38.79, 15.21), 924, Active, 2024, 2),
      Volcano("Vulcano", Point(38.40, 14.96), 499, Active, 1890, 3)
    ]
  }

  /** Iceland. */
  function Iceland(): (vs: seq<Volcano>)
    ensures |vs| == 5
  {
    [
      Volcano("Eyjafjallaj\U{221A}\U{2202}kull", Point(63.63, -19.62), 1651, Active, 2010, 4),
      Volcano("Hekla", Point(63.98, -19.70), 1491, Active, 2000, 3),
      Volcano("Katla", Point(63.63, -19.05), 1512, Active, 1918, 4),
      Volcano("Gr\U{221A}\U{2260}msv\U{221A}\U{2202}tn", Point(64.42, -17.33), 1725, Active, 2011, 3),
      Volcano("B\U{221A}\U{B0}r\U{221A}\U{221E}arbunga", Point(64.64, -17.53), 2009, Active, 2015, 2)
    ]
  }

  /** Eastern Anatolia. */
  function Turkey(): (vs: seq<Volcano>)
    ensures |vs| == 2
  {
    [
      Volcano("Mount Ararat", Point(39.70, 44.30), 5137, Dormant, -2500, 4),
      Volcano("Nemrut", Point(38.65, 42.23), 3050, Active, 1597, 3)
    ]
  }

  /** Kamchatka. */
  function Kamchatka(): (vs: seq<Volcano>)
    ensures |vs| == 8
  {
    [
      Volcano("Shiveluch", Point(56.65, 161.36), 3283, Active, 2024, 4),
      Volcano("Klyuchevskoy", Point(56.06, 160.64), 4754, Active, 2024, 3),
      Volcano("Bezymianny", Point(55.97, 160.60), 2882, Active, 2024, 5),
      Volcano("Karymsky", Point(54.05, 159.45), 1536, Active, 2024, 3),
      Volcano("Avachinsky", Point(53.26, 158.83), 2741, Active, 2001, 3),
      Volcano("Mutnovsky", Point(52.45, 158.20), 2323, Active, 2000, 2),
      Volcano("Tolbachik", Point(55.83, 160.33), 3682, Active, 2013, 3),
      Volcano("Zhupanovsky", Point(53.59, 159.15), 2958, Active, 2016, 2)
    ]
  }

  /** The Kuril Islands; the last row repeats Nemrut. */
  function KurilIslands(): (vs: seq<Volcano>)
    ensures |vs| == 4
  {
    [
      Volcano("Ebeko", Point(50.69, 156.01), 1103, Active, 2024, 2),
      Volcano("Chikurachki", Point(50.32, 155.46), 1816, Active, 2023, 3),
      Volcano("Sarychev Peak", Point(48.09, 153.20), 1496, Active, 2009, 4),
      Volcano("Nemrut", Point(38.65, 42.23), 3050, Active, 1597, 3)
    ]
  }

  /** Large calderas, including Campi Flegrei. */
  function Supervolcanoes(): (vs: seq<Volcano>)
    ensures |vs| == 3
  {
    [
      Volcano("Yellowstone", Point(44.43, -110.67), 2805, Dormant, -70000, 8),
      Volcano("Valles Caldera", Point(35.87, -106.57), 3430, Dormant, -50000, 6),
      Volcano("Campi Flegrei", Point(40.83, 14.14), 458, Active, 1538, 7)
    ]
  }

  /** The East African Rift. */
  function EastAfrica(): (vs: seq<Volcano>)
    ensures |vs| == 3
  {
    [
      Volcano("Kilimanjaro", Point(-3.07, 37.35), 5895, Dormant, -360000, 4),
      Volcano("Ol Doinyo Lengai", Point(-2.76, 35.91), 2962, Active, 2013, 2),
      Volcano("Erta Ale", Point(13.60, 40.67), 613, Active, 2023, 2)
    ]
  }

  /** Mexico and Guatemala. */
  function Mexico(): (vs: seq<Volcano>)
    ensures |vs| == 4
  {
    [
      Volcano("Popocat\U{221A}\U{A9}petl", Point(19.02, -98.62), 5426, Active, 2024, 3),
      Volcano("Colima", Point(19.51, -103.62), 3850, Active, 2017, 3),
      Volcano("Pico de Orizaba", Point(19.03, -97.27), 5636, Dormant, 1687, 2),
      Volcano("Fuego", Point(14.47, -90.88), 3763, Active, 2024, 4)
    ]
  }

  /** The Lesser Antilles. */
  function Caribbean(): (vs: seq<Volcano>)
    ensures |vs| == 3
  {
    [
      Volcano("Soufri\U{221A}\U{AE}re Hills", Point(16.72, -62.18), 915, Active, 2013, 3),
      Volcano("Mount Pel\U{221A}\U{A9}e", Point(14.82, -61.17), 1397, Active, 1932, 4),
      Volcano("La Soufri\U{221A}\U{AE}re (St. Vincent)", Point(13.33, -61.18), 1234, Active, 2021, 4)
    ]
  }

  /** The built-in boundary table satisfies the ranges the scoring relies on. */
  lemma BuiltinPlatesWellFormed()
    ensures PlatesWellFormed(TectonicPlates())
  {
  }
}

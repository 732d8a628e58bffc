/** Geographic points, velocities and the abstract great-circle distance. */
module Geo {

  /** A location in degrees. */
  datatype Point = Point(lat: real, lon: real)

  /** A plate velocity in degrees of latitude and longitude per year. */
  datatype Velocity = Velocity(lat: real, lon: real)

  /** A great-circle distance in kilometres. The geodesic and haversine
      formulas need trigonometry, so the model only assumes what every
      metric promises that the scoring relies on: distances are never
      negative and a point is at distance zero from itself. */
  type Distance = f: (Point, Point) -> real
    | (forall p, q :: f(p, q) >= 0.0) && (forall p :: f(p, p) == 0.0)
    witness (p: Point, q: Point) => 0.0

  /** Linear extrapolation of a point along a velocity. */
  function Project(p: Point, v: Velocity, years: real): (r: Point)
    ensures r.lat - p.lat == v.lat * years
    ensures r.lon - p.lon == v.lon * years
  {
    Point(p.lat + v.lat * years, p.lon + v.lon * years)
  }

  /** Projecting over zero years leaves the point where it is. */
  lemma ProjectZero(p: Point, v: Velocity)
    ensures Project(p, v, 0.0) == p
  {
  }

  /** Two projections in a row are one projection over the summed horizon. */
  lemma ProjectComposes(p: Point, v: Velocity, a: real, b: real)
    ensures Project(Project(p, v, a), v, b) == Project(p, v, a + b)
  {
  }

  /** The point half-way between two points, coordinate by coordinate. */
  function Midpoint(p: Point, q: Point): (m: Point)
    ensures m.lat - p.lat == q.lat - m.lat
    ensures m.lon - p.lon == q.lon - m.lon
  {
    Point((p.lat + q.lat) / 2.0, (p.lon + q.lon) / 2.0)
  }
}

/** Geographic points and the geodesic distance between them. */
module Geo {

  /** A point in decimal degrees, with named fields. */
  datatype Coordinates = Coordinates(latitude: real, longitude: real)

  /** The `Coordinates` class is not part of this model, so the order of its positional
      constructor arguments is unknown; code that builds it positionally is modelled for
      either order. */
  datatype CoordinatesLayout = LatitudeFirst | LongitudeFirst

  /** `Coordinates(first, second)` called positionally. */
  function Positional(layout: CoordinatesLayout, first: real, second: real): (c: Coordinates)
    ensures {c.latitude, c.longitude} == {first, second}
  {
    match layout
    case LatitudeFirst => Coordinates(latitude := first, longitude := second)
    case LongitudeFirst => Coordinates(latitude := second, longitude := first)
  }

  /** The geodesic surface distance in kilometres (geopy's ellipsoidal `geodesic`),
      left uninterpreted except that it is never negative. */
  type Geodesic = f: (Coordinates, Coordinates) -> real | forall p, q :: f(p, q) >= 0.0
    witness (p: Coordinates, q: Coordinates) => 0.0
}

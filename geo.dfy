/** Great-circle distance.

    `calculateDistance(lat1, lng1, lat2, lng2)` in lib/tanker-allocation.ts is the
    haversine formula on a sphere of radius 6371 km, computed with floating-point
    trigonometry. Trigonometry is not modelled: every operation that needs a
    distance in kilometres receives the distance function as a parameter, of which
    the model assumes only what the formula guarantees -- it is never negative and
    a point is at distance 0 from itself. */
module Geo {

  type DistanceFn = f: (real, real, real, real) -> real
    | (forall lat1, lng1, lat2, lng2 :: f(lat1, lng1, lat2, lng2) >= 0.0)
      && (forall lat, lng :: f(lat, lng, lat, lng) == 0.0)
    witness (lat1: real, lng1: real, lat2: real, lng2: real) => 0.0
}

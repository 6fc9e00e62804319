/** Approximate-location comparison: country code, then city, then the
    great-circle distance between the two coordinate pairs, banded. The
    haversine formula itself is not modelled: the distance is a parameter. */
module Geo {
  import opened Common

  datatype Location = Location(
    country: Option<string>,
    countryCode: Option<string>,
    city: Option<string>,
    region: Option<string>,
    latitude: Option<real>,
    longitude: Option<real>)

  /** Distance in km between (lat1, lon1) and (lat2, lon2). */
  type DistanceFn = (real, real, real, real) -> real

  /** JavaScript truthiness of an optional number: absent and 0 are falsy. */
  predicate Truthy(x: Option<real>)
  {
    x.Some? && x.value != 0.0
  }

  predicate HasCoordinates(l: Location)
  {
    Truthy(l.latitude) && Truthy(l.longitude)
  }

  /** The distance between the two coordinate pairs (meaningful when both have coordinates). */
  function DistanceBetween(a: Location, b: Location, distance: DistanceFn): real
    requires HasCoordinates(a) && HasCoordinates(b)
  {
    distance(a.latitude.value, a.longitude.value, b.latitude.value, b.longitude.value)
  }

  function DistanceBand(d: real): (r: real)
    ensures r in {1.0, 0.8, 0.6, 0.2}
  {
    if d <= 50.0 then 1.0
    else if d <= 100.0 then 0.8
    else if d <= 200.0 then 0.6
    else 0.2
  }

  /** `calculateLocationSimilarity` */
  function Similarity(a: Option<Location>, b: Option<Location>, distance: DistanceFn): (r: real)
    ensures 0.0 <= r <= 1.0
    ensures r in {0.0, 0.1, 0.2, 0.3, 0.6, 0.8, 1.0}
    ensures r == 0.0 <==> a.None? || b.None?
  {
    if a.None? || b.None? then 0.0
    else if a.value.countryCode != b.value.countryCode then 0.1
    else if a.value.city != b.value.city then 0.3
    else if HasCoordinates(a.value) && HasCoordinates(b.value) then
      DistanceBand(DistanceBetween(a.value, b.value, distance))
    else 1.0
  }

  /** A farther distance never gives a higher band. */
  lemma BandIsMonotone(d1: real, d2: real)
    requires d1 <= d2
    ensures DistanceBand(d2) <= DistanceBand(d1)
  {
  }

  /** With a symmetric distance, similarity does not depend on the order of its arguments. */
  lemma SimilarityIsSymmetric(a: Option<Location>, b: Option<Location>, distance: DistanceFn)
    requires forall x1, y1, x2, y2 :: distance(x1, y1, x2, y2) == distance(x2, y2, x1, y1)
    ensures Similarity(a, b, distance) == Similarity(b, a, distance)
  {
    if a.Some? && b.Some? && HasCoordinates(a.value) && HasCoordinates(b.value) {
      assert DistanceBetween(a.value, b.value, distance) == DistanceBetween(b.value, a.value, distance);
    }
  }

  /** A location compared with itself is fully similar when a point is within 50 km of itself. */
  lemma SamePlaceIsFullySimilar(l: Location, distance: DistanceFn)
    requires HasCoordinates(l) ==> DistanceBetween(l, l, distance) <= 50.0
    ensures Similarity(Some(l), Some(l), distance) == 1.0
  {
  }

  /** Similarity below one half: a location is missing, the country code or city differs, or the points are more than 200 km apart. */
  lemma BelowHalfIff(a: Option<Location>, b: Option<Location>, distance: DistanceFn)
    ensures Similarity(a, b, distance) < 0.5 <==>
      a.None? || b.None? || a.value.countryCode != b.value.countryCode || a.value.city != b.value.city
      || (HasCoordinates(a.value) && HasCoordinates(b.value) && DistanceBetween(a.value, b.value, distance) > 200.0)
  {
  }

  /** Similarity above 0.7: same country code and city, and the points (when both are known) at most 100 km apart. */
  lemma AboveSevenTenthsIff(a: Option<Location>, b: Option<Location>, distance: DistanceFn)
    ensures Similarity(a, b, distance) > 0.7 <==>
      a.Some? && b.Some? && a.value.countryCode == b.value.countryCode && a.value.city == b.value.city
      && (HasCoordinates(a.value) && HasCoordinates(b.value) ==> DistanceBetween(a.value, b.value, distance) <= 100.0)
  {
  }
}

/** The priority rule applied when a complaint is created: a report close to a
    sensitive zone (a hospital, a school) is high priority. */
module Location {

  datatype Zone = Zone(name: string, lat: real, lng: real)

  /** The fixed list of sensitive zones. */
  const SensitiveZones: seq<Zone> := [
    Zone("City Hospital", 12.9716, 77.5946),
    Zone("Global School", 12.9352, 77.6245)
  ]

  /** Strict radius, in meters, around a sensitive zone. */
  const Radius: real := 200.0

  /** Great-circle distance in meters from (lat1, lon1) to (lat2, lon2). The
      floating-point formula stays abstract: every rule below takes it as a
      parameter. */
  type Distance = (real, real, real, real) -> real

  /** The only property of the distance the rules rely on. */
  ghost predicate ZeroAtSamePoint(dist: Distance) {
    forall lat, lng :: dist(lat, lng, lat, lng) == 0.0
  }

  /** Some zone of `zones` lies strictly within the radius of (lat, lng):
      a short-circuit scan of the list from the front. */
  function AnyZoneWithin(zones: seq<Zone>, dist: Distance, lat: real, lng: real): (near: bool)
    ensures near <==> exists z :: z in zones && dist(lat, lng, z.lat, z.lng) < Radius
  {
    if |zones| == 0 then false
    else if dist(lat, lng, zones[0].lat, zones[0].lng) < Radius then true
    else AnyZoneWithin(zones[1..], dist, lat, lng)
  }

  /** The priority check used by complaint submission. */
  function CheckPriority(dist: Distance, lat: real, lng: real): (high: bool)
    ensures high <==>
      dist(lat, lng, 12.9716, 77.5946) < 200.0 || dist(lat, lng, 12.9352, 77.6245) < 200.0
  {
    AnyZoneWithin(SensitiveZones, dist, lat, lng)
  }

  /** A point at exactly the radius, or beyond, from every zone is not high priority. */
  lemma {:induction false} AtOrBeyondRadiusIsNormal(zones: seq<Zone>, dist: Distance, lat: real, lng: real)
    requires forall i :: 0 <= i < |zones| ==> dist(lat, lng, zones[i].lat, zones[i].lng) >= Radius
    ensures !AnyZoneWithin(zones, dist, lat, lng)
  {
    if |zones| > 0 {
      assert dist(lat, lng, zones[0].lat, zones[0].lng) >= Radius;
      AtOrBeyondRadiusIsNormal(zones[1..], dist, lat, lng);
    }
  }

  /** A distance of exactly 200 to the only zone in range does not count. */
  lemma ExactlyRadiusIsNormal(dist: Distance, lat: real, lng: real)
    requires dist(lat, lng, 12.9716, 77.5946) == 200.0
    requires dist(lat, lng, 12.9352, 77.6245) >= 200.0
    ensures !CheckPriority(dist, lat, lng)
  {
  }

  /** The rule is an existential over the zones, so their order does not matter. */
  lemma ZoneOrderIrrelevant(zones: seq<Zone>, reordered: seq<Zone>, dist: Distance, lat: real, lng: real)
    requires multiset(zones) == multiset(reordered)
    ensures AnyZoneWithin(zones, dist, lat, lng) == AnyZoneWithin(reordered, dist, lat, lng)
  {
    forall z | true
      ensures z in zones <==> z in reordered
    {
      assert z in zones <==> z in multiset(zones);
      assert z in reordered <==> z in multiset(reordered);
    }
  }

  /** A report taken exactly at a zone is high priority. */
  lemma AtZoneIsHigh(dist: Distance, i: nat)
    requires ZeroAtSamePoint(dist)
    requires i < |SensitiveZones|
    ensures CheckPriority(dist, SensitiveZones[i].lat, SensitiveZones[i].lng)
  {
    var z := SensitiveZones[i];
    assert dist(z.lat, z.lng, z.lat, z.lng) == 0.0;
  }

  /** The seeded complaint at (12.9716, 77.5946), the City Hospital, is high
      priority, as its stored priority says. */
  lemma HospitalReportIsHigh(dist: Distance)
    requires ZeroAtSamePoint(dist)
    ensures CheckPriority(dist, 12.9716, 77.5946)
  {
    AtZoneIsHigh(dist, 0);
  }
}

/** The client-side geofence helpers: a radius test, the distance-annotated and
    distance-ordered list of drivers inside a radius, and the 30 km/h arrival estimate. */
module Geofencing {
  import opened Common

  /** A driver position; `distance` is filled in by `FilterDriversByGeofence`. */
  datatype DriverLocation = DriverLocation(id: string, latitude: real, longitude: real, distance: Option<real>)

  /** A driver position whose distance has been computed. */
  type MeasuredLocation = d: DriverLocation | d.distance.Some?
    witness DriverLocation("", 0.0, 0.0, Some(0.0))

  /** `isWithinGeofence`: the point lies within `radiusKm` of the centre, boundary included. */
  predicate IsWithinGeofence(dist: DistanceFn, pointLat: real, pointLon: real,
                             centerLat: real, centerLon: real, radiusKm: real)
  {
    dist(pointLat, pointLon, centerLat, centerLon) <= radiusKm
  }

  /** `{...driver, distance: calculateDistance(pickup, driver)}`. */
  function Measure(dist: DistanceFn, pickupLat: real, pickupLon: real, d: DriverLocation): MeasuredLocation
  {
    d.(distance := Some(dist(pickupLat, pickupLon, d.latitude, d.longitude)))
  }

  function MeasureAll(dist: DistanceFn, pickupLat: real, pickupLon: real,
                      drivers: seq<DriverLocation>): seq<MeasuredLocation>
  {
    seq(|drivers|, i requires 0 <= i < |drivers| => Measure(dist, pickupLat, pickupLon, drivers[i]))
  }

  function Key(d: MeasuredLocation): real
  {
    d.distance.value
  }

  predicate SortedByDistance(s: seq<MeasuredLocation>)
  {
    forall i, j :: 0 <= i < j < |s| ==> Key(s[i]) <= Key(s[j])
  }

  /** Every entry of `s` is at least `b` away. */
  predicate AllAtLeast(b: real, s: seq<MeasuredLocation>)
  {
    forall d :: d in s ==> b <= Key(d)
  }

  lemma PrependSorted(y: MeasuredLocation, t: seq<MeasuredLocation>)
    requires SortedByDistance(t) && AllAtLeast(Key(y), t)
    ensures SortedByDistance([y] + t)
  {
    forall i, j | 0 <= i < j < |[y] + t|
      ensures Key(([y] + t)[i]) <= Key(([y] + t)[j])
    {
      if i > 0 {
        assert ([y] + t)[i] == t[i - 1] && ([y] + t)[j] == t[j - 1];
      } else {
        assert ([y] + t)[j] == t[j - 1];
        assert t[j - 1] in t;
      }
    }
  }

  lemma AllAtLeastOfPermutation(b: real, t: seq<MeasuredLocation>, u: seq<MeasuredLocation>, x: MeasuredLocation)
    requires AllAtLeast(b, u) && b <= Key(x)
    requires multiset(t) == multiset(u) + multiset{x}
    ensures AllAtLeast(b, t)
  {
    forall d | d in t
      ensures b <= Key(d)
    {
      assert d in multiset(t);
      assert d == x || d in multiset(u);
    }
  }

  lemma SortedTail(s: seq<MeasuredLocation>)
    requires SortedByDistance(s) && s != []
    ensures SortedByDistance(s[1..]) && AllAtLeast(Key(s[0]), s[1..])
  {
    forall d | d in s[1..]
      ensures Key(s[0]) <= Key(d)
    {
      var k :| 0 <= k < |s[1..]| && s[1..][k] == d;
      assert s[k + 1] == d;
    }
  }

  /** Inserts `x` before the first element that is not closer than it. */
  function InsertByDistance(x: MeasuredLocation, s: seq<MeasuredLocation>): (r: seq<MeasuredLocation>)
    requires SortedByDistance(s)
    ensures SortedByDistance(r)
    ensures multiset(r) == multiset(s) + multiset{x}
  {
    if s == [] then [x]
    else
      SortedTail(s);
      if Key(x) <= Key(s[0]) then
        assert AllAtLeast(Key(x), s) by {
          assert s == [s[0]] + s[1..];
        }
        PrependSorted(x, s);
        [x] + s
      else
        assert s == [s[0]] + s[1..];
        var rest := InsertByDistance(x, s[1..]);
        AllAtLeastOfPermutation(Key(s[0]), rest, s[1..], x);
        PrependSorted(s[0], rest);
        [s[0]] + rest
  }

  /** `.sort((a, b) => a.distance - b.distance)`: a stable insertion sort on the distance. */
  function SortByDistance(s: seq<MeasuredLocation>): (r: seq<MeasuredLocation>)
    ensures SortedByDistance(r)
    ensures multiset(r) == multiset(s)
  {
    if s == [] then []
    else
      assert s == [s[0]] + s[1..];
      InsertByDistance(s[0], SortByDistance(s[1..]))
  }

  /** The drivers within the radius of the pickup, each annotated with its distance: the
      map / filter / sort chain of `filterDriversByGeofence`. */
  function FilterDriversByGeofence(dist: DistanceFn, pickupLat: real, pickupLon: real,
                                   drivers: seq<DriverLocation>, radiusKm: real): (r: seq<MeasuredLocation>)
    ensures SortedByDistance(r)
    ensures multiset(r) == multiset(Filter(MeasureAll(dist, pickupLat, pickupLon, drivers),
                                           (d: MeasuredLocation) => Key(d) <= radiusKm))
  {
    SortByDistance(Filter(MeasureAll(dist, pickupLat, pickupLon, drivers),
                          (d: MeasuredLocation) => Key(d) <= radiusKm))
  }

  /** Exactly the drivers inside the geofence around the pickup appear in the result, each
      with its own id and position and the distance from the pickup. */
  lemma GeofenceMembership(dist: DistanceFn, pickupLat: real, pickupLon: real,
                           drivers: seq<DriverLocation>, radiusKm: real)
    ensures forall i :: 0 <= i < |drivers| &&
                        IsWithinGeofence(dist, pickupLat, pickupLon, drivers[i].latitude, drivers[i].longitude, radiusKm)
                        ==> Measure(dist, pickupLat, pickupLon, drivers[i])
                            in FilterDriversByGeofence(dist, pickupLat, pickupLon, drivers, radiusKm)
    ensures forall e :: e in FilterDriversByGeofence(dist, pickupLat, pickupLon, drivers, radiusKm) ==>
              exists i :: 0 <= i < |drivers| && e == Measure(dist, pickupLat, pickupLon, drivers[i]) &&
                          e.id == drivers[i].id && e.latitude == drivers[i].latitude &&
                          e.longitude == drivers[i].longitude &&
                          e.distance == Some(dist(pickupLat, pickupLon, drivers[i].latitude, drivers[i].longitude)) &&
                          IsWithinGeofence(dist, pickupLat, pickupLon, drivers[i].latitude, drivers[i].longitude, radiusKm)
  {
    var measured := MeasureAll(dist, pickupLat, pickupLon, drivers);
    var inside := Filter(measured, (d: MeasuredLocation) => Key(d) <= radiusKm);
    var r := FilterDriversByGeofence(dist, pickupLat, pickupLon, drivers, radiusKm);
    forall e | e in r
      ensures exists i :: 0 <= i < |drivers| && e == Measure(dist, pickupLat, pickupLon, drivers[i]) &&
                          e.id == drivers[i].id && e.latitude == drivers[i].latitude &&
                          e.longitude == drivers[i].longitude &&
                          e.distance == Some(dist(pickupLat, pickupLon, drivers[i].latitude, drivers[i].longitude)) &&
                          IsWithinGeofence(dist, pickupLat, pickupLon, drivers[i].latitude, drivers[i].longitude, radiusKm)
    {
      assert e in multiset(r);
      var j :| 0 <= j < |inside| && inside[j] == e;
      assert e in measured && Key(e) <= radiusKm;
      var i :| 0 <= i < |measured| && measured[i] == e;
      assert e == Measure(dist, pickupLat, pickupLon, drivers[i]);
    }
    forall i | 0 <= i < |drivers| &&
               IsWithinGeofence(dist, pickupLat, pickupLon, drivers[i].latitude, drivers[i].longitude, radiusKm)
      ensures Measure(dist, pickupLat, pickupLon, drivers[i]) in r
    {
      assert measured[i] == Measure(dist, pickupLat, pickupLon, drivers[i]);
      assert measured[i] in inside;
      assert measured[i] in multiset(inside);
    }
  }

  /** With a symmetric distance, the filter keeps a driver exactly when the driver's
      position passes `IsWithinGeofence` against the pickup as centre. */
  lemma GeofenceAgreesWithRadiusTest(dist: DistanceFn, pickupLat: real, pickupLon: real,
                                     drivers: seq<DriverLocation>, radiusKm: real, i: int)
    requires forall a, b, c, d :: dist(a, b, c, d) == dist(c, d, a, b)
    requires 0 <= i < |drivers|
    ensures Measure(dist, pickupLat, pickupLon, drivers[i])
              in FilterDriversByGeofence(dist, pickupLat, pickupLon, drivers, radiusKm)
            <==> IsWithinGeofence(dist, drivers[i].latitude, drivers[i].longitude, pickupLat, pickupLon, radiusKm)
  {
    GeofenceMembership(dist, pickupLat, pickupLon, drivers, radiusKm);
    var m := Measure(dist, pickupLat, pickupLon, drivers[i]);
    if m in FilterDriversByGeofence(dist, pickupLat, pickupLon, drivers, radiusKm) {
      var j :| 0 <= j < |drivers| && m == Measure(dist, pickupLat, pickupLon, drivers[j]) &&
               IsWithinGeofence(dist, pickupLat, pickupLon, drivers[j].latitude, drivers[j].longitude, radiusKm);
      assert m.distance == Some(dist(pickupLat, pickupLon, drivers[j].latitude, drivers[j].longitude));
    }
  }

  const AverageSpeedKmh: real := 30.0

  /** `getEstimatedArrivalTime`: minutes at 30 km/h, rounded up to a whole minute. */
  function EstimatedArrivalTime(distanceKm: real): (minutes: int)
    ensures 2.0 * distanceKm <= minutes as real < 2.0 * distanceKm + 1.0
  {
    MathCeil(distanceKm / AverageSpeedKmh * 60.0)
  }

  lemma ArrivalTimeMonotone(d1: real, d2: real)
    requires d1 <= d2
    ensures EstimatedArrivalTime(d1) <= EstimatedArrivalTime(d2)
  {
  }

  lemma ArrivalTimeAtPickup()
    ensures EstimatedArrivalTime(0.0) == 0
  {
  }
}

/** The `match-driver` function: the eligible vehicles of the requested class, the sharing
    and position filters, the search radius, the two-tier ranking and the top-ten reply. */
module Matcher {
  import opened Common
  import opened Schema

  /** The joined `drivers` columns the query selects. */
  datatype DriverRow = DriverRow(
    id: string,
    userId: string,
    isOnline: Option<bool>,
    currentLatitude: Option<real>,
    currentLongitude: Option<real>,
    rating: Option<real>,
    totalRides: Option<int>)

  /** One `vehicles` row with its driver joined in. */
  datatype VehicleRow = VehicleRow(
    id: string,
    vehicleType: VehicleType,
    registrationNumber: string,
    model: string,
    capacity: int,
    isActive: Option<bool>,
    isSharedEnabled: Option<bool>,
    driver: Option<DriverRow>)

  /** The `profiles` columns used for display. */
  datatype Profile = Profile(fullName: string, phone: string)

  /** The request body; `searchRadius` may be left out. */
  datatype MatchRequest = MatchRequest(
    vehicleType: VehicleType,
    pickupLatitude: real,
    pickupLongitude: real,
    isShared: bool,
    searchRadius: Option<real>)

  /** One entry of `availableDrivers`. */
  datatype Candidate = Candidate(
    driverId: string,
    driverUserId: string,
    vehicleId: string,
    driverName: string,
    phone: string,
    vehicleModel: string,
    registrationNumber: string,
    rating: Option<real>,
    totalRides: Option<int>,
    distance: real,
    latitude: real,
    longitude: real)

  /** What the vehicles query returns: the table's rows, or the query's error, which carries a
      message and may or may not be an `Error` instance. */
  datatype QueryResult = Rows(vehicles: seq<VehicleRow>) | QueryFailed(message: string, isErrorInstance: bool)

  /** The three reply shapes: `{success: false, message, availableDrivers: []}`,
      `{success: true, availableDrivers, totalCount}` and `{error}` with status 500. */
  datatype MatchResponse =
    | NoVehicles(message: string)
    | Ranked(availableDrivers: seq<Candidate>, totalCount: nat)
    | MatchFailed(status: int, message: string)
  {
    /** The `availableDrivers` array a caller reads; absent (so empty) in an error reply. */
    function Drivers(): seq<Candidate>
    {
      if Ranked? then availableDrivers else []
    }
  }

  const DefaultSearchRadius: real := 5.0
  const TieWindowKm: real := 0.5
  const MaxReturned: nat := 10
  const NoDriversMessage: string := "No drivers available"
  const UnknownErrorMessage: string := "Unknown error"

  /** `error instanceof Error ? error.message : 'Unknown error'`. */
  function ErrorMessage(message: string, isErrorInstance: bool): (m: string)
    ensures isErrorInstance ==> m == message
    ensures !isErrorInstance ==> m == UnknownErrorMessage
  {
    if isErrorInstance then message else UnknownErrorMessage
  }

  // ---- Candidate selection ----

  /** The query's `.eq('vehicle_type', t).eq('is_active', true).eq('driver.is_online', true)`
      over an inner join with the driver. */
  predicate Eligible(vehicleType: VehicleType, v: VehicleRow)
  {
    v.vehicleType == vehicleType && v.isActive == Some(true) &&
    v.driver.Some? && v.driver.value.isOnline == Some(true)
  }

  function QueryVehicles(table: seq<VehicleRow>, vehicleType: VehicleType): seq<VehicleRow>
  {
    Filter(table, (v: VehicleRow) => Eligible(vehicleType, v))
  }

  /** Shared requests keep only sharing-enabled vehicles; other requests keep all. */
  function SharingFilter(vehicles: seq<VehicleRow>, isShared: bool): seq<VehicleRow>
  {
    if isShared then Filter(vehicles, (v: VehicleRow) => v.isSharedEnabled == Some(true)) else vehicles
  }

  /** A coordinate passes `!x` only when it is present and non-zero. */
  predicate Truthy(x: Option<real>)
  {
    x.Some? && x.value != 0.0
  }

  predicate HasPosition(v: VehicleRow)
  {
    v.driver.Some? && Truthy(v.driver.value.currentLatitude) && Truthy(v.driver.value.currentLongitude)
  }

  /** The unrounded pickup-to-driver distance. */
  function RawDistance(dist: DistanceFn, req: MatchRequest, v: VehicleRow): real
    requires HasPosition(v)
  {
    dist(req.pickupLatitude, req.pickupLongitude,
         v.driver.value.currentLatitude.value, v.driver.value.currentLongitude.value)
  }

  function SearchRadius(req: MatchRequest): real
  {
    req.searchRadius.GetOr(DefaultSearchRadius)
  }

  /** The profile map holds the profiles of the truthy driver user ids. */
  function ProfileFor(profiles: map<string, Profile>, userId: string): Option<Profile>
  {
    if userId != "" && userId in profiles then Some(profiles[userId]) else None
  }

  /** The `map` callback: `null` for a vehicle without a positioned driver or beyond the
      radius, otherwise the reply entry with the distance rounded to cents of a km. */
  function ToCandidate(dist: DistanceFn, req: MatchRequest, profiles: map<string, Profile>,
                       v: VehicleRow): (c: Option<Candidate>)
    ensures c.Some? <==> HasPosition(v) && RawDistance(dist, req, v) <= SearchRadius(req)
    ensures c.Some? ==>
      && c.value.vehicleId == v.id
      && c.value.driverId == v.driver.value.id
      && c.value.driverUserId == v.driver.value.userId
      && c.value.rating == v.driver.value.rating
      && c.value.latitude == v.driver.value.currentLatitude.value
      && c.value.longitude == v.driver.value.currentLongitude.value
      && c.value.distance == RoundCents(RawDistance(dist, req, v))
  {
    if !HasPosition(v) then None
    else
      var d := v.driver.value;
      var distance := RawDistance(dist, req, v);
      if distance > SearchRadius(req) then None
      else
        var profile := ProfileFor(profiles, d.userId);
        Some(Candidate(
          driverId := d.id,
          driverUserId := d.userId,
          vehicleId := v.id,
          driverName := if profile.Some? && profile.value.fullName != "" then profile.value.fullName else "Driver",
          phone := if profile.Some? then profile.value.phone else "",
          vehicleModel := v.model,
          registrationNumber := v.registrationNumber,
          rating := d.rating,
          totalRides := d.totalRides,
          distance := RoundCents(distance),
          latitude := d.currentLatitude.value,
          longitude := d.currentLongitude.value))
  }

  /** The vehicles that `ToCandidate` keeps. */
  function YieldsCandidate(dist: DistanceFn, req: MatchRequest, profiles: map<string, Profile>): VehicleRow -> bool
  {
    (v: VehicleRow) => ToCandidate(dist, req, profiles, v).Some?
  }

  /** `.map(toCandidate).filter(d => d !== null)`: one entry per vehicle that yields one. */
  function CollectCandidates(dist: DistanceFn, req: MatchRequest, profiles: map<string, Profile>,
                             vehicles: seq<VehicleRow>): (cs: seq<Candidate>)
    ensures |cs| == |Filter(vehicles, YieldsCandidate(dist, req, profiles))|
    ensures |cs| <= |vehicles|
  {
    if vehicles == [] then []
    else
      var keep := YieldsCandidate(dist, req, profiles);
      assert vehicles == [vehicles[0]] + vehicles[1..];
      assert |Filter(vehicles, keep)| == |Filter(vehicles[1..], keep)| + if keep(vehicles[0]) then 1 else 0;
      var rest := CollectCandidates(dist, req, profiles, vehicles[1..]);
      match ToCandidate(dist, req, profiles, vehicles[0])
      case Some(c) => [c] + rest
      case None => rest
  }

  /** Every entry comes from a vehicle that yields it. */
  lemma {:induction false} CollectedComeFromVehicles(dist: DistanceFn, req: MatchRequest, profiles: map<string, Profile>,
                                                     vehicles: seq<VehicleRow>)
    ensures forall c :: c in CollectCandidates(dist, req, profiles, vehicles) ==>
              exists v :: v in vehicles && ToCandidate(dist, req, profiles, v) == Some(c)
  {
    if vehicles != [] {
      CollectedComeFromVehicles(dist, req, profiles, vehicles[1..]);
      var rest := CollectCandidates(dist, req, profiles, vehicles[1..]);
      forall c | c in CollectCandidates(dist, req, profiles, vehicles)
        ensures exists v :: v in vehicles && ToCandidate(dist, req, profiles, v) == Some(c)
      {
        if c in rest {
          var v :| v in vehicles[1..] && ToCandidate(dist, req, profiles, v) == Some(c);
          assert v in vehicles;
        } else {
          assert ToCandidate(dist, req, profiles, vehicles[0]) == Some(c);
        }
      }
    }
  }

  /** Every vehicle that yields an entry contributes it. */
  lemma {:induction false} VehiclesAreCollected(dist: DistanceFn, req: MatchRequest, profiles: map<string, Profile>,
                                                vehicles: seq<VehicleRow>)
    ensures forall v :: v in vehicles && ToCandidate(dist, req, profiles, v).Some? ==>
              ToCandidate(dist, req, profiles, v).value in CollectCandidates(dist, req, profiles, vehicles)
  {
    if vehicles != [] {
      VehiclesAreCollected(dist, req, profiles, vehicles[1..]);
      assert forall v :: v in vehicles <==> v == vehicles[0] || v in vehicles[1..];
    }
  }

  /** The unranked candidate list built from the queried vehicles. */
  function Candidates(dist: DistanceFn, req: MatchRequest, profiles: map<string, Profile>,
                      vehicles: seq<VehicleRow>): seq<Candidate>
  {
    CollectCandidates(dist, req, profiles, SharingFilter(vehicles, req.isShared))
  }

  /** Every candidate comes from a vehicle of the requested class that is active, whose driver
      is online and positioned within the radius, and that is sharing-enabled if sharing was
      asked for; and every such vehicle yields a candidate. Nothing else is checked. */
  lemma CandidatesAreExactlyTheEligible(dist: DistanceFn, req: MatchRequest,
                                        profiles: map<string, Profile>, table: seq<VehicleRow>)
    ensures forall c :: c in Candidates(dist, req, profiles, QueryVehicles(table, req.vehicleType)) ==>
              exists v :: v in table && Eligible(req.vehicleType, v) &&
                          (req.isShared ==> v.isSharedEnabled == Some(true)) &&
                          HasPosition(v) && RawDistance(dist, req, v) <= SearchRadius(req) &&
                          ToCandidate(dist, req, profiles, v) == Some(c)
    ensures forall v :: v in table && Eligible(req.vehicleType, v) &&
                        (req.isShared ==> v.isSharedEnabled == Some(true)) &&
                        HasPosition(v) && RawDistance(dist, req, v) <= SearchRadius(req) ==>
              ToCandidate(dist, req, profiles, v).value
                in Candidates(dist, req, profiles, QueryVehicles(table, req.vehicleType))
  {
    var queried := QueryVehicles(table, req.vehicleType);
    var shared := SharingFilter(queried, req.isShared);
    CollectedComeFromVehicles(dist, req, profiles, shared);
    VehiclesAreCollected(dist, req, profiles, shared);
    assert forall v :: v in shared ==> v in queried && (req.isShared ==> v.isSharedEnabled == Some(true)) by {
      if req.isShared {
        forall v | v in shared
          ensures v in queried && v.isSharedEnabled == Some(true)
        {
          var i :| 0 <= i < |shared| && shared[i] == v;
        }
      }
    }
    assert forall v :: v in queried ==> v in table && Eligible(req.vehicleType, v) by {
      forall v | v in queried
        ensures v in table && Eligible(req.vehicleType, v)
      {
        var i :| 0 <= i < |queried| && queried[i] == v;
      }
    }
    forall v | v in table && Eligible(req.vehicleType, v) && (req.isShared ==> v.isSharedEnabled == Some(true))
      ensures v in shared
    {
      var i :| 0 <= i < |table| && table[i] == v;
      assert v in queried;
      if req.isShared {
        var j :| 0 <= j < |queried| && queried[j] == v;
      }
    }
  }

  // ---- Ranking ----

  /** `null` ratings take part in the subtraction as 0. */
  function Rating(c: Candidate): real
  {
    c.rating.GetOr(0.0)
  }

  function Abs(x: real): real
  {
    if x < 0.0 then -x else x
  }

  /** The sort comparator on the reported distances: within 0.5 km the better rating goes
      first, otherwise the nearer driver. Negative means `a` goes before `b`. */
  function Compare(a: Candidate, b: Candidate): real
  {
    var diff := a.distance - b.distance;
    if Abs(diff) < TieWindowKm then Rating(b) - Rating(a) else diff
  }

  lemma CompareAntisymmetric(a: Candidate, b: Candidate)
    ensures Compare(a, b) == -Compare(b, a)
  {
  }

  /** 2.0 km rated 4.2 against 2.3 km rated 4.8: the better-rated, farther driver goes first. */
  lemma TieBreakByRating(a: Candidate, b: Candidate)
    requires a.distance == 2.0 && a.rating == Some(4.2)
    requires b.distance == 2.3 && b.rating == Some(4.8)
    ensures Compare(b, a) < 0.0 && Compare(a, b) > 0.0
  {
  }

  /** 1.0 km against 4.0 km: the nearer driver goes first whatever the ratings. */
  lemma FarApartByDistance(a: Candidate, b: Candidate)
    requires a.distance == 1.0 && b.distance == 4.0
    ensures Compare(a, b) < 0.0
  {
  }

  /** The comparator is not an order: 0.0 km rated 1, 0.4 km rated 2 and 0.8 km rated 3
      each go before another in a cycle. */
  lemma CompareHasCycle(a: Candidate)
    ensures var x := a.(distance := 0.0, rating := Some(1.0));
            var y := a.(distance := 0.4, rating := Some(2.0));
            var z := a.(distance := 0.8, rating := Some(3.0));
            Compare(y, x) < 0.0 && Compare(z, y) < 0.0 && Compare(x, z) < 0.0
  {
  }

  /** Every neighbouring pair is in comparator order (the most a non-transitive comparator allows). */
  predicate AdjacentOrdered(s: seq<Candidate>)
  {
    forall k :: 0 <= k < |s| - 1 ==> Compare(s[k], s[k + 1]) <= 0.0
  }

  predicate IsRanking(ranked: seq<Candidate>, candidates: seq<Candidate>)
  {
    multiset(ranked) == multiset(candidates) && AdjacentOrdered(ranked)
  }

  /** Exchanges `a[j - 1]` and `a[j]`. */
  method SwapDown(a: array<Candidate>, j: int)
    requires 0 < j < a.Length
    modifies a
    ensures a[j - 1] == old(a[j]) && a[j] == old(a[j - 1])
    ensures forall k :: 0 <= k < a.Length && k != j - 1 && k != j ==> a[k] == old(a[k])
    ensures multiset(a[..]) == multiset(old(a[..]))
  {
    a[j - 1], a[j] := a[j], a[j - 1];
  }

  /** Moves `a[i]` left past every neighbour that the comparator puts after it, so that
      `a[..i + 1]` becomes adjacent-ordered when `a[..i]` was. */
  method InsertLeft(a: array<Candidate>, i: int)
    requires 0 <= i < a.Length
    requires forall k :: 0 <= k < i - 1 ==> Compare(a[k], a[k + 1]) <= 0.0
    modifies a
    ensures forall k :: 0 <= k < i ==> Compare(a[k], a[k + 1]) <= 0.0
    ensures multiset(a[..]) == multiset(old(a[..]))
  {
    var j := i;
    while j > 0 && Compare(a[j - 1], a[j]) > 0.0
      invariant 0 <= j <= i
      invariant forall k :: 0 <= k < j - 1 ==> Compare(a[k], a[k + 1]) <= 0.0
      invariant forall k :: j <= k < i ==> Compare(a[k], a[k + 1]) <= 0.0
      invariant 0 < j < i ==> Compare(a[j - 1], a[j + 1]) <= 0.0
      invariant multiset(a[..]) == multiset(old(a[..]))
    {
      CompareAntisymmetric(a[j - 1], a[j]);
      SwapDown(a, j);
      j := j - 1;
    }
  }

  /** `driversWithDistance.sort(compare)`, in place: a stable insertion sort. */
  method RankCandidates(a: array<Candidate>)
    modifies a
    ensures multiset(a[..]) == multiset(old(a[..]))
    ensures AdjacentOrdered(a[..])
  {
    var i := 0;
    while i < a.Length
      invariant 0 <= i <= a.Length
      invariant forall k :: 0 <= k < i - 1 ==> Compare(a[k], a[k + 1]) <= 0.0
      invariant multiset(a[..]) == multiset(old(a[..]))
    {
      InsertLeft(a, i);
      i := i + 1;
    }
  }

  /** `slice(0, 10)`. */
  function TopTen(ranked: seq<Candidate>): (r: seq<Candidate>)
    ensures |r| == if |ranked| < MaxReturned then |ranked| else MaxReturned
    ensures forall k :: 0 <= k < |r| ==> r[k] == ranked[k]
  {
    if |ranked| <= MaxReturned then ranked else ranked[..MaxReturned]
  }

  /** Ranks the candidates in an array and builds the `success: true` reply. */
  method RankedReply(candidates: seq<Candidate>) returns (resp: MatchResponse)
    ensures resp.Ranked? && resp.totalCount == |candidates|
    ensures exists ranked :: IsRanking(ranked, candidates) && resp.availableDrivers == TopTen(ranked)
  {
    var a := new Candidate[|candidates|](k requires 0 <= k < |candidates| => candidates[k]);
    assert a[..] == candidates;
    RankCandidates(a);
    var ranked := a[..];
    assert IsRanking(ranked, candidates);
    assert |ranked| == |candidates| by {
      assert |multiset(ranked)| == |multiset(candidates)|;
    }
    resp := Ranked(TopTen(ranked), |ranked|);
  }

  /** The handler body after the vehicles query. */
  method MatchDrivers(dist: DistanceFn, query: QueryResult, profiles: map<string, Profile>, req: MatchRequest)
    returns (resp: MatchResponse)
    ensures query.QueryFailed? <==> resp.MatchFailed?
    ensures query.QueryFailed? ==> resp == MatchFailed(500, ErrorMessage(query.message, query.isErrorInstance))
    ensures query.Rows? && QueryVehicles(query.vehicles, req.vehicleType) == [] ==>
              resp == NoVehicles(NoDriversMessage)
    ensures query.Rows? && QueryVehicles(query.vehicles, req.vehicleType) != [] ==>
              var candidates := Candidates(dist, req, profiles, QueryVehicles(query.vehicles, req.vehicleType));
              && resp.Ranked?
              && resp.totalCount == |candidates|
              && exists ranked :: IsRanking(ranked, candidates) && resp.availableDrivers == TopTen(ranked)
    ensures resp.Ranked? ==> |resp.availableDrivers| == if resp.totalCount < MaxReturned then resp.totalCount else MaxReturned
  {
    match query
    case QueryFailed(message, isErrorInstance) =>
      resp := MatchFailed(500, ErrorMessage(message, isErrorInstance));
    case Rows(table) =>
      var vehicles := QueryVehicles(table, req.vehicleType);
      if vehicles == [] {
        resp := NoVehicles(NoDriversMessage);
      } else {
        resp := RankedReply(Candidates(dist, req, profiles, vehicles));
        ghost var ranked :| IsRanking(ranked, Candidates(dist, req, profiles, vehicles)) &&
                            resp.availableDrivers == TopTen(ranked);
        assert |ranked| == resp.totalCount by {
          assert |multiset(ranked)| == |multiset(Candidates(dist, req, profiles, vehicles))|;
        }
      }
  }
}

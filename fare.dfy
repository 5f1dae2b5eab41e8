/** The `calculate-fare` function: one active pricing row for the vehicle class, an affine
    price, a time-of-day surge, the 30% sharing discount, the minimum-fare floor, cent
    rounding and the breakdown returned to the caller. */
module Fare {
  import opened Common
  import opened Schema

  /** One row of `pricing_config`. The surge columns are nullable. */
  datatype PricingConfig = PricingConfig(
    vehicleType: VehicleType,
    isActive: Option<bool>,
    baseFare: real,
    perKmRate: real,
    perMinuteRate: real,
    minimumFare: real,
    surgeMultiplierPeak: Option<real>,
    surgeMultiplierNight: Option<real>,
    commissionPercentage: real)

  /** The request body. The request's `currentTime` reaches the model already split into the
      local weekday (`day`, 0 = Sunday) and hour, passed separately. */
  datatype FareRequest = FareRequest(vehicleType: VehicleType, distance: real, duration: real, isShared: bool)

  datatype FareBreakdown = FareBreakdown(
    baseFare: real,
    distanceCharge: real,
    timeCharge: real,
    surgeMultiplier: real,
    sharingDiscount: string,
    minimumFare: real,
    totalFare: real,
    commissionPercentage: real)

  /** The response: the breakdown, or the `{error}` payload with its HTTP status. */
  datatype FareResponse = Priced(breakdown: FareBreakdown) | FareError(status: int, message: string)

  const ConfigNotFound: string := "Pricing configuration not found"
  const DefaultPeakSurge: real := 1.5
  const DefaultNightSurge: real := 1.3
  const SharedFactor: real := 0.7

  predicate IsActiveRowFor(vehicleType: VehicleType, row: PricingConfig)
  {
    row.vehicleType == vehicleType && row.isActive == Some(true)
  }

  /** `.eq('vehicle_type', t).eq('is_active', true).single()`: the query yields a row only when
      exactly one row matches; none, or more than one, is an error. */
  function SelectActivePricing(table: seq<PricingConfig>, vehicleType: VehicleType): (r: Option<PricingConfig>)
    ensures r.Some? <==> |Filter(table, row => IsActiveRowFor(vehicleType, row))| == 1
    ensures r.Some? ==> r.value in table && IsActiveRowFor(vehicleType, r.value)
  {
    var rows := Filter(table, row => IsActiveRowFor(vehicleType, row));
    if |rows| == 1 then Some(rows[0]) else None
  }

  function DistanceCharge(cfg: PricingConfig, distance: real): real
  {
    distance * cfg.perKmRate
  }

  function TimeCharge(cfg: PricingConfig, duration: real): real
  {
    duration * cfg.perMinuteRate
  }

  /** `base_fare + distance * per_km_rate + duration * per_minute_rate`. */
  function BaseFare(cfg: PricingConfig, distance: real, duration: real): real
  {
    cfg.baseFare + DistanceCharge(cfg, distance) + TimeCharge(cfg, duration)
  }

  /** Weekdays (Monday to Friday) from 8 to 10 and from 17 to 20, upper hours excluded. */
  predicate IsPeakHour(day: int, hour: int)
  {
    1 <= day <= 5 && ((8 <= hour < 10) || (17 <= hour < 20))
  }

  /** From 23 to 6, the hour 6 excluded. */
  predicate IsNightHour(hour: int)
  {
    hour >= 23 || hour < 6
  }

  /** `configured || fallback`: a null or zero column is falsy and yields the fallback. */
  function OrDefault(configured: Option<real>, fallback: real): real
  {
    if configured.Some? && configured.value != 0.0 then configured.value else fallback
  }

  /** The peak window takes precedence over the night window; any other hour has no surge. */
  function SurgeMultiplier(cfg: PricingConfig, day: int, hour: int): real
  {
    if IsPeakHour(day, hour) then OrDefault(cfg.surgeMultiplierPeak, DefaultPeakSurge)
    else if IsNightHour(hour) then OrDefault(cfg.surgeMultiplierNight, DefaultNightSurge)
    else 1.0
  }

  /** The fare after surge and sharing discount, before the minimum-fare floor. */
  function DiscountedFare(cfg: PricingConfig, req: FareRequest, day: int, hour: int): real
  {
    var surged := BaseFare(cfg, req.distance, req.duration) * SurgeMultiplier(cfg, day, hour);
    if req.isShared then surged * SharedFactor else surged
  }

  /** The fare after the minimum-fare floor, before rounding. */
  function FlooredFare(cfg: PricingConfig, req: FareRequest, day: int, hour: int): (f: real)
    ensures f >= cfg.minimumFare
    ensures f == cfg.minimumFare || f == DiscountedFare(cfg, req, day, hour)
    ensures DiscountedFare(cfg, req, day, hour) < cfg.minimumFare ==> f == cfg.minimumFare
    ensures DiscountedFare(cfg, req, day, hour) >= cfg.minimumFare ==> f == DiscountedFare(cfg, req, day, hour)
  {
    var fare := DiscountedFare(cfg, req, day, hour);
    if fare < cfg.minimumFare then cfg.minimumFare else fare
  }

  /** The handler body once the pricing row has been fetched. */
  function CalculateFare(pricing: Option<PricingConfig>, req: FareRequest, day: int, hour: int): (r: FareResponse)
    ensures pricing.None? <==> r == FareError(500, ConfigNotFound)
    ensures pricing.Some? ==> r.Priced?
    ensures r.Priced? ==>
      var cfg := pricing.value;
      var b := r.breakdown;
      && b.baseFare == cfg.baseFare
      && b.minimumFare == cfg.minimumFare
      && b.commissionPercentage == cfg.commissionPercentage
      && b.surgeMultiplier == SurgeMultiplier(cfg, day, hour)
      && b.distanceCharge == RoundCents(DistanceCharge(cfg, req.distance))
      && b.timeCharge == RoundCents(TimeCharge(cfg, req.duration))
      && b.totalFare == RoundCents(FlooredFare(cfg, req, day, hour))
      && (b.sharingDiscount == "30%" <==> req.isShared)
      && (b.sharingDiscount == "0%" <==> !req.isShared)
  {
    match pricing
    case None => FareError(500, ConfigNotFound)
    case Some(cfg) =>
      Priced(FareBreakdown(
        baseFare := cfg.baseFare,
        distanceCharge := RoundCents(DistanceCharge(cfg, req.distance)),
        timeCharge := RoundCents(TimeCharge(cfg, req.duration)),
        surgeMultiplier := SurgeMultiplier(cfg, day, hour),
        sharingDiscount := if req.isShared then "30%" else "0%",
        minimumFare := cfg.minimumFare,
        totalFare := RoundCents(FlooredFare(cfg, req, day, hour)),
        commissionPercentage := cfg.commissionPercentage))
  }

  /** The whole request: look the pricing row up in `table`, then price. */
  function HandleFareRequest(table: seq<PricingConfig>, req: FareRequest, day: int, hour: int): (r: FareResponse)
    ensures r.FareError? <==> |Filter(table, row => IsActiveRowFor(req.vehicleType, row))| != 1
  {
    CalculateFare(SelectActivePricing(table, req.vehicleType), req, day, hour)
  }

  // ---- Properties of the fare engine ----

  /** With non-negative rates, a longer or slower trip never costs less before surge. */
  lemma BaseFareMonotone(cfg: PricingConfig, d1: real, t1: real, d2: real, t2: real)
    requires cfg.perKmRate >= 0.0 && cfg.perMinuteRate >= 0.0
    requires d1 <= d2 && t1 <= t2
    ensures BaseFare(cfg, d1, t1) <= BaseFare(cfg, d2, t2)
  {
    assert (d2 - d1) * cfg.perKmRate >= 0.0;
    assert (t2 - t1) * cfg.perMinuteRate >= 0.0;
  }

  /** Peak and night windows never overlap. */
  lemma PeakAndNightDisjoint(day: int, hour: int)
    ensures !(IsPeakHour(day, hour) && IsNightHour(hour))
  {
  }

  /** The surge outcomes: the configured multiplier in its window, 1.5 or 1.3 when that column
      is null or zero, and 1.0 outside both windows. */
  lemma SurgeCases(cfg: PricingConfig, day: int, hour: int)
    ensures IsPeakHour(day, hour) && (cfg.surgeMultiplierPeak.None? || cfg.surgeMultiplierPeak.value == 0.0)
            ==> SurgeMultiplier(cfg, day, hour) == 1.5
    ensures IsPeakHour(day, hour) && cfg.surgeMultiplierPeak.Some? && cfg.surgeMultiplierPeak.value != 0.0
            ==> SurgeMultiplier(cfg, day, hour) == cfg.surgeMultiplierPeak.value
    ensures IsNightHour(hour) && (cfg.surgeMultiplierNight.None? || cfg.surgeMultiplierNight.value == 0.0)
            ==> SurgeMultiplier(cfg, day, hour) == 1.3
    ensures IsNightHour(hour) && cfg.surgeMultiplierNight.Some? && cfg.surgeMultiplierNight.value != 0.0
            ==> SurgeMultiplier(cfg, day, hour) == cfg.surgeMultiplierNight.value
    ensures !IsPeakHour(day, hour) && !IsNightHour(hour) ==> SurgeMultiplier(cfg, day, hour) == 1.0
  {
  }

  /** Weekday 09:00 is peak, 02:00 on any day is night, weekday 14:00, Saturday 09:00 and
      weekday 20:00 have no surge. */
  lemma SurgeExamples(cfg: PricingConfig)
    requires cfg.surgeMultiplierPeak == Some(1.8) && cfg.surgeMultiplierNight == Some(1.2)
    ensures SurgeMultiplier(cfg, 3, 9) == 1.8
    ensures forall day :: SurgeMultiplier(cfg, day, 2) == 1.2
    ensures SurgeMultiplier(cfg, 3, 14) == 1.0
    ensures SurgeMultiplier(cfg, 6, 9) == 1.0
    ensures SurgeMultiplier(cfg, 1, 20) == 1.0
  {
  }

  /** A shared ride costs 70% of the same unshared ride before the floor. */
  lemma SharedDiscount(cfg: PricingConfig, req: FareRequest, day: int, hour: int)
    requires req.isShared
    ensures DiscountedFare(cfg, req, day, hour) == DiscountedFare(cfg, req.(isShared := false), day, hour) * 0.7
  {
  }

  /** If the minimum fare is a whole number of cents, the rounded total still respects it. */
  lemma TotalAtLeastMinimum(cfg: PricingConfig, req: FareRequest, day: int, hour: int)
    requires WholeCents(cfg.minimumFare)
    ensures CalculateFare(Some(cfg), req, day, hour).breakdown.totalFare >= cfg.minimumFare
  {
    RoundCentsMonotone(cfg.minimumFare, FlooredFare(cfg, req, day, hour));
    RoundCentsKeepsWholeCents(cfg.minimumFare);
  }

  /** The rounded total is the floored fare to within half a cent, in whole cents. */
  lemma TotalIsCentRounded(cfg: PricingConfig, req: FareRequest, day: int, hour: int)
    ensures var total := CalculateFare(Some(cfg), req, day, hour).breakdown.totalFare;
            WholeCents(total) &&
            FlooredFare(cfg, req, day, hour) - 0.005 < total <= FlooredFare(cfg, req, day, hour) + 0.005
  {
  }
}

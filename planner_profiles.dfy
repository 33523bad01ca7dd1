/** Acceleration envelope selection and jerk/follow-time baselines of the
    FrogPilot longitudinal planner
    (selfdrive/frogpilot/controls/frogpilot_planner.py, lines 26-50 and 70-106). */
module PlannerProfiles {
  import opened Common
  import opened Interpolation

  /** The constants and functions the planner imports from modules that are
      not part of this model: `CITY_SPEED_LIMIT` and `CRUISING_SPEED`
      (frogpilot_variables), `COMFORT_BRAKE`, `STOP_DISTANCE`,
      `A_CHANGE_COST`, `J_EGO_COST`, `get_jerk_factor` and `get_T_FOLLOW`
      (long_mpc), `ACCEL_MIN`/`ACCEL_MAX` (car interfaces), `A_CRUISE_MIN`
      and `get_max_accel` (longitudinal_planner), `V_CRUISE_UNSET`
      (drive_helpers) and `CV.KPH_TO_MS`. `powComfortBrake(v)` stands for
      the real power `v ** COMFORT_BRAKE`. */
  datatype Env = Env(
    citySpeedLimit: real,
    cruisingSpeed: real,
    comfortBrake: real,
    stopDistance: real,
    accelMin: real,
    accelMax: real,
    aCruiseMin: real,
    vCruiseUnset: real,
    kphToMs: real,
    aChangeCost: real,
    jEgoCost: real,
    getMaxAccel: real -> real,
    getJerkFactor: (bool, real, real, real, real, real, real, int) -> (real, real),
    getTFollow: (bool, real, real, real, int) -> real,
    powComfortBrake: real -> real)
  {
    /** What the model assumes of the constants it cannot see. */
    predicate Valid() {
      citySpeedLimit > 0.0 && comfortBrake > 0.0 && kphToMs > 0.0 &&
      accelMin < 0.0 < accelMax && aCruiseMin < 0.0
    }
  }

  /** The user settings (`frogpilot_toggles`) the core reads. A traffic-mode
      table holds one value per breakpoint of `[0, CITY_SPEED_LIMIT]`. */
  datatype Toggles = Toggles(
    accelerationProfile: int,
    decelerationProfile: int,
    customPersonalities: bool,
    aggressiveJerkAcceleration: real,
    aggressiveJerkSpeed: real,
    standardJerkAcceleration: real,
    standardJerkSpeed: real,
    relaxedJerkAcceleration: real,
    relaxedJerkSpeed: real,
    aggressiveFollow: real,
    standardFollow: real,
    relaxedFollow: real,
    trafficModeJerkAcceleration: (real, real),
    trafficModeJerkSpeed: (real, real),
    trafficModeTFollow: (real, real),
    increasedStoppingDistance: real,
    aggressiveAcceleration: bool,
    aggressiveAccelerationExperimental: bool,
    smootherBraking: bool,
    smootherBrakingFarLead: bool,
    smootherBrakingJerk: bool)

  /** Acceleration jerk, speed jerk and follow time: the three values the
      baseline resolver produces and the follow adjuster perturbs. */
  datatype FollowState = FollowState(accelerationJerk: real, speedJerk: real, tFollow: real)

  // Acceleration profile tables (speeds in m/s).
  const MinAccelBreakpoints: seq<real> := [0.0, 8.0, 16.0, 28.0, 42.0]
  const MaxAccelBreakpoints: seq<real> := [0.0, 3.0, 6.0, 8.0, 11.0, 15.0, 20.0, 25.0, 30.0, 55.0]

  const MinAccelEcoValues: seq<real> := [-0.001, -0.010, -0.28, -0.56, -0.56]
  const MaxAccelEcoValues: seq<real> := [3.5, 3.2, 2.3, 2.0, 1.15, 0.80, 0.58, 0.36, 0.30, 0.091]

  const MinAccelSportValues: seq<real> := [-0.50, -0.52, -0.55, -0.57, -0.60]
  const MaxAccelSportValues: seq<real> := [3.5, 3.5, 3.3, 2.8, 1.5, 1.0, 0.75, 0.6, 0.38, 0.2]

  /** Eco deceleration limit: always a braking value, within the eco table's range. */
  function MinAccelEco(vEgo: real): (r: real)
    ensures -0.56 <= r <= -0.001
  {
    assert StrictlyIncreasing(MinAccelBreakpoints);
    InterpWithin(vEgo, MinAccelBreakpoints, MinAccelEcoValues, -0.56, -0.001);
    Interp(vEgo, MinAccelBreakpoints, MinAccelEcoValues)
  }

  /** Eco acceleration limit: always positive, within the eco table's range. */
  function MaxAccelEco(vEgo: real): (r: real)
    ensures 0.091 <= r <= 3.5
  {
    assert StrictlyIncreasing(MaxAccelBreakpoints);
    InterpWithin(vEgo, MaxAccelBreakpoints, MaxAccelEcoValues, 0.091, 3.5);
    Interp(vEgo, MaxAccelBreakpoints, MaxAccelEcoValues)
  }

  /** Sport deceleration limit: always a braking value, within the sport table's range. */
  function MinAccelSport(vEgo: real): (r: real)
    ensures -0.60 <= r <= -0.50
  {
    assert StrictlyIncreasing(MinAccelBreakpoints);
    InterpWithin(vEgo, MinAccelBreakpoints, MinAccelSportValues, -0.60, -0.50);
    Interp(vEgo, MinAccelBreakpoints, MinAccelSportValues)
  }

  /** Sport acceleration limit: always positive, within the sport table's range. */
  function MaxAccelSport(vEgo: real): (r: real)
    ensures 0.2 <= r <= 3.5
  {
    assert StrictlyIncreasing(MaxAccelBreakpoints);
    InterpWithin(vEgo, MaxAccelBreakpoints, MaxAccelSportValues, 0.2, 3.5);
    Interp(vEgo, MaxAccelBreakpoints, MaxAccelSportValues)
  }

  /** The eco and sport tables reproduce their tabulated values at every
      breakpoint speed and are flat beyond the last breakpoint. */
  lemma ProfileTablesAtBreakpoints(i: nat, v: real)
    requires i < 5
    ensures MinAccelEco(MinAccelBreakpoints[i]) == MinAccelEcoValues[i]
    ensures MinAccelSport(MinAccelBreakpoints[i]) == MinAccelSportValues[i]
    ensures v >= 42.0 ==> MinAccelEco(v) == -0.56 && MinAccelSport(v) == -0.60
    ensures v >= 55.0 ==> MaxAccelEco(v) == 0.091 && MaxAccelSport(v) == 0.2
  {
    assert StrictlyIncreasing(MinAccelBreakpoints);
    InterpAtBreakpoint(MinAccelBreakpoints, MinAccelEcoValues, i);
    InterpAtBreakpoint(MinAccelBreakpoints, MinAccelSportValues, i);
  }

  /** The eco and sport acceleration tables reproduce their tabulated
      values at every one of their ten breakpoint speeds. */
  lemma MaxProfileTablesAtBreakpoints(i: nat)
    requires i < 10
    ensures MaxAccelEco(MaxAccelBreakpoints[i]) == MaxAccelEcoValues[i]
    ensures MaxAccelSport(MaxAccelBreakpoints[i]) == MaxAccelSportValues[i]
  {
    assert StrictlyIncreasing(MaxAccelBreakpoints);
    InterpAtBreakpoint(MaxAccelBreakpoints, MaxAccelEcoValues, i);
    InterpAtBreakpoint(MaxAccelBreakpoints, MaxAccelSportValues, i);
  }

  /** `v_ego = max(carState.vEgo, 0)`. */
  function EgoSpeed(vEgo: real): (r: real)
    ensures r >= 0.0 && r >= vEgo
    ensures vEgo >= 0.0 ==> r == vEgo
    ensures vEgo <= 0.0 ==> r == 0.0
  {
    Max(vEgo, 0.0)
  }

  /** `v_cruise = min(vCruise, V_CRUISE_UNSET) * KPH_TO_MS`: the requested
      cruise speed in m/s, capped at the "unset" sentinel. */
  function CruiseSpeed(env: Env, vCruiseKph: real): (r: real)
    requires env.Valid()
    ensures r <= env.vCruiseUnset * env.kphToMs
    ensures vCruiseKph <= env.vCruiseUnset ==> r == vCruiseKph * env.kphToMs
    ensures vCruiseKph >= env.vCruiseUnset ==> r == env.vCruiseUnset * env.kphToMs
  {
    Min(vCruiseKph, env.vCruiseUnset) * env.kphToMs
  }

  /** `self.max_accel`: profile 1 (eco) wins, then profiles 2 and 3 (sport),
      then experimental mode's absolute maximum, then the stock limit. */
  function SelectMaxAccel(env: Env, accelerationProfile: int, experimentalMode: bool, vEgo: real): (r: real)
    requires env.Valid()
    ensures accelerationProfile == 1 ==> r == MaxAccelEco(vEgo)
    ensures accelerationProfile in {2, 3} ==> r == MaxAccelSport(vEgo)
    ensures accelerationProfile in {1, 2, 3} ==> 0.091 <= r <= 3.5
    ensures accelerationProfile !in {1, 2, 3} && experimentalMode ==> r == env.accelMax
    ensures accelerationProfile !in {1, 2, 3} && !experimentalMode ==> r == env.getMaxAccel(vEgo)
    ensures accelerationProfile in {1, 2, 3} || experimentalMode ==> r > 0.0
  {
    if accelerationProfile == 1 then MaxAccelEco(vEgo)
    else if accelerationProfile in {2, 3} then MaxAccelSport(vEgo)
    else if experimentalMode then env.accelMax
    else env.getMaxAccel(vEgo)
  }

  /** `self.min_accel`: profile 1 (eco), then profile 2 (sport; profile 3
      has no deceleration table), then experimental mode's absolute minimum,
      then the stock cruise minimum. Every branch brakes. */
  function SelectMinAccel(env: Env, decelerationProfile: int, experimentalMode: bool, vEgo: real): (r: real)
    requires env.Valid()
    ensures r < 0.0
    ensures decelerationProfile == 1 ==> r == MinAccelEco(vEgo)
    ensures decelerationProfile == 2 ==> r == MinAccelSport(vEgo)
    ensures decelerationProfile !in {1, 2} && experimentalMode ==> r == env.accelMin
    ensures decelerationProfile !in {1, 2} && !experimentalMode ==> r == env.aCruiseMin
  {
    if decelerationProfile == 1 then MinAccelEco(vEgo)
    else if decelerationProfile == 2 then MinAccelSport(vEgo)
    else if experimentalMode then env.accelMin
    else env.aCruiseMin
  }

  /** `interp(v_ego, TRAFFIC_MODE_BP, table)` with `TRAFFIC_MODE_BP = [0, CITY_SPEED_LIMIT]`:
      the first value at standstill, the second from the city speed limit
      on, and never outside the two. */
  function TrafficInterp(env: Env, vEgo: real, table: (real, real)): (r: real)
    requires env.Valid()
    ensures Min(table.0, table.1) <= r <= Max(table.0, table.1)
    ensures vEgo <= 0.0 ==> r == table.0
    ensures vEgo >= env.citySpeedLimit ==> r == table.1
  {
    var bp := [0.0, env.citySpeedLimit];
    var values := [table.0, table.1];
    InterpWithin(vEgo, bp, values, Min(table.0, table.1), Max(table.0, table.1));
    Interp(vEgo, bp, values)
  }

  /** The baseline jerks and follow time (`self.base_acceleration_jerk`,
      `self.base_speed_jerk`, `self.t_follow` after line 106): from the
      traffic-mode tables when traffic mode is active, otherwise from the
      personality helpers. With positive tables the baseline is positive. */
  function Baseline(env: Env, trafficModeActive: bool, vEgo: real, t: Toggles, personality: int): (r: FollowState)
    requires env.Valid()
    ensures trafficModeActive ==>
      Min(t.trafficModeJerkAcceleration.0, t.trafficModeJerkAcceleration.1) <= r.accelerationJerk
        <= Max(t.trafficModeJerkAcceleration.0, t.trafficModeJerkAcceleration.1) &&
      Min(t.trafficModeJerkSpeed.0, t.trafficModeJerkSpeed.1) <= r.speedJerk
        <= Max(t.trafficModeJerkSpeed.0, t.trafficModeJerkSpeed.1) &&
      Min(t.trafficModeTFollow.0, t.trafficModeTFollow.1) <= r.tFollow
        <= Max(t.trafficModeTFollow.0, t.trafficModeTFollow.1)
    ensures trafficModeActive && vEgo <= 0.0 ==>
      r == FollowState(t.trafficModeJerkAcceleration.0, t.trafficModeJerkSpeed.0, t.trafficModeTFollow.0)
    ensures trafficModeActive && vEgo >= env.citySpeedLimit ==>
      r == FollowState(t.trafficModeJerkAcceleration.1, t.trafficModeJerkSpeed.1, t.trafficModeTFollow.1)
    ensures !trafficModeActive ==>
      (r.accelerationJerk, r.speedJerk) ==
        env.getJerkFactor(t.customPersonalities,
                          t.aggressiveJerkAcceleration, t.aggressiveJerkSpeed,
                          t.standardJerkAcceleration, t.standardJerkSpeed,
                          t.relaxedJerkAcceleration, t.relaxedJerkSpeed, personality) &&
      r.tFollow == env.getTFollow(t.customPersonalities, t.aggressiveFollow, t.standardFollow,
                                  t.relaxedFollow, personality)
  {
    if trafficModeActive then
      FollowState(TrafficInterp(env, vEgo, t.trafficModeJerkAcceleration),
                  TrafficInterp(env, vEgo, t.trafficModeJerkSpeed),
                  TrafficInterp(env, vEgo, t.trafficModeTFollow))
    else
      var jerks := env.getJerkFactor(t.customPersonalities,
                                     t.aggressiveJerkAcceleration, t.aggressiveJerkSpeed,
                                     t.standardJerkAcceleration, t.standardJerkSpeed,
                                     t.relaxedJerkAcceleration, t.relaxedJerkSpeed, personality);
      FollowState(jerks.0, jerks.1,
                  env.getTFollow(t.customPersonalities, t.aggressiveFollow, t.standardFollow,
                                 t.relaxedFollow, personality))
  }
}

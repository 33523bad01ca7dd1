/** `FrogPilotPlanner` (selfdrive/frogpilot/controls/frogpilot_planner.py,
    lines 52-176): the per-cycle state of the longitudinal planner and the
    operations that update it in place. */
module Planner {
  import opened Common
  import opened PlannerProfiles
  import opened PlannerFollow
  import opened PlannerCruise

  /** `radarState.leadOne`: whether a lead is tracked, its distance and its speed. */
  datatype Lead = Lead(status: bool, dRel: real, vLead: real)

  /** The fields of `carState` the planner reads. */
  datatype CarState = CarState(vEgo: real, vEgoCluster: real)

  /** The fields of `controlsState` the planner reads. */
  datatype ControlsState = ControlsState(vCruise: real, vCruiseCluster: real, experimentalMode: bool,
                                         personality: int, enabled: bool)

  /** The published `frogpilotPlan` message, without its validity flag and
      the conditional-experimental-mode decision. */
  datatype FrogPilotPlan = FrogPilotPlan(
    accelerationJerk: real,
    accelerationJerkStock: real,
    egoJerk: real,
    egoJerkStock: real,
    maxAcceleration: real,
    minAcceleration: real,
    tFollow: real,
    vCruise: real)

  class FrogPilotPlanner {
    const env: Env
    const openpilotLongitudinalControl: bool   // CP.openpilotLongitudinalControl

    var leadOne: Lead
    var maxAccel: Option<real>       // None until the first update assigns it
    var minAccel: Option<real>
    var accelerationJerk: real
    var speedJerk: real
    var baseAccelerationJerk: real
    var baseSpeedJerk: real
    var tFollow: real
    var roadCurvature: real
    var vCruise: Option<real>        // None while `self.v_cruise` was never assigned

    /** The jerks and follow time that `update_follow_values` perturbs. */
    function FollowFields(): (s: FollowState)
      reads this
      ensures s.accelerationJerk == accelerationJerk && s.speedJerk == speedJerk && s.tFollow == tFollow
    {
      FollowState(accelerationJerk, speedJerk, tFollow)
    }

    /** `__init__`: jerks, follow time and curvature start at zero; the
        acceleration bounds and the cruise target are not yet assigned. */
    constructor (env: Env, openpilotLongitudinalControl: bool)
      requires env.Valid()
      ensures this.env == env && this.openpilotLongitudinalControl == openpilotLongitudinalControl
      ensures FollowFields() == FollowState(0.0, 0.0, 0.0)
      ensures baseAccelerationJerk == 0.0 && baseSpeedJerk == 0.0 && roadCurvature == 0.0
      ensures maxAccel == None && minAccel == None && vCruise == None
    {
      this.env := env;
      this.openpilotLongitudinalControl := openpilotLongitudinalControl;
      leadOne := Lead(false, 0.0, 0.0);
      maxAccel, minAccel := None, None;
      accelerationJerk := 0.0;
      baseAccelerationJerk := 0.0;
      baseSpeedJerk := 0.0;
      roadCurvature := 0.0;
      speedJerk := 0.0;
      tFollow := 0.0;
      vCruise := None;
    }

    /** `update_follow_values`: perturbs the jerks and the follow time in
        place, exactly as `FollowValues` computes from their old values. */
    method UpdateFollowValues(trafficModeActive: bool, vEgo: real, vLead: real, t: Toggles)
      requires env.Valid()
      modifies this`accelerationJerk, this`speedJerk, this`tFollow
      ensures FollowFields() == FollowValues(env, old(FollowFields()), trafficModeActive, vEgo, vLead, leadOne.dRel, t)
    {
      var distanceOffset := DistanceOffset(env, trafficModeActive, vEgo, t.increasedStoppingDistance);
      var leadDistance := leadOne.dRel - distanceOffset;
      var stoppingDistance := env.stopDistance + distanceOffset;
      ApproachFasterLead(t, vEgo, vLead, leadDistance, stoppingDistance);
      ApproachSlowerLead(t, vEgo, vLead, leadDistance, stoppingDistance);
    }

    /** Lines 125-137 of `update_follow_values`, in place. */
    method ApproachFasterLead(t: Toggles, vEgo: real, vLead: real, leadDistance: real, stoppingDistance: real)
      modifies this`accelerationJerk, this`speedJerk, this`tFollow
      ensures FollowFields() == ApproachStep(env, old(FollowFields()), t, vEgo, vLead, leadDistance, stoppingDistance)
    {
      if t.aggressiveAccelerationExperimental && vLead > vEgo {
        var accelerationOffset := ExperimentalAccelOffset(env, vEgo, vLead, leadDistance, stoppingDistance, tFollow);
        accelerationJerk := accelerationJerk / accelerationOffset;
        speedJerk := speedJerk / accelerationOffset;
        tFollow := tFollow / accelerationOffset;
      } else if t.aggressiveAcceleration && vLead > vEgo {
        var accelerationOffset := AggressiveAccelOffset(env, vEgo, vLead, leadDistance, tFollow);
        tFollow := tFollow / accelerationOffset;
      }
    }

    /** Lines 139-147 of `update_follow_values`, in place. */
    method ApproachSlowerLead(t: Toggles, vEgo: real, vLead: real, leadDistance: real, stoppingDistance: real)
      requires env.Valid()
      modifies this`accelerationJerk, this`speedJerk, this`tFollow
      ensures FollowFields() == BrakingStep(env, old(FollowFields()), t, vEgo, vLead,
        BrakingOffset(env, t.smootherBrakingFarLead, vEgo, vLead, leadDistance, stoppingDistance, old(tFollow)))
    {
      if t.smootherBraking && vLead < vEgo {
        var brakingOffset := BrakingOffset(env, t.smootherBrakingFarLead, vEgo, vLead, leadDistance, stoppingDistance, tFollow);
        if t.smootherBrakingJerk {
          var scales := BrakingJerkScales(env, brakingOffset);
          accelerationJerk := accelerationJerk * scales.0;
          speedJerk := speedJerk * scales.1;
        }
        tFollow := tFollow / brakingOffset;
      }
    }

    /** `update`: one planner cycle. It stores the lead, selects the
        acceleration envelope, resolves the baseline, adjusts or resets the
        follow values, stores the curvature and then fails in
        `update_v_cruise` with `ValueError`, so the cruise target is never
        assigned and the conditional-experimental-mode update is never
        reached. `roadCurvature` is the value `calculate_road_curvature`
        returns. */
    method Update(car: CarState, controls: ControlsState, trafficModeActive: bool, lead: Lead,
                  roadCurvature: real, t: Toggles) returns (r: Result<()>)
      requires env.Valid()
      modifies this
      ensures leadOne == lead
      ensures maxAccel == Some(SelectMaxAccel(env, t.accelerationProfile, controls.experimentalMode, EgoSpeed(car.vEgo)))
      ensures minAccel == Some(SelectMinAccel(env, t.decelerationProfile, controls.experimentalMode, EgoSpeed(car.vEgo)))
      ensures minAccel.value < 0.0
      ensures var base := Baseline(env, trafficModeActive, EgoSpeed(car.vEgo), t, controls.personality);
        baseAccelerationJerk == base.accelerationJerk && baseSpeedJerk == base.speedJerk &&
        FollowFields() == CycleFollow(env, old(FollowFields()), base, lead.status && openpilotLongitudinalControl,
                                      trafficModeActive, EgoSpeed(car.vEgo), lead.vLead, lead.dRel, t)
      ensures this.roadCurvature == roadCurvature
      ensures vCruise == old(vCruise)
      ensures r == Failure(ValueError)
      ensures old(vCruise) == None ==> Publish().Failure?
    {
      leadOne := lead;

      var vCruiseMs := CruiseSpeed(env, controls.vCruise);

      var vEgo := EgoSpeed(car.vEgo);
      var vLead := leadOne.vLead;

      SelectAccelerationLimits(t, controls.experimentalMode, vEgo);
      ResolveBaseline(trafficModeActive, vEgo, t, controls.personality);

      if leadOne.status && openpilotLongitudinalControl {
        UpdateFollowValues(trafficModeActive, vEgo, vLead, t);
      } else {
        accelerationJerk := baseAccelerationJerk;
        speedJerk := baseSpeedJerk;
      }

      this.roadCurvature := roadCurvature;
      var target := UpdateVCruise(vCruiseMs, env.cruisingSpeed);
      // `update_v_cruise` always raises, so line 115 never assigns `self.v_cruise`
      // and `update` ends here with the exception.
      r := Failure(target.error);
    }

    /** Lines 76-92 of `update`: the acceleration envelope. */
    method SelectAccelerationLimits(t: Toggles, experimentalMode: bool, vEgo: real)
      requires env.Valid()
      modifies this`maxAccel, this`minAccel
      ensures maxAccel == Some(SelectMaxAccel(env, t.accelerationProfile, experimentalMode, vEgo))
      ensures minAccel == Some(SelectMinAccel(env, t.decelerationProfile, experimentalMode, vEgo))
    {
      if t.accelerationProfile == 1 {
        maxAccel := Some(MaxAccelEco(vEgo));
      } else if t.accelerationProfile in {2, 3} {
        maxAccel := Some(MaxAccelSport(vEgo));
      } else if experimentalMode {
        maxAccel := Some(env.accelMax);
      } else {
        maxAccel := Some(env.getMaxAccel(vEgo));
      }

      if t.decelerationProfile == 1 {
        minAccel := Some(MinAccelEco(vEgo));
      } else if t.decelerationProfile == 2 {
        minAccel := Some(MinAccelSport(vEgo));
      } else if experimentalMode {
        minAccel := Some(env.accelMin);
      } else {
        minAccel := Some(env.aCruiseMin);
      }
    }

    /** Lines 94-106 of `update`: the baseline jerks and follow time. */
    method ResolveBaseline(trafficModeActive: bool, vEgo: real, t: Toggles, personality: int)
      requires env.Valid()
      modifies this`baseAccelerationJerk, this`baseSpeedJerk, this`tFollow
      ensures FollowState(baseAccelerationJerk, baseSpeedJerk, tFollow) ==
                Baseline(env, trafficModeActive, vEgo, t, personality)
    {
      if trafficModeActive {
        baseAccelerationJerk := TrafficInterp(env, vEgo, t.trafficModeJerkAcceleration);
        baseSpeedJerk := TrafficInterp(env, vEgo, t.trafficModeJerkSpeed);
        tFollow := TrafficInterp(env, vEgo, t.trafficModeTFollow);
      } else {
        var jerks := env.getJerkFactor(t.customPersonalities,
                                       t.aggressiveJerkAcceleration, t.aggressiveJerkSpeed,
                                       t.standardJerkAcceleration, t.standardJerkSpeed,
                                       t.relaxedJerkAcceleration, t.relaxedJerkSpeed, personality);
        baseAccelerationJerk, baseSpeedJerk := jerks.0, jerks.1;
        tFollow := env.getTFollow(t.customPersonalities, t.aggressiveFollow, t.standardFollow,
                                  t.relaxedFollow, personality);
      }
    }

    /** The message fields of `publish`: the jerks are scaled by
        `A_CHANGE_COST` and `J_EGO_COST`, everything else passes through
        unscaled. Reading an attribute `update` never assigned raises
        `AttributeError`. */
    function Publish(): (r: Result<FrogPilotPlan>)
      reads this
      ensures r.Failure? <==> maxAccel == None || minAccel == None || vCruise == None
      ensures r.Failure? ==> r.error == AttributeError
      ensures r.Success? ==>
        r.value.accelerationJerk == env.aChangeCost * accelerationJerk &&
        r.value.accelerationJerkStock == env.aChangeCost * baseAccelerationJerk &&
        r.value.egoJerk == env.jEgoCost * speedJerk &&
        r.value.egoJerkStock == env.jEgoCost * baseSpeedJerk
      ensures r.Success? ==>
        Some(r.value.maxAcceleration) == maxAccel && Some(r.value.minAcceleration) == minAccel &&
        r.value.tFollow == tFollow && Some(r.value.vCruise) == vCruise
    {
      if maxAccel == None || minAccel == None || vCruise == None then Failure(AttributeError)
      else Success(FrogPilotPlan(env.aChangeCost * accelerationJerk, env.aChangeCost * baseAccelerationJerk,
                                 env.jEgoCost * speedJerk, env.jEgoCost * baseSpeedJerk,
                                 maxAccel.value, minAccel.value, tFollow, vCruise.value))
    }
  }
}

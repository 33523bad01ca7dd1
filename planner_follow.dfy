/** The dynamic follow adjuster, `FrogPilotPlanner.update_follow_values`
    (selfdrive/frogpilot/controls/frogpilot_planner.py, lines 120-147), as
    functions of the state it perturbs. The class in planner.dfy runs the
    same steps in place and is proved against `FollowValues`. */
module PlannerFollow {
  import opened Common
  import opened PlannerProfiles

  /** `np.clip(x, lo, hi)`, that is `min(max(x, lo), hi)`. */
  function Clip(x: real, lo: real, hi: real): (r: real)
    ensures lo <= hi ==> lo <= r <= hi
    ensures lo <= x <= hi ==> r == x
    ensures lo <= hi && x < lo ==> r == lo
    ensures x > hi ==> r == hi
  {
    Min(Max(x, lo), hi)
  }

  /** `np.maximum(x, 1)`: a distance factor is never below 1, even for a
      lead closer than the margin. */
  function DistanceFactor(x: real): (r: real)
    ensures r >= 1.0 && r >= x
    ensures r == x || r == 1.0
  {
    Max(x, 1.0)
  }

  /** Line 121: the extra stopping margin. Zero in traffic mode; otherwise
      the increased stopping distance, reduced by how far the car is above
      the city speed limit. */
  function DistanceOffset(env: Env, trafficModeActive: bool, vEgo: real, increasedStoppingDistance: real): (r: real)
    ensures trafficModeActive ==> r == 0.0
    ensures !trafficModeActive ==> r <= increasedStoppingDistance
    ensures !trafficModeActive && vEgo <= env.citySpeedLimit ==> r == increasedStoppingDistance
    ensures !trafficModeActive && vEgo > env.citySpeedLimit ==>
              r == increasedStoppingDistance - (vEgo - env.citySpeedLimit)
  {
    if !trafficModeActive then increasedStoppingDistance + Min(env.citySpeedLimit - vEgo, 0.0) else 0.0
  }

  /** Lines 127-129: the offset of the experimental approach to a faster
      lead, clipped into `[1, distance factor]`. */
  function ExperimentalAccelOffset(env: Env, vEgo: real, vLead: real, leadDistance: real,
                                   stoppingDistance: real, tFollow: real): (r: real)
    ensures 1.0 <= r <= DistanceFactor(leadDistance - vEgo * tFollow)
  {
    var distanceFactor := DistanceFactor(leadDistance - vEgo * tFollow);
    var standstillOffset := Max(stoppingDistance - vEgo, 0.0);
    Clip((vLead - vEgo) + standstillOffset * Max(vLead - vEgo, 0.0) - env.comfortBrake, 1.0, distanceFactor)
  }

  /** Lines 134-136: the offset of the plain aggressive approach, whose
      distance factor is measured with the lead's speed, clipped into
      `[1, distance factor]`. */
  function AggressiveAccelOffset(env: Env, vEgo: real, vLead: real, leadDistance: real, tFollow: real): (r: real)
    ensures 1.0 <= r <= DistanceFactor(leadDistance - vLead * tFollow)
  {
    var distanceFactor := DistanceFactor(leadDistance - vLead * tFollow);
    var standstillOffset := Max(env.stopDistance - env.powComfortBrake(vEgo), 0.0);
    Clip((vLead - vEgo) + standstillOffset - env.comfortBrake, 1.0, distanceFactor)
  }

  /** Line 142: the far-lead offset is never negative and is zero unless
      its toggle is on. */
  function FarLeadOffset(env: Env, farLead: bool, vEgo: real, vLead: real, leadDistance: real,
                         stoppingDistance: real, tFollow: real): (r: real)
    ensures r >= 0.0
    ensures !farLead ==> r == 0.0
  {
    if farLead then
      Max(leadDistance - vEgo * tFollow - stoppingDistance + (vLead - env.citySpeedLimit), 0.0)
    else 0.0
  }

  /** Lines 141-143: the offset of smoother braking towards a slower lead,
      clipped into `[1, distance factor]`. */
  function BrakingOffset(env: Env, farLead: bool, vEgo: real, vLead: real, leadDistance: real,
                         stoppingDistance: real, tFollow: real): (r: real)
    ensures 1.0 <= r <= DistanceFactor(leadDistance - vLead * tFollow)
  {
    var distanceFactor := DistanceFactor(leadDistance - vLead * tFollow);
    var farLeadOffset := FarLeadOffset(env, farLead, vEgo, vLead, leadDistance, stoppingDistance, tFollow);
    Clip((vEgo - vLead) + farLeadOffset - env.comfortBrake, 1.0, distanceFactor)
  }

  /** Lines 145-146: the factors the braking jerks are multiplied by. They
      are positive and capped at `COMFORT_BRAKE / 2` and `COMFORT_BRAKE * 2`
      however large the braking offset grows. */
  function BrakingJerkScales(env: Env, brakingOffset: real): (r: (real, real))
    requires env.Valid() && brakingOffset >= 1.0
    ensures 0.0 < r.0 <= env.comfortBrake / 2.0 && r.0 <= brakingOffset
    ensures 0.0 < r.1 <= env.comfortBrake * 2.0 && r.1 <= brakingOffset
  {
    (Min(brakingOffset, env.comfortBrake / 2.0), Min(brakingOffset, env.comfortBrake * 2.0))
  }

  /** Dividing by an offset of at least 1 keeps a positive value positive
      and never makes it larger. */
  lemma DivideByOffset(v: real, offset: real)
    requires offset >= 1.0
    ensures v > 0.0 ==> 0.0 < v / offset <= v
    ensures v == 0.0 ==> v / offset == 0.0
  {
    if v > 0.0 {
      assert v / offset * offset == v;
      assert v - v / offset == (v / offset) * (offset - 1.0);
    }
  }

  /** Lines 126-137: the reaction to a faster lead. The experimental toggle
      takes precedence and divides both jerks and the follow time by its
      offset; the plain aggressive toggle divides only the follow time. */
  function ApproachStep(env: Env, s: FollowState, t: Toggles, vEgo: real, vLead: real,
                        leadDistance: real, stoppingDistance: real): (r: FollowState)
    ensures !(vLead > vEgo) ==> r == s
    ensures !t.aggressiveAccelerationExperimental && !t.aggressiveAcceleration ==> r == s
    ensures t.aggressiveAccelerationExperimental && vLead > vEgo ==>
      var offset := ExperimentalAccelOffset(env, vEgo, vLead, leadDistance, stoppingDistance, s.tFollow);
      r == FollowState(s.accelerationJerk / offset, s.speedJerk / offset, s.tFollow / offset)
    ensures !t.aggressiveAccelerationExperimental ==>
      r.accelerationJerk == s.accelerationJerk && r.speedJerk == s.speedJerk
    ensures !t.aggressiveAccelerationExperimental && t.aggressiveAcceleration && vLead > vEgo ==>
      r.tFollow == s.tFollow / AggressiveAccelOffset(env, vEgo, vLead, leadDistance, s.tFollow)
    ensures s.tFollow > 0.0 ==> 0.0 < r.tFollow <= s.tFollow
    ensures s.accelerationJerk > 0.0 ==> 0.0 < r.accelerationJerk <= s.accelerationJerk
    ensures s.speedJerk > 0.0 ==> 0.0 < r.speedJerk <= s.speedJerk
  {
    if t.aggressiveAccelerationExperimental && vLead > vEgo then
      var offset := ExperimentalAccelOffset(env, vEgo, vLead, leadDistance, stoppingDistance, s.tFollow);
      DivideByOffset(s.accelerationJerk, offset);
      DivideByOffset(s.speedJerk, offset);
      DivideByOffset(s.tFollow, offset);
      FollowState(s.accelerationJerk / offset, s.speedJerk / offset, s.tFollow / offset)
    else if t.aggressiveAcceleration && vLead > vEgo then
      var offset := AggressiveAccelOffset(env, vEgo, vLead, leadDistance, s.tFollow);
      DivideByOffset(s.tFollow, offset);
      s.(tFollow := s.tFollow / offset)
    else s
  }

  /** Lines 140-147: the reaction to a slower lead, given the braking
      offset of lines 141-143. The follow time is divided by the offset;
      the jerks are multiplied by the capped scales, and only when the
      braking-jerk toggle is on. */
  function BrakingStep(env: Env, s: FollowState, t: Toggles, vEgo: real, vLead: real, brakingOffset: real): (r: FollowState)
    requires env.Valid() && brakingOffset >= 1.0
    ensures !(vLead < vEgo) || !t.smootherBraking ==> r == s
    ensures !t.smootherBrakingJerk ==> r.accelerationJerk == s.accelerationJerk && r.speedJerk == s.speedJerk
    ensures t.smootherBraking && vLead < vEgo ==> r.tFollow == s.tFollow / brakingOffset
    ensures t.smootherBraking && t.smootherBrakingJerk && vLead < vEgo ==>
      r.accelerationJerk == s.accelerationJerk * BrakingJerkScales(env, brakingOffset).0 &&
      r.speedJerk == s.speedJerk * BrakingJerkScales(env, brakingOffset).1
    ensures s.tFollow > 0.0 ==> 0.0 < r.tFollow <= s.tFollow
    ensures s.accelerationJerk > 0.0 ==> r.accelerationJerk > 0.0
    ensures s.speedJerk > 0.0 ==> r.speedJerk > 0.0
  {
    if t.smootherBraking && vLead < vEgo then
      var scales := BrakingJerkScales(env, brakingOffset);
      DivideByOffset(s.tFollow, brakingOffset);
      if t.smootherBrakingJerk then
        PositiveProduct(s.accelerationJerk, scales.0);
        PositiveProduct(s.speedJerk, scales.1);
        FollowState(s.accelerationJerk * scales.0, s.speedJerk * scales.1, s.tFollow / brakingOffset)
      else s.(tFollow := s.tFollow / brakingOffset)
    else s
  }

  lemma PositiveProduct(a: real, b: real)
    ensures a > 0.0 && b > 0.0 ==> a * b > 0.0
  {
  }

  /** `update_follow_values`: the margins of lines 121-123, then the
      approach step, then the braking step. With a positive follow time on
      entry the follow time stays positive and never grows; with equal
      speeds, or every toggle off, nothing changes. */
  function FollowValues(env: Env, s: FollowState, trafficModeActive: bool, vEgo: real, vLead: real,
                        dRel: real, t: Toggles): (r: FollowState)
    requires env.Valid()
    ensures s.tFollow > 0.0 ==> 0.0 < r.tFollow <= s.tFollow
    ensures s.accelerationJerk > 0.0 ==> r.accelerationJerk > 0.0
    ensures s.speedJerk > 0.0 ==> r.speedJerk > 0.0
    ensures vLead == vEgo ==> r == s
    ensures !t.aggressiveAccelerationExperimental && !t.aggressiveAcceleration && !t.smootherBraking ==> r == s
    ensures !t.aggressiveAccelerationExperimental && !t.smootherBrakingJerk ==>
      r.accelerationJerk == s.accelerationJerk && r.speedJerk == s.speedJerk
  {
    var distanceOffset := DistanceOffset(env, trafficModeActive, vEgo, t.increasedStoppingDistance);
    var leadDistance := dRel - distanceOffset;
    var stoppingDistance := env.stopDistance + distanceOffset;
    var approached := ApproachStep(env, s, t, vEgo, vLead, leadDistance, stoppingDistance);
    var brakingOffset := BrakingOffset(env, t.smootherBrakingFarLead, vEgo, vLead, leadDistance, stoppingDistance,
                                       approached.tFollow);
    BrakingStep(env, approached, t, vEgo, vLead, brakingOffset)
  }

  /** The approach and braking steps never both fire: for a faster lead the
      braking step is the identity, for a slower one the approach step is. */
  lemma ApproachAndBrakingExclusive(env: Env, s: FollowState, t: Toggles, vEgo: real, vLead: real,
                                    leadDistance: real, stoppingDistance: real, brakingOffset: real)
    requires env.Valid() && brakingOffset >= 1.0
    ensures vLead > vEgo ==> BrakingStep(env, s, t, vEgo, vLead, brakingOffset) == s
    ensures vLead < vEgo ==> ApproachStep(env, s, t, vEgo, vLead, leadDistance, stoppingDistance) == s
  {
  }

  /** The follow-related values at the end of a cycle (lines 108-112). With
      a tracked lead under openpilot longitudinal control, the adjuster
      starts from the PREVIOUS cycle's jerks, not from the new baseline, and
      from the new baseline follow time. Otherwise the jerks are reset to the
      baseline and the follow time is the baseline one. */
  function CycleFollow(env: Env, previous: FollowState, base: FollowState, leadActive: bool,
                       trafficModeActive: bool, vEgo: real, vLead: real, dRel: real, t: Toggles): (r: FollowState)
    requires env.Valid()
    ensures !leadActive ==> r == base
    ensures leadActive && base.tFollow > 0.0 ==> 0.0 < r.tFollow <= base.tFollow
    ensures leadActive && !t.aggressiveAccelerationExperimental && !t.smootherBrakingJerk ==>
      r.accelerationJerk == previous.accelerationJerk && r.speedJerk == previous.speedJerk
    ensures leadActive && vLead == vEgo ==>
      r == FollowState(previous.accelerationJerk, previous.speedJerk, base.tFollow)
  {
    if leadActive then
      FollowValues(env, FollowState(previous.accelerationJerk, previous.speedJerk, base.tFollow),
                   trafficModeActive, vEgo, vLead, dRel, t)
    else base
  }
}

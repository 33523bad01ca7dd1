# FrogPilot longitudinal planner and alert-sound playback, in Dafny

This project models two pieces of sequential logic from FrogPilot, an openpilot fork, and proves properties of them.

**The longitudinal planner cycle** is `FrogPilotPlanner` in `selfdrive/frogpilot/controls/frogpilot_planner.py`. One cycle:

- picks an acceleration envelope from the acceleration and deceleration profile codes, using piecewise-linear speed tables;
- resolves the baseline jerks and follow time, from the traffic-mode tables or from the personality helpers;
- when a lead is tracked under openpilot longitudinal control, runs `update_follow_values`, which scales the jerks and the follow time by offsets clipped into `[1, distance factor]`;
- calls `update_v_cruise`, which aggregates cruise targets.

`publish` scales the jerks by the MPC cost constants.

**The alert-sound playback** is `Soundd` in `selfdrive/ui/soundd.py`:

- `get_sound_data` fills a buffer from the current alert's sound and advances a frame counter, bounded by the alert's play count;
- `update_alert` and `get_audible_alert` switch alerts, with a fallback for controls timeouts;
- `check_controls_timeout_alert` is the window test behind that fallback.

## How the model is organised

- **Specification functions on values.** `Interpolation` implements the semantics of openpilot's `numpy_fast.interp`, which agree with `numpy.interp` on ascending breakpoints. `PlannerProfiles` holds the tables, the envelope and the baseline. `PlannerFollow` holds the follow adjuster as functions of the state it perturbs. `PlannerCruise` holds the target aggregation. `SoundSpec` holds the alert table, the timeout window, one `get_sound_data` call and the alert switching.
- **Classes for the source's mutable objects.** `Planner.FrogPilotPlanner` and `Sound.Soundd` update their fields in place. Each method is proved against the specification functions above. `Soundd.CopyLoop` is the source's `while` loop over an `array`, with its loop invariants.
- **Python exceptions become values.** Exceptions the code can raise are `Result` values (`Common.PyError`): `ValueError` from `min([])`, `AttributeError` from reading an attribute never assigned, `KeyError` from a missing dictionary entry, and `ZeroDivisionError` from `%` by a zero length.
- **Constants and helpers from other files are parameters.** They are fields of `PlannerProfiles.Env`; `Env.Valid()` states what is assumed of them. The constants are `CITY_SPEED_LIMIT`, `CRUISING_SPEED`, `COMFORT_BRAKE`, `STOP_DISTANCE`, `ACCEL_MIN`, `ACCEL_MAX`, `A_CRUISE_MIN`, `V_CRUISE_UNSET`, `KPH_TO_MS`, `A_CHANGE_COST` and `J_EGO_COST`. The helpers are `get_jerk_factor`, `get_T_FOLLOW`, `get_max_accel`, and the power `v_ego ** COMFORT_BRAKE`.
- **Floats are reals.** Floating-point values are modelled as mathematical reals.

## Behaviour of the code worth knowing

- **`update_v_cruise` always raises.** Two facts about its code:
  - The requested cruise speed is not a candidate. It only replaces candidates at or below `CRUISING_SPEED` (`frogpilot_planner.py:157`).
  - The candidate list is empty (`frogpilot_planner.py:156`). So `min` raises `ValueError` on every call (line 159).

  As a consequence, `update` ends with that exception. `self.v_cruise` is never assigned, the conditional-experimental-mode update is never reached, and `publish` raises `AttributeError` when it reads `self.v_cruise`. `Planner.FrogPilotPlanner.Update`, `PlannerCruise.UpdateVCruise` and `PlannerCruise.CruiseSpeedNotACandidate` state this.
- **Signs of the acceleration bounds and the follow time.**
  - `min_accel < 0` is proved in every branch of lines 85-92.
  - `max_accel > 0` is proved in every branch of lines 76-83 except the stock `get_max_accel` one, which is left abstract.
  - `t_follow > 0` is preserved, not established: a positive baseline follow time stays positive and never grows through lines 120-147. The baseline itself comes from helpers outside this model.
- **Jerks carry over between cycles.** With a tracked lead, the jerk fields are not reset to the baseline before `update_follow_values` (lines 108-112). That function scales the previous cycle's values again (`PlannerFollow.CycleFollow`).
- **`get_sound_data` reads from a fixed offset.** The read offset and the loop count are computed once, before the copy loop (lines 103-104). So within one call every chunk is copied from `current_sound_frame % len`, and the output repeats with period `len - offset` rather than wrapping to the start of the sound. Also, a one-shot sound can be written several times within a single call (`SoundSpec.OneShotSoundRepeatsWithinCall`).

## Model

| member | source | states |
|---|---|---|
| Interpolation.Interp | selfdrive/frogpilot/controls/frogpilot_planner.py:40-50 | `interp` over ascending breakpoints returns the first tabulated value at or below the first breakpoint, and the last value at or beyond the last breakpoint |
| Interpolation.InterpAtBreakpoint | selfdrive/frogpilot/controls/frogpilot_planner.py:40-50 | queried exactly at a breakpoint, `interp` returns the tabulated value there |
| Interpolation.InterpLinear | selfdrive/frogpilot/controls/frogpilot_planner.py:40-50 | strictly after a breakpoint and up to the next one, `interp` is the line through the two neighbouring table points |
| Interpolation.InterpBetweenNeighbours | selfdrive/frogpilot/controls/frogpilot_planner.py:40-50 | between two neighbouring breakpoints the result lies between their two tabulated values |
| Interpolation.InterpWithin | selfdrive/frogpilot/controls/frogpilot_planner.py:28-50 | if every tabulated value lies in `[lo, hi]`, every result does too: interpolation never leaves its table's range |
| Interpolation.SegmentBetween | selfdrive/frogpilot/controls/frogpilot_planner.py:40-50 | on its own interval, a linear segment stays between its end values |
| PlannerProfiles.MinAccelEco | selfdrive/frogpilot/controls/frogpilot_planner.py:40-41 | the eco deceleration limit lies in `[-0.56, -0.001]` at every speed, so it always brakes |
| PlannerProfiles.MaxAccelEco | selfdrive/frogpilot/controls/frogpilot_planner.py:43-44 | the eco acceleration limit lies in `[0.091, 3.5]` at every speed, so it is always positive |
| PlannerProfiles.MinAccelSport | selfdrive/frogpilot/controls/frogpilot_planner.py:46-47 | the sport deceleration limit lies in `[-0.60, -0.50]` at every speed |
| PlannerProfiles.MaxAccelSport | selfdrive/frogpilot/controls/frogpilot_planner.py:49-50 | the sport acceleration limit lies in `[0.2, 3.5]` at every speed |
| PlannerProfiles.ProfileTablesAtBreakpoints | selfdrive/frogpilot/controls/frogpilot_planner.py:28-36 | the deceleration tables give their tabulated values at all five breakpoints; every table is flat beyond its last breakpoint (42 and 55 m/s) |
| PlannerProfiles.MaxProfileTablesAtBreakpoints | selfdrive/frogpilot/controls/frogpilot_planner.py:30-36 | the eco and sport acceleration tables give their tabulated values at all ten breakpoints |
| PlannerProfiles.EgoSpeed | selfdrive/frogpilot/controls/frogpilot_planner.py:73 | the ego speed is never negative and is at least the measured speed; it equals the measured speed when that is non-negative, and is exactly 0 when it is negative |
| PlannerProfiles.CruiseSpeed | selfdrive/frogpilot/controls/frogpilot_planner.py:70-71 | the requested cruise speed in m/s is capped at the unset sentinel; below the sentinel it is the request converted, above it the sentinel converted |
| PlannerProfiles.SelectMaxAccel | selfdrive/frogpilot/controls/frogpilot_planner.py:76-83 | priority: profile 1 gives eco, 2 or 3 gives sport, otherwise experimental mode gives `ACCEL_MAX`, otherwise the stock `get_max_accel`; positive in every branch but the stock one |
| PlannerProfiles.SelectMinAccel | selfdrive/frogpilot/controls/frogpilot_planner.py:85-92 | priority: profile 1 gives eco, 2 gives sport (3 does not), otherwise `ACCEL_MIN` in experimental mode, otherwise `A_CRUISE_MIN`; negative in every branch |
| PlannerProfiles.TrafficInterp | selfdrive/frogpilot/controls/frogpilot_planner.py:94-97 | a traffic-mode table gives its first value at standstill, its second from the city speed limit on, and never leaves the range between them |
| PlannerProfiles.Baseline | selfdrive/frogpilot/controls/frogpilot_planner.py:94-106 | in traffic mode, the baseline jerks and follow time come from the traffic tables and stay within their ranges; otherwise they are what `get_jerk_factor` and `get_T_FOLLOW` return |
| PlannerFollow.Clip | selfdrive/frogpilot/controls/frogpilot_planner.py:129 | `np.clip` lands in `[lo, hi]`, keeps values already inside, and takes the nearer bound for values outside |
| PlannerFollow.DistanceFactor | selfdrive/frogpilot/controls/frogpilot_planner.py:127 | every distance factor is at least 1 and at least its argument |
| PlannerFollow.DistanceOffset | selfdrive/frogpilot/controls/frogpilot_planner.py:121 | the distance offset is 0 in traffic mode; otherwise it is at most the increased stopping distance, reduced by exactly the excess over the city speed limit |
| PlannerFollow.ExperimentalAccelOffset | selfdrive/frogpilot/controls/frogpilot_planner.py:127-129 | the experimental acceleration offset lies in `[1, distance factor]`, with the factor measured at the ego speed |
| PlannerFollow.AggressiveAccelOffset | selfdrive/frogpilot/controls/frogpilot_planner.py:134-136 | the aggressive acceleration offset lies in `[1, distance factor]`, with the factor measured at the lead speed |
| PlannerFollow.FarLeadOffset | selfdrive/frogpilot/controls/frogpilot_planner.py:142 | the far-lead offset is never negative, and is 0 unless its toggle is on |
| PlannerFollow.BrakingOffset | selfdrive/frogpilot/controls/frogpilot_planner.py:141-143 | the braking offset lies in `[1, distance factor]` |
| PlannerFollow.BrakingJerkScales | selfdrive/frogpilot/controls/frogpilot_planner.py:144-146 | the braking jerk multipliers are positive, never exceed `COMFORT_BRAKE / 2` (acceleration) or `COMFORT_BRAKE * 2` (speed), and never exceed the offset |
| PlannerFollow.ApproachStep | selfdrive/frogpilot/controls/frogpilot_planner.py:126-137 | for a faster lead, the experimental branch takes precedence and divides both jerks and the follow time by its offset; plain aggressive changes only the follow time; otherwise nothing changes; positive values stay positive and do not grow |
| PlannerFollow.BrakingStep | selfdrive/frogpilot/controls/frogpilot_planner.py:140-147 | for a slower lead under smoother braking, the follow time is divided by the braking offset; the jerks are multiplied by the capped scales only under the braking-jerk toggle, and are untouched otherwise; positivity is kept |
| PlannerFollow.FollowValues | selfdrive/frogpilot/controls/frogpilot_planner.py:120-147 | a positive follow time stays positive and never grows; positive jerks stay positive; with equal speeds, or every toggle off, nothing changes; jerks change only under the experimental or braking-jerk toggles |
| PlannerFollow.ApproachAndBrakingExclusive | selfdrive/frogpilot/controls/frogpilot_planner.py:126-147 | the approach and braking steps never both fire: for a faster lead the braking step is the identity, and for a slower lead the approach step is |
| PlannerFollow.CycleFollow | selfdrive/frogpilot/controls/frogpilot_planner.py:108-112 | without an active lead, jerks and follow time are the baseline; with one, the adjuster starts from the previous cycle's jerks and the baseline follow time, keeps the follow time positive and no larger, and with equal speeds leaves the previous jerks unchanged |
| PlannerCruise.FilterTargets | selfdrive/frogpilot/controls/frogpilot_planner.py:157 | candidates above the cruising speed are kept in place; the others are replaced by the requested cruise speed; the length is unchanged |
| PlannerCruise.ListMin | selfdrive/frogpilot/controls/frogpilot_planner.py:159 | Python `min`: an element of the list that is at most every element, and `ValueError` exactly for the empty list |
| PlannerCruise.AggregateTargets | selfdrive/frogpilot/controls/frogpilot_planner.py:156-159 | the result is a filtered candidate, at most every valid candidate, at most the requested speed when some candidate was replaced, and either the requested speed or above the cruising speed; `ValueError` exactly for no candidates |
| PlannerCruise.UpdateVCruise | selfdrive/frogpilot/controls/frogpilot_planner.py:149-159 | with the empty candidate list of line 156, `update_v_cruise` always raises `ValueError` |
| PlannerCruise.CruiseSpeedNotACandidate | selfdrive/frogpilot/controls/frogpilot_planner.py:157-159 | the requested cruise speed takes part in the minimum only through replaced candidates: one valid candidate above it wins |
| Planner.FrogPilotPlanner.constructor | selfdrive/frogpilot/controls/frogpilot_planner.py:53-65 | jerks, follow time and curvature start at 0; the acceleration bounds and the cruise target are unassigned |
| Planner.FrogPilotPlanner.Update | selfdrive/frogpilot/controls/frogpilot_planner.py:67-118 | one cycle stores the lead, sets the envelope (with `min_accel < 0`), the baseline and the follow fields of `CycleFollow`, and stores the curvature; it then raises `ValueError` with `v_cruise` unassigned, so a later `publish` fails |
| Planner.FrogPilotPlanner.SelectAccelerationLimits | selfdrive/frogpilot/controls/frogpilot_planner.py:76-92 | assigns `max_accel` and `min_accel` as `SelectMaxAccel` and `SelectMinAccel` prescribe |
| Planner.FrogPilotPlanner.ResolveBaseline | selfdrive/frogpilot/controls/frogpilot_planner.py:94-106 | assigns the base jerks and the follow time as `Baseline` prescribes |
| Planner.FrogPilotPlanner.UpdateFollowValues | selfdrive/frogpilot/controls/frogpilot_planner.py:120-147 | updates the jerks and the follow time in place to what `FollowValues` computes from their old values |
| Planner.FrogPilotPlanner.ApproachFasterLead | selfdrive/frogpilot/controls/frogpilot_planner.py:125-137 | updates the follow fields in place as `ApproachStep` prescribes |
| Planner.FrogPilotPlanner.ApproachSlowerLead | selfdrive/frogpilot/controls/frogpilot_planner.py:139-147 | updates the follow fields in place as `BrakingStep` prescribes, with the braking offset computed from the entry follow time |
| Planner.FrogPilotPlanner.Publish | selfdrive/frogpilot/controls/frogpilot_planner.py:161-174 | the published jerks are `A_CHANGE_COST` and `J_EGO_COST` times the fields, and the other fields pass through unscaled; reading an unassigned attribute raises `AttributeError` |
| SoundSpec.SoundListPlayCount | selfdrive/ui/soundd.py:32-47 | engage, disengage, refuse and prompt play once; every other listed alert loops forever; `none` and unlisted alerts have no entry |
| SoundSpec.ControlsTimeoutAlert | selfdrive/ui/soundd.py:49-56 | true exactly when controls are enabled and the elapsed time is more than `CONTROLS_TIMEOUT` and less than `CONTROLS_TIMEOUT + 10` seconds |
| SoundSpec.FixedOffsetLoop | selfdrive/ui/soundd.py:103-111 | the copy loop writes exactly `frames` samples taken from the fixed read offset |
| SoundSpec.Scaled | selfdrive/ui/soundd.py:113 | `ret * current_volume` scales every sample and keeps the length |
| SoundSpec.ScaledSilence | selfdrive/ui/soundd.py:96-113 | a zeroed buffer stays silent at any volume |
| SoundSpec.SoundData | selfdrive/ui/soundd.py:94-113 | see the full entry after this table |
| SoundSpec.SoundDataLoopsFromOffset | selfdrive/ui/soundd.py:103-111 | when the guard admits, a call's samples start with the sound from `frame % len`, then repeat with period `len - offset`, never wrapping to the sound's start |
| SoundSpec.ScaledRepeat | selfdrive/ui/soundd.py:106-113 | a scaled repetition starts with the scaled chunk and has the chunk's length as its period |
| SoundSpec.RepeatPeriodic | selfdrive/ui/soundd.py:106-111 | the copy loop's output is periodic in the length of the copied chunk |
| SoundSpec.RepeatExtend | selfdrive/ui/soundd.py:106-111 | after whole copies of the chunk, one more pass of the loop continues the repetition with the start of the chunk |
| SoundSpec.OneShotSoundRepeatsWithinCall | selfdrive/ui/soundd.py:99-111 | a two-sample sound that plays once, asked for five samples from the start, is written two and a half times in one call |
| SoundSpec.UpdateAlert | selfdrive/ui/soundd.py:120-124 | see the full entry after this table |
| SoundSpec.AudibleAlertStep | selfdrive/ui/soundd.py:126-135 | see the full entry after this table |
| SoundSpec.NewAlertPlaysFromStart | selfdrive/ui/soundd.py:120-124 | after switching to a new loaded alert, the next `get_sound_data` plays that sound from sample 0 and advances the counter by the frames asked for |
| SoundSpec.OneShotSilentAfterFullPass | selfdrive/ui/soundd.py:99-111 | a one-shot sound started with a call of at least its length leaves the counter at that call's size; every later call is silent with the counter frozen |
| Sound.Soundd.constructor | selfdrive/ui/soundd.py:60-65 | a new player is silent, at the minimum volume, with frame counter 0 and the timeout flag lowered; as with `load_sounds`, sounds are loaded only for alerts of the sound table |
| Sound.Soundd.GetSoundData | selfdrive/ui/soundd.py:94-113 | the buffer it returns, its exception and the new frame counter are exactly those of `SoundData` |
| Sound.Soundd.CopyLoop | selfdrive/ui/soundd.py:106-111 | if the play-count guard admits the loop, the loop terminates having filled the whole buffer with `FixedOffsetLoop` and advanced the counter by the frames written; otherwise the buffer stays zero and the counter unchanged |
| Sound.Soundd.UpdateAlert | selfdrive/ui/soundd.py:120-124 | the new alert and frame counter, or the `KeyError`, are exactly those of `SoundSpec.UpdateAlert` |
| Sound.Soundd.GetAudibleAlert | selfdrive/ui/soundd.py:126-135 | the new alert, frame counter and timeout flag, or the `KeyError`, are exactly those of `AudibleAlertStep` |
| Sound.CopyStep | selfdrive/ui/soundd.py:106-111 | one pass of the copy loop extends the written repetition and leaves the rest of the buffer zero |
| Sound.WriteSlice | selfdrive/ui/soundd.py:109 | the slice assignment writes the chunk at its position and leaves the rest of the buffer unchanged |

Full entries for the three rows too long for a table cell:

- **SoundSpec.SoundData**
  - With no alert, the call returns `frames` zeros and leaves the counter unchanged.
  - An alert missing from the table, or missing from the loaded sounds, raises `KeyError`.
  - An empty sound raises `ZeroDivisionError`.
  - Otherwise the call returns exactly `frames` samples. When the play-count guard admits the loop, the counter advances by `frames`. When it does not, the samples are zeros and the counter is unchanged.
- **SoundSpec.UpdateAlert**
  - The same alert changes nothing, so the counter is not reset.
  - A different alert other than `none` replaces the current one, with the counter reset to 0.
  - `none` replaces the current alert exactly when the counter has passed the loaded sound's length.
  - A current alert that is not loaded raises `KeyError`.
- **SoundSpec.AudibleAlertStep**
  - A fresh `controlsState` applies its alert.
  - Otherwise a timeout switches to `warningImmediate` through `update_alert` and raises the flag. It fails exactly when that `update_alert` raises.
  - Otherwise a raised flag asks `update_alert` for `none` and lowers the flag. It fails exactly when that `update_alert` raises.
  - Without a fresh message, the flag ends equal to the timeout test.
  - With none of these, nothing changes.

## Left out

- Message transport is not modelled: `messaging.new_message`, `pm.send`, `sm.all_checks` (the plan's `valid` flag), `Params` and `SubMaster`. `Planner.FrogPilotPlanner.Publish` returns the message fields.
- `ConditionalExperimentalMode.update` and the `conditionalExperimental` field of the plan are not modelled. That code lives in a file that is not part of this model, and `update` never reaches it because `update_v_cruise` raises first.
- `calculate_road_curvature` is not modelled. Its result is an input of `Update`.
- `get_jerk_factor`, `get_T_FOLLOW`, `get_max_accel`, the real power `v_ego ** COMFORT_BRAKE` and the imported constants are left abstract. They are fields of `Env`, and their files are not part of this model.
- The message inputs `frogpilotCarState`, `frogpilotNavigation`, `liveLocationKalman` and `modelData` are not inputs of the model. The modelled code only passes them through. The cluster speeds that `update_v_cruise` computes on lines 150-154 are not modelled either, because no result depends on them.
- Floating-point rounding, `float32` buffers, NaN and numpy broadcasting are not modelled: all arithmetic is on reals.
- PlannerProfiles.SelectMaxAccel: the stock branch's `get_max_accel` is uninterpreted, so `max_accel > 0` is proved only for the profile and experimental branches.
- Planner.FrogPilotPlanner.Update: `t_follow > 0` is proved to be preserved from a positive baseline, not established, because the baseline comes from `get_T_FOLLOW` or the user's traffic tables.
- The audio device and its thread are not modelled: `get_stream`, `soundd_thread` (its rate-keeper loop and its volume updates from the microphone level) and `callback`.
- `load_sounds` and `update_frogpilot_sounds` are not modelled: they read WAV files and configuration. The decoded sounds are a parameter of `Sound.Soundd.constructor`.
- Sound.Soundd.constructor: models a player that was constructed successfully. The source `__init__` calls `update_frogpilot_sounds` (`soundd.py:70`), which reads the name `custom_sounds` (line 207). That name is defined nowhere in the file, so `Soundd()` as written raises `NameError` there, and no playback method of the source can ever run. The model assumes that call succeeded and left the decoded sounds in `loaded_sounds`.
- `calculate_volume` and `FirstOrderFilter` are not modelled: they are floating-point signal processing. The current volume is a field that the model only reads.
- The sample data is not modelled as `int16` samples divided by 32768. Samples are arbitrary reals.
- `check_controls_timeout_alert` does not read the clock. The seconds since the last `controlsState` are a parameter, `controlsMissing`.

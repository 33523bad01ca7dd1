/** Alert-sound playback of selfdrive/ui/soundd.py as functions of the
    playback state: the alert table (lines 32-47), the controls-timeout
    window (lines 49-56), the samples one `get_sound_data` call produces
    (lines 94-113) and the alert switching of `update_alert` and
    `get_audible_alert` (lines 120-135). The class in sound.dfy runs them
    in place and is proved against these functions. */
module SoundSpec {
  import opened Common

  /** `car.CarControl.HUDControl.AudibleAlert`: the alerts of the sound
      table, `none`, and any other raw value (which the table lacks).
      `Unlisted(raw)` stands only for raw codes that are neither `none` nor
      a table entry: a caller that decodes a raw message value maps every
      listed code, `none` included, to its named constructor, so that
      comparing alerts here agrees with the source comparing raw integers. */
  datatype AudibleAlert =
    | NoAlert
    | Engage | Disengage | Refuse
    | Prompt | PromptRepeat | PromptDistracted
    | WarningSoft | WarningImmediate
    | Goat
    | Unlisted(raw: int)

  /** How often a sound plays: a number of times, or forever (`None` in the table). */
  datatype PlayCount = Times(n: nat) | Forever

  const ControlsTimeout: real := 5.0
  const MinVolume: real := 0.1

  /** `sound_list[alert][1]`: the play count, or `None` when the lookup
      raises `KeyError`. The four one-shot sounds play once; the others
      loop forever. */
  function SoundListPlayCount(alert: AudibleAlert): (r: Option<PlayCount>)
    ensures r.None? <==> alert.NoAlert? || alert.Unlisted?
    ensures r == Some(Times(1)) <==> alert in {Engage, Disengage, Refuse, Prompt}
    ensures r.Some? && r.value.Times? ==> r.value.n == 1
  {
    match alert
    case NoAlert => None
    case Unlisted(_) => None
    case Engage => Some(Times(1))
    case Disengage => Some(Times(1))
    case Refuse => Some(Times(1))
    case Prompt => Some(Times(1))
    case _ => Some(Forever)
  }

  /** `check_controls_timeout_alert`, with the seconds since the last
      `controlsState` as an input: true exactly inside the ten-second window
      that opens `CONTROLS_TIMEOUT` seconds after the last message, and only
      while controls are enabled. */
  function ControlsTimeoutAlert(controlsMissing: real, enabled: bool): (r: bool)
    ensures r <==> enabled && ControlsTimeout < controlsMissing && controlsMissing - ControlsTimeout < 10.0
    ensures r ==> controlsMissing < 15.0
  {
    if controlsMissing > ControlsTimeout then enabled && controlsMissing - ControlsTimeout < 10.0
    else false
  }

  // ---------------------------------------------------------------------
  // get_sound_data

  /** The output of one `get_sound_data` call and the new frame counter. */
  datatype SoundChunk = SoundChunk(samples: seq<real>, frame: nat)

  function Silence(frames: nat): (r: seq<real>)
    ensures |r| == frames && forall i :: 0 <= i < frames ==> r[i] == 0.0
  {
    seq(frames, i => 0.0)
  }

  /** Whether the play-count test of line 106 lets the copy loop run. */
  predicate GuardAdmits(count: PlayCount, loops: nat) {
    count.Forever? || loops < count.n
  }

  /** `frames` samples of `tail` played again and again from its start. */
  function Repeat(tail: seq<real>, frames: nat): (r: seq<real>)
    requires |tail| > 0
    ensures |r| == frames
    decreases frames
  {
    if frames <= |tail| then tail[..frames] else tail + Repeat(tail, frames - |tail|)
  }

  /** What the copy loop of lines 106-111 writes: because the read offset is
      fixed before the loop, every chunk is taken from `sound[offset..]`,
      repeated until `frames` samples are written. */
  function FixedOffsetLoop(sound: seq<real>, offset: nat, frames: nat): (r: seq<real>)
    requires offset < |sound|
    ensures |r| == frames
  {
    Repeat(sound[offset..], frames)
  }

  /** One sample at the given volume. */
  function Gain(sample: real, volume: real): real {
    sample * volume
  }

  /** `ret * self.current_volume`: every sample scaled by the volume. */
  function Scaled(samples: seq<real>, volume: real): (r: seq<real>)
    ensures |r| == |samples|
    ensures forall i :: 0 <= i < |r| ==> r[i] == Gain(samples[i], volume)
  {
    seq(|samples|, i requires 0 <= i < |samples| => Gain(samples[i], volume))
  }

  /** Silence stays silent at any volume. */
  lemma ScaledSilence(frames: nat, volume: real)
    ensures Scaled(Silence(frames), volume) == Silence(frames)
  {
  }

  /** `get_sound_data`: silence with no alert; `KeyError` for an alert
      missing from the table or from the loaded sounds; `ZeroDivisionError`
      for an empty sound; otherwise, when the play-count guard admits the
      loop, `frames` samples looped from the fixed offset and a counter
      advanced by `frames`, and silence with an unchanged counter when it
      does not. */
  function SoundData(sounds: map<AudibleAlert, seq<real>>, alert: AudibleAlert, frame: nat,
                     volume: real, frames: nat): (r: Result<SoundChunk>)
    ensures r.Failure? <==>
      alert != NoAlert && (SoundListPlayCount(alert).None? || alert !in sounds || |sounds[alert]| == 0)
    ensures r.Failure? ==> (r.error == ZeroDivisionError <==> SoundListPlayCount(alert).Some? && alert in sounds)
    ensures r.Failure? ==> r.error in {KeyError, ZeroDivisionError}
    ensures r.Success? ==> |r.value.samples| == frames
    ensures r.Success? ==> r.value.frame == frame || r.value.frame == frame + frames
    ensures r.Success? && r.value.frame == frame ==> r.value.samples == Silence(frames)
    ensures alert == NoAlert ==> r == Success(SoundChunk(Silence(frames), frame))
    ensures r.Success? && alert != NoAlert ==>
      (GuardAdmits(SoundListPlayCount(alert).value, frame / |sounds[alert]|) ==> r.value.frame == frame + frames) &&
      (!GuardAdmits(SoundListPlayCount(alert).value, frame / |sounds[alert]|) ==>
         r.value == SoundChunk(Silence(frames), frame))
  {
    if alert == NoAlert then Success(SoundChunk(Silence(frames), frame))
    else match SoundListPlayCount(alert)
      case None => Failure(KeyError)
      case Some(count) =>
        if alert !in sounds then Failure(KeyError)
        else
          var sound := sounds[alert];
          if |sound| == 0 then Failure(ZeroDivisionError)
          else
            var offset := frame % |sound|;
            var loops := frame / |sound|;
            if GuardAdmits(count, loops) then
              Success(SoundChunk(Scaled(FixedOffsetLoop(sound, offset, frames), volume), frame + frames))
            else Success(SoundChunk(Silence(frames), frame))
  }

  /** When the play count admits it, a call's samples start with the sound
      from `frame % |sound|` and then repeat with period `|sound| - offset`:
      within one call they never wrap around to the start of the sound. */
  lemma SoundDataLoopsFromOffset(sounds: map<AudibleAlert, seq<real>>, alert: AudibleAlert, frame: nat,
                                 volume: real, frames: nat)
    requires SoundData(sounds, alert, frame, volume, frames).Success? && alert != NoAlert
    requires GuardAdmits(SoundListPlayCount(alert).value, frame / |sounds[alert]|)
    ensures var samples := SoundData(sounds, alert, frame, volume, frames).value.samples;
      var sound := sounds[alert];
      var period := |sound| - frame % |sound|;
      (forall i :: 0 <= i < frames && i < period ==> samples[i] == Gain(sound[frame % |sound| + i], volume)) &&
      (forall i :: 0 <= i < frames - period ==> samples[i + period] == samples[i])
  {
    var sound := sounds[alert];
    var offset := frame % |sound|;
    var tail := sound[offset..];
    assert SoundData(sounds, alert, frame, volume, frames).value.samples == Scaled(Repeat(tail, frames), volume);
    ScaledRepeat(tail, frames, volume);
  }

  /** A scaled repetition starts with the scaled `tail` and has period `|tail|`. */
  lemma ScaledRepeat(tail: seq<real>, frames: nat, volume: real)
    requires |tail| > 0
    ensures var samples := Scaled(Repeat(tail, frames), volume);
      (forall i :: 0 <= i < frames && i < |tail| ==> samples[i] == Gain(tail[i], volume)) &&
      (forall i :: 0 <= i < frames - |tail| ==> samples[i + |tail|] == samples[i])
  {
    RepeatStart(tail, frames);
    RepeatPeriodic(tail, frames);
  }

  /** A repetition begins with the repeated sequence. */
  lemma RepeatStart(tail: seq<real>, frames: nat)
    requires |tail| > 0
    ensures forall i :: 0 <= i < frames && i < |tail| ==> Repeat(tail, frames)[i] == tail[i]
  {
  }

  /** A repetition has period `|tail|`. */
  lemma {:induction false} RepeatPeriodic(tail: seq<real>, frames: nat)
    requires |tail| > 0
    ensures forall i :: 0 <= i < frames - |tail| ==> Repeat(tail, frames)[i + |tail|] == Repeat(tail, frames)[i]
    decreases frames
  {
    if frames > |tail| {
      var rest := Repeat(tail, frames - |tail|);
      RepeatStart(tail, frames - |tail|);
      RepeatPeriodic(tail, frames - |tail|);
      forall i | 0 <= i < frames - |tail|
        ensures Repeat(tail, frames)[i + |tail|] == Repeat(tail, frames)[i]
      {
        if i >= |tail| {
          assert Repeat(tail, frames)[i] == rest[i - |tail|];
        }
      }
    }
  }

  /** Whether `w` frames are a whole number of copies of a `len`-frame chunk. */
  ghost predicate WholeCopies(w: nat, len: nat)
    decreases w
  {
    w == 0 || (0 < len <= w && WholeCopies(w - len, len))
  }

  /** After whole copies, a repetition continues with the start of `tail`. */
  lemma {:induction false} RepeatExtend(tail: seq<real>, w: nat, m: nat)
    requires |tail| > 0 && WholeCopies(w, |tail|) && m <= |tail|
    ensures Repeat(tail, w + m) == Repeat(tail, w) + tail[..m]
    decreases w
  {
    if w > 0 && m > 0 {
      RepeatExtend(tail, w - |tail|, m);
      if w == |tail| {
        assert Repeat(tail, w - |tail|) == [];
      }
    }
  }

  /** A one-shot sound overruns within a single call: a two-sample sound
      that plays once, asked for five samples from the start, is written
      two and a half times, because the play-count guard is evaluated with
      the loop count fixed before the loop. */
  lemma OneShotSoundRepeatsWithinCall(a: real, b: real)
    ensures SoundData(map[Engage := [a, b]], Engage, 0, 1.0, 5) ==
              Success(SoundChunk([a, b, a, b, a], 5))
  {
    assert [a, b][0..] == [a, b];
    assert Repeat([a, b], 1) == [a];
    assert Repeat([a, b], 3) == [a, b, a];
    assert Repeat([a, b], 5) == [a, b, a, b, a];
    assert Gain(a, 1.0) == a && Gain(b, 1.0) == b;
    assert Scaled([a, b, a, b, a], 1.0) == [a, b, a, b, a];
  }

  // ---------------------------------------------------------------------
  // Alert switching

  /** The alert being played and how many of its frames were written. */
  datatype Playback = Playback(alert: AudibleAlert, frame: nat)

  /** `update_alert`: the same alert changes nothing, so its counter is not
      reset; a different alert other than `none` replaces it at once with
      the counter at 0; `none` replaces it only once it has played past the
      end of its sound. Reading the length of a current alert that is not
      loaded raises `KeyError`, whatever the new alert. */
  function UpdateAlert(sounds: map<AudibleAlert, seq<real>>, p: Playback, newAlert: AudibleAlert): (r: Result<Playback>)
    ensures r.Failure? <==> p.alert != NoAlert && p.alert !in sounds
    ensures r.Failure? ==> r.error == KeyError
    ensures r.Success? ==> r.value == p || r.value == Playback(newAlert, 0)
    ensures r.Success? && newAlert == p.alert ==> r.value == p
    ensures r.Success? && newAlert != p.alert && newAlert != NoAlert ==> r.value == Playback(newAlert, 0)
    ensures r.Success? && newAlert == NoAlert && p.alert != NoAlert ==>
              (r.value.alert == NoAlert <==> p.frame > |sounds[p.alert]|)
  {
    if p.alert != NoAlert && p.alert !in sounds then Failure(KeyError)
    else
      var playedOnce := p.alert == NoAlert || p.frame > |sounds[p.alert]|;
      if p.alert != newAlert && (newAlert != NoAlert || playedOnce) then Success(Playback(newAlert, 0))
      else Success(p)
  }

  /** The playback state together with the controls-timeout flag. */
  datatype AlertState = AlertState(playback: Playback, controlsTimeoutAlert: bool)

  /** `get_audible_alert`: a fresh `controlsState` sets the alert it
      carries; otherwise a controls timeout switches to `warningImmediate`
      and raises the flag; otherwise a raised flag asks for silence and
      lowers the flag. Without a fresh message the flag ends equal to the
      timeout test. */
  function AudibleAlertStep(sounds: map<AudibleAlert, seq<real>>, s: AlertState, controlsUpdated: bool,
                            messageAlert: AudibleAlert, controlsMissing: real, enabled: bool): (r: Result<AlertState>)
    ensures controlsUpdated ==>
      var u := UpdateAlert(sounds, s.playback, messageAlert);
      (r.Success? <==> u.Success?) && (r.Success? ==> r.value == AlertState(u.value, s.controlsTimeoutAlert))
    ensures !controlsUpdated && ControlsTimeoutAlert(controlsMissing, enabled) ==>
      var u := UpdateAlert(sounds, s.playback, WarningImmediate);
      (r.Success? <==> u.Success?) && (r.Success? ==> r.value == AlertState(u.value, true))
    ensures !controlsUpdated && !ControlsTimeoutAlert(controlsMissing, enabled) && s.controlsTimeoutAlert ==>
      var u := UpdateAlert(sounds, s.playback, NoAlert);
      (r.Success? <==> u.Success?) && (r.Success? ==> r.value == AlertState(u.value, false))
    ensures r.Failure? ==> r.error == KeyError
    ensures r.Success? && !controlsUpdated ==>
      r.value.controlsTimeoutAlert == ControlsTimeoutAlert(controlsMissing, enabled)
    ensures r.Success? && !controlsUpdated && ControlsTimeoutAlert(controlsMissing, enabled) ==>
      r.value.playback.alert == WarningImmediate
    ensures !controlsUpdated && !ControlsTimeoutAlert(controlsMissing, enabled) && s.controlsTimeoutAlert ==>
      r.Success? ==> r.value.playback.alert == NoAlert || r.value.playback == s.playback
    ensures !controlsUpdated && !ControlsTimeoutAlert(controlsMissing, enabled) && !s.controlsTimeoutAlert ==>
      r == Success(s)
  {
    if controlsUpdated then
      match UpdateAlert(sounds, s.playback, messageAlert)
      case Success(p) => Success(AlertState(p, s.controlsTimeoutAlert))
      case Failure(e) => Failure(e)
    else if ControlsTimeoutAlert(controlsMissing, enabled) then
      match UpdateAlert(sounds, s.playback, WarningImmediate)
      case Success(p) => Success(AlertState(p, true))
      case Failure(e) => Failure(e)
    else if s.controlsTimeoutAlert then
      match UpdateAlert(sounds, s.playback, NoAlert)
      case Success(p) => Success(AlertState(p, false))
      case Failure(e) => Failure(e)
    else Success(s)
  }

  /** A new alert other than `none` starts from the beginning of its sound:
      the next call plays the sound from sample 0 and counts the frames. */
  lemma NewAlertPlaysFromStart(sounds: map<AudibleAlert, seq<real>>, p: Playback, newAlert: AudibleAlert,
                               volume: real, frames: nat)
    requires UpdateAlert(sounds, p, newAlert).Success?
    requires newAlert != p.alert && SoundListPlayCount(newAlert).Some?
    requires newAlert in sounds && |sounds[newAlert]| > 0
    ensures var q := UpdateAlert(sounds, p, newAlert).value;
      var r := SoundData(sounds, q.alert, q.frame, volume, frames);
      r.Success? && r.value.frame == frames &&
      forall i :: 0 <= i < frames && i < |sounds[newAlert]| ==> r.value.samples[i] == Gain(sounds[newAlert][i], volume)
  {
    SoundDataLoopsFromOffset(sounds, newAlert, 0, volume, frames);
  }

  /** A one-shot sound is silent, with the counter frozen, once the frame
      counter has reached its length; so a call that starts it and asks for
      at least its length of samples is followed by silence. */
  lemma {:induction false} OneShotSilentAfterFullPass(sounds: map<AudibleAlert, seq<real>>, alert: AudibleAlert,
                                   volume: real, frames: nat, more: nat)
    requires SoundListPlayCount(alert) == Some(Times(1))
    requires alert in sounds && 0 < |sounds[alert]| <= frames
    ensures var first := SoundData(sounds, alert, 0, volume, frames);
      first.Success? && first.value.frame == frames &&
      SoundData(sounds, alert, first.value.frame, volume, more) == Success(SoundChunk(Silence(more), frames))
  {
    var len := |sounds[alert]|;
    DivModUnique(0, len, 0, 0);
    DivModUnique(frames, len, frames / len, frames % len);
    MulAtLeastFactor(frames / len, len);
  }

  // ---------------------------------------------------------------------
  // Arithmetic on frame counters

  /** Multiplying by an integer of magnitude at least one scales at least by `d`. */
  lemma MulAtLeastFactor(a: int, d: int)
    requires d >= 0
    ensures a >= 1 ==> a * d >= d
    ensures a <= -1 ==> a * d <= -d
  {
  }

  /** Quotient and remainder are determined by `x == q * d + r` with `0 <= r < d`. */
  lemma DivModUnique(x: int, d: int, q: int, r: int)
    requires d > 0 && 0 <= r < d && x == q * d + r
    ensures x / d == q && x % d == r
  {
    var q', r' := x / d, x % d;
    assert (q - q') * d == r' - r;
    MulAtLeastFactor(q - q', d);
  }
}

/** The `Soundd` object of selfdrive/ui/soundd.py: its playback fields and
    the methods that update them in place, each proved against the
    functions of module SoundSpec. */
module Sound {
  import opened Common
  import opened SoundSpec

  class Soundd {
    var currentAlert: AudibleAlert
    var currentVolume: real
    var currentSoundFrame: nat
    var controlsTimeoutAlert: bool
    /** The decoded sound of every loaded alert (the goat sound only when enabled). */
    const loadedSounds: map<AudibleAlert, seq<real>>

    /** The playback part of the state, as SoundSpec sees it. */
    function PlaybackState(): Playback
      reads this
    {
      Playback(currentAlert, currentSoundFrame)
    }

    /** Lines 60-65, with the sounds loaded by the caller: silent, at the
        minimum volume, frame counter 0, timeout flag down. As `load_sounds`
        does, the caller loads sounds only for alerts of the sound table. */
    constructor(loadedSounds: map<AudibleAlert, seq<real>>)
      requires forall a :: a in loadedSounds ==> SoundListPlayCount(a).Some?
      ensures this.loadedSounds == loadedSounds
      ensures currentAlert == NoAlert && currentVolume == MinVolume
      ensures currentSoundFrame == 0 && !controlsTimeoutAlert
    {
      this.loadedSounds := loadedSounds;
      currentAlert := NoAlert;
      currentVolume := MinVolume;
      currentSoundFrame := 0;
      controlsTimeoutAlert := false;
    }

    /** `get_sound_data`: looks up the play count and the sound of the
        current alert, runs the copy loop into a zeroed buffer of `frames`
        samples and scales the buffer by the current volume. */
    method GetSoundData(frames: nat) returns (r: Result<seq<real>>)
      modifies this`currentSoundFrame
      ensures var spec := SoundData(loadedSounds, currentAlert, old(currentSoundFrame), currentVolume, frames);
        (spec.Success? ==> r == Success(spec.value.samples) && currentSoundFrame == spec.value.frame) &&
        (spec.Failure? ==> r == Failure(spec.error) && currentSoundFrame == old(currentSoundFrame))
    {
      var ret := new real[frames](_ => 0.0);
      assert ret[..] == Silence(frames);

      if currentAlert != NoAlert {
        var numLoops := SoundListPlayCount(currentAlert);
        if numLoops.None? {
          return Failure(KeyError);
        }
        if currentAlert !in loadedSounds {
          return Failure(KeyError);
        }
        var soundData := loadedSounds[currentAlert];
        if |soundData| == 0 {
          return Failure(ZeroDivisionError);
        }
        var soundOffset := currentSoundFrame % |soundData|;
        var loops := currentSoundFrame / |soundData|;
        CopyLoop(ret, soundData, soundOffset, numLoops.value, loops);
      }

      ScaledSilence(frames, currentVolume);
      r := Success(Scaled(ret[..], currentVolume));
    }

    /** The copy loop of `get_sound_data`: while the buffer is not full and
        the play count admits it, copies the sound from the fixed offset,
        as much as fits, and advances the frame counter by what it wrote. */
    method CopyLoop(ret: array<real>, soundData: seq<real>, soundOffset: nat, numLoops: PlayCount, loops: nat)
      requires soundOffset < |soundData|
      requires ret[..] == Silence(ret.Length)
      modifies this`currentSoundFrame, ret
      ensures GuardAdmits(numLoops, loops) ==>
        ret[..] == FixedOffsetLoop(soundData, soundOffset, ret.Length) &&
        currentSoundFrame == old(currentSoundFrame) + ret.Length
      ensures !GuardAdmits(numLoops, loops) ==>
        ret[..] == Silence(ret.Length) && currentSoundFrame == old(currentSoundFrame)
    {
      var frames := ret.Length;
      var writtenFrames: nat := 0;
      ghost var tail := soundData[soundOffset..];

      while writtenFrames < frames && GuardAdmits(numLoops, loops)
        invariant writtenFrames <= frames
        invariant currentSoundFrame == old(currentSoundFrame) + writtenFrames
        invariant !GuardAdmits(numLoops, loops) ==> writtenFrames == 0
        invariant writtenFrames < frames ==> WholeCopies(writtenFrames, |tail|)
        invariant ret[..writtenFrames] == Repeat(tail, writtenFrames)
        invariant ret[writtenFrames..] == Silence(frames - writtenFrames)
        decreases frames - writtenFrames
      {
        var availableFrames := |soundData| - soundOffset;
        var framesToWrite := if availableFrames <= frames - writtenFrames then availableFrames else frames - writtenFrames;
        ghost var before := ret[..];
        assert soundData[soundOffset..soundOffset + framesToWrite] == tail[..framesToWrite];
        WriteSlice(ret, writtenFrames, soundData[soundOffset..soundOffset + framesToWrite]);
        CopyStep(tail, before, ret[..], writtenFrames, framesToWrite);
        writtenFrames := writtenFrames + framesToWrite;
        currentSoundFrame := currentSoundFrame + framesToWrite;
      }
      assert writtenFrames == frames ==> ret[..] == ret[..writtenFrames];
      assert writtenFrames == 0 ==> ret[..] == ret[writtenFrames..];
    }

    /** `update_alert`, proved against SoundSpec.UpdateAlert. */
    method UpdateAlert(newAlert: AudibleAlert) returns (r: Result<()>)
      modifies this`currentAlert, this`currentSoundFrame
      ensures var spec := SoundSpec.UpdateAlert(loadedSounds, old(PlaybackState()), newAlert);
        (spec.Success? ==> r == Success(()) && PlaybackState() == spec.value) &&
        (spec.Failure? ==> r == Failure(spec.error) && PlaybackState() == old(PlaybackState()))
    {
      if currentAlert != NoAlert && currentAlert !in loadedSounds {
        return Failure(KeyError);
      }
      var currentAlertPlayedOnce := currentAlert == NoAlert || currentSoundFrame > |loadedSounds[currentAlert]|;
      if currentAlert != newAlert && (newAlert != NoAlert || currentAlertPlayedOnce) {
        currentAlert := newAlert;
        currentSoundFrame := 0;
      }
      r := Success(());
    }

    /** `get_audible_alert`, with the message freshness, its alert, the
        seconds since the last `controlsState` and its `enabled` flag as
        inputs; proved against SoundSpec.AudibleAlertStep. */
    method GetAudibleAlert(controlsUpdated: bool, messageAlert: AudibleAlert, controlsMissing: real, enabled: bool)
      returns (r: Result<()>)
      modifies this`currentAlert, this`currentSoundFrame, this`controlsTimeoutAlert
      ensures var spec := AudibleAlertStep(loadedSounds, old(AlertState(PlaybackState(), controlsTimeoutAlert)),
                                           controlsUpdated, messageAlert, controlsMissing, enabled);
        (spec.Success? ==> r == Success(()) && AlertState(PlaybackState(), controlsTimeoutAlert) == spec.value) &&
        (spec.Failure? ==>
           r == Failure(spec.error) && PlaybackState() == old(PlaybackState()) &&
           controlsTimeoutAlert == old(controlsTimeoutAlert))
    {
      if controlsUpdated {
        r := UpdateAlert(messageAlert);
      } else if ControlsTimeoutAlert(controlsMissing, enabled) {
        r := UpdateAlert(WarningImmediate);
        if r.Success? {
          controlsTimeoutAlert := true;
        }
      } else if controlsTimeoutAlert {
        r := UpdateAlert(NoAlert);
        if r.Success? {
          controlsTimeoutAlert := false;
        }
      } else {
        r := Success(());
      }
    }
  }

  /** One pass of the copy loop: writing the start of `tail` after whole
      copies of it extends the repetition and leaves the rest silent. */
  lemma CopyStep(tail: seq<real>, before: seq<real>, after: seq<real>, w: nat, k: nat)
    requires |tail| > 0 && WholeCopies(w, |tail|) && k <= |tail|
    requires |after| == |before| && w + k <= |before|
    requires before[..w] == Repeat(tail, w) && before[w..] == Silence(|before| - w)
    requires after[..w] == before[..w] && after[w..w + k] == tail[..k] && after[w + k..] == before[w + k..]
    ensures after[..w + k] == Repeat(tail, w + k)
    ensures after[w + k..] == Silence(|after| - (w + k))
  {
    RepeatExtend(tail, w, k);
    assert after[..w + k] == after[..w] + after[w..w + k];
    assert before[w + k..] == before[w..][k..];
  }

  /** `ret[at:at+len(chunk)] = chunk`: overwrites one slice of the buffer. */
  method WriteSlice(ret: array<real>, at: nat, chunk: seq<real>)
    requires at + |chunk| <= ret.Length
    modifies ret
    ensures ret[..at] == old(ret[..at])
    ensures ret[at..at + |chunk|] == chunk
    ensures ret[at + |chunk|..] == old(ret[at + |chunk|..])
  {
    forall j | 0 <= j < |chunk| {
      ret[at + j] := chunk[j];
    }
  }
}

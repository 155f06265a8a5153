// Properties that relate several operations of the clock: sampling over
// time, pausing and resuming, and what the posted slot calls leave behind
// once the event loop has run them.

module ClockProperties {
  import opened SyncBarrier
  import opened ClockModel
  import opened DriftCorrection

  // Sampling

  /** The state after a series of `value()` calls, the i-th measuring `es[i]`
      milliseconds. */
  function SampleMany(c: ClockState, es: seq<nat>): ClockState
    decreases |es|
  {
    if es == [] then c else SampleMany(Sample(c, es[0]).clock, es[1..])
  }

  function Sum(es: seq<nat>): nat
    decreases |es|
  {
    if es == [] then 0 else es[0] + Sum(es[1..])
  }

  /** A measuring external clock advances by the wall time its samples
      measured plus the average error once per sample, all scaled by the
      speed, and counts every sample. */
  lemma {:induction false} SamplesAccumulate(c: ClockState, es: seq<nat>)
    requires c.clockType == ExternalClock && c.timerValid
    ensures SampleMany(c, es).pts ==
              c.pts + (Sum(es) as real / 1000.0 + |es| as real * c.avgErr) * c.speed
    ensures SampleMany(c, es).nbRestarted == c.nbRestarted + |es|
    ensures SampleMany(c, es) == c.(pts := SampleMany(c, es).pts,
                                    nbRestarted := c.nbRestarted + |es|)
    decreases |es|
  {
    if es != [] {
      var c1 := Sample(c, es[0]).clock;
      SamplesAccumulate(c1, es[1..]);
      var a := es[0] as real / 1000.0 + c.avgErr;
      var b := Sum(es[1..]) as real / 1000.0 + |es[1..]| as real * c.avgErr;
      assert Sum(es) as real / 1000.0 + |es| as real * c.avgErr == a + b;
      assert a * c.speed + b * c.speed == (a + b) * c.speed;
    }
  }

  /** An audio clock reports its initial value until a timestamp arrives, then
      the timestamp plus the delay, however it is sampled. */
  lemma AudioValueFollowsUpdates(c: ClockState, p: real, elapsedMs: nat)
    requires c.clockType == AudioClock && c.pts == 0.0
    ensures Sample(c, elapsedMs) == Sampled(c, c.value0)
    ensures p != 0.0 ==> Sample(UpdateValue(c, p), elapsedMs).value == p + c.delay
  {
  }

  /** A video clock reports the last frame time, whatever its initial value,
      so `diff()` is zero. */
  lemma VideoValueIsFrameTime(c: ClockState, v0: real, elapsedMs: nat)
    requires c.clockType == VideoClock
    ensures Sample(c, elapsedMs) == Sampled(c, c.ptsV)
    ensures Sample(c.(value0 := v0), elapsedMs).value == Sample(c, elapsedMs).value
  {
  }

  // Pausing

  /** Pausing a running external clock freezes it: every later `value()`
      returns the time it had reached and changes nothing. */
  lemma {:induction false} PausedExternalClockIsFrozen(c: ClockState, now: int, es: seq<nat>, elapsedMs: nat)
    requires c.clockType == ExternalClock && c.state == Running
    ensures var p := Pause(c, true, now);
            IsPaused(p) && !IsActive(p) && SampleMany(p, es) == p &&
            Sample(SampleMany(p, es), elapsedMs).value == c.pts + c.value0
  {
    var p := Pause(c, true, now);
    FrozenSamples(p, es);
  }

  lemma {:induction false} FrozenSamples(c: ClockState, es: seq<nat>)
    requires c.clockType != ExternalClock || !c.timerValid
    ensures SampleMany(c, es) == c
    decreases |es|
  {
    if es != [] {
      FrozenSamples(Sample(c, es[0]).clock, es[1..]);
    }
  }

  /** Resuming restarts the elapsed timer, so time advances again from the
      frozen value. */
  lemma ResumeAdvancesFromFrozen(c: ClockState, now1: int, now2: int, elapsedMs: nat)
    requires c.clockType == ExternalClock && c.state == Running
    ensures var resumed := Pause(Pause(c, true, now1), false, now2);
            resumed.state == Running && IsActive(resumed) &&
            Sample(resumed, elapsedMs).value ==
              c.pts + c.value0 + (elapsedMs as real / 1000.0 + c.avgErr) * c.speed
  {
  }

  /** `pause(true)` also moves a stopped non-audio clock to Paused, and
      `start()` runs a clock from any state. */
  lemma PauseFromStopped(c: ClockState, now: int)
    requires c.clockType != AudioClock && c.state == Stopped
    ensures Pause(c, true, now).state == Paused
    ensures Pause(c, false, now) == c
    ensures Start(Pause(c, true, now)).state == Running
  {
  }

  /** A new frame restarts the elapsed timer of a video clock even while it
      is paused, so a paused video clock reports itself active. */
  lemma PausedVideoClockReactivatedByFrame(c: ClockState, p: real)
    requires c.clockType == VideoClock && IsPaused(c)
    ensures IsPaused(UpdateVideoTime(c, p)) && IsActive(UpdateVideoTime(c, p))
  {
  }

  // The posted slot calls

  /** The event loop runs every posted slot call. */
  function RunAll(c: ClockState, now: int, newId: int): ClockState
    requires newId > 0
    decreases |c.pending|
  {
    if c.pending == [] then c else RunAll(RunDeferred(c, now, newId), now, newId)
  }

  /** Once every posted call has run: nothing is pending, the correction
      bookkeeping is cleared if anything ran, the correction timer runs only
      under the conditions `restartCorrectionTimer` checks, and it runs under
      them when the last call posted was a restart. Nothing outside the
      correction bookkeeping changes. */
  lemma {:induction false} RunAllSettles(c: ClockState, now: int, newId: int)
    requires newId > 0 && Consistent(c)
    ensures var r := RunAll(c, now, newId);
            r.pending == [] && Consistent(r) &&
            (CorrectionActive(r) ==> CorrectionMayRun(r)) &&
            (c.pending != [] ==> r.avgErr == 0.0 && r.nbRestarted == 0) &&
            (c.pending != [] && c.pending[|c.pending| - 1] == Restart ==>
               (CorrectionActive(r) <==> CorrectionMayRun(c))) &&
            (c.pending != [] && c.pending[|c.pending| - 1] == Stop ==> !CorrectionActive(r)) &&
            r == c.(pending := [], avgErr := r.avgErr, nbRestarted := r.nbRestarted,
                    correctionTimerId := r.correctionTimerId, anchorMs := r.anchorMs)
    decreases |c.pending|
  {
    if c.pending != [] {
      var c1 := RunDeferred(c, now, newId);
      RunAllSettles(c1, now, newId);
      if c1.pending != [] {
        assert c1.pending[|c1.pending| - 1] == c.pending[|c.pending| - 1];
      }
    }
  }

  /** Once the posted calls have run, no correction tick can reach an audio
      clock. */
  lemma SettledAudioClockHasNoTick(c: ClockState)
    requires Consistent(c) && c.pending == [] && c.clockType == AudioClock
    ensures !CorrectionActive(c)
  {
  }

  /** Switching a running clock to audio leaves its correction timer on until
      the posted restart runs. The state is consistent, so a tick that arrives
      in that window reaches `timerEvent` with an audio clock. */
  lemma SwitchToAudioLeavesTimerOn(c: ClockState)
    requires Consistent(c) && CorrectionActive(c) && c.clockType != AudioClock && !IsPaused(c)
    ensures var r := SetClockType(c, AudioClock);
            Consistent(r) && r.clockType == AudioClock && CorrectionActive(r) &&
            TickFires(r, r.correctionTimerId) && r.pending == c.pending + [Restart]
    ensures var r := RunDeferred(SetClockType(c, AudioClock), 0, 1);
            c.pending == [] ==> !CorrectionActive(r)
  {
  }

  /** `start()` on a clock with nothing posted: once its posted restart has
      run, the correction timer runs exactly for a non-audio clock. */
  lemma StartRunsCorrection(c: ClockState, now: int, newId: int)
    requires newId > 0 && c.pending == []
    ensures var r := RunAll(Start(c), now, newId);
            r.pending == [] && r.state == Running &&
            (CorrectionActive(r) <==> c.clockType != AudioClock)
  {
    var s := Start(c);
    assert RunAll(s, now, newId) == RunAll(RunDeferred(s, now, newId), now, newId);
  }

  /** `reset()`: once its posted stop has run, the whole correction
      bookkeeping is cleared as well, and the clock reads 0. */
  lemma ResetThenStop(c: ClockState, now: int, newId: int)
    requires newId > 0 && Consistent(c)
    ensures var r := RunAll(Reset(c, now), now, newId);
            r.avgErr == 0.0 && r.nbRestarted == 0 && !CorrectionActive(r) &&
            r.state == Stopped && r.barrier == Closed && Reading(r) == 0.0 &&
            r.speed == c.speed && r.autoClock == c.autoClock
  {
    RunAllSettles(Reset(c, now), now, newId);
  }
}

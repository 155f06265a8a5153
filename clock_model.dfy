// The state of an AVClock as a value, and one function per operation that
// gives the state after it. The class in av_clock.dfy is proved against these.

module ClockModel {
  import opened SyncBarrier

  datatype ClockType = AudioClock | ExternalClock | VideoClock

  /** `kRunning`, `kPaused`, `kStopped`. */
  datatype RunState = Running | Paused | Stopped

  /** A slot call posted with a zero-delay single-shot timer, run later by the
      clock's event loop. */
  datatype Deferred = Restart | Stop

  /** `kThousandth`: milliseconds to seconds. */
  const Thousandth: real := 0.001

  /** The id a stopped `QBasicTimer` reports (`timerId()` is 0 when it is
      not active); a started one has a positive id. */
  const NoTimer: int := 0

  /** Every field of the clock. `timerValid` stands for the `QElapsedTimer`
      (only whether it is measuring; the time it read is passed to the
      operations), `correctionTimerId` for the `QBasicTimer` of the drift
      correction, `anchorMs` for `t`, and `pending` for the slot calls posted
      and not yet run. */
  datatype ClockState = ClockState(
    autoClock: bool,
    state: RunState,
    clockType: ClockType,
    pts: real,
    ptsV: real,
    delay: real,
    timerValid: bool,
    speed: real,
    value0: real,
    correctionTimerId: int,
    anchorMs: int,
    lastPts: real,
    avgErr: real,
    nbRestarted: nat,
    barrier: Barrier,
    pending: seq<Deferred>)

  /** The state after `value()` and the time it returned. */
  datatype Sampled = Sampled(clock: ClockState, value: real)

  /** `isPaused()`: only the Paused state counts; a stopped clock is not
      paused. */
  function IsPaused(c: ClockState): (b: bool)
    ensures b <==> c.state != Running && c.state != Stopped
  {
    c.state == Paused
  }

  /** `isActive()`: an audio clock is always active, the others while the
      elapsed timer is measuring. */
  function IsActive(c: ClockState): (b: bool)
    ensures c.clockType == AudioClock ==> b
    ensures c.clockType != AudioClock ==> (b <==> c.timerValid)
  {
    c.clockType == AudioClock || c.timerValid
  }

  predicate CorrectionActive(c: ClockState) {
    c.correctionTimerId != NoTimer
  }

  /** The conditions under which restarting the correction timer leaves it
      running. */
  predicate CorrectionMayRun(c: ClockState) {
    c.clockType != AudioClock && c.state == Running && c.timerValid
  }

  /** The invariant every operation keeps: the correction timer has a proper
      id, and it runs outside the conditions it was started under only while
      a posted restart or stop is still to come that will put it right. */
  predicate Consistent(c: ClockState) {
    c.correctionTimerId >= 0 &&
    (CorrectionActive(c) && !CorrectionMayRun(c) ==> c.pending != [])
  }

  /** The time `value()` reports for a state, once any sampling is done. */
  function Reading(c: ClockState): (r: real)
    // an audio clock shows the initial value until a timestamp arrives, then
    // the timestamp shifted by the output delay
    ensures c.clockType == AudioClock ==>
              r == (if c.pts == 0.0 then c.value0 else c.pts + c.delay)
    // an external clock is its extrapolated pts offset by the initial value
    ensures c.clockType == ExternalClock ==> r - c.value0 == c.pts
    // a video clock is the last frame time, whatever pts and the initial value
    ensures c.clockType == VideoClock ==> r == c.ptsV
  {
    match c.clockType
    case AudioClock => if c.pts == 0.0 then c.value0 else c.pts + c.delay
    case ExternalClock => c.pts + c.value0
    case VideoClock => c.ptsV
  }

  /** The state built by the constructors; `t` is left uninitialised there,
      hence the parameter. */
  function Initial(ct: ClockType, anchorMs: int): (c: ClockState)
    ensures Consistent(c) && c.pending == [] && !CorrectionActive(c)
    ensures c.state == Stopped && c.clockType == ct && c.autoClock && c.speed == 1.0
    ensures IsActive(c) <==> ct == AudioClock
    ensures Reading(c) == 0.0 && c.barrier == Closed
  {
    ClockState(true, Stopped, ct, 0.0, 0.0, 0.0, false, 1.0, 0.0, NoTimer,
               anchorMs, 0.0, 0.0, 0, Closed, [])
  }

  /** `value()`, given the milliseconds the elapsed timer measured since it
      was last (re)started. */
  function Sample(c: ClockState, elapsedMs: nat): (r: Sampled)
    // the result is the reading of the state left behind
    ensures r.value == Reading(r.clock)
    // audio and video clocks, and an external clock whose timer is not
    // measuring, are only read
    ensures c.clockType != ExternalClock || !c.timerValid ==> r.clock == c
    // a measuring external clock advances pts by the corrected, speed-scaled
    // elapsed time and counts one more sample; nothing else changes
    ensures c.clockType == ExternalClock && c.timerValid ==>
              r.clock == c.(pts := r.clock.pts, nbRestarted := c.nbRestarted + 1) &&
              r.clock.pts - c.pts == (elapsedMs as real / 1000.0 + c.avgErr) * c.speed
    ensures Consistent(c) ==> Consistent(r.clock)
  {
    if c.clockType == ExternalClock && c.timerValid then
      var advanced := c.(nbRestarted := c.nbRestarted + 1,
                         pts := c.pts + (elapsedMs as real * Thousandth + c.avgErr) * c.speed);
      Sampled(advanced, advanced.pts + advanced.value0)
    else
      Sampled(c, Reading(c))
  }

  /** `updateValue(pts)`. */
  function UpdateValue(c: ClockState, p: real): (r: ClockState)
    ensures c.clockType != AudioClock ==> r == c
    ensures c.clockType == AudioClock ==>
              r == c.(pts := p) && Reading(r) == if p == 0.0 then c.value0 else p + c.delay
    ensures Consistent(c) ==> Consistent(r)
  {
    if c.clockType == AudioClock then c.(pts := p) else c
  }

  /** `updateVideoTime(pts)`. */
  function UpdateVideoTime(c: ClockState, p: real): (r: ClockState)
    ensures r.ptsV == p && r.pts == c.pts
    // only a video clock restarts the elapsed timer
    ensures r == c.(ptsV := p, timerValid := c.timerValid || c.clockType == VideoClock)
    ensures c.clockType == VideoClock ==> IsActive(r) && Reading(r) == p
    ensures Consistent(c) ==> Consistent(r)
  {
    var restarted := if c.clockType == VideoClock then true else c.timerValid;
    c.(ptsV := p, timerValid := restarted)
  }

  /** `updateExternalClock(qint64 msecs)` at wall time `now`. */
  function UpdateExternalClock(c: ClockState, msecs: int, now: int): (r: ClockState)
    ensures c.clockType == AudioClock ==> r == c
    ensures c.clockType != AudioClock ==>
              r == c.(pts := r.pts, ptsV := r.ptsV, lastPts := r.pts,
                      timerValid := c.timerValid || !IsPaused(c), anchorMs := now) &&
              r.pts == msecs as real / 1000.0 &&
              r.ptsV == (if c.clockType == VideoClock then r.pts else c.ptsV)
    // the reported time jumps to the new offset
    ensures c.clockType == ExternalClock ==> Reading(r) == msecs as real / 1000.0 + c.value0
    ensures c.clockType == VideoClock ==> Reading(r) == msecs as real / 1000.0
    ensures Consistent(c) ==> Consistent(r)
  {
    if c.clockType == AudioClock then c
    else
      var p := msecs as real * Thousandth;
      var measuring := if !IsPaused(c) then true else c.timerValid;
      var r0 := c.(pts := p, timerValid := measuring, lastPts := p, anchorMs := now);
      if c.clockType == VideoClock then r0.(ptsV := p) else r0
  }

  /** `updateExternalClock(const AVClock& clock)` at wall time `now`, where
      `v` is what the other clock's `value()` returned. */
  function UpdateExternalClockTo(c: ClockState, v: real, now: int): (r: ClockState)
    ensures c.clockType != ExternalClock ==> r == c
    ensures c.clockType == ExternalClock ==>
              r == c.(pts := v, lastPts := v, timerValid := c.timerValid || !IsPaused(c),
                      anchorMs := now) &&
              Reading(r) == v + c.value0
    ensures Consistent(c) ==> Consistent(r)
  {
    if c.clockType != ExternalClock then c
    else
      var measuring := if !IsPaused(c) then true else c.timerValid;
      c.(pts := v, timerValid := measuring, lastPts := v, anchorMs := now)
  }

  /** `setClockType(ct)`. */
  function SetClockType(c: ClockState, ct: ClockType): (r: ClockState)
    ensures ct == c.clockType ==> r == c
    ensures ct != c.clockType ==>
              r == c.(clockType := ct, pending := c.pending + [Restart])
    ensures r.clockType == ct && r.state == c.state
    ensures Consistent(c) ==> Consistent(r)
  {
    if c.clockType == ct then c
    else c.(clockType := ct, pending := c.pending + [Restart])
  }

  /** `start()`: from any state. */
  function Start(c: ClockState): (r: ClockState)
    ensures r.state == Running && r.timerValid && IsActive(r)
    ensures r == c.(state := Running, timerValid := true, pending := c.pending + [Restart])
    ensures Consistent(c) ==> Consistent(r)
  {
    var posted := c.pending + [Restart];
    c.(state := Running, timerValid := true, pending := posted)
  }

  /** `pause(p)` at wall time `now`. */
  function Pause(c: ClockState, p: bool, now: int): (r: ClockState)
    // nothing to do, or an audio clock, which is never paused on its own
    ensures IsPaused(c) == p || c.clockType == AudioClock ==> r == c
    ensures IsPaused(c) != p && c.clockType != AudioClock ==>
              IsPaused(r) == p && (p || r.state == Running) &&
              IsActive(r) == !p &&
              r.pending == c.pending + [if p then Stop else Restart] &&
              r == c.(state := r.state, timerValid := !p, pending := r.pending, anchorMs := now)
    ensures Consistent(c) ==> Consistent(r)
  {
    if IsPaused(c) == p || c.clockType == AudioClock then c
    else if p then
      c.(state := Paused, pending := c.pending + [Stop], timerValid := false, anchorMs := now)
    else
      c.(state := Running, timerValid := true, pending := c.pending + [Restart], anchorMs := now)
  }

  /** `reset()` at wall time `now`. */
  function Reset(c: ClockState, now: int): (r: ClockState)
    ensures r.barrier == Closed && r.state == Stopped && !r.timerValid
    ensures r.value0 == 0.0 && r.pts == 0.0 && r.ptsV == 0.0 && r.delay == 0.0
    ensures Reading(r) == 0.0
    // speed, the auto-clock flag and the clock type survive
    ensures r.speed == c.speed && r.autoClock == c.autoClock && r.clockType == c.clockType
    // the correction bookkeeping is left to the posted stop
    ensures r.lastPts == c.lastPts && r.avgErr == c.avgErr && r.nbRestarted == c.nbRestarted
    ensures r.correctionTimerId == c.correctionTimerId && r.pending == c.pending + [Stop]
    ensures r.anchorMs == now
    ensures Consistent(c) ==> Consistent(r)
  {
    c.(barrier := Closed, state := Stopped, value0 := 0.0,
       pts := 0.0, ptsV := 0.0, delay := 0.0,
       pending := c.pending + [Stop], timerValid := false, anchorMs := now)
  }
}

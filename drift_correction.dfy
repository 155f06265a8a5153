// Drift correction: the once-a-second tick that measures how far the clock's
// extrapolated time strayed from the wall clock, and the two slots that start
// and stop the tick's timer.

module DriftCorrection {
  import opened ClockModel

  /** `kCorrectionInterval`, in seconds; the tick timer's period is
      `kCorrectionInterval * 1000` milliseconds. */
  const CorrectionInterval: int := 1

  function AbsReal(x: real): (r: real)
    ensures r >= 0.0 && (r == x || r == -x)
  {
    if x < 0.0 then -x else x
  }

  /** `restartCorrectionTimer()` at wall time `now`; `newId` is the positive
      id the event dispatcher gives the tick timer if it is started. */
  function RestartCorrectionTimer(c: ClockState, now: int, newId: int): (r: ClockState)
    requires newId > 0
    ensures r.nbRestarted == 0 && r.avgErr == 0.0
    // the tick runs again exactly when the clock is a running, measuring,
    // non-audio clock; only then is the wall-time anchor moved
    ensures CorrectionActive(r) <==> CorrectionMayRun(c)
    ensures r == c.(nbRestarted := 0, avgErr := 0.0, correctionTimerId := r.correctionTimerId,
                    anchorMs := if CorrectionMayRun(c) then now else c.anchorMs)
    ensures Consistent(r)
  {
    var stopped := c.(nbRestarted := 0, avgErr := 0.0, correctionTimerId := NoTimer);
    if c.clockType == AudioClock then stopped
    else if c.state != Running then stopped
    else if !c.timerValid then stopped
    else stopped.(anchorMs := now, correctionTimerId := newId)
  }

  /** `stopCorrectionTimer()`. */
  function StopCorrectionTimer(c: ClockState): (r: ClockState)
    ensures r.nbRestarted == 0 && r.avgErr == 0.0 && !CorrectionActive(r)
    ensures r == c.(nbRestarted := 0, avgErr := 0.0, correctionTimerId := NoTimer)
    ensures Consistent(r)
  {
    c.(nbRestarted := 0, avgErr := 0.0, correctionTimerId := NoTimer)
  }

  /** The event loop runs the oldest posted slot call, if any. */
  function RunDeferred(c: ClockState, now: int, newId: int): (r: ClockState)
    requires newId > 0
    ensures c.pending == [] ==> r == c
    ensures c.pending != [] ==>
              r.pending == c.pending[1..] && r.nbRestarted == 0 && r.avgErr == 0.0 &&
              (c.pending[0] == Stop ==> !CorrectionActive(r)) &&
              (c.pending[0] == Restart ==> (CorrectionActive(r) <==> CorrectionMayRun(c)))
    // only the queue and the correction bookkeeping change
    ensures r == c.(pending := r.pending, nbRestarted := r.nbRestarted, avgErr := r.avgErr,
                    correctionTimerId := r.correctionTimerId, anchorMs := r.anchorMs)
    ensures Consistent(c) ==> Consistent(r)
  {
    if c.pending == [] then c
    else
      var rest := c.(pending := c.pending[1..]);
      match c.pending[0]
      case Restart => RestartCorrectionTimer(rest, now, newId)
      case Stop => StopCorrectionTimer(rest)
  }

  /** Whether a timer event with id `eventTimerId` gets past the guards of
      `timerEvent`: it must come from the correction timer, and the clock must
      not be paused. */
  predicate TickFires(c: ClockState, eventTimerId: int) {
    eventTimerId == c.correctionTimerId && !IsPaused(c)
  }

  /** `err` of a tick at wall time `now`: the wall time elapsed since the last
      tick minus the presentation time elapsed, taken back to real-time rate.
      `elapsedMs` is what the first `value()` of the tick measured. */
  function TickError(c: ClockState, now: int, elapsedMs: nat): real
    requires c.speed != 0.0
  {
    var deltaPts := (Sample(c, elapsedMs).value - c.lastPts) / c.speed;
    (now - c.anchorMs) as real * Thousandth - deltaPts
  }

  /** An error this large is discarded, except on a video clock. */
  predicate Outlier(err: real, ct: ClockType) {
    AbsReal(err * 10.0) >= CorrectionInterval as real && ct != VideoClock
  }

  /** The first half of a tick that fires: sample the clock, move the
      wall-time anchor to `now`, and fold the error into the average unless
      it is an outlier. */
  function Correct(c: ClockState, now: int, elapsedMs: nat): (r: ClockState)
    requires c.speed != 0.0
    ensures r.anchorMs == now
    ensures Outlier(TickError(c, now, elapsedMs), c.clockType) ==> r.avgErr == c.avgErr
    ensures !Outlier(TickError(c, now, elapsedMs), c.clockType) ==>
              r.avgErr == c.avgErr + TickError(c, now, elapsedMs) /
                                     (Sample(c, elapsedMs).clock.nbRestarted + 1) as real
    ensures r == Sample(c, elapsedMs).clock.(anchorMs := now, avgErr := r.avgErr)
  {
    var sampled := Sample(c, elapsedMs).clock.(anchorMs := now);
    var err := TickError(c, now, elapsedMs);
    if Outlier(err, c.clockType) then sampled
    else sampled.(avgErr := sampled.avgErr + err / (sampled.nbRestarted + 1) as real)
  }

  /** `timerEvent` at wall time `now`. The tick calls `value()` twice; the
      first reading measures `elapsedMs1`, the second `elapsedMs2`. */
  function Tick(c: ClockState, eventTimerId: int, now: int, elapsedMs1: nat, elapsedMs2: nat)
    : (r: ClockState)
    requires c.clockType != AudioClock
    requires eventTimerId > 0
    requires TickFires(c, eventTimerId) ==> c.speed != 0.0
    // a foreign timer event, or a paused clock: nothing happens
    ensures !TickFires(c, eventTimerId) ==> r == c
    ensures TickFires(c, eventTimerId) ==>
              r.anchorMs == now && r.nbRestarted == 0 && r.lastPts == Reading(r) &&
              r == c.(pts := r.pts, anchorMs := now, lastPts := r.lastPts,
                      avgErr := r.avgErr, nbRestarted := 0)
    // an outlier leaves the average error alone; any other error is added,
    // divided by the number of samples taken since the previous tick
    ensures TickFires(c, eventTimerId) && Outlier(TickError(c, now, elapsedMs1), c.clockType) ==>
              r.avgErr == c.avgErr
    ensures TickFires(c, eventTimerId) && !Outlier(TickError(c, now, elapsedMs1), c.clockType) ==>
              r.avgErr == c.avgErr + TickError(c, now, elapsedMs1) /
                                     (Sample(c, elapsedMs1).clock.nbRestarted + 1) as real
    // a video clock is never extrapolated
    ensures c.clockType == VideoClock ==> r.pts == c.pts
    ensures Consistent(c) ==> Consistent(r)
  {
    if eventTimerId != c.correctionTimerId then c
    else if IsPaused(c) then c
    else
      var second := Sample(Correct(c, now, elapsedMs1), elapsedMs2);
      second.clock.(lastPts := second.value, nbRestarted := 0)
  }
}

// The AVClock object: the fields of the C++ class, updated in place by its
// methods. Each method is proved to leave the state that the matching
// function of ClockModel, DriftCorrection or SyncBarrier gives, and to keep
// the clock's invariant.

module AVClocks {
  import opened SyncBarrier
  import opened ClockModel
  import opened DriftCorrection

  /** The notifications the clock emits, in the order it emits them. */
  datatype Signal =
    | StartedSignal          // started()
    | PausedSignal           // paused(), the same as paused(true)
    | ResumedSignal          // resumed(), the same as paused(false)
    | PausedWith(p: bool)    // paused(bool)
    | ResettedSignal         // resetted()

  class AVClock {
    var autoClock: bool
    var state: RunState
    var clockType: ClockType
    var pts: real
    var ptsV: real
    var delay: real
    var timerValid: bool          // the QElapsedTimer is measuring
    var speed: real
    var value0: real
    var correctionTimerId: int    // NoTimer while the correction timer is stopped
    var anchorMs: int             // `t`, wall time of the last correction anchor
    var lastPts: real
    var avgErr: real
    var nbRestarted: nat
    var nbSync: int
    var syncId: Int32
    var pending: seq<Deferred>    // slot calls posted to the event loop, oldest first
    ghost var signals: seq<Signal>

    function Snapshot(): ClockState
      reads this
    {
      ClockState(autoClock, state, clockType, pts, ptsV, delay, timerValid, speed, value0,
                 correctionTimerId, anchorMs, lastPts, avgErr, nbRestarted,
                 Barrier(nbSync, syncId), pending)
    }

    ghost predicate Valid()
      reads this
    {
      Consistent(Snapshot())
    }

    /** `AVClock(ClockType c, QObject* parent)`; `t` is not initialised. */
    constructor (ct: ClockType)
      ensures Valid() && Snapshot() == Initial(ct, anchorMs) && signals == []
    {
      autoClock, state, clockType, speed := true, Stopped, ct, 1.0;
      value0, avgErr, nbRestarted, nbSync, syncId := 0.0, 0.0, 0, 0, 0;
      lastPts, pts, ptsV, delay := 0.0, 0.0, 0.0, 0.0;
      timerValid, correctionTimerId, pending := false, NoTimer, [];
      signals := [];
    }

    /** `AVClock(QObject* parent)`: an audio clock. */
    constructor Default()
      ensures Valid() && Snapshot() == Initial(AudioClock, anchorMs) && signals == []
    {
      autoClock, state, clockType, speed := true, Stopped, AudioClock, 1.0;
      value0, avgErr, nbRestarted, nbSync, syncId := 0.0, 0.0, 0, 0, 0;
      lastPts, pts, ptsV, delay := 0.0, 0.0, 0.0, 0.0;
      timerValid, correctionTimerId, pending := false, NoTimer, [];
      signals := [];
    }

    // Getters

    function IsActive(): (b: bool)
      reads this
      ensures b <==> clockType == AudioClock || timerValid
    {
      ClockModel.IsActive(Snapshot())
    }

    function IsPaused(): (b: bool)
      reads this
      ensures b <==> state == Paused
    {
      ClockModel.IsPaused(Snapshot())
    }

    function Pts(): (r: real)
      reads this
      ensures r == Snapshot().pts
    {
      pts
    }

    function InitialValue(): (r: real)
      reads this
      ensures r == Snapshot().value0
    {
      value0
    }

    function VideoTime(): (r: real)
      reads this
      ensures r == Snapshot().ptsV
    {
      ptsV
    }

    function Delay(): (r: real)
      reads this
      ensures r == Snapshot().delay
    {
      delay
    }

    function Speed(): (r: real)
      reads this
      ensures r == Snapshot().speed
    {
      speed
    }

    function IsClockAuto(): (r: bool)
      reads this
      ensures r == Snapshot().autoClock
    {
      autoClock
    }

    function SyncId(): (r: Int32)
      reads this
      ensures r == Snapshot().barrier.syncId
    {
      syncId
    }

    // Setters: each one writes its own field and nothing else

    method SetInitialValue(v: real)
      requires Valid()
      modifies this`value0
      ensures Valid() && InitialValue() == v
      ensures Snapshot() == old(Snapshot()).(value0 := v)
    {
      value0 := v;
    }

    method SetClockAuto(a: bool)
      requires Valid()
      modifies this`autoClock
      ensures Valid() && IsClockAuto() == a
      ensures Snapshot() == old(Snapshot()).(autoClock := a)
    {
      autoClock := a;
    }

    method UpdateDelay(d: real)
      requires Valid()
      modifies this`delay
      ensures Valid() && Delay() == d
      ensures Snapshot() == old(Snapshot()).(delay := d)
    {
      delay := d;
    }

    method SetSpeed(s: real)
      requires Valid()
      modifies this`speed
      ensures Valid() && Speed() == s
      ensures Snapshot() == old(Snapshot()).(speed := s)
    {
      speed := s;
    }

    // Time

    /** `value()`; the elapsed timer measured `elapsedMs` since its last
        (re)start. Only an external clock writes anything. */
    method Value(elapsedMs: nat) returns (v: real)
      requires Valid()
      modifies this`pts, this`nbRestarted
      ensures Valid()
      ensures Snapshot() == Sample(old(Snapshot()), elapsedMs).clock
      ensures v == Sample(old(Snapshot()), elapsedMs).value
      ensures old(clockType) != ExternalClock ==> unchanged(this)
    {
      if clockType == AudioClock {
        v := if pts == 0.0 then value0 else pts + delay;
      } else if clockType == ExternalClock {
        if timerValid {
          nbRestarted := nbRestarted + 1;
          pts := pts + (elapsedMs as real * Thousandth + avgErr) * speed;
        }
        v := pts + value0;
      } else {
        v := ptsV;
      }
    }

    /** `diff()`: `value()` minus the video time. */
    method Diff(elapsedMs: nat) returns (d: real)
      requires Valid()
      modifies this`pts, this`nbRestarted
      ensures Valid()
      ensures Snapshot() == Sample(old(Snapshot()), elapsedMs).clock
      ensures d == Sample(old(Snapshot()), elapsedMs).value - VideoTime()
      ensures old(clockType) == VideoClock ==> d == 0.0
    {
      var v := Value(elapsedMs);
      d := v - VideoTime();
    }

    method UpdateValue(p: real)
      requires Valid()
      modifies this`pts
      ensures Valid()
      ensures Snapshot() == ClockModel.UpdateValue(old(Snapshot()), p)
    {
      if clockType == AudioClock {
        pts := p;
      }
    }

    method UpdateVideoTime(p: real)
      requires Valid()
      modifies this`ptsV, this`timerValid
      ensures Valid()
      ensures Snapshot() == ClockModel.UpdateVideoTime(old(Snapshot()), p)
    {
      ptsV := p;
      if clockType == VideoClock {
        timerValid := true;
      }
    }

    /** `updateExternalClock(qint64 msecs)` at wall time `now`. */
    method UpdateExternalClock(msecs: int, now: int)
      requires Valid()
      modifies this`pts, this`ptsV, this`timerValid, this`lastPts, this`anchorMs
      ensures Valid()
      ensures Snapshot() == ClockModel.UpdateExternalClock(old(Snapshot()), msecs, now)
    {
      if clockType == AudioClock {
        return;
      }
      pts := msecs as real * Thousandth;
      if !IsPaused() {
        timerValid := true;
      }
      lastPts := pts;
      anchorMs := now;
      if clockType == VideoClock {
        ptsV := pts;
      }
    }

    /** `updateExternalClock(const AVClock& clock)` at wall time `now`. The
        other clock is sampled, which advances it if it is an external clock;
        it may be this clock itself. */
    method UpdateExternalClockFrom(other: AVClock, otherElapsedMs: nat, now: int)
      requires Valid() && other.Valid()
      modifies this`pts, this`timerValid, this`lastPts, this`anchorMs
      modifies other`pts, other`nbRestarted
      ensures Valid() && other.Valid()
      ensures old(clockType) != ExternalClock ==> unchanged(this) && unchanged(other)
      ensures old(clockType) == ExternalClock ==>
                var read := Sample(old(other.Snapshot()), otherElapsedMs);
                Snapshot() == UpdateExternalClockTo(
                                if other == this then read.clock else old(Snapshot()),
                                read.value, now) &&
                (other != this ==> other.Snapshot() == read.clock)
    {
      if clockType != ExternalClock {
        return;
      }
      var v := other.Value(otherElapsedMs);
      pts := v;
      if !IsPaused() {
        timerValid := true;
      }
      lastPts := pts;
      anchorMs := now;
    }

    // Transport

    method SetClockType(ct: ClockType)
      requires Valid()
      modifies this`clockType, this`pending
      ensures Valid()
      ensures Snapshot() == ClockModel.SetClockType(old(Snapshot()), ct)
    {
      if clockType == ct {
        return;
      }
      clockType := ct;
      pending := pending + [Restart];
    }

    method Start()
      requires Valid()
      modifies this`state, this`timerValid, this`pending, this`signals
      ensures Valid()
      ensures Snapshot() == ClockModel.Start(old(Snapshot()))
      ensures signals == old(signals) + [StartedSignal]
    {
      state := Running;
      timerValid := true;
      pending := pending + [Restart];
      signals := signals + [StartedSignal];
    }

    /** `pause(p)` at wall time `now`. */
    method Pause(p: bool, now: int)
      requires Valid()
      modifies this`state, this`timerValid, this`pending, this`anchorMs, this`signals
      ensures Valid()
      ensures Snapshot() == ClockModel.Pause(old(Snapshot()), p, now)
      ensures signals == old(signals) +
                if old(IsPaused()) == p || old(clockType) == AudioClock then []
                else if p then [PausedSignal, PausedWith(true)]
                else [ResumedSignal, PausedWith(false)]
    {
      if IsPaused() == p {
        return;
      }
      if clockType == AudioClock {
        return;
      }
      state := if p then Paused else Running;
      if p {
        pending := pending + [Stop];
        timerValid := false;
        signals := signals + [PausedSignal];
      } else {
        timerValid := true;
        pending := pending + [Restart];
        signals := signals + [ResumedSignal];
      }
      anchorMs := now;
      signals := signals + [PausedWith(p)];
    }

    /** `reset()` at wall time `now`. */
    method Reset(now: int)
      requires Valid()
      modifies this`nbSync, this`syncId, this`state, this`value0, this`pts, this`ptsV
      modifies this`delay, this`pending, this`timerValid, this`anchorMs, this`signals
      ensures Valid()
      ensures Snapshot() == ClockModel.Reset(old(Snapshot()), now)
      ensures signals == old(signals) + [ResettedSignal]
    {
      ghost var expected := ClockModel.Reset(Snapshot(), now);
      assert Consistent(expected);
      nbSync := 0;
      syncId := 0;
      state := Stopped;
      value0 := 0.0;
      pts, ptsV, delay := 0.0, 0.0, 0.0;
      pending := pending + [Stop];
      timerValid := false;
      anchorMs := now;
      signals := signals + [ResettedSignal];
      assert Snapshot() == expected;
    }

    // Sync barrier

    /** `syncStart(count)`, drawing the id from the counter shared by all
        clocks. */
    method SyncStart(ids: SyncIdSource, count: int) returns (id: Int32)
      requires Valid()
      modifies this`nbSync, this`syncId, ids
      ensures Valid() && id != 0 && SyncId() == id
      ensures id == NextSyncId(old(ids.last)) && ids.last == id
      ensures Snapshot() == old(Snapshot()).(barrier := Open(id, count))
    {
      nbSync := count;
      id := ids.Next();
      syncId := id;
    }

    method SyncEndOnce(id: Int32) returns (b: bool)
      requires Valid()
      modifies this`nbSync, this`syncId
      ensures Valid()
      ensures (Snapshot().barrier, b) == EndOnce(old(Snapshot()).barrier, id)
      ensures Snapshot() == old(Snapshot()).(barrier := Snapshot().barrier)
    {
      if id != syncId {
        return true;
      }
      nbSync := nbSync - 1;
      if nbSync == 0 {
        syncId := 0;
      }
      b := syncId != 0;
    }

    // Drift correction

    /** `timerEvent` at wall time `now`; its two `value()` calls measure
        `elapsedMs1` and `elapsedMs2`. */
    method TimerEvent(eventTimerId: int, now: int, elapsedMs1: nat, elapsedMs2: nat)
      requires Valid()
      requires clockType != AudioClock
      requires eventTimerId > 0
      requires TickFires(Snapshot(), eventTimerId) ==> speed != 0.0
      modifies this`pts, this`nbRestarted, this`anchorMs, this`avgErr, this`lastPts
      ensures Valid()
      ensures Snapshot() == Tick(old(Snapshot()), eventTimerId, now, elapsedMs1, elapsedMs2)
    {
      if eventTimerId != correctionTimerId {
        return;
      }
      if IsPaused() {
        return;
      }
      ghost var before := Snapshot();
      var first := Value(elapsedMs1);
      var deltaPts := (first - lastPts) / speed;
      var err := (now - anchorMs) as real * Thousandth - deltaPts;
      assert err == TickError(before, now, elapsedMs1);
      anchorMs := now;
      if AbsReal(err * 10.0) < CorrectionInterval as real || clockType == VideoClock {
        avgErr := avgErr + err / (nbRestarted + 1) as real;
      }
      assert Snapshot() == Correct(before, now, elapsedMs1);
      var second := Value(elapsedMs2);
      lastPts := second;
      nbRestarted := 0;
    }

    /** `restartCorrectionTimer()`; `newId` is the id the tick timer gets if
        it is started. */
    method RestartCorrectionTimer(now: int, newId: int)
      requires newId > 0
      modifies this`nbRestarted, this`avgErr, this`correctionTimerId, this`anchorMs
      ensures Valid()
      ensures Snapshot() == DriftCorrection.RestartCorrectionTimer(old(Snapshot()), now, newId)
    {
      nbRestarted := 0;
      avgErr := 0.0;
      correctionTimerId := NoTimer;
      if clockType == AudioClock {
        return;
      }
      if state != Running {
        return;
      }
      if !timerValid {
        return;
      }
      anchorMs := now;
      correctionTimerId := newId;
    }

    method StopCorrectionTimer()
      modifies this`nbRestarted, this`avgErr, this`correctionTimerId
      ensures Valid()
      ensures Snapshot() == DriftCorrection.StopCorrectionTimer(old(Snapshot()))
    {
      nbRestarted := 0;
      avgErr := 0.0;
      correctionTimerId := NoTimer;
    }

    /** The event loop runs the oldest posted slot call, if any. */
    method RunDeferred(now: int, newId: int)
      requires Valid() && newId > 0
      modifies this`pending, this`nbRestarted, this`avgErr, this`correctionTimerId, this`anchorMs
      ensures Valid()
      ensures Snapshot() == DriftCorrection.RunDeferred(old(Snapshot()), now, newId)
    {
      if pending == [] {
        return;
      }
      var next := pending[0];
      pending := pending[1..];
      match next
      case Restart => RestartCorrectionTimer(now, newId);
      case Stop => StopCorrectionTimer();
    }
  }

  /** `syncStart(3)` on a fresh clock, then four reports with the id it
      returned: the first two find the barrier still open, the third closes
      it, and the fourth, now stale, is answered `true` as well. */
  method ThreeReporters(ids: SyncIdSource) returns (id: Int32, answers: seq<bool>)
    modifies ids
    ensures id != 0
    ensures answers == [true, true, false, true]
  {
    var clock := new AVClock(ExternalClock);
    id := clock.SyncStart(ids, 3);
    var a1 := clock.SyncEndOnce(id);
    var a2 := clock.SyncEndOnce(id);
    var a3 := clock.SyncEndOnce(id);
    assert clock.SyncId() == 0;
    var a4 := clock.SyncEndOnce(id);
    answers := [a1, a2, a3, a4];
  }

  /** A started external clock advances with the wall time; once paused,
      every reading returns the same time. */
  method PauseFreezes(now: int, newId: int, e1: nat, e2: nat, e3: nat)
    returns (running: real, frozen1: real, frozen2: real)
    requires newId > 0
    ensures running == e1 as real / 1000.0
    ensures frozen1 == running && frozen2 == running
  {
    var clock := new AVClock(ExternalClock);
    clock.Start();
    clock.RunDeferred(now, newId);
    running := clock.Value(e1);
    clock.Pause(true, now);
    frozen1 := clock.Value(e2);
    frozen2 := clock.Value(e3);
  }
}

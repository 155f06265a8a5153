# AVClock presentation clock, modelled in Dafny

This project models `AVClock`, the presentation clock of the QtPlayer media
player. Decoders push timestamps into the clock. The renderer and the
synchroniser read the current playback time back out. A controller starts,
pauses and resets the clock and chooses its type. The type decides how
`value()` computes the time:

- an **audio** clock reports the last audio timestamp plus the output delay;
- a **video** clock reports the last video frame time;
- an **external** clock runs free on an elapsed-time timer. Each reading
  advances it. Once a second a correction tick compares the clock with the
  wall clock and keeps an average error, which later readings add back in.

The clock also carries a small synchronisation barrier. `syncStart(n)` opens
a generation with a fresh non-zero id. `syncEndOnce(id)` counts down the `n`
reports. The report that reaches zero closes the barrier.

The project has five files, one module each:

- `sync_barrier.dfy` (`SyncBarrier`): the 32-bit id counter shared by all
  clocks (`SyncIdSource`), the barrier value and its countdown lemmas.
- `clock_model.dfy` (`ClockModel`): the clock's whole state as a value
  (`ClockState`), one function per operation giving the state after it, and
  the invariant `Consistent`.
- `drift_correction.dfy` (`DriftCorrection`): the correction tick, the two
  slots that start and stop its timer, and the event loop running one posted
  slot call.
- `av_clock.dfy` (`AVClocks`): the class `AVClock`. It has the C++ fields and
  updates them in place. Every method is proved to leave
  `Snapshot() == F(old(Snapshot()), …)` for the matching function `F` above,
  and to keep `Valid()`. Two client methods drive the class through its
  contracts alone.
- `clock_properties.dfy` (`ClockProperties`): lemmas that relate several
  operations.

Inputs the C++ reads from the environment are parameters:

- `now` is `QDateTime::currentMSecsSinceEpoch()`;
- `elapsedMs` is what `QElapsedTimer::restart()` returned;
- `newId` is the id the event dispatcher gives a started `QBasicTimer`;
- `eventTimerId` is the id carried by a `QTimerEvent`.

Both ids are required to be positive, as Qt's timer ids are.

The `QElapsedTimer` itself is the flag `timerValid`. A stopped `QBasicTimer`
has id `NoTimer` (0), as `QBasicTimer::timerId()` reports for an inactive
timer. `QTimer::singleShot(0, this, slot)` appends
`Restart` or `Stop` to `pending`. `RunDeferred` runs the oldest entry, as the
event loop would. The emitted signals are a ghost trace, `signals`, in
emission order.

The getters (`Pts`, `InitialValue`, `VideoTime`, `Delay`, `Speed`,
`IsClockAuto`, `IsActive`, `IsPaused`, `SyncId`) are plain functions of the
fields. The setters' contracts state the round trip with them.

The model keeps these behaviours of the code as written:

- `start()` sets Running from any state, Stopped included.
- A correction tick is skipped only for a paused clock. A stopped clock whose
  posted stop has not run yet still ticks.
- The id counter never hands out 0. A counter at -1 is put back to 0 before
  the increment, so the id after -1 is 1. The id -1 itself is handed out, after
  -2.
- A video clock reports `pts_v` and ignores the initial value. The comment at
  `QtPlayer/AVClock.h:60` says otherwise.
- `reset()` clears the initial value, as the comment at
  `QtPlayer/AVClock.h:107` says.

## Model

| member | source | states |
|---|---|---|
| `SyncBarrier.Wrap32Inc` | QtPlayer/AVClock.cpp:74 | `++sId` on a 32-bit int: the result is one more modulo 2^32, and exactly one more below the largest int |
| `SyncBarrier.NextSyncId` | QtPlayer/AVClock.cpp:68-76 | the id handed out is never 0; it is the counter plus one modulo 2^32, or 1 when the counter was -1 |
| `SyncBarrier.IdsCountUp` | QtPlayer/AVClock.cpp:70-75 | from the initial counter the k-th barrier gets id k, so ids do not repeat before the counter wraps |
| `SyncBarrier.SyncIdSource.Next` | QtPlayer/AVClock.cpp:70-75 | the shared static counter steps to the next id, which is non-zero |
| `SyncBarrier.Open` | QtPlayer/AVClock.cpp:71-74 | an opened barrier has a non-zero id and expects `count` reports |
| `SyncBarrier.EndOnce` | QtPlayer/AVClock.cpp:78-87 | a stale id is answered true and changes nothing; a matching id counts down by one, closes the barrier (id 0) exactly when the count reaches 0, and answers whether the barrier is still open |
| `SyncBarrier.StaleReportsChangeNothing` | QtPlayer/AVClock.cpp:80-83 | any number of stale reports are all answered true and leave the barrier unchanged |
| `SyncBarrier.Countdown` | QtPlayer/AVClock.cpp:84-86 | with n >= 1 reports expected, reports 1 to n-1 are answered true, the n-th closes the barrier and is answered false, later ones are answered true |
| `SyncBarrier.SyncRoundTrip` | QtPlayer/AVClock.cpp:68-87 | syncStart(n) followed by k reports with its id: only the n-th is answered false, and after n reports the barrier is closed |
| `SyncBarrier.ZeroIdMatchesClosedBarrier` | QtPlayer/AVClock.cpp:80-86 | a report with id 0 against a closed barrier matches it, drives the count to -1 and is answered false |
| `ClockModel.Initial` | QtPlayer/AVClock.cpp:12-22 | a new clock is stopped, at speed 1, auto-clock on, reads 0, has nothing posted and no correction timer; only an audio clock is active |
| `ClockModel.IsPaused` | QtPlayer/AVClock.cpp:63-66 | paused exactly in the Paused state; a stopped or running clock is not paused |
| `ClockModel.IsActive` | QtPlayer/AVClock.h:27 | an audio clock is always active; any other clock is active exactly while its elapsed timer is valid |
| `ClockModel.Reading` | QtPlayer/AVClock.h:44-61 | the time value() returns once sampling is done: audio gives the initial value while pts is 0, else pts + delay; external gives pts offset by the initial value; video gives the video time |
| `ClockModel.Sample` | QtPlayer/AVClock.h:42-62 | value() returns the reading of the state it leaves; audio, video and non-measuring external clocks are unchanged; a measuring external clock advances pts by (elapsed/1000 + avg_err) * speed and counts one more sample, nothing else changes |
| `ClockModel.UpdateValue` | QtPlayer/AVClock.h:64-68 | only an audio clock takes the timestamp, after which it reads the timestamp plus the delay (or the initial value for 0); other clocks are unchanged |
| `ClockModel.UpdateVideoTime` | QtPlayer/AVClock.h:74-79 | the video time is set and pts kept; the elapsed timer is restarted only on a video clock, which then is active and reads the new frame time |
| `ClockModel.UpdateExternalClock` | QtPlayer/AVClock.cpp:35-48 | no effect on an audio clock; otherwise pts and last_pts become msecs/1000, the video time follows only on a video clock, the timer restarts unless paused, the anchor moves to now |
| `ClockModel.UpdateExternalClockTo` | QtPlayer/AVClock.cpp:50-61 | only an external clock takes the other clock's reading as pts and last_pts; the timer restarts unless paused |
| `ClockModel.SetClockType` | QtPlayer/AVClock.cpp:26-32 | the same type changes nothing and posts nothing; a new type is set and a correction restart is posted; the run state is untouched |
| `ClockModel.Start` | QtPlayer/AVClock.cpp:89-96 | from any state the clock runs, its timer measures, and a correction restart is posted |
| `ClockModel.Pause` | QtPlayer/AVClock.cpp:98-119 | a no-op when already in the requested state or on an audio clock; otherwise paused iff p, active iff not p, a stop (pause) or restart (resume) posted, and the anchor moved |
| `ClockModel.Reset` | QtPlayer/AVClock.cpp:121-133 | barrier, initial value, pts, video time and delay cleared, stopped, timer invalid, a stop posted; speed, auto-clock flag and type kept; the clock reads 0 |
| `DriftCorrection.RestartCorrectionTimer` | QtPlayer/AVClock.cpp:154-169 | sample count and average error are zeroed; the correction timer is afterwards active iff the clock is non-audio, running and measuring, and only then is the anchor moved |
| `DriftCorrection.StopCorrectionTimer` | QtPlayer/AVClock.cpp:171-176 | sample count and average error are zeroed and the correction timer is inactive |
| `DriftCorrection.RunDeferred` | QtPlayer/AVClock.h:112-115 | the oldest posted slot call is removed and run, keeping the invariant; only the queue and the correction bookkeeping change; nothing happens when nothing is posted |
| `DriftCorrection.Correct` | QtPlayer/AVClock.cpp:142-149 | the anchor moves to now; an outlier error leaves avg_err unchanged, any other is added divided by the samples since the last tick plus one |
| `DriftCorrection.Tick` | QtPlayer/AVClock.cpp:135-152 | a foreign timer event or a paused clock changes nothing; otherwise the anchor is now, the sample count 0, last_pts the clock's reading, only pts and the correction fields change, outliers are discarded, a video clock's pts never moves |
| `AVClocks.AVClock.constructor` | QtPlayer/AVClock.cpp:12-16 | the fields hold the initial state of a clock of the given type |
| `AVClocks.AVClock.Default` | QtPlayer/AVClock.cpp:18-22 | the fields hold the initial state of an audio clock |
| `AVClocks.AVClock.IsActive` | QtPlayer/AVClock.h:27 | true exactly when the clock is an audio clock or its elapsed timer is valid |
| `AVClocks.AVClock.IsPaused` | QtPlayer/AVClock.cpp:63-66 | true exactly in the Paused state |
| `AVClocks.AVClock.Pts` | QtPlayer/AVClock.h:39 | returns the clock's pts |
| `AVClocks.AVClock.InitialValue` | QtPlayer/AVClock.h:32 | returns the initial value |
| `AVClocks.AVClock.VideoTime` | QtPlayer/AVClock.h:80 | returns the video time |
| `AVClocks.AVClock.Delay` | QtPlayer/AVClock.h:81 | returns the output delay |
| `AVClocks.AVClock.Speed` | QtPlayer/AVClock.h:86 | returns the playback speed |
| `AVClocks.AVClock.IsClockAuto` | QtPlayer/AVClock.h:36 | returns the auto-clock flag |
| `AVClocks.AVClock.SyncId` | QtPlayer/AVClock.h:91 | returns the id of the open barrier generation, 0 when closed |
| `AVClocks.AVClock.SetInitialValue` | QtPlayer/AVClock.h:31-32 | initialValue() returns the value set; no other field changes |
| `AVClocks.AVClock.SetClockAuto` | QtPlayer/AVClock.h:35-36 | isClockAuto() returns the flag set; no other field changes |
| `AVClocks.AVClock.UpdateDelay` | QtPlayer/AVClock.h:81-82 | delay() returns the delay set; no other field changes |
| `AVClocks.AVClock.SetSpeed` | QtPlayer/AVClock.h:85-86 | speed() returns the speed set; no other field changes |
| `AVClocks.AVClock.Value` | QtPlayer/AVClock.h:42-62 | fields and result are those of `Sample`; only pts and the sample count may change, and only on an external clock |
| `AVClocks.AVClock.Diff` | QtPlayer/AVClock.h:83 | the reading minus the video time, with value()'s side effects; 0 on a video clock |
| `AVClocks.AVClock.UpdateValue` | QtPlayer/AVClock.h:64-68 | the fields become those of `ClockModel.UpdateValue` |
| `AVClocks.AVClock.UpdateVideoTime` | QtPlayer/AVClock.h:74-79 | the fields become those of `ClockModel.UpdateVideoTime` |
| `AVClocks.AVClock.UpdateExternalClock` | QtPlayer/AVClock.cpp:35-48 | the fields become those of `ClockModel.UpdateExternalClock` |
| `AVClocks.AVClock.UpdateExternalClockFrom` | QtPlayer/AVClock.cpp:50-61 | on an external clock the other clock is sampled (advancing it, even when it is this clock) and its reading taken over; otherwise neither clock changes |
| `AVClocks.AVClock.SetClockType` | QtPlayer/AVClock.cpp:26-32 | the fields become those of `ClockModel.SetClockType` |
| `AVClocks.AVClock.Start` | QtPlayer/AVClock.cpp:89-96 | the fields become those of `ClockModel.Start`; started is emitted |
| `AVClocks.AVClock.Pause` | QtPlayer/AVClock.cpp:98-119 | the fields become those of `ClockModel.Pause`; paused() then paused(true), or resumed() then paused(false), are emitted unless it was a no-op |
| `AVClocks.AVClock.Reset` | QtPlayer/AVClock.cpp:121-133 | the fields become those of `ClockModel.Reset`; resetted is emitted |
| `AVClocks.AVClock.SyncStart` | QtPlayer/AVClock.cpp:68-76 | the returned id is the shared counter's next id, never 0, and becomes sync_id; nb_sync becomes count; nothing else changes |
| `AVClocks.AVClock.SyncEndOnce` | QtPlayer/AVClock.cpp:78-87 | barrier and answer are those of `SyncBarrier.EndOnce`; nothing else changes |
| `AVClocks.AVClock.TimerEvent` | QtPlayer/AVClock.cpp:135-152 | the fields become those of `DriftCorrection.Tick` |
| `AVClocks.AVClock.RestartCorrectionTimer` | QtPlayer/AVClock.cpp:154-169 | the fields become those of `DriftCorrection.RestartCorrectionTimer`, and the invariant holds afterwards |
| `AVClocks.AVClock.StopCorrectionTimer` | QtPlayer/AVClock.cpp:171-176 | the fields become those of `DriftCorrection.StopCorrectionTimer`, and the invariant holds afterwards |
| `AVClocks.AVClock.RunDeferred` | QtPlayer/AVClock.h:112-115 | the fields become those of `DriftCorrection.RunDeferred` |
| `AVClocks.ThreeReporters` | QtPlayer/AVClock.cpp:68-87 | syncStart(3) and four reports with its id are answered true, true, false, true |
| `AVClocks.PauseFreezes` | QtPlayer/AVClock.cpp:98-110 | a started external clock reads the elapsed time; after pause(true) every reading returns that same time |
| `ClockProperties.SamplesAccumulate` | QtPlayer/AVClock.h:49-56 | a measuring external clock sampled k times advances by (total elapsed/1000 + k * avg_err) * speed and counts k samples; nothing else changes |
| `ClockProperties.AudioValueFollowsUpdates` | QtPlayer/AVClock.h:44-48 | an audio clock without a timestamp reads its initial value and changes nothing; after updateValue(p), p != 0, it reads p + delay |
| `ClockProperties.VideoValueIsFrameTime` | QtPlayer/AVClock.h:58-61 | a video clock reads its video time, changes nothing, and ignores the initial value |
| `ClockProperties.PausedExternalClockIsFrozen` | QtPlayer/AVClock.cpp:104-110 | after pause(true) a running external clock is inactive, any number of readings change nothing, and all return the time reached |
| `ClockProperties.FrozenSamples` | QtPlayer/AVClock.h:49-56 | readings of a non-measuring or non-external clock change nothing |
| `ClockProperties.ResumeAdvancesFromFrozen` | QtPlayer/AVClock.cpp:111-116 | after pause(true) then pause(false) the clock runs, is active, and advances from the frozen time |
| `ClockProperties.PauseFromStopped` | QtPlayer/AVClock.cpp:98-104 | pause(true) moves a stopped non-audio clock to Paused, pause(false) leaves it alone, and start() runs it from Paused |
| `ClockProperties.PausedVideoClockReactivatedByFrame` | QtPlayer/AVClock.h:74-79 | a new frame on a paused video clock restarts its timer, so it reports itself active while still paused |
| `ClockProperties.RunAllSettles` | QtPlayer/AVClock.cpp:154-176 | once all posted calls have run nothing is pending, the correction timer runs only for a running, measuring, non-audio clock (and does so if the last call was a restart), the bookkeeping is cleared, and nothing else changes |
| `ClockProperties.SettledAudioClockHasNoTick` | QtPlayer/AVClock.cpp:137 | with nothing posted, an audio clock has no correction timer, so the tick's assertion cannot fail |
| `ClockProperties.SwitchToAudioLeavesTimerOn` | QtPlayer/AVClock.cpp:26-32 | switching a running clock with a correction timer to audio gives a consistent audio clock whose timer is still on and would pass the tick's id and pause guards, until the posted restart stops it |
| `ClockProperties.StartRunsCorrection` | QtPlayer/AVClock.cpp:89-96 | after start() and its posted restart, the correction timer runs exactly for a non-audio clock |
| `ClockProperties.ResetThenStop` | QtPlayer/AVClock.cpp:121-133 | after reset() and its posted stop, the correction bookkeeping is cleared, the timer inactive, the barrier closed, the clock stopped and reading 0, speed and auto-clock flag kept |

## Left out

- Signals are only recorded, as a ghost trace in emission order. No subscriber exists in the model.
- The event loop is not modelled. `QTimer::singleShot(0, …)` becomes a posted entry that `RunDeferred` runs when the caller says so. Thread affinity is not modelled.
- The periodic `QBasicTimer` (a 1000 ms period) is not modelled. A tick happens when the caller invokes `TimerEvent`, with the event's timer id as a parameter.
- `QDateTime::currentMSecsSinceEpoch` and the `QElapsedTimer` readings are parameters. The timer is modelled only as measuring or not.
- `QAtomicInt` atomicity and concurrent callers are not modelled. `nb_sync` is an unbounded integer, so its 32-bit wrap-around is not modelled either.
- Floating point is modelled as `real`, so rounding is gone and `msecs * 0.001` equals `msecs / 1000`. Accuracy and convergence of the drift correction are not proved.
- `qDebug` and `qWarning` output is not modelled, and neither are the `value()` calls inside `qDebug` arguments. Those arguments are evaluated in every build that does not define `QT_NO_DEBUG_OUTPUT`, ordinary release builds included. Both `updateExternalClock` overloads sample this clock there (`QtPlayer/AVClock.cpp:39` and `:54`), which on a measuring external clock bumps `nb_restarted` and restarts the elapsed timer before pts is overwritten. The overload taking a clock also samples the other clock twice, at line 54 and again at line 55, so that clock advances twice; the model samples it once.
- The static id counter wraps as a 32-bit two's-complement integer. Signed overflow is undefined behaviour in C++, and wrapping is what compilers commonly do.
- `t` is not initialised by the C++ constructors. The model leaves `anchorMs` unconstrained there.
- The `clockType()` getter is not modelled separately, because the field is public in the model.
- `QObject` parent ownership is not modelled.
- DriftCorrection.Tick: requires a non-audio clock. This is the `Q_ASSERT` at `QtPlayer/AVClock.cpp:137`. The release-build behaviour for an audio clock is not modelled. The state is reachable: `setClockType(AudioClock)` on a running clock whose correction timer is on leaves that timer on until the posted restart runs (`ClockProperties.SwitchToAudioLeavesTimerOn`). A tick in that window would trip the assertion. This is a claim about the source that was not executed.
- DriftCorrection.Tick: requires a non-zero speed when the tick fires. With speed 0 the source divides by zero, and IEEE infinities are not modelled.
- AVClocks.AVClock.TimerEvent: the same two requirements as `DriftCorrection.Tick`, for the same reasons.

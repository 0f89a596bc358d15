# Scaler: pitch gate, usage timer and shake sprint

Scaler gates an iPhone app behind a physical condition. The app's content is usable only while the
phone is held level. Level means the pitch angle lies in a band, by default [-10, 10] degrees. Level
usage is counted by a one-second timer. When it reaches its target (5 seconds in debug builds,
30 minutes otherwise), the app posts a "start shake sprint" signal. The sprint is a 60-second
challenge: the user must keep shaking the phone at 3 shakes per second.

This project models the three state-holding models behind that logic, and the view's wiring of them:

- **Pitch gate** (`PitchGate`, `PitchGateModel.dfy`). The inclusive band test `WithinBand` is a
  predicate. The class `PitchGateModel` keeps the published fields (`isWithinThreshold`,
  `currentPitch`, `thresholdLow`, `thresholdHigh`). The device-motion callback and the mock hook
  both update them in place through the same predicate. Without motion hardware, updates are never
  started and callbacks change nothing.
- **Usage timer** (`UsageTiming`, `UsageTimer.dfy`). A snapshot datatype `TimerState` and pure
  transition functions (`Started`, `Stopped`, `Ticked`, `ResetState`, `PostedNow`) specify the
  operations. The class `UsageTimer` performs them on its fields; each method's postcondition ties
  the new snapshot to the transition function applied to the old one. The scheduled one-second
  timer is the field `timerScheduled`. The run loop, which the model leaves to the caller, fires it with `TimerFired`. The posted
  notification is the counter `shakeSprintPosts`. The debug flag is a constructor parameter, and
  the target is derived from it exactly as in the source.
- **Time formatter** (`ClockFormat`, `FormattedTime.dfy`). This is the release-build `formattedTime`,
  written as "%d:%02d". Swift's truncating `Int(_:)`, `/` and `%` are written out, and so is the
  conversion of each `%d` argument to a 32-bit C `int` (`Int32Wrap`), which wraps minutes of 2^31
  or more. `ParseClock` is the formatter's inverse. The round trip is proved for non-negative times
  whose minutes fit 32 bits, and shown to fail at 2^31 minutes.
- **Shake window** (`ShakeWindow`, `RecentShakes.dfy`). The eviction filter `$0 > oneSecondAgo` and
  its characterisation: it keeps exactly the later timestamps, in order. On a time-ordered list it
  drops a prefix.
- **Shake sprint** (`ShakeSprint`, `ShakeSprintController.dfy`). It has the same shape as the usage
  timer: a `SprintState` snapshot, pure transitions, and the class `ShakeSprintController`. The
  0.1-second progress timer and the one-second rate timer are fired by the caller with
  `SprintTimerFired(now)` and `ShakeTimerFired(now)`.
- **Wiring** (`App`, `Scene.dfy`). The main view's reactions are modelled in `Scene`. A change of the
  level state or of the foreground state re-applies the rule "the usage timer runs iff level and in
  the foreground". Going to the background stops the timer but keeps the total. A posted signal
  starts the sprint. `Scene.Valid()` keeps the invariant that an active usage timer implies level
  and foreground.

The class methods are the in-place form of the pure transition functions: each method's
postcondition says that its new state is the function applied to the old state. The properties
are proved once, about the functions.

Clock readings (`Date()`) are a `now: real` parameter in seconds. Doubles are modelled as exact reals.

Behaviour of the source that the model keeps as it is:
- `stopSprint` keeps the start time, the shake count and the last computed rate.
- `startShakeSprint` does not clear the rate either. A new sprint therefore begins with the previous
  sprint's last rate until its first recompute (`ShakeSprint.StartIsGuarded`).
- `reset` does not zero `shakesPerSecond`.
- Stopping the usage timer keeps the total. A timer restarted after reaching its target posts again
  on its first tick (`UsageTiming.RestartAfterTargetPostsOnFirstTick`).

## Model

| member | source | states |
|---|---|---|
| PitchGate.WithinBand | Scaler/Models/PitchGateModel.swift:36 | the gate test of the sensor path (and of the mock path, line 52): level only for a non-empty band, and level exactly when the pitch is no further from the band's centre than half its width; BoundsAreLevel, JustPastABoundIsNotLevel, LevelPitchesFormAnInterval and InvertedBandNeverLevel state its edges |
| PitchGate.BoundsAreLevel | Scaler/Models/PitchGateModel.swift:52 | both bounds of a non-empty band count as level (inclusive test) |
| PitchGate.JustPastABoundIsNotLevel | Scaler/Models/PitchGateModel.swift:52 | any pitch past either bound, by any positive amount, is not level |
| PitchGate.LevelPitchesFormAnInterval | Scaler/Models/PitchGateModel.swift:36 | the level pitches form an interval: no hysteresis, no holes |
| PitchGate.InvertedBandNeverLevel | Scaler/Models/PitchGateModel.swift:36 | a band with low above high never opens the gate |
| PitchGate.PitchGateModel.constructor | Scaler/Models/PitchGateModel.swift:6-16 | initial state is gate closed, pitch 0, band [-10, 10]; updates start iff motion is available |
| PitchGate.PitchGateModel.OnDeviceMotion | Scaler/Models/PitchGateModel.swift:22-42 | a delivered sample sets the pitch and judges it against the current band; without started updates or without data nothing changes; the band is never changed |
| PitchGate.PitchGateModel.SetMockPitch | Scaler/Models/PitchGateModel.swift:50-53 | sets `currentPitch` to the argument and the gate to the same band test as the sensor path; thresholds unchanged, nothing else written |
| PitchGate.BoundaryScenario | ScalerTests/PitchGateModelTests.swift:82-95 | on a fresh gate, -10 and 10 are level, -10.1 and 10.1 are not |
| PitchGate.ThresholdAdjustmentScenario | ScalerTests/PitchGateModelTests.swift:97-108 | after the band is changed to [-5, 5], 8 is judged outside and 3 inside the new band |
| PitchGate.UnavailableSensorScenario | Scaler/Models/PitchGateModel.swift:22-26 | without motion hardware, any sequence of callbacks leaves the gate at its initial values |
| UsageTiming.TargetUsageTime | Scaler/Models/UsageTimer.swift:11-13 | the target is positive (so progress is defined), at most 30 minutes, and shorter in debug builds |
| UsageTiming.Started | Scaler/Models/UsageTimer.swift:21-27 | `startTimer`: keeps the timer consistent, leaves it active, and changes neither the total nor the posts; StartIsGuarded states the guard |
| UsageTiming.Stopped | Scaler/Models/UsageTimer.swift:46-51 | `stopTimer`: always gives a consistent, inactive timer and keeps the total and the posts; StopIsIdempotent states idempotence |
| UsageTiming.Ticked | Scaler/Models/UsageTimer.swift:27-43 | one firing of the tick closure: keeps the timer consistent, adds between 0 and 1 second, and posts at most one signal, only when it stops the timer at or past the target; TickAddsOneSecond, TickAtTargetStopsAndPosts and TargetReachedExactlyOnce give the exact cases |
| UsageTiming.ResetState | Scaler/Models/UsageTimer.swift:59-62 | `reset`: a consistent, inactive timer with total 0, posts unchanged; ResetClears adds progress 0 and the full target remaining |
| UsageTiming.PostedNow | Scaler/Models/UsageTimer.swift:83-86 | `triggerShakeSprintNow`: one more post, with total and activity unchanged and consistency kept |
| UsageTiming.Progress | Scaler/Models/UsageTimer.swift:64-66 | progress is at most 1, non-negative for non-negative usage, equals 1 exactly at or past the target, and below the target is usage divided by target |
| UsageTiming.RemainingTime | Scaler/Models/UsageTimer.swift:68-70 | remaining time is never negative, is 0 exactly at or past the target, and below it adds up with usage to the target |
| UsageTiming.ProgressAndRemainingAgree | Scaler/Models/UsageTimer.swift:64-70 | progress times target plus remaining time is always the target |
| UsageTiming.MoreUsageMeansMoreProgress | ScalerTests/UsageTimerTests.swift:101-120 | more usage never lowers progress or raises remaining time; below the target it strictly lowers remaining time |
| UsageTiming.InitialTimer | ScalerTests/UsageTimerTests.swift:19-23 | a fresh timer has no usage, is inactive, has progress 0, and in release builds 30 minutes remaining |
| UsageTiming.OperationsKeepConsistency | Scaler/Models/UsageTimer.swift:21-62 | every operation keeps "active iff a tick source is scheduled iff a start time is recorded" |
| UsageTiming.StartIsGuarded | Scaler/Models/UsageTimer.swift:21-25 | starting an active timer changes nothing (start time kept, no second tick source); otherwise it activates and records `now`, keeping the total |
| UsageTiming.TickAddsOneSecond | Scaler/Models/UsageTimer.swift:27-30 | a tick of an active timer adds exactly 1.0; a tick of a stopped timer changes nothing |
| UsageTiming.TickAtTargetStopsAndPosts | Scaler/Models/UsageTimer.swift:39-42 | the tick reaching the target stops the timer and posts one signal; a tick short of it keeps running and posts nothing |
| UsageTiming.StopIsIdempotent | Scaler/Models/UsageTimer.swift:46-51 | stop leaves the timer inactive without start time, keeps the total, and is idempotent |
| UsageTiming.ResetClears | Scaler/Models/UsageTimer.swift:59-62 | reset gives total 0, inactive, progress 0 and the full target remaining, from any state |
| UsageTiming.TicksAfterStopChangeNothing | Scaler/Models/UsageTimer.swift:27-28 | any number of ticks after a stop change nothing |
| UsageTiming.TicksBelowTarget | Scaler/Models/UsageTimer.swift:27-43 | n ticks short of the target add exactly n seconds and post nothing |
| UsageTiming.TargetReachedExactlyOnce | Scaler/Models/UsageTimer.swift:39-42 | running an active timer, the first tick reaching the target stops it with exactly one signal posted, and later ticks add nothing and post nothing |
| UsageTiming.RestartAfterTargetPostsOnFirstTick | Scaler/Models/UsageTimer.swift:21-42 | a timer restarted at or past its target stops and posts again on its first tick |
| UsageTiming.OneSecondShortOfTarget | ScalerTests/UsageTimerTests.swift:166-182 | usage of 30 min minus 1 s and a start: the first tick reaches 1800, stops and posts once |
| UsageTiming.UsageTimer.constructor | Scaler/Models/UsageTimer.swift:5-19 | a fresh timer is the initial snapshot, with the given debug flag |
| UsageTiming.UsageTimer.StartTimer | Scaler/Models/UsageTimer.swift:21-27 | new state is `Started(old state, now)` |
| UsageTiming.UsageTimer.StopTimer | Scaler/Models/UsageTimer.swift:46-51 | new state is `Stopped(old state)` |
| UsageTiming.UsageTimer.TimerFired | Scaler/Models/UsageTimer.swift:27-43 | new state is `Ticked(old state, target)`; `posted` tells whether the signal was posted |
| UsageTiming.UsageTimer.TriggerShakeSprint | Scaler/Models/UsageTimer.swift:53-57 | posts exactly one signal |
| UsageTiming.UsageTimer.Reset | Scaler/Models/UsageTimer.swift:59-62 | new state is `ResetState(old state)` |
| UsageTiming.UsageTimer.TriggerShakeSprintNow | Scaler/Models/UsageTimer.swift:83-86 | posts one signal and changes nothing else |
| UsageTiming.UsageTimer.CurrentProgress | Scaler/Models/UsageTimer.swift:64-66 | the timer's progress is at most 1, non-negative for non-negative usage, and 1 exactly at the target |
| UsageTiming.UsageTimer.CurrentRemainingTime | Scaler/Models/UsageTimer.swift:68-70 | the timer's remaining time is non-negative and 0 exactly at the target |
| ClockFormat.TruncateToInt | Scaler/Models/UsageTimer.swift:76-77 | `Int(time)` is the integer part rounded toward zero |
| ClockFormat.TruncatedRemainder | Scaler/Models/UsageTimer.swift:76-77 | Swift's `/` and `%` by 60: quotient times 60 plus remainder is the dividend, and the remainder has the dividend's sign and is below 60 in size |
| ClockFormat.NatToDecimal | Scaler/Models/UsageTimer.swift:78 | "%d" of a natural number is a non-empty string of digits without leading zeros |
| ClockFormat.DecimalDigitsRoundTrip | Scaler/Models/UsageTimer.swift:78 | reading back the digits of n gives n |
| ClockFormat.Int32Wrap | Scaler/Models/UsageTimer.swift:78 | the conversion of a `%d` argument to a 32-bit C `int`: a value in [-2^31, 2^31) that differs from the argument by a multiple of 2^32, and the argument itself when it fits |
| ClockFormat.Decimal | Scaler/Models/UsageTimer.swift:78 | "%d" of an already converted value: for n >= 0 a non-empty digit string reading back as n; for n < 0 a minus sign followed by digits reading back as -n |
| ClockFormat.ZeroPadded2 | Scaler/Models/UsageTimer.swift:78 | "%02d" of n >= 0: at least two digits, which read back as n |
| ClockFormat.LeadingZeroKeepsValue | Scaler/Models/UsageTimer.swift:78 | the zero that "%02d" pads with does not change the value read back |
| ClockFormat.PaddedSecondsRoundTrip | Scaler/Models/UsageTimer.swift:78 | "%02d" of seconds 0 to 59 is exactly two digits that read back as the seconds |
| ClockFormat.ClockTextShape | Scaler/Models/UsageTimer.swift:76-78 | for a whole number of seconds >= 0, "%d:%02d" of its minutes and seconds ends in a colon and two digits, even when the minutes wrap |
| ClockFormat.ClockTextRoundTrip | Scaler/Models/UsageTimer.swift:76-78 | for a whole number of seconds >= 0 whose minutes fit a 32-bit `int`, the text parses back to the number |
| ClockFormat.FormattedTime | Scaler/Models/UsageTimer.swift:72-80 | the release branch of `formattedTime`: for time >= 0 the text ends in a colon and two digits |
| ClockFormat.FormattedTimeRoundTrip | Scaler/Models/UsageTimer.swift:75-79 | for 0 <= time < 2^31 * 60 (the minutes fit the 32-bit `%d`), parsing the text gives back `Int(time)` as minutes times 60 plus seconds: only the fraction is lost |
| ClockFormat.WrappedMinutesExample | Scaler/Models/UsageTimer.swift:76-78 | at 2^31 minutes the minutes print wrapped, with a minus sign, and the text no longer parses: the round trip's bound is needed |
| ClockFormat.FormattedTimeExamples | ScalerTests/UsageTimerTests.swift:122-128 | 60 gives "1:00" and 90 gives "1:30" |
| ClockFormat.FormattedTimeOverAnHour | ScalerTests/UsageTimerTests.swift:129-130 | 3661 gives "61:01": minutes are not folded into hours |
| ClockFormat.FormattedTimeAtStartAndTarget | Scaler/Models/UsageTimer.swift:76-78 | 0 gives "0:00" and the release target 1800 gives "30:00" |
| ClockFormat.NegativeTimeExample | Scaler/Models/UsageTimer.swift:76-78 | with truncating arithmetic, -90.5 formats as "-1:-30" |
| ShakeWindow.KeepAfter | Scaler/Models/ShakeSprintController.swift:117 | the filtered list is no longer than the input and holds only timestamps after the cutoff |
| ShakeWindow.KeepAfterCounts | Scaler/Models/ShakeSprintController.swift:117 | every timestamp after the cutoff is kept as many times as it occurs, and no other is kept |
| ShakeWindow.KeepAfterDistributes | Scaler/Models/ShakeSprintController.swift:117 | filtering a concatenation concatenates the filtered parts, so relative order is preserved |
| ShakeWindow.SortedKeepsSuffix | Scaler/Models/ShakeSprintController.swift:112-118 | on a time-ordered list the filter keeps a suffix and evicts only timestamps at or before the cutoff |
| ShakeWindow.KeepAfterKeepsOrder | Scaler/Models/ShakeSprintController.swift:117 | the filter keeps a time-ordered list in time order |
| ShakeWindow.AppendLatestKeepsOrder | Scaler/Models/ShakeSprintController.swift:76-77 | appending a timestamp no earlier than the retained ones keeps the list in time order |
| ShakeSprint.Started | Scaler/Models/ShakeSprintController.swift:36-56 | `startShakeSprint`: keeps the controller consistent, leaves it sprinting, and keeps the last rate; StartIsGuarded gives both branches |
| ShakeSprint.Stopped | Scaler/Models/ShakeSprintController.swift:58-71 | `stopSprint`: keeps the controller consistent, ends the sprint and keeps the progress; StopIsIdempotent adds the cleared timers and window |
| ShakeSprint.Shaken | Scaler/Models/ShakeSprintController.swift:73-81 | `deviceShaken`: with a clock that does not run backwards it keeps the controller consistent; earlier shakes stay as a prefix, and the count grows exactly with the window, by at most one; ShakeIsRecorded gives both branches |
| ShakeSprint.ProgressUpdated | Scaler/Models/ShakeSprintController.swift:83-110 | `updateSprintProgress`: with a clock that does not run backwards it keeps progress in [0, 1] and the controller consistent; it never starts a sprint and leaves count, rate and start time alone; ProgressTickCases gives the exact cases |
| ShakeSprint.RateUpdated | Scaler/Models/ShakeSprintController.swift:112-119 | `updateShakesPerSecond`: keeps the controller consistent; the rate is between 0 and the number of shakes retained before, and every kept shake is within the last second; RateCountsTheLastSecond gives the exact window |
| ShakeSprint.ResetState | Scaler/Models/ShakeSprintController.swift:126-130 | `reset`: keeps the controller consistent, not sprinting, progress 0, and the rate as it was; ResetClears adds count 0, an empty window and idempotence |
| ShakeSprint.InitialController | ScalerTests/ShakeSprintControllerTests.swift:19-23 | a fresh controller is consistent, not sprinting, with progress 0 and rate 0 |
| ShakeSprint.OperationsKeepConsistency | Scaler/Models/ShakeSprintController.swift:36-130 | every operation keeps progress in [0, 1] (below 1 while sprinting), timers scheduled iff sprinting, no retained shakes outside a sprint, shakes in time order, and a non-negative rate |
| ShakeSprint.StartIsGuarded | Scaler/Models/ShakeSprintController.swift:36-45 | start while sprinting changes nothing; from idle it sets sprinting, progress 0, count 0, no shakes, start time `now`, both timers, and keeps the last rate |
| ShakeSprint.ShakeIsRecorded | Scaler/Models/ShakeSprintController.swift:73-78 | a shake outside a sprint is ignored; during one it appends `now` and adds 1 to the count, nothing else |
| ShakeSprint.RateCountsTheLastSecond | Scaler/Models/ShakeSprintController.swift:112-118 | the recompute keeps exactly the shakes later than now-1 with their multiplicities, as a suffix of the old list, evicting only older ones, and sets the rate to their number |
| ShakeSprint.ProgressTickCases | Scaler/Models/ShakeSprintController.swift:83-110 | at rate >= 3 progress becomes min(elapsed/60, 1); below it, after 2 s, max(0, progress - 0.02); else unchanged; the sprint continues iff progress < 1 and elapsed <= 120 |
| ShakeSprint.DecayNeverRaisesProgress | Scaler/Models/ShakeSprintController.swift:91-96 | below the required rate progress never rises, and after the grace period it strictly falls while above 0 |
| ShakeSprint.CompletionPinsFullProgress | Scaler/Models/ShakeSprintController.swift:101-104 | a tick that ends the sprint before the timeout leaves progress exactly 1 |
| ShakeSprint.TimeoutAlwaysStops | Scaler/Models/ShakeSprintController.swift:106-109 | once more than 120 s have elapsed, the tick stops the sprint whatever the progress |
| ShakeSprint.SustainedRateCompletes | Scaler/Models/ShakeSprintController.swift:97-104 | with the rate met, a tick at or after 60 s sets progress to 1 and ends the sprint |
| ShakeSprint.StopIsIdempotent | Scaler/Models/ShakeSprintController.swift:58-64 | stop clears sprinting, both timers and the shake list, keeps progress, and stopping twice equals stopping once |
| ShakeSprint.ResetClears | Scaler/Models/ShakeSprintController.swift:126-130 | reset gives not sprinting, progress 0, count 0 and no shakes from any state, and is idempotent |
| ShakeSprint.SustainedRateTracksTime | Scaler/Models/ShakeSprintController.swift:86-98 | with the rate met, ticks within the first 60 s keep the sprint running with progress equal to the elapsed fraction at the last tick |
| ShakeSprint.DecayRun | Scaler/Models/ShakeSprintController.swift:91-96 | below the rate, k ticks between the grace period and the timeout take progress to max(0, progress - 0.02k) and the sprint keeps running |
| ShakeSprint.ShakeSprintController.constructor | Scaler/Models/ShakeSprintController.swift:6-20 | a fresh controller is the initial snapshot |
| ShakeSprint.ShakeSprintController.StartShakeSprint | Scaler/Models/ShakeSprintController.swift:36-56 | new state is `Started(old state, now)` and stays consistent |
| ShakeSprint.ShakeSprintController.StopSprint | Scaler/Models/ShakeSprintController.swift:58-71 | new state is `Stopped(old state)` |
| ShakeSprint.ShakeSprintController.DeviceShaken | Scaler/Models/ShakeSprintController.swift:73-81 | new state is `Shaken(old state, now)` and stays consistent |
| ShakeSprint.ShakeSprintController.MockShake | Scaler/Models/ShakeSprintController.swift:122-124 | the same as a device shake at `now` |
| ShakeSprint.ShakeSprintController.UpdateSprintProgress | Scaler/Models/ShakeSprintController.swift:83-110 | new state is `ProgressUpdated(old state, now)` |
| ShakeSprint.ShakeSprintController.UpdateShakesPerSecond | Scaler/Models/ShakeSprintController.swift:112-119 | new state is `RateUpdated(old state, now)` |
| ShakeSprint.ShakeSprintController.SprintTimerFired | Scaler/Models/ShakeSprintController.swift:47-50 | a firing of the 0.1 s timer: the progress update if the timer is scheduled, else nothing; stays consistent |
| ShakeSprint.ShakeSprintController.ShakeTimerFired | Scaler/Models/ShakeSprintController.swift:52-55 | a firing of the 1 s timer: the rate recompute if the timer is scheduled, else nothing; stays consistent |
| ShakeSprint.ShakeSprintController.Reset | Scaler/Models/ShakeSprintController.swift:126-130 | new state is `ResetState(old state)` and stays consistent |
| App.Scene.constructor | Scaler/Views/ContentView.swift:4-7 | fresh gate (closed, pitch 0, band [-10, 10], updates started iff motion is available), timer and controller in their initial states, app in the foreground |
| App.Scene.ApplyTimerRule | Scaler/Views/ContentView.swift:133-146 | the usage timer is started if level and in the foreground, otherwise stopped |
| App.Scene.OnDeviceMotion | Scaler/Views/ContentView.swift:133-139 | a delivered sample sets the gate's pitch and verdict (otherwise the gate is unchanged); if the verdict did not change the usage timer is unchanged, and if it did the timer's new state is Started of the old one when level and in the foreground, Stopped otherwise |
| App.Scene.SetMockPitch | Scaler/Views/ContentView.swift:133-139 | the mock pitch sets the gate's pitch and the verdict `WithinBand(pitch, ...)`, and the usage timer reacts to a verdict change exactly as for a sensor sample |
| App.Scene.DidEnterBackground | Scaler/Views/ContentView.swift:126-129 | going to the background stops the usage timer and keeps its total |
| App.Scene.WillEnterForeground | Scaler/Views/ContentView.swift:123-125 | coming back from the background makes the timer's new state Started of the old one if the device is level and Stopped otherwise, so the total is kept; already in the foreground, nothing changes |
| App.Scene.UsageTimerFired | Scaler/Views/ContentView.swift:130-132 | a usage tick that posts the signal starts the sprint; one that does not leaves the sprint alone |
| App.Scene.TriggerShakeSprintNow | Scaler/Models/UsageTimer.swift:83-86 | the manual trigger posts one signal (the timer's new state is `PostedNow` of the old one), which starts the sprint |

## Left out

- CMMotionManager, the 30 Hz update interval and the radian-to-degree conversion: the callback takes the pitch in degrees. `stopMotionUpdates` in `deinit` is not modelled.
- `print` logging, including the "gate OPEN/CLOSED" message on level changes and the sprint completion messages.
- The debug-build branch of `formattedTime` ("%.0fs" floating-point formatting): `ClockFormat.FormattedTime` is the release branch only.
- `Int(time)` traps for values that do not fit an `Int` (and for NaN); reals are unbounded, so these traps are not modelled.
- Doubles are exact reals: the 0.02 decay steps and the division by 60 carry no rounding.
- `Timer.scheduledTimer`, `invalidate` and `Date()`: each timer is a scheduled flag, and the caller fires it with a method taking `now`. An invalidated timer never fires.
- NotificationCenter: the posted signal is the counter `shakeSprintPosts`, and its delivery is the `App.Scene` wiring. The shake notification observer and `ShakeDetectingWindow` become the `DeviceShaken` call.
- Published-property change notifications (Combine) and `[weak self]` captures: deallocation is not modelled.
- ShakeSprint.ShakeSprintController.DeviceShaken requires a clock that does not run backwards (`NotBefore`): a shake stamped before a retained one would leave the window out of time order.
- ShakeSprint.ShakeSprintController.MockShake requires the same forward clock, as it is a device shake.
- ShakeSprint.ShakeSprintController.SprintTimerFired requires the same forward clock: with the wall clock set back, the source's elapsed time could be negative and its progress with it.
- Usage modes, fitness sprints and an acceleration-delta shake detector do not appear in these source files and are not modelled.
- UsageTiming.UsageTimer.constructor: the source fixes `isDebugMode` to `true` (a 5-second target). The model takes the flag as a constructor parameter and derives the target from it as the source does. With that, the release-build expectations of the timer's tests (30 minutes remaining, the signal at 1800 s) can be stated. With the flag as written, those expectations do not hold.
- `deinit` of the sprint controller (it stops the sprint) and `setupShakeDetection`'s observer registration are not modelled; deallocation is outside the model.
- The SwiftUI layout of the main view and the app and scene lifecycle setup are not modelled. Only the view's reactions to changes are.

/** The shake sprint: a time-boxed challenge. While a sprint runs, shakes are timestamped into
    `recentShakes`; a one-second timer recomputes the shake rate over the last second, and a
    0.1-second timer moves the progress: it follows elapsed time while the rate is at least
    3 shakes per second, decays after a 2-second grace period otherwise, and the sprint stops
    on completion or once it has run for more than twice its 60-second duration.
    `SprintState` is a snapshot of the controller; the pure functions over it specify the
    operations, which the class `ShakeSprintController` performs in place. Times are seconds
    on one clock; `now` is the clock's reading when an operation runs. */
module ShakeSprint {
  import opened Options
  import opened ShakeWindow

  const RequiredShakesPerSecond: real := 3.0
  const SprintDuration: real := 60.0
  /** Below the required rate, progress is left alone until this much time has elapsed. */
  const GracePeriod: real := 2.0
  /** How much progress one 0.1-second tick takes away below the required rate. */
  const DecayStep: real := 0.02
  /** Shakes count toward the rate for this long. */
  const RateWindow: real := 1.0
  /** A sprint is stopped once it has run for more than this many durations. */
  const TimeoutFactor: real := 2.0

  /** Swift's `min` and `max` on doubles. */
  function Min(a: real, b: real): real
  {
    if b < a then b else a
  }

  function Max(a: real, b: real): real
  {
    if b > a then b else a
  }

  /** A snapshot of the controller. `sprintTimerScheduled` and `shakeTimerScheduled` stand for
      the scheduled 0.1-second progress timer and one-second rate timer. */
  datatype SprintState = SprintState(
    sprintProgress: real,
    isSprinting: bool,
    shakesPerSecond: real,
    shakeCount: int,
    sprintStartTime: Option<real>,
    sprintTimerScheduled: bool,
    shakeTimerScheduled: bool,
    recentShakes: seq<real>)

  /** What every reachable state satisfies: progress in [0, 1] and below 1 during a sprint,
      both timers scheduled exactly while sprinting, a start time during a sprint, no retained
      shakes outside one, the retained shakes in time order and no more of them than shakes
      counted, and a rate that is a count. */
  predicate Consistent(s: SprintState)
  {
    && 0.0 <= s.sprintProgress <= 1.0
    && s.sprintTimerScheduled == s.isSprinting
    && s.shakeTimerScheduled == s.isSprinting
    && (s.isSprinting ==> s.sprintStartTime.Some? && s.sprintProgress < 1.0)
    && (!s.isSprinting ==> s.recentShakes == [])
    && Sorted(s.recentShakes)
    && s.shakeCount >= |s.recentShakes|
    && s.shakesPerSecond >= 0.0
  }

  /** The clock does not run backwards: `now` is not before the sprint's start nor before any
      retained shake. */
  predicate NotBefore(s: SprintState, now: real)
  {
    && (s.sprintStartTime.Some? ==> s.sprintStartTime.value <= now)
    && (forall i :: 0 <= i < |s.recentShakes| ==> s.recentShakes[i] <= now)
  }

  function Initial(): SprintState
  {
    SprintState(0.0, false, 0.0, 0, None, false, false, [])
  }

  /** `startShakeSprint`: ignored during a sprint; otherwise start from zero progress and no
      shakes at `now`, and schedule both timers. The last computed rate is kept. */
  function Started(s: SprintState, now: real): (t: SprintState)
    ensures Consistent(s) ==> Consistent(t)
    ensures t.isSprinting && t.shakesPerSecond == s.shakesPerSecond
  {
    if s.isSprinting then s
    else s.(isSprinting := true, sprintProgress := 0.0, shakeCount := 0,
            sprintStartTime := Some(now), recentShakes := [],
            sprintTimerScheduled := true, shakeTimerScheduled := true)
  }

  /** `stopSprint`: end the sprint, cancel both timers and drop the retained shakes. Progress,
      start time, shake count and rate are kept. */
  function Stopped(s: SprintState): (t: SprintState)
    ensures Consistent(s) ==> Consistent(t)
    ensures !t.isSprinting && t.sprintProgress == s.sprintProgress
  {
    s.(isSprinting := false, sprintTimerScheduled := false, shakeTimerScheduled := false,
       recentShakes := [])
  }

  /** `deviceShaken`: ignored outside a sprint; otherwise record the shake at `now`. */
  function Shaken(s: SprintState, now: real): (t: SprintState)
    ensures Consistent(s) && NotBefore(s, now) ==> Consistent(t)
    ensures s.recentShakes <= t.recentShakes
    ensures t.shakeCount - s.shakeCount == |t.recentShakes| - |s.recentShakes| <= 1
  {
    AppendLatestKeepsOrder(s.recentShakes, now);
    if !s.isSprinting then s
    else s.(recentShakes := s.recentShakes + [now], shakeCount := s.shakeCount + 1)
  }

  /** `updateSprintProgress` at time `now`. */
  function ProgressUpdated(s: SprintState, now: real): (t: SprintState)
    ensures Consistent(s) && NotBefore(s, now) ==> Consistent(t)
    ensures t.isSprinting ==> s.isSprinting
    ensures t.shakeCount == s.shakeCount && t.shakesPerSecond == s.shakesPerSecond
    ensures t.sprintStartTime == s.sprintStartTime
  {
    match s.sprintStartTime
    case None => s
    case Some(start) =>
      var elapsed := now - start;
      assert elapsed >= 0.0 ==> elapsed / SprintDuration >= 0.0;
      var timeFraction := Min(elapsed / SprintDuration, 1.0);
      var rated :=
        if s.shakesPerSecond < RequiredShakesPerSecond then
          if elapsed > GracePeriod then s.(sprintProgress := Max(0.0, s.sprintProgress - DecayStep))
          else s
        else s.(sprintProgress := timeFraction);
      var checked := if rated.sprintProgress >= 1.0 then Stopped(rated) else rated;
      if elapsed > SprintDuration * TimeoutFactor then Stopped(checked) else checked
  }

  /** `updateShakesPerSecond` at time `now`: keep the shakes of the last second and count them. */
  function RateUpdated(s: SprintState, now: real): (t: SprintState)
    ensures Consistent(s) ==> Consistent(t)
    ensures 0.0 <= t.shakesPerSecond <= |s.recentShakes| as real
    ensures forall i :: 0 <= i < |t.recentShakes| ==> t.recentShakes[i] > now - RateWindow
  {
    KeepAfterKeepsOrder(s.recentShakes, now - RateWindow);
    var kept := KeepAfter(s.recentShakes, now - RateWindow);
    s.(recentShakes := kept, shakesPerSecond := |kept| as real)
  }

  /** A firing of the 0.1-second timer; a cancelled timer never fires. */
  function ProgressTick(s: SprintState, now: real): SprintState
  {
    if s.sprintTimerScheduled then ProgressUpdated(s, now) else s
  }

  /** A firing of the one-second timer; a cancelled timer never fires. */
  function RateTick(s: SprintState, now: real): SprintState
  {
    if s.shakeTimerScheduled then RateUpdated(s, now) else s
  }

  /** `reset`: stop, then zero the progress and the shake count (the rate is left as it is). */
  function ResetState(s: SprintState): (t: SprintState)
    ensures Consistent(s) ==> Consistent(t)
    ensures !t.isSprinting && t.sprintProgress == 0.0 && t.shakesPerSecond == s.shakesPerSecond
  {
    Stopped(s).(sprintProgress := 0.0, shakeCount := 0)
  }

  /** A fresh controller: not sprinting, no progress, no rate. */
  lemma InitialController()
    ensures Consistent(Initial())
    ensures !Initial().isSprinting && Initial().sprintProgress == 0.0 && Initial().shakesPerSecond == 0.0
  {
  }

  /** Every operation keeps the controller consistent, in particular progress stays in [0, 1]. */
  lemma OperationsKeepConsistency(s: SprintState, now: real)
    requires Consistent(s) && NotBefore(s, now)
    ensures Consistent(Started(s, now)) && Consistent(Stopped(s)) && Consistent(Shaken(s, now))
    ensures Consistent(ProgressTick(s, now)) && Consistent(RateTick(s, now))
    ensures Consistent(ResetState(s))
  {
  }

  /** A second start while sprinting changes nothing; a start from idle begins afresh at `now`. */
  lemma StartIsGuarded(s: SprintState, now: real)
    ensures s.isSprinting ==> Started(s, now) == s
    ensures !s.isSprinting ==>
      var t := Started(s, now);
      t.isSprinting && t.sprintProgress == 0.0 && t.shakeCount == 0 &&
      t.sprintStartTime == Some(now) && t.recentShakes == [] &&
      t.sprintTimerScheduled && t.shakeTimerScheduled && t.shakesPerSecond == s.shakesPerSecond
  {
  }

  /** A shake outside a sprint is ignored; during one it is appended and counted, nothing else. */
  lemma ShakeIsRecorded(s: SprintState, now: real)
    ensures !s.isSprinting ==> Shaken(s, now) == s
    ensures s.isSprinting ==>
      Shaken(s, now).recentShakes == s.recentShakes + [now] &&
      Shaken(s, now).shakeCount == s.shakeCount + 1 &&
      Shaken(s, now) == s.(recentShakes := s.recentShakes + [now], shakeCount := s.shakeCount + 1)
  {
  }

  /** The rate recompute keeps exactly the shakes of the last second, each as often as it was
      recorded, in their order, evicting only older ones; the rate is their number. */
  lemma RateCountsTheLastSecond(s: SprintState, now: real)
    requires Consistent(s)
    ensures var t := RateUpdated(s, now);
      && t.shakesPerSecond == |t.recentShakes| as real
      && t.shakesPerSecond >= 0.0
      && (forall x :: multiset(t.recentShakes)[x] ==
            if x > now - RateWindow then multiset(s.recentShakes)[x] else 0)
      && t.recentShakes == s.recentShakes[|s.recentShakes| - |t.recentShakes|..]
      && (forall i :: 0 <= i < |s.recentShakes| - |t.recentShakes| ==> s.recentShakes[i] <= now - RateWindow)
      && t == s.(recentShakes := t.recentShakes, shakesPerSecond := t.shakesPerSecond)
  {
    forall x {
      KeepAfterCounts(s.recentShakes, now - RateWindow, x);
    }
    SortedKeepsSuffix(s.recentShakes, now - RateWindow);
  }

  /** The progress tick of a running sprint, `elapsed` seconds after its start: at the required
      rate progress snaps to the elapsed fraction of the duration (capped at 1); below it, after
      the grace period, progress drops by one step but not below 0; otherwise it stays. The
      sprint then goes on exactly when progress is below 1 and the timeout has not passed. */
  lemma ProgressTickCases(s: SprintState, now: real)
    requires Consistent(s) && NotBefore(s, now) && s.isSprinting
    ensures var elapsed := now - s.sprintStartTime.value;
      var t := ProgressTick(s, now);
      && t.sprintProgress ==
           (if s.shakesPerSecond >= RequiredShakesPerSecond then Min(elapsed / SprintDuration, 1.0)
            else if elapsed > GracePeriod then Max(0.0, s.sprintProgress - DecayStep)
            else s.sprintProgress)
      && (t.isSprinting <==> t.sprintProgress < 1.0 && elapsed <= SprintDuration * TimeoutFactor)
      && t.recentShakes == (if t.isSprinting then s.recentShakes else [])
      && t.shakeCount == s.shakeCount && t.shakesPerSecond == s.shakesPerSecond
      && t.sprintStartTime == s.sprintStartTime
  {
  }

  /** Below the required rate progress never rises, and after the grace period a tick with
      progress left strictly lowers it. */
  lemma DecayNeverRaisesProgress(s: SprintState, now: real)
    requires Consistent(s) && NotBefore(s, now) && s.isSprinting
    requires s.shakesPerSecond < RequiredShakesPerSecond
    ensures ProgressTick(s, now).sprintProgress <= s.sprintProgress
    ensures now - s.sprintStartTime.value > GracePeriod && s.sprintProgress > 0.0 ==>
      ProgressTick(s, now).sprintProgress < s.sprintProgress
  {
  }

  /** A tick that ends the sprint before the timeout does so because progress reached 1, and
      stopping leaves it at exactly 1. */
  lemma CompletionPinsFullProgress(s: SprintState, now: real)
    requires Consistent(s) && NotBefore(s, now) && s.isSprinting
    requires now - s.sprintStartTime.value <= SprintDuration * TimeoutFactor
    ensures !ProgressTick(s, now).isSprinting ==> ProgressTick(s, now).sprintProgress == 1.0
  {
  }

  /** Past twice the duration the tick stops the sprint whatever the progress or rate. */
  lemma TimeoutAlwaysStops(s: SprintState, now: real)
    requires s.isSprinting && s.sprintTimerScheduled && s.sprintStartTime.Some?
    requires now - s.sprintStartTime.value > SprintDuration * TimeoutFactor
    ensures !ProgressTick(s, now).isSprinting
    ensures ProgressTick(s, now).recentShakes == []
  {
  }

  /** With the rate met, a tick once the full duration has elapsed completes the sprint with
      progress exactly 1. */
  lemma SustainedRateCompletes(s: SprintState, now: real)
    requires Consistent(s) && s.isSprinting
    requires s.shakesPerSecond >= RequiredShakesPerSecond
    requires now - s.sprintStartTime.value >= SprintDuration
    ensures ProgressTick(s, now).sprintProgress == 1.0
    ensures !ProgressTick(s, now).isSprinting
  {
    var elapsed := now - s.sprintStartTime.value;
    assert elapsed / SprintDuration >= 1.0;
  }

  /** Stopping ends the sprint, cancels both timers and empties the window, keeps the progress,
      and stopping twice (completion and timeout in one tick) is the same as stopping once. */
  lemma StopIsIdempotent(s: SprintState)
    ensures var t := Stopped(s);
      !t.isSprinting && !t.sprintTimerScheduled && !t.shakeTimerScheduled &&
      t.recentShakes == [] && t.sprintProgress == s.sprintProgress
    ensures Stopped(Stopped(s)) == Stopped(s)
  {
  }

  /** Reset gives no sprint, no progress and no counted shakes, whatever the state before. */
  lemma ResetClears(s: SprintState)
    ensures var t := ResetState(s);
      !t.isSprinting && t.sprintProgress == 0.0 && t.shakeCount == 0 && t.recentShakes == []
    ensures ResetState(ResetState(s)) == ResetState(s)
  {
  }

  /** Successive firings of the 0.1-second timer at the given times. */
  function ProgressTicks(s: SprintState, times: seq<real>): SprintState
    decreases |times|
  {
    if |times| == 0 then s else ProgressTicks(ProgressTick(s, times[0]), times[1..])
  }

  /** While the rate stays met, ticks within the sprint's duration keep it running with the
      progress equal to the elapsed fraction at the last tick. */
  lemma {:induction false} SustainedRateTracksTime(s: SprintState, times: seq<real>)
    requires Consistent(s) && s.isSprinting
    requires s.shakesPerSecond >= RequiredShakesPerSecond
    requires |times| >= 1
    requires forall i :: 0 <= i < |times| ==>
      s.sprintStartTime.value <= times[i] < s.sprintStartTime.value + SprintDuration
    ensures ProgressTicks(s, times) ==
      s.(sprintProgress := (times[|times| - 1] - s.sprintStartTime.value) / SprintDuration)
    decreases |times|
  {
    var start := s.sprintStartTime.value;
    var first := ProgressTick(s, times[0]);
    assert (times[0] - start) / SprintDuration < 1.0;
    assert first == s.(sprintProgress := (times[0] - start) / SprintDuration);
    if |times| > 1 {
      assert Consistent(first);
      SustainedRateTracksTime(first, times[1..]);
    }
  }

  /** Below the required rate, each tick after the grace period and before the timeout takes
      one decay step off the progress until it reaches 0, and the sprint keeps running. */
  lemma {:induction false} DecayRun(s: SprintState, times: seq<real>)
    requires Consistent(s) && s.isSprinting
    requires s.shakesPerSecond < RequiredShakesPerSecond
    requires forall i :: 0 <= i < |times| ==>
      s.sprintStartTime.value + GracePeriod < times[i] <= s.sprintStartTime.value + SprintDuration * TimeoutFactor
    ensures ProgressTicks(s, times) ==
      s.(sprintProgress := Max(0.0, s.sprintProgress - DecayStep * |times| as real))
    decreases |times|
  {
    if |times| > 0 {
      var first := ProgressTick(s, times[0]);
      assert first == s.(sprintProgress := Max(0.0, s.sprintProgress - DecayStep));
      DecayRun(first, times[1..]);
      assert Max(0.0, Max(0.0, s.sprintProgress - DecayStep) - DecayStep * (|times| - 1) as real)
          == Max(0.0, s.sprintProgress - DecayStep * |times| as real);
    }
  }

  class ShakeSprintController {
    var sprintProgress: real
    var isSprinting: bool
    var shakesPerSecond: real
    var shakeCount: int
    var sprintStartTime: Option<real>
    var sprintTimerScheduled: bool
    var shakeTimerScheduled: bool
    var recentShakes: seq<real>

    function State(): SprintState
      reads this
    {
      SprintState(sprintProgress, isSprinting, shakesPerSecond, shakeCount, sprintStartTime,
                  sprintTimerScheduled, shakeTimerScheduled, recentShakes)
    }

    ghost predicate Valid()
      reads this
    {
      Consistent(State())
    }

    constructor ()
      ensures Valid() && State() == Initial()
    {
      sprintProgress := 0.0;
      isSprinting := false;
      shakesPerSecond := 0.0;
      shakeCount := 0;
      sprintStartTime := None;
      sprintTimerScheduled := false;
      shakeTimerScheduled := false;
      recentShakes := [];
    }

    method StartShakeSprint(now: real)
      requires Valid()
      modifies this
      ensures Valid() && State() == Started(old(State()), now)
    {
      if isSprinting {
        return;
      }
      isSprinting := true;
      sprintProgress := 0.0;
      shakeCount := 0;
      sprintStartTime := Some(now);
      recentShakes := [];
      sprintTimerScheduled := true;
      shakeTimerScheduled := true;
    }

    method StopSprint()
      modifies this
      ensures State() == Stopped(old(State()))
    {
      isSprinting := false;
      sprintTimerScheduled := false;
      shakeTimerScheduled := false;
      recentShakes := [];
    }

    method DeviceShaken(now: real)
      requires Valid() && NotBefore(State(), now)
      modifies this
      ensures Valid() && State() == Shaken(old(State()), now)
    {
      if !isSprinting {
        return;
      }
      recentShakes := recentShakes + [now];
      shakeCount := shakeCount + 1;
    }

    /** The test hook: a shake at `now`. */
    method MockShake(now: real)
      requires Valid() && NotBefore(State(), now)
      modifies this
      ensures Valid() && State() == Shaken(old(State()), now)
    {
      DeviceShaken(now);
    }

    method UpdateSprintProgress(now: real)
      modifies this
      ensures State() == ProgressUpdated(old(State()), now)
    {
      if sprintStartTime.None? {
        return;
      }
      var elapsed := now - sprintStartTime.value;
      var progress := Min(elapsed / SprintDuration, 1.0);
      var currentRate := shakesPerSecond;
      if currentRate < RequiredShakesPerSecond {
        if elapsed > GracePeriod {
          sprintProgress := Max(0.0, sprintProgress - DecayStep);
        }
      } else {
        sprintProgress := progress;
      }
      if sprintProgress >= 1.0 {
        StopSprint();
      }
      if elapsed > SprintDuration * TimeoutFactor {
        StopSprint();
      }
    }

    method UpdateShakesPerSecond(now: real)
      modifies this
      ensures State() == RateUpdated(old(State()), now)
    {
      var oneSecondAgo := now - RateWindow;
      recentShakes := KeepAfter(recentShakes, oneSecondAgo);
      shakesPerSecond := |recentShakes| as real;
    }

    /** The 0.1-second timer fires at `now`. */
    method SprintTimerFired(now: real)
      requires Valid() && NotBefore(State(), now)
      modifies this
      ensures Valid() && State() == ProgressTick(old(State()), now)
    {
      if sprintTimerScheduled {
        UpdateSprintProgress(now);
      }
    }

    /** The one-second timer fires at `now`. */
    method ShakeTimerFired(now: real)
      requires Valid()
      modifies this
      ensures Valid() && State() == RateTick(old(State()), now)
    {
      if shakeTimerScheduled {
        UpdateShakesPerSecond(now);
      }
    }

    method Reset()
      requires Valid()
      modifies this
      ensures Valid() && State() == ResetState(old(State()))
    {
      StopSprint();
      sprintProgress := 0.0;
      shakeCount := 0;
    }
  }
}

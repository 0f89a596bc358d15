/** The usage timer: while active it gains one second of usage per one-second tick; when the
    total reaches the target it stops itself and posts the "start shake sprint" signal once.
    The timer's state is a snapshot `TimerState`; the pure functions over it specify the
    operations, and the class `UsageTimer` performs them in place on its fields. */
module UsageTiming {
  import opened Options

  /** The target usage in seconds: 5 seconds in debug builds, 30 minutes otherwise. */
  function TargetUsageTime(isDebugMode: bool): (target: real)
    ensures target > 0.0
    ensures target <= 30.0 * 60.0 && (isDebugMode ==> target < 30.0 * 60.0)
  {
    if isDebugMode then 5.0 else 30.0 * 60.0
  }

  /** What one tick adds to the usage total, in seconds. */
  const TickIncrement: real := 1.0

  /** A snapshot of the timer. `timerScheduled` stands for a scheduled repeating timer
      (`timer != nil`), `startTime` for the optional start date, and `shakeSprintPosts` counts
      the "start shake sprint" notifications posted so far. */
  datatype TimerState = TimerState(
    totalUsageTime: real,
    isTimerActive: bool,
    timerScheduled: bool,
    startTime: Option<real>,
    shakeSprintPosts: nat)

  /** The timer is active exactly when a tick source is scheduled and a start time is recorded. */
  predicate Consistent(s: TimerState)
  {
    s.isTimerActive == s.timerScheduled && s.isTimerActive == s.startTime.Some?
  }

  function Initial(): TimerState
  {
    TimerState(0.0, false, false, None, 0)
  }

  /** `startTimer`: a no-op while active; otherwise activate, record the start and schedule ticks. */
  function Started(s: TimerState, now: real): (t: TimerState)
    ensures Consistent(s) ==> Consistent(t)
    ensures t.isTimerActive
    ensures t.totalUsageTime == s.totalUsageTime && t.shakeSprintPosts == s.shakeSprintPosts
  {
    if s.isTimerActive then s
    else s.(isTimerActive := true, startTime := Some(now), timerScheduled := true)
  }

  /** `stopTimer`: deactivate, cancel the tick source and forget the start time. */
  function Stopped(s: TimerState): (t: TimerState)
    ensures Consistent(t) && !t.isTimerActive
    ensures t.totalUsageTime == s.totalUsageTime && t.shakeSprintPosts == s.shakeSprintPosts
  {
    s.(isTimerActive := false, timerScheduled := false, startTime := None)
  }

  /** One firing of the one-second timer. A cancelled timer never fires, and without a start
      time the tick body returns at once. Otherwise the total gains one second, and reaching
      the target stops the timer and posts the sprint signal. */
  function Ticked(s: TimerState, target: real): (t: TimerState)
    ensures Consistent(s) ==> Consistent(t)
    ensures s.totalUsageTime <= t.totalUsageTime <= s.totalUsageTime + TickIncrement
    ensures t.shakeSprintPosts == s.shakeSprintPosts ||
      (t.shakeSprintPosts == s.shakeSprintPosts + 1 && !t.isTimerActive && t.totalUsageTime >= target)
  {
    if !s.timerScheduled || s.startTime.None? then s
    else
      var added := s.(totalUsageTime := s.totalUsageTime + TickIncrement);
      if added.totalUsageTime >= target then
        Stopped(added).(shakeSprintPosts := added.shakeSprintPosts + 1)
      else added
  }

  /** `reset`: stop, then zero the total. */
  function ResetState(s: TimerState): (t: TimerState)
    ensures Consistent(t) && !t.isTimerActive && t.totalUsageTime == 0.0
    ensures t.shakeSprintPosts == s.shakeSprintPosts
  {
    Stopped(s).(totalUsageTime := 0.0)
  }

  /** `triggerShakeSprintNow`: post the sprint signal and change nothing else. */
  function PostedNow(s: TimerState): (t: TimerState)
    ensures Consistent(s) ==> Consistent(t)
    ensures t.shakeSprintPosts == s.shakeSprintPosts + 1
    ensures t.totalUsageTime == s.totalUsageTime && t.isTimerActive == s.isTimerActive
  {
    s.(shakeSprintPosts := s.shakeSprintPosts + 1)
  }

  /** `progress`: the used fraction of the target, capped at 1. */
  function Progress(total: real, target: real): (r: real)
    requires target > 0.0
    ensures r <= 1.0
    ensures total >= 0.0 ==> 0.0 <= r
    ensures r == 1.0 <==> total >= target
    ensures total <= target ==> r * target == total
  {
    if total / target < 1.0 then total / target else 1.0
  }

  /** `remainingTime`: the usage still allowed before the target, never negative. */
  function RemainingTime(total: real, target: real): (r: real)
    ensures r >= 0.0
    ensures r == 0.0 <==> total >= target
    ensures total <= target ==> total + r == target
  {
    if target - total > 0.0 then target - total else 0.0
  }

  /** Progress and remaining time describe the same split of the target. */
  lemma ProgressAndRemainingAgree(total: real, target: real)
    requires target > 0.0
    ensures Progress(total, target) * target + RemainingTime(total, target) == target
  {
    if total < target {
      assert Progress(total, target) == total / target;
    }
  }

  /** More usage never lowers progress, and below the target it strictly lowers the remaining time. */
  lemma MoreUsageMeansMoreProgress(total: real, more: real, target: real)
    requires target > 0.0 && total <= more
    ensures Progress(total, target) <= Progress(more, target)
    ensures RemainingTime(more, target) <= RemainingTime(total, target)
    ensures total < more && total < target ==> RemainingTime(more, target) < RemainingTime(total, target)
  {
    QuotientMonotone(total, more, target);
  }

  /** Dividing by a positive number keeps the order. */
  lemma QuotientMonotone(a: real, b: real, t: real)
    requires t > 0.0 && a <= b
    ensures a / t <= b / t
  {
    var d := (b - a) / t;
    assert d * t == b - a;
    assert d >= 0.0;
    assert a / t + d == b / t;
  }

  /** A fresh timer: no usage, inactive, no progress; in release builds 30 minutes remain. */
  lemma InitialTimer(isDebugMode: bool)
    ensures Consistent(Initial())
    ensures Initial().totalUsageTime == 0.0 && !Initial().isTimerActive
    ensures Progress(Initial().totalUsageTime, TargetUsageTime(isDebugMode)) == 0.0
    ensures !isDebugMode ==> RemainingTime(Initial().totalUsageTime, TargetUsageTime(isDebugMode)) == 1800.0
  {
  }

  /** Every operation keeps the timer consistent. */
  lemma OperationsKeepConsistency(s: TimerState, now: real, target: real)
    requires Consistent(s)
    ensures Consistent(Started(s, now)) && Consistent(Stopped(s)) && Consistent(Ticked(s, target))
    ensures Consistent(ResetState(s)) && Consistent(PostedNow(s))
  {
  }

  /** Starting an active timer changes nothing: the start time is kept and no second tick
      source is scheduled. Starting an inactive one records `now`. */
  lemma StartIsGuarded(s: TimerState, now: real)
    ensures s.isTimerActive ==> Started(s, now) == s
    ensures !s.isTimerActive ==>
      Started(s, now).isTimerActive && Started(s, now).startTime == Some(now) &&
      Started(s, now).totalUsageTime == s.totalUsageTime
  {
  }

  /** A tick of an active timer adds exactly one second; a tick after a stop changes nothing. */
  lemma TickAddsOneSecond(s: TimerState, target: real)
    requires Consistent(s)
    ensures s.isTimerActive ==> Ticked(s, target).totalUsageTime == s.totalUsageTime + 1.0
    ensures !s.isTimerActive ==> Ticked(s, target) == s
  {
  }

  /** The tick that brings the total to the target stops the timer and posts exactly one
      signal; a tick short of it keeps the timer running and posts nothing. */
  lemma TickAtTargetStopsAndPosts(s: TimerState, target: real)
    requires Consistent(s) && s.isTimerActive
    ensures s.totalUsageTime + 1.0 >= target ==>
      !Ticked(s, target).isTimerActive && Ticked(s, target).startTime.None? &&
      Ticked(s, target).shakeSprintPosts == s.shakeSprintPosts + 1
    ensures s.totalUsageTime + 1.0 < target ==>
      Ticked(s, target).isTimerActive && Ticked(s, target).shakeSprintPosts == s.shakeSprintPosts
  {
  }

  /** Stopping always leaves the timer inactive without a start time, keeps the total, and
      stopping twice is the same as stopping once. */
  lemma StopIsIdempotent(s: TimerState)
    ensures !Stopped(s).isTimerActive && Stopped(s).startTime.None?
    ensures Stopped(s).totalUsageTime == s.totalUsageTime
    ensures Stopped(Stopped(s)) == Stopped(s)
  {
  }

  /** Reset gives no usage and an inactive timer, whatever the state before. */
  lemma ResetClears(s: TimerState, target: real)
    requires target > 0.0
    ensures ResetState(s).totalUsageTime == 0.0 && !ResetState(s).isTimerActive
    ensures Progress(ResetState(s).totalUsageTime, target) == 0.0
    ensures RemainingTime(ResetState(s).totalUsageTime, target) == target
  {
  }

  /** `n` successive firings of the one-second timer. */
  function Ticks(s: TimerState, target: real, n: nat): TimerState
    decreases n
  {
    if n == 0 then s else Ticks(Ticked(s, target), target, n - 1)
  }

  /** A stopped timer stays as it is, however many ticks arrive. */
  lemma {:induction false} TicksAfterStopChangeNothing(s: TimerState, target: real, n: nat)
    requires !s.timerScheduled
    ensures Ticks(s, target, n) == s
    decreases n
  {
    if n > 0 {
      TicksAfterStopChangeNothing(Ticked(s, target), target, n - 1);
    }
  }

  /** While the target is not reached, `n` ticks add exactly `n` seconds and post nothing. */
  lemma {:induction false} TicksBelowTarget(s: TimerState, target: real, n: nat)
    requires Consistent(s) && s.isTimerActive
    requires s.totalUsageTime + (n as real) < target
    ensures Ticks(s, target, n) == s.(totalUsageTime := s.totalUsageTime + n as real)
    decreases n
  {
    if n > 0 {
      var next := Ticked(s, target);
      assert next == s.(totalUsageTime := s.totalUsageTime + 1.0);
      TicksBelowTarget(next, target, n - 1);
    }
  }

  /** Running an active timer that is short of its target: the `n`-th tick, the first to
      bring the total to the target, stops the timer with exactly one signal posted, and no
      later tick adds usage or posts again. */
  lemma {:induction false} TargetReachedExactlyOnce(s: TimerState, target: real, n: nat, extra: nat)
    requires Consistent(s) && s.isTimerActive
    requires n >= 1
    requires s.totalUsageTime + (n - 1) as real < target <= s.totalUsageTime + n as real
    ensures Ticks(s, target, n + extra) ==
      Stopped(s).(totalUsageTime := s.totalUsageTime + n as real,
                  shakeSprintPosts := s.shakeSprintPosts + 1)
  {
    var before := Ticks(s, target, n - 1);
    TicksBelowTarget(s, target, n - 1);
    TicksSplit(s, target, n - 1, 1 + extra);
    var last := Ticked(before, target);
    assert Ticks(before, target, 1 + extra) == Ticks(last, target, extra);
    TicksAfterStopChangeNothing(last, target, extra);
  }

  /** Ticks compose: `a + b` ticks are `a` ticks followed by `b` ticks. */
  lemma {:induction false} TicksSplit(s: TimerState, target: real, a: nat, b: nat)
    ensures Ticks(s, target, a + b) == Ticks(Ticks(s, target, a), target, b)
    decreases a
  {
    if a > 0 {
      TicksSplit(Ticked(s, target), target, a - 1, b);
    }
  }

  /** The total is never cleared by stopping, so a timer restarted after it reached the target
      stops again and posts another signal on its very first tick. */
  lemma RestartAfterTargetPostsOnFirstTick(s: TimerState, target: real, now: real)
    requires Consistent(s) && !s.isTimerActive && s.totalUsageTime >= target
    ensures var t := Ticked(Started(s, now), target);
      !t.isTimerActive && t.shakeSprintPosts == s.shakeSprintPosts + 1 &&
      t.totalUsageTime == s.totalUsageTime + 1.0
  {
  }

  /** The signal test: in a release build, usage set one second short of 30 minutes and a
      started timer reach the target on the first tick, which stops the timer and posts. */
  lemma OneSecondShortOfTarget(now: real)
    ensures var s := Started(Initial().(totalUsageTime := 30.0 * 60.0 - 1.0), now);
      var t := Ticked(s, TargetUsageTime(false));
      t.totalUsageTime == 1800.0 && !t.isTimerActive && t.shakeSprintPosts == 1
  {
  }

  class UsageTimer {
    var totalUsageTime: real
    var isTimerActive: bool
    const isDebugMode: bool
    var timerScheduled: bool
    var startTime: Option<real>
    var shakeSprintPosts: nat

    function State(): TimerState
      reads this
    {
      TimerState(totalUsageTime, isTimerActive, timerScheduled, startTime, shakeSprintPosts)
    }

    ghost predicate Valid()
      reads this
    {
      Consistent(State())
    }

    function Target(): real
    {
      TargetUsageTime(isDebugMode)
    }

    constructor (isDebugMode: bool)
      ensures Valid() && State() == Initial() && this.isDebugMode == isDebugMode
    {
      totalUsageTime := 0.0;
      isTimerActive := false;
      this.isDebugMode := isDebugMode;
      timerScheduled := false;
      startTime := None;
      shakeSprintPosts := 0;
    }

    method StartTimer(now: real)
      requires Valid()
      modifies this
      ensures Valid() && State() == Started(old(State()), now)
    {
      if isTimerActive {
        return;
      }
      isTimerActive := true;
      startTime := Some(now);
      timerScheduled := true;
    }

    method StopTimer()
      modifies this
      ensures State() == Stopped(old(State()))
    {
      isTimerActive := false;
      timerScheduled := false;
      startTime := None;
    }

    /** One firing of the one-second timer; `posted` tells whether it posted the sprint signal. */
    method TimerFired() returns (posted: bool)
      requires Valid()
      modifies this
      ensures Valid() && State() == Ticked(old(State()), Target())
      ensures posted <==> shakeSprintPosts == old(shakeSprintPosts) + 1
      ensures !posted ==> shakeSprintPosts == old(shakeSprintPosts)
    {
      posted := false;
      if timerScheduled && startTime.Some? {
        totalUsageTime := totalUsageTime + TickIncrement;
        if totalUsageTime >= Target() {
          StopTimer();
          TriggerShakeSprint();
          posted := true;
        }
      }
    }

    /** Post the "start shake sprint" notification. */
    method TriggerShakeSprint()
      modifies this`shakeSprintPosts
      ensures shakeSprintPosts == old(shakeSprintPosts) + 1
    {
      shakeSprintPosts := shakeSprintPosts + 1;
    }

    method Reset()
      modifies this
      ensures State() == ResetState(old(State()))
    {
      StopTimer();
      totalUsageTime := 0.0;
    }

    /** The manual test hook: post the sprint signal at once. */
    method TriggerShakeSprintNow()
      modifies this`shakeSprintPosts
      ensures State() == PostedNow(old(State()))
    {
      TriggerShakeSprint();
    }

    /** `progress`: the share of the target used so far, at most 1. */
    function CurrentProgress(): (r: real)
      reads this
      ensures r <= 1.0 && (totalUsageTime >= 0.0 ==> 0.0 <= r)
      ensures r == 1.0 <==> totalUsageTime >= Target()
    {
      Progress(totalUsageTime, Target())
    }

    /** `remainingTime`: the usage left before the target, never negative. */
    function CurrentRemainingTime(): (r: real)
      reads this
      ensures r >= 0.0 && (r == 0.0 <==> totalUsageTime >= Target())
    {
      RemainingTime(totalUsageTime, Target())
    }
  }
}

/** The wiring between the three models that the main view performs: the usage timer is started
    when the device becomes level while the app is in the foreground and stopped otherwise,
    going to the background stops it, and a posted "start shake sprint" signal starts the sprint.
    The view's layout is not modelled; only its reactions to changes are. */
module App {
  import opened Options
  import PitchGate
  import UsageTiming
  import ShakeSprint

  class Scene {
    const gate: PitchGate.PitchGateModel
    const usage: UsageTiming.UsageTimer
    const sprint: ShakeSprint.ShakeSprintController
    var isAppInForeground: bool

    /** Both timers' models are consistent, and the usage timer only runs while the device is
        level and the app is in the foreground. */
    ghost predicate Valid()
      reads this, gate, usage, sprint
    {
      && usage.Valid()
      && sprint.Valid()
      && (usage.isTimerActive ==> gate.isWithinThreshold && isAppInForeground)
    }

    constructor (deviceMotionAvailable: bool, isDebugMode: bool)
      ensures Valid() && isAppInForeground
      ensures fresh(gate) && fresh(usage) && fresh(sprint)
      ensures !gate.isWithinThreshold && gate.motionUpdatesStarted == deviceMotionAvailable
      ensures gate.currentPitch == 0.0
      ensures gate.thresholdLow == PitchGate.InitialThresholdLow && gate.thresholdHigh == PitchGate.InitialThresholdHigh
      ensures usage.State() == UsageTiming.Initial() && usage.isDebugMode == isDebugMode
      ensures sprint.State() == ShakeSprint.Initial()
    {
      gate := new PitchGate.PitchGateModel(deviceMotionAvailable);
      usage := new UsageTiming.UsageTimer(isDebugMode);
      sprint := new ShakeSprint.ShakeSprintController();
      isAppInForeground := true;
    }

    /** The rule applied whenever the level state or the foreground state changes: run the
        usage timer exactly when both hold. */
    method ApplyTimerRule(now: real)
      requires usage.Valid()
      modifies usage
      ensures usage.Valid()
      ensures usage.State() ==
        if gate.isWithinThreshold && isAppInForeground then UsageTiming.Started(old(usage.State()), now)
        else UsageTiming.Stopped(old(usage.State()))
      ensures usage.isTimerActive <==> gate.isWithinThreshold && isAppInForeground
    {
      if gate.isWithinThreshold && isAppInForeground {
        usage.StartTimer(now);
      } else {
        usage.StopTimer();
      }
    }

    /** A device-motion update at `now`; the timer rule runs only if the level state changed. */
    method OnDeviceMotion(sample: Option<real>, now: real)
      requires Valid()
      modifies gate`currentPitch, gate`isWithinThreshold, usage
      ensures Valid()
      ensures gate.motionUpdatesStarted && sample.Some? ==>
        gate.currentPitch == sample.value &&
        gate.isWithinThreshold == PitchGate.WithinBand(sample.value, gate.thresholdLow, gate.thresholdHigh)
      ensures !(gate.motionUpdatesStarted && sample.Some?) ==>
        gate.currentPitch == old(gate.currentPitch) && gate.isWithinThreshold == old(gate.isWithinThreshold)
      ensures gate.isWithinThreshold == old(gate.isWithinThreshold) ==> usage.State() == old(usage.State())
      ensures gate.isWithinThreshold != old(gate.isWithinThreshold) ==>
        usage.State() ==
          if gate.isWithinThreshold && isAppInForeground then UsageTiming.Started(old(usage.State()), now)
          else UsageTiming.Stopped(old(usage.State()))
    {
      var wasWithin := gate.isWithinThreshold;
      gate.OnDeviceMotion(sample);
      if gate.isWithinThreshold != wasWithin {
        ApplyTimerRule(now);
      }
    }

    /** The mock pitch hook at `now`, with the same reaction as a sensor update. */
    method SetMockPitch(pitch: real, now: real)
      requires Valid()
      modifies gate`currentPitch, gate`isWithinThreshold, usage
      ensures Valid()
      ensures gate.currentPitch == pitch
      ensures gate.isWithinThreshold == PitchGate.WithinBand(pitch, gate.thresholdLow, gate.thresholdHigh)
      ensures gate.isWithinThreshold == old(gate.isWithinThreshold) ==> usage.State() == old(usage.State())
      ensures gate.isWithinThreshold != old(gate.isWithinThreshold) ==>
        usage.State() ==
          if gate.isWithinThreshold && isAppInForeground then UsageTiming.Started(old(usage.State()), now)
          else UsageTiming.Stopped(old(usage.State()))
    {
      var wasWithin := gate.isWithinThreshold;
      gate.SetMockPitch(pitch);
      if gate.isWithinThreshold != wasWithin {
        ApplyTimerRule(now);
      }
    }

    /** The app went to the background: the timer stops and the usage total is kept. */
    method DidEnterBackground(now: real)
      requires Valid()
      modifies this`isAppInForeground, usage
      ensures Valid()
      ensures !isAppInForeground && usage.State() == UsageTiming.Stopped(old(usage.State()))
    {
      var wasForeground := isAppInForeground;
      isAppInForeground := false;
      usage.StopTimer();
      if isAppInForeground != wasForeground {
        ApplyTimerRule(now);
      }
    }

    /** The app came back to the foreground: the timer restarts if the device is level. */
    method WillEnterForeground(now: real)
      requires Valid()
      modifies this`isAppInForeground, usage
      ensures Valid()
      ensures isAppInForeground
      ensures old(isAppInForeground) ==> usage.State() == old(usage.State())
      ensures !old(isAppInForeground) ==>
        usage.State() ==
          if gate.isWithinThreshold then UsageTiming.Started(old(usage.State()), now)
          else UsageTiming.Stopped(old(usage.State()))
    {
      var wasForeground := isAppInForeground;
      isAppInForeground := true;
      if isAppInForeground != wasForeground {
        ApplyTimerRule(now);
      }
    }

    /** The usage timer fires at `now`; if it posts the sprint signal, the sprint starts. */
    method UsageTimerFired(now: real)
      requires Valid()
      modifies usage, sprint
      ensures Valid()
      ensures usage.State() == UsageTiming.Ticked(old(usage.State()), usage.Target())
      ensures usage.shakeSprintPosts == old(usage.shakeSprintPosts) + 1 ==>
        sprint.State() == ShakeSprint.Started(old(sprint.State()), now) && sprint.isSprinting
      ensures usage.shakeSprintPosts == old(usage.shakeSprintPosts) ==> sprint.State() == old(sprint.State())
    {
      var posted := usage.TimerFired();
      if posted {
        sprint.StartShakeSprint(now);
      }
    }

    /** The manual trigger at `now`: post the signal, which starts the sprint. */
    method TriggerShakeSprintNow(now: real)
      requires Valid()
      modifies usage`shakeSprintPosts, sprint
      ensures Valid()
      ensures usage.State() == UsageTiming.PostedNow(old(usage.State()))
      ensures sprint.State() == ShakeSprint.Started(old(sprint.State()), now) && sprint.isSprinting
    {
      usage.TriggerShakeSprintNow();
      sprint.StartShakeSprint(now);
    }
  }
}

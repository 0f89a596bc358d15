/** The pitch gate: it decides whether the device is held "level", i.e. whether its pitch angle
    (in degrees) lies inside a closed band [thresholdLow, thresholdHigh]. The gate's state is
    updated in place by the device-motion callback and by the test hook `SetMockPitch`. */
module PitchGate {
  import opened Options

  /** The band the gate starts with, in degrees. */
  const InitialThresholdLow: real := -10.0
  const InitialThresholdHigh: real := 10.0

  /** The gate test, shared by the sensor path and the mock path: inclusive on both bounds,
      no hysteresis. Equivalently, the pitch lies no further from the band's centre than half
      the band's width. */
  predicate WithinBand(pitch: real, low: real, high: real): (level: bool)
    ensures level ==> low <= high
    ensures level <==> Distance(pitch, (low + high) / 2.0) <= (high - low) / 2.0
  {
    pitch >= low && pitch <= high
  }

  /** The distance between two angles on the pitch axis. */
  function Distance(a: real, b: real): real
  {
    if a >= b then a - b else b - a
  }

  /** Both bounds of a non-empty band count as level. */
  lemma BoundsAreLevel(low: real, high: real)
    requires low <= high
    ensures WithinBand(low, low, high) && WithinBand(high, low, high)
  {
  }

  /** Anything past a bound, however little, is not level. */
  lemma JustPastABoundIsNotLevel(low: real, high: real, epsilon: real)
    requires epsilon > 0.0
    ensures !WithinBand(high + epsilon, low, high)
    ensures !WithinBand(low - epsilon, low, high)
  {
  }

  /** The level pitches form an interval: between two level pitches every pitch is level. */
  lemma LevelPitchesFormAnInterval(low: real, high: real, a: real, b: real, pitch: real)
    requires WithinBand(a, low, high) && WithinBand(b, low, high)
    requires a <= pitch <= b
    ensures WithinBand(pitch, low, high)
  {
  }

  /** An inverted band (low above high) never opens the gate. */
  lemma InvertedBandNeverLevel(low: real, high: real, pitch: real)
    requires high < low
    ensures !WithinBand(pitch, low, high)
  {
  }

  class PitchGateModel {
    var isWithinThreshold: bool
    var currentPitch: real
    var thresholdLow: real
    var thresholdHigh: real
    /** Whether device-motion updates were started at construction; false when the device
        reports that device motion is unavailable, in which case no callback ever arrives. */
    const motionUpdatesStarted: bool

    /** A fresh gate: closed, pitch 0, band [-10, 10]; motion updates start only when the
        hardware is available. */
    constructor (deviceMotionAvailable: bool)
      ensures !isWithinThreshold && currentPitch == 0.0
      ensures thresholdLow == InitialThresholdLow && thresholdHigh == InitialThresholdHigh
      ensures motionUpdatesStarted == deviceMotionAvailable
    {
      isWithinThreshold := false;
      currentPitch := 0.0;
      thresholdLow := InitialThresholdLow;
      thresholdHigh := InitialThresholdHigh;
      motionUpdatesStarted := deviceMotionAvailable;
    }

    /** One device-motion callback. `sample` is the pitch already converted to degrees, or None
        when the update carried no motion data. Without started updates nothing is delivered,
        so the state does not change. The band is read as it is now. */
    method OnDeviceMotion(sample: Option<real>)
      modifies this`currentPitch, this`isWithinThreshold
      ensures thresholdLow == old(thresholdLow) && thresholdHigh == old(thresholdHigh)
      ensures motionUpdatesStarted && sample.Some? ==>
        currentPitch == sample.value &&
        isWithinThreshold == WithinBand(sample.value, thresholdLow, thresholdHigh)
      ensures !(motionUpdatesStarted && sample.Some?) ==>
        currentPitch == old(currentPitch) && isWithinThreshold == old(isWithinThreshold)
    {
      if motionUpdatesStarted && sample.Some? {
        var pitch := sample.value;
        currentPitch := pitch;
        isWithinThreshold := WithinBand(pitch, thresholdLow, thresholdHigh);
      }
    }

    /** The test hook: record `pitch` and judge it against the current band. */
    method SetMockPitch(pitch: real)
      modifies this`currentPitch, this`isWithinThreshold
      ensures currentPitch == pitch
      ensures isWithinThreshold == WithinBand(pitch, thresholdLow, thresholdHigh)
      ensures thresholdLow == old(thresholdLow) && thresholdHigh == old(thresholdHigh)
    {
      currentPitch := pitch;
      isWithinThreshold := WithinBand(pitch, thresholdLow, thresholdHigh);
    }
  }

  /** The boundary cases exercised on a fresh gate: both bounds open it, 0.1 degree past
      either bound closes it. */
  method BoundaryScenario() returns (atLow: bool, atHigh: bool, belowLow: bool, aboveHigh: bool)
    ensures atLow && atHigh && !belowLow && !aboveHigh
  {
    var gate := new PitchGateModel(true);
    gate.SetMockPitch(-10.0);
    atLow := gate.isWithinThreshold;
    gate.SetMockPitch(10.0);
    atHigh := gate.isWithinThreshold;
    gate.SetMockPitch(-10.1);
    belowLow := gate.isWithinThreshold;
    gate.SetMockPitch(10.1);
    aboveHigh := gate.isWithinThreshold;
  }

  /** After the band is narrowed to [-5, 5], the next sample is judged against the new band:
      8 degrees is outside, 3 degrees inside. */
  method ThresholdAdjustmentScenario() returns (at8: bool, at3: bool)
    ensures !at8 && at3
  {
    var gate := new PitchGateModel(true);
    gate.thresholdLow := -5.0;
    gate.thresholdHigh := 5.0;
    gate.SetMockPitch(8.0);
    at8 := gate.isWithinThreshold;
    gate.SetMockPitch(3.0);
    at3 := gate.isWithinThreshold;
  }

  /** Without motion hardware, any number of callbacks leave the gate at its initial values. */
  method UnavailableSensorScenario(samples: seq<Option<real>>) returns (gate: PitchGateModel)
    ensures !gate.isWithinThreshold && gate.currentPitch == 0.0
    ensures gate.thresholdLow == InitialThresholdLow && gate.thresholdHigh == InitialThresholdHigh
  {
    gate := new PitchGateModel(false);
    for i := 0 to |samples|
      invariant !gate.isWithinThreshold && gate.currentPitch == 0.0
      invariant gate.thresholdLow == InitialThresholdLow && gate.thresholdHigh == InitialThresholdHigh
    {
      gate.OnDeviceMotion(samples[i]);
    }
  }
}

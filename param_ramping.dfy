/**
 * Stepwise interpolation of a parameter value from an initial to a
 * target value. Values are exact reals: the rounding of 32-bit floats
 * is not part of this model.
 */
module ParamRamping {
  import opened Common

  datatype RampingMode =
    | StepLeading   // switch to the target at the start of the interval
    | StepTrailing  // switch to the target at the end of the interval
    | Linear        // interpolate linearly over the interval

  datatype RampingProfile = RampingProfile(mode: RampingMode, steps: nat)

  /** An immediate switch: no interpolation steps at all. */
  function Immediate(): (p: RampingProfile)
    ensures p.steps == 0 && p.mode == StepLeading
  {
    RampingProfile(StepLeading, 0)
  }

  datatype RampingConfig = RampingConfig(profile: RampingProfile, initialValue: real, targetValue: real)

  /** The largest step count a 32-bit float represents without loss (23-bit mantissa). */
  const MAX_LOSSLESS_STEPS_F32: nat := 0x80_0000 - 1

  /** Step counts that are converted to a float must be exactly representable. */
  predicate LosslessProfile(profile: RampingProfile)
  {
    profile.mode == Linear && profile.steps > 0 ==> profile.steps <= MAX_LOSSLESS_STEPS_F32
  }

  /** The increment per step: nonzero only for a linear ramp over some steps. */
  function StepDelta(config: RampingConfig): (d: real)
    requires LosslessProfile(config.profile)
    ensures config.profile.steps > 0 && config.profile.mode == Linear ==>
              d * config.profile.steps as real == config.targetValue - config.initialValue
    ensures config.profile.steps == 0 || config.profile.mode != Linear ==> d == 0.0
  {
    var steps := config.profile.steps;
    if steps > 0 then
      match config.profile.mode
      case StepLeading => 0.0
      case StepTrailing => 0.0
      case Linear => (config.targetValue - config.initialValue) / steps as real
    else
      0.0
  }

  /**
   * The value of a ramp at a step: the fraction `step / steps` of the way
   * from the initial to the target value for a linear ramp, and the
   * target once all steps are done.
   */
  function ValueAt(config: RampingConfig, step: nat): real
  {
    var steps := config.profile.steps;
    if step < steps then
      match config.profile.mode
      case StepLeading => config.targetValue
      case StepTrailing => config.initialValue
      case Linear => config.initialValue + (config.targetValue - config.initialValue) * (step as real / steps as real)
    else
      config.targetValue
  }

  /** A ramp ends at its target, and a non-leading ramp over some steps starts at its initial value. */
  lemma RampEndpoints(config: RampingConfig, step: nat)
    ensures step >= config.profile.steps ==> ValueAt(config, step) == config.targetValue
    ensures config.profile.steps > 0 && config.profile.mode != StepLeading ==>
              ValueAt(config, 0) == config.initialValue
    ensures config.profile.mode == StepLeading ==> ValueAt(config, step) == config.targetValue
  {
  }

  /** A linear ramp never leaves the interval between its initial and target values. */
  lemma LinearBetween(config: RampingConfig, step: nat)
    requires config.profile.mode == Linear
    ensures var v := ValueAt(config, step);
            var lo := if config.initialValue <= config.targetValue then config.initialValue else config.targetValue;
            var hi := if config.initialValue <= config.targetValue then config.targetValue else config.initialValue;
            lo <= v <= hi
  {
    var steps := config.profile.steps;
    if step < steps {
      var f := step as real / steps as real;
      FractionBounds(step, steps);
      var d := config.targetValue - config.initialValue;
      ScaleMonotone(d, 0.0, f);
      ScaleMonotone(d, f, 1.0);
    }
  }

  /** A linear ramp moves monotonically towards its target. */
  lemma LinearMonotone(config: RampingConfig, i: nat, j: nat)
    requires config.profile.mode == Linear && i <= j
    ensures config.initialValue <= config.targetValue ==> ValueAt(config, i) <= ValueAt(config, j)
    ensures config.targetValue <= config.initialValue ==> ValueAt(config, j) <= ValueAt(config, i)
  {
    var steps := config.profile.steps;
    var d := config.targetValue - config.initialValue;
    if j < steps {
      var fi := i as real / steps as real;
      var fj := j as real / steps as real;
      assert fj - fi == (j - i) as real / steps as real;
      ScaleMonotone(d, fi, fj);
    } else {
      LinearBetween(config, i);
    }
  }

  /** Scaling by a factor keeps the order of two reals, or reverses it for a negative factor. */
  lemma ScaleMonotone(d: real, a: real, b: real)
    requires a <= b
    ensures d >= 0.0 ==> d * a <= d * b
    ensures d <= 0.0 ==> d * b <= d * a
  {
    assert d * b - d * a == d * (b - a);
  }

  /** The fraction of a ramp done before its end lies in [0, 1). */
  lemma FractionBounds(step: nat, steps: nat)
    requires step < steps
    ensures 0.0 <= step as real / steps as real < 1.0
  {
  }

  function Min(a: nat, b: nat): (m: nat)
    ensures m <= a && m <= b && (m == a || m == b)
  {
    if a <= b then a else b
  }

  class RampingF32 {
    var config: RampingConfig
    var stepDelta: real
    var currentStep: nat

    /** The cached increment matches the configuration and the ramp has not overrun. */
    predicate Valid()
      reads this
    {
      && LosslessProfile(config.profile)
      && stepDelta == StepDelta(config)
      && currentStep <= config.profile.steps
    }

    /** `new`: a ramp at its first step. */
    constructor (config: RampingConfig)
      requires LosslessProfile(config.profile)
      ensures Valid() && this.config == config && currentStep == 0
    {
      this.config := config;
      stepDelta := StepDelta(config);
      currentStep := 0;
    }

    /** The current value, computed from the cached increment, is the ramp's value at the current step. */
    function CurrentValue(): (v: real)
      requires Valid()
      reads this
      ensures v == ValueAt(config, currentStep)
    {
      var steps := config.profile.steps;
      if currentStep < steps then
        match config.profile.mode
        case StepLeading => config.targetValue
        case StepTrailing => config.initialValue
        case Linear =>
          LinearValue(config, currentStep);
          config.initialValue + stepDelta * currentStep as real
      else
        config.targetValue
    }

    function RemainingSteps(): (n: nat)
      requires Valid()
      reads this
      ensures currentStep + n == config.profile.steps
    {
      config.profile.steps - currentStep
    }

    /** Moves the ramp forward, stopping at its last step. */
    method Advance(steps: nat)
      requires Valid()
      modifies this
      ensures Valid()
      ensures config == old(config) && stepDelta == old(stepDelta)
      ensures currentStep == Min(old(currentStep) + steps, config.profile.steps)
    {
      if steps < RemainingSteps() {
        currentStep := currentStep + steps;
      } else {
        currentStep := config.profile.steps;
      }
    }

    /** `reset_profile`: a new ramp from the current value to a new target. */
    method ResetProfile(targetValue: real, profile: RampingProfile)
      requires Valid() && LosslessProfile(profile)
      modifies this
      ensures Valid() && currentStep == 0
      ensures config == RampingConfig(profile, old(CurrentValue()), targetValue)
      // no jump: a ramp that does not switch at once continues from where the old one stood
      ensures profile.steps > 0 && profile.mode != StepLeading ==> CurrentValue() == old(CurrentValue())
    {
      config := RampingConfig(profile, CurrentValue(), targetValue);
      stepDelta := StepDelta(config);
      currentStep := 0;
      RampEndpoints(config, 0);
    }

    /** `reset`: as `ResetProfile`, keeping the profile. */
    method Reset(targetValue: real)
      requires Valid()
      modifies this
      ensures Valid() && currentStep == 0
      ensures config == RampingConfig(old(config.profile), old(CurrentValue()), targetValue)
    {
      ResetProfile(targetValue, config.profile);
    }

    /** The iterator's `next`: the current value, then one step forward. Never exhausted. */
    method Next() returns (r: Option<real>)
      requires Valid()
      modifies this
      ensures Valid() && config == old(config)
      ensures r == Some(ValueAt(config, old(currentStep)))
      ensures currentStep == Min(old(currentStep) + 1, config.profile.steps)
    {
      var currentValue := CurrentValue();
      Advance(1);
      r := Some(currentValue);
    }

    /** `take(n).collect()`: the next `n` values of the ramp. */
    method Take(n: nat) returns (values: seq<real>)
      requires Valid()
      modifies this
      ensures Valid() && config == old(config)
      ensures |values| == n
      ensures forall k | 0 <= k < n :: values[k] == ValueAt(config, Min(old(currentStep) + k, config.profile.steps))
      ensures currentStep == Min(old(currentStep) + n, config.profile.steps)
    {
      values := [];
      var i := 0;
      while i < n
        invariant 0 <= i <= n && Valid() && config == old(config)
        invariant |values| == i
        invariant currentStep == Min(old(currentStep) + i, config.profile.steps)
        invariant forall k | 0 <= k < i :: values[k] == ValueAt(config, Min(old(currentStep) + k, config.profile.steps))
      {
        var r := Next();
        values := values + [r.value];
        i := i + 1;
      }
    }
  }

  /** The linear value computed from the increment equals the interpolated one. */
  lemma LinearValue(config: RampingConfig, step: nat)
    requires LosslessProfile(config.profile) && config.profile.mode == Linear && step < config.profile.steps
    ensures config.initialValue + StepDelta(config) * step as real == ValueAt(config, step)
  {
    var steps := config.profile.steps as real;
    var d := config.targetValue - config.initialValue;
    assert StepDelta(config) == d / steps;
    assert d / steps * step as real == d * (step as real / steps);
  }

  /** An immediate ramp yields its target from the first value on. */
  lemma ImmediateIsTarget(initialValue: real, targetValue: real, step: nat)
    ensures ValueAt(RampingConfig(Immediate(), initialValue, targetValue), step) == targetValue
  {
  }

  /** Four steps from -1 to 1, with two values past the end of the ramp. */
  method RampFourSteps(mode: RampingMode) returns (values: seq<real>)
    ensures mode == StepLeading ==> values == [1.0, 1.0, 1.0, 1.0, 1.0, 1.0]
    ensures mode == StepTrailing ==> values == [-1.0, -1.0, -1.0, -1.0, 1.0, 1.0]
    ensures mode == Linear ==> values == [-1.0, -0.5, 0.0, 0.5, 1.0, 1.0]
  {
    var profile := RampingProfile(mode, 4);
    var ramping := new RampingF32(RampingConfig(profile, -1.0, 1.0));
    values := ramping.Take(profile.steps + 2);
  }
}

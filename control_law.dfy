/** The control law of the fan controller: one sample of the GPU temperature is
    turned into a PWM duty command (0..255) for the fan's control device.
    The source computes in single-precision floats; this model computes with
    exact reals, so float rounding is abstracted away. */
module ControlLaw {

  /** The C `unsigned char` that holds the persisted command and is written to the device. */
  newtype byte = x: int | 0 <= x < 256

  datatype Option<T> = None | Some(value: T)

  /** The configuration fixed at start-up: target temperature and gain (C floats) and
      the sample interval in seconds (a C int). */
  datatype Config = Config(target: real, k: real, wait: int)

  /** The configuration before option parsing: target 35 degrees, gain 25, ten seconds. */
  const Defaults: Config := Config(35.0, 25.0, 10)

  /** The command issued at zero temperature error. */
  const Baseline: real := 96.0

  /** The largest duty value the device accepts. */
  const MaxPwm: real := 255.0

  /** The command assumed before the first sample. */
  const InitialPwm: byte := 64

  /** Distance between two reals. */
  function Dist(a: real, b: real): (d: real)
    ensures d >= 0.0 && (d == a - b || d == b - a)
  {
    if a >= b then a - b else b - a
  }

  /** Saturation of the raw command into [0, 255]: first the upper bound, then the lower one. */
  function Clamp(x: real): (r: real)
    ensures 0.0 <= r <= MaxPwm
    ensures forall y :: 0.0 <= y <= MaxPwm ==> Dist(r, x) <= Dist(y, x)
  {
    var capped := if x > MaxPwm then MaxPwm else x;
    if capped < 0.0 then 0.0 else capped
  }

  /** C's conversion of a floating value to an integer type: truncation toward zero. */
  function Trunc(x: real): (n: int)
    ensures 0.0 <= x ==> n as real <= x < n as real + 1.0
    ensures x < 0.0 ==> n as real - 1.0 < x <= n as real
  {
    if x >= 0.0 then x.Floor else -((-x).Floor)
  }

  /** The `int abs(int)` of the C library. */
  function Abs(n: int): (r: int)
    ensures r >= 0 && (r == n || r == -n)
  {
    if n < 0 then -n else n
  }

  /** `96 + k * (temp - target)`; the unsigned temperature is converted to a float first.
      With a non-negative gain the command is above the baseline when the device is hotter
      than the target and below it when it is cooler. */
  function RawCommand(cfg: Config, temp: nat): (r: real)
    ensures temp as real == cfg.target ==> r == Baseline
    ensures 0.0 <= cfg.k && cfg.target <= temp as real ==> Baseline <= r
    ensures 0.0 <= cfg.k && temp as real <= cfg.target ==> r <= Baseline
  {
    var e := temp as real - cfg.target;
    if e == 0.0 then
      ScaleZero(cfg.k, e);
      Baseline + cfg.k * e
    else if 0.0 <= cfg.k then
      ScaleZero(cfg.k, 0.0);
      if 0.0 < e then ScaleMonotone(cfg.k, 0.0, e); Baseline + cfg.k * e
      else ScaleMonotone(cfg.k, e, 0.0); Baseline + cfg.k * e
    else
      Baseline + cfg.k * e
  }

  /** The saturated command `newpwm`: the raw command when it is in range, 255 above the
      range and 0 below it. */
  function NewPwm(cfg: Config, temp: nat): (r: real)
    ensures 0.0 <= r <= MaxPwm
    ensures 0.0 <= RawCommand(cfg, temp) <= MaxPwm ==> r == RawCommand(cfg, temp)
    ensures RawCommand(cfg, temp) > MaxPwm ==> r == MaxPwm
    ensures RawCommand(cfg, temp) < 0.0 ==> r == 0.0
  {
    Clamp(RawCommand(cfg, temp))
  }

  /** The truncated comparison of a difference `d` is exactly a distance of at least two. */
  lemma DeadbandIsTwoUnits(d: real)
    ensures Abs(Trunc(d)) > 1 <==> d >= 2.0 || d <= -2.0
  {
    var n := Trunc(d);
    if d >= 0.0 {
      assert n as real <= d < n as real + 1.0;
    } else {
      assert n as real - 1.0 < d <= n as real;
    }
  }

  /** The write condition `abs(newpwm - pwm) > 1`: the float difference is passed to the
      integer `abs`, so it is truncated toward zero before the comparison. It holds exactly
      when the new command is at least two units away from the stored one. */
  function ExceedsDeadband(newpwm: real, pwm: byte): (b: bool)
    ensures b <==> Dist(newpwm, pwm as real) >= 2.0
  {
    DeadbandIsTwoUnits(newpwm - pwm as real);
    Abs(Trunc(newpwm - pwm as real)) > 1
  }

  /** The assignment `pwm = newpwm`: a float in range converted to `unsigned char`. */
  function ToByte(x: real): (b: byte)
    requires 0.0 <= x <= MaxPwm
    ensures b as real <= x < b as real + 1.0
  {
    Trunc(x) as byte
  }

  /** One decision of the control law: the byte to write, or None inside the deadband. */
  function Decide(cfg: Config, temp: nat, pwm: byte): (r: Option<byte>)
    ensures r.Some? <==> Dist(NewPwm(cfg, temp), pwm as real) >= 2.0
    ensures r.Some? ==> r.value as real <= NewPwm(cfg, temp) < r.value as real + 1.0
  {
    var newpwm := NewPwm(cfg, temp);
    if ExceedsDeadband(newpwm, pwm) then Some(ToByte(newpwm)) else None
  }

  /** The persisted command after one decision: kept inside the deadband, otherwise the
      floor of the saturated command. */
  function NextPwm(cfg: Config, temp: nat, pwm: byte): (r: byte)
    ensures Dist(NewPwm(cfg, temp), pwm as real) < 2.0 ==> r == pwm
    ensures Dist(NewPwm(cfg, temp), pwm as real) >= 2.0 ==>
      r as real <= NewPwm(cfg, temp) < r as real + 1.0
  {
    match Decide(cfg, temp, pwm)
    case Some(b) => b
    case None => pwm
  }

  /** At zero error the command is the baseline, whatever the gain. */
  lemma BaselineAtTarget(cfg: Config, temp: nat)
    requires temp as real == cfg.target
    ensures NewPwm(cfg, temp) == Baseline
  {
  }

  /** With a non-negative gain the command does not decrease as the temperature rises. */
  lemma MonotoneInTemperature(cfg: Config, t1: nat, t2: nat)
    requires 0.0 <= cfg.k && t1 <= t2
    ensures NewPwm(cfg, t1) <= NewPwm(cfg, t2)
  {
    ScaleMonotone(cfg.k, t1 as real - cfg.target, t2 as real - cfg.target);
    ClampMonotone(RawCommand(cfg, t1), RawCommand(cfg, t2));
  }

  /** Saturation preserves order. */
  lemma ClampMonotone(a: real, b: real)
    requires a <= b
    ensures Clamp(a) <= Clamp(b)
  {
  }

  /** Scaling a zero error gives zero. */
  lemma ScaleZero(k: real, e: real)
    requires e == 0.0
    ensures k * e == 0.0
  {
  }

  /** Scaling by a non-negative factor preserves order. */
  lemma ScaleMonotone(k: real, a: real, b: real)
    requires 0.0 <= k && a <= b
    ensures k * a <= k * b
  {
    assert k * b - k * a == k * (b - a);
  }

  /** A very hot device saturates the command at the top of the range. */
  lemma SaturationExample()
    ensures NewPwm(Defaults, 200) == MaxPwm
  {
    assert RawCommand(Defaults, 200) == 4221.0;
  }

  /** Deadband idempotence: right after a decision, the same temperature decides nothing. */
  lemma DecisionSettles(cfg: Config, temp: nat, pwm: byte)
    ensures Decide(cfg, temp, NextPwm(cfg, temp, pwm)) == None
  {
    var next := NextPwm(cfg, temp, pwm);
    if Decide(cfg, temp, pwm).Some? {
      assert next as real <= NewPwm(cfg, temp) < next as real + 1.0;
      assert Dist(NewPwm(cfg, temp), next as real) < 2.0;
    }
  }

  /** target 35, gain 25, temperature 39 and previous command 64: the byte 196 is written. */
  lemma WriteExample()
    ensures Decide(Defaults, 39, 64) == Some(196)
  {
    assert RawCommand(Defaults, 39) == 196.0;
  }

  /** At the target with the previous command already at the baseline nothing is written. */
  lemma QuietAtBaselineExample()
    ensures Decide(Defaults, 35, 96) == None
  {
    assert RawCommand(Defaults, 35) == 96.0;
  }

  /** The truncation matters: a difference of 1.9 is not written, although it exceeds 1. */
  lemma TruncatedDifferenceExample()
    ensures Dist(NewPwm(Config(35.0, 1.9, 10), 36), 96.0) > 1.0
    ensures Decide(Config(35.0, 1.9, 10), 36, 96) == None
    ensures Decide(Config(35.0, 2.0, 10), 36, 96) == Some(98)
  {
    assert RawCommand(Config(35.0, 1.9, 10), 36) == 97.9;
    assert RawCommand(Config(35.0, 2.0, 10), 36) == 98.0;
  }
}

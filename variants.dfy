/** How the two driver variants relate: where their duty tables coincide, and where their
    direction rules part. */
module Variants {
  import opened Errors
  import opened Hal
  import Wrapper
  import Driver

  /** The wrapper's Forward and Reverse as the driver's boolean direction. */
  function AsWrapperDirection(forward: bool): Wrapper.MotorDirection
  {
    if forward then Wrapper.Forward else Wrapper.Reverse
  }

  /** With two PWM channels both drivers write the same duties for forward and for reverse. */
  lemma DualTablesAgree(p1: PwmOutput, p2: PwmOutput, forward: bool, speed: i16, maxDuty: u16)
    ensures Wrapper.PwmTargets(Wrapper.PwmChannels.Dual(p1, p2), AsWrapperDirection(forward), speed, maxDuty)
            == Driver.PwmTargets(true, forward, speed, maxDuty)
  {
  }

  /** With one PWM channel both drivers write the duty whatever the direction, except that the
      wrapper's Coast writes 0. */
  lemma SingleTablesAgree(p: PwmOutput, direction: Wrapper.MotorDirection, forward: bool, speed: i16, maxDuty: u16)
    ensures direction != Wrapper.Coast ==>
              Wrapper.PwmTargets(Wrapper.PwmChannels.Single(p), direction, speed, maxDuty)
              == Driver.PwmTargets(false, forward, speed, maxDuty)
    ensures direction == Wrapper.Coast && Duty(speed, maxDuty) != 0 ==>
              Wrapper.PwmTargets(Wrapper.PwmChannels.Single(p), direction, speed, maxDuty)
              != Driver.PwmTargets(false, forward, speed, maxDuty)
  {
  }

  /** Both drivers brake with the same duties: both channels at the maximum duty with two
      channels, the single channel at 0 otherwise. */
  lemma BrakeTablesAgree(p: PwmOutput, p1: PwmOutput, p2: PwmOutput, maxDuty: u16)
    ensures Wrapper.PwmTargets(Wrapper.PwmChannels.Dual(p1, p2), Wrapper.Brake, 0, maxDuty)
            == Driver.BrakeTargets(true, maxDuty)
    ensures Wrapper.PwmTargets(Wrapper.PwmChannels.Single(p), Wrapper.Brake, 0, maxDuty)
            == Driver.BrakeTargets(false, maxDuty)
  {
  }

  /** For a nonzero speed `set_speed` picks the same direction in both drivers: forward
      exactly when the speed is positive. */
  lemma DirectionRulesAgreeOffZero(previous: Wrapper.MotorDirection, speed: i16)
    requires speed != 0
    ensures (Wrapper.DirectionAfterSetSpeed(previous, speed) == Wrapper.Forward) == (speed >= 0)
    ensures Wrapper.DirectionAfterSetSpeed(previous, speed) == AsWrapperDirection(speed >= 0)
  {
  }

  /** At speed 0 the wrapper keeps whatever direction it had, while the driver switches to
      forward; after a reverse command the two disagree. */
  lemma DirectionRulesDifferAtZero(previous: Wrapper.MotorDirection)
    ensures Wrapper.DirectionAfterSetSpeed(previous, 0) == previous
    ensures Wrapper.DirectionAfterSetSpeed(Wrapper.Reverse, 0) != AsWrapperDirection(0 >= 0)
  {
  }

  /** Both drivers, built over healthy hardware with one enable line and one PWM channel,
      initialised, commanded to -100 and then to 0: the wrapper still reports reverse, the
      driver reports forward, and both leave the channel at duty 0. */
  method ZeroSpeedScenario() returns (wrapperForward: Result<bool>, driverForward: Result<bool>,
                                      wrapperDuty: u16, driverDuty: u16)
    ensures wrapperForward == Ok(false) && driverForward == Ok(true)
    ensures wrapperDuty == 0 && driverDuty == 0
  {
    var pin := Channel(false, false);
    var pwm := Channel(0, false);

    var w := new Wrapper.MotorDriverWrapper.Build(
      Wrapper.MotorDriverBuilder.New()
        .WithEnablePins(Wrapper.EnablePins.Single(pin))
        .WithPwmChannels(Wrapper.PwmChannels.Single(pwm))
        .WithMaxDuty(1000));
    var r := w.Initialize();
    r := w.SetSpeed(-100);
    r := w.SetSpeed(0);
    wrapperForward := w.GetDirection();
    wrapperDuty := w.pwmChannels.pwm.value;

    var d := new Driver.HBridgeMotorDriver.SinglePwm(pin, pwm, 1000);
    r := d.Initialize();
    r := d.SetSpeed(-100);
    r := d.SetSpeed(0);
    driverForward := d.GetDirection();
    driverDuty := d.pwm1.value;
  }
}

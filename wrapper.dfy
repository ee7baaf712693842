/** The builder-configured motor driver: tagged enable-line and PWM topologies, a four-state
    direction, and the duty table that turns (speed, direction) into channel writes. */
module Wrapper {
  import opened Errors
  import opened Hal

  /** No enable line, one for the whole driver, or one per half-bridge. */
  datatype EnablePins = None | Single(pin: OutputPin) | Dual(pin1: OutputPin, pin2: OutputPin)

  /** Digital on/off only, sign-magnitude with one PWM channel, or locked anti-phase with two. */
  datatype PwmChannels = None | Single(pwm: PwmOutput) | Dual(pwm1: PwmOutput, pwm2: PwmOutput)

  datatype MotorDirection = Forward | Reverse | Brake | Coast

  /** The configured enable lines in the order the driver writes them. */
  function Pins(ep: EnablePins): seq<OutputPin>
  {
    match ep
    case None => []
    case Single(p) => [p]
    case Dual(p1, p2) => [p1, p2]
  }

  /** The configured PWM channels in the order the driver writes them (primary first). */
  function Pwms(pc: PwmChannels): seq<PwmOutput>
  {
    match pc
    case None => []
    case Single(p) => [p]
    case Dual(p1, p2) => [p1, p2]
  }

  /** A topology is determined by its lines: the number of lines gives the variant. */
  lemma PwmsInjective(a: PwmChannels, b: PwmChannels)
    requires Pwms(a) == Pwms(b)
    ensures a == b
  {
    assert |Pwms(a)| == |Pwms(b)|;
  }

  /** The duty cycles `update_pwm` writes for a speed and direction, one per configured channel
      in write order. Whatever the speed, no channel is driven above `maxDuty`, and coasting
      drives every channel to zero. */
  function PwmTargets(pc: PwmChannels, direction: MotorDirection, speed: i16, maxDuty: u16): (t: seq<u16>)
    ensures |t| == |Pwms(pc)|
    ensures forall i :: 0 <= i < |t| ==> t[i] <= maxDuty
    ensures direction == Coast ==> forall i :: 0 <= i < |t| ==> t[i] == 0
  {
    var duty := Duty(speed, maxDuty);
    match pc
    case None => []
    case Single(_) => [if direction == Coast then 0 else duty]
    case Dual(_, _) =>
      match direction
      case Forward => [duty, 0]
      case Reverse => [0, duty]
      case Brake => [maxDuty, maxDuty]
      case Coast => [0, 0]
  }

  /** The table depends on the topology only, not on the lines' current values. */
  lemma PwmTargetsByTopology(a: PwmChannels, b: PwmChannels, direction: MotorDirection, speed: i16, maxDuty: u16)
    requires |Pwms(a)| == |Pwms(b)|
    ensures PwmTargets(a, direction, speed, maxDuty) == PwmTargets(b, direction, speed, maxDuty)
  {
  }

  /** The direction `set_speed` leaves behind: the sign of a nonzero speed; a zero speed keeps
      the previous direction, whatever it was. */
  function DirectionAfterSetSpeed(previous: MotorDirection, speed: i16): (d: MotorDirection)
    ensures speed != 0 ==> (d == Forward <==> speed > 0) && (d == Reverse <==> speed < 0)
    ensures speed == 0 ==> d == previous
  {
    if speed < 0 then Reverse else if speed > 0 then Forward else previous
  }

  /** The channels drive the motor at `speed`: on two channels the primary duty minus the
      secondary duty is the signed speed (equal duties give no net drive), on one channel the
      duty is the speed's magnitude. */
  predicate DrivesAt(pc: PwmChannels, speed: i16)
  {
    match pc
    case None => true
    case Single(p) => p.value == UnsignedAbs(speed)
    case Dual(p1, p2) => p1.value as int - p2.value as int == speed
  }

  /** Whatever the previous direction, the table `set_speed` selects realises the accepted
      speed: a zero speed under Brake drives both channels equally, under Coast not at all. */
  lemma SetSpeedTargetsDrive(pc: PwmChannels, previous: MotorDirection, speed: i16, maxDuty: u16)
    requires UnsignedAbs(speed) <= maxDuty
    ensures var t := PwmTargets(pc, DirectionAfterSetSpeed(previous, speed), speed, maxDuty);
            (pc.Single? ==> t[0] == UnsignedAbs(speed)) && (pc.Dual? ==> t[0] as int - t[1] as int == speed)
  {
  }

  /** When the writes of `duties` all went through, the channels hold exactly those duties. */
  lemma WrittenTargets(before: PwmChannels, after: PwmChannels, duties: seq<u16>)
    requires |duties| == |Pwms(before)| && Healthy(Pwms(before))
    requires Pwms(after) == WriteInOrder(Pwms(before), duties)
    ensures before.Single? ==> after.Single? && after.pwm.value == duties[0]
    ensures before.Dual? ==> after.Dual? && after.pwm1.value == duties[0] && after.pwm2.value == duties[1]
    ensures AllHoldDuties(after, duties)
  {
    WriteInOrderHealthy(Pwms(before), duties);
  }

  /** Every configured channel holds the duty meant for it. */
  predicate AllHoldDuties(pc: PwmChannels, duties: seq<u16>)
  {
    |duties| == |Pwms(pc)| && forall i :: 0 <= i < |duties| ==> Pwms(pc)[i].value == duties[i]
  }

  /** `MotorDriverBuilder`: each option stays unset until its `with_*` call. */
  datatype MotorDriverBuilder = MotorDriverBuilder(
    enablePins: Option<EnablePins>,
    pwmChannels: Option<PwmChannels>,
    maxDuty: Option<u16>)
  {
    /** `MotorDriverBuilder::new` (and `MotorDriverWrapper::builder`): nothing configured. */
    static function New(): (b: MotorDriverBuilder)
      ensures b.enablePins.None? && b.pwmChannels.None? && b.maxDuty.None?
    {
      MotorDriverBuilder(Option.None, Option.None, Option.None)
    }

    /** `with_enable_pins`: sets the enable lines and keeps the other two settings. */
    function WithEnablePins(pins: EnablePins): (b: MotorDriverBuilder)
      ensures b.enablePins == Some(pins)
      ensures b.pwmChannels == pwmChannels && b.maxDuty == maxDuty
    {
      this.(enablePins := Some(pins))
    }

    /** `with_pwm_channels`: sets the PWM channels and keeps the other two settings. */
    function WithPwmChannels(channels: PwmChannels): (b: MotorDriverBuilder)
      ensures b.pwmChannels == Some(channels)
      ensures b.enablePins == enablePins && b.maxDuty == maxDuty
    {
      this.(pwmChannels := Some(channels))
    }

    /** `with_max_duty`: sets the duty range and keeps the other two settings. */
    function WithMaxDuty(maxDuty: u16): (b: MotorDriverBuilder)
      ensures b.maxDuty == Some(maxDuty)
      ensures b.enablePins == enablePins && b.pwmChannels == pwmChannels
    {
      this.(maxDuty := Some(maxDuty))
    }
  }

  class MotorDriverWrapper {
    var enablePins: EnablePins
    var pwmChannels: PwmChannels
    const maxDuty: u16
    /** The commanded speed, between -maxDuty and maxDuty. */
    var currentSpeed: i16
    var direction: MotorDirection
    var initialized: bool

    /** The commanded speed never exceeds the duty range. */
    ghost predicate Valid()
      reads this`currentSpeed
    {
      UnsignedAbs(currentSpeed) <= maxDuty
    }

    /** `MotorDriverBuilder::build`: an unset option takes its default (no enable lines, no PWM
        channels, the full `u16` duty range); the driver starts at speed 0, coasting, and not
        initialised. */
    constructor Build(b: MotorDriverBuilder)
      ensures Valid()
      ensures enablePins == (if b.enablePins.Some? then b.enablePins.value else EnablePins.None)
      ensures pwmChannels == (if b.pwmChannels.Some? then b.pwmChannels.value else PwmChannels.None)
      ensures maxDuty == (if b.maxDuty.Some? then b.maxDuty.value else U16_MAX)
      ensures currentSpeed == 0 && direction == Coast && !initialized
    {
      enablePins := if b.enablePins.Some? then b.enablePins.value else EnablePins.None;
      pwmChannels := if b.pwmChannels.Some? then b.pwmChannels.value else PwmChannels.None;
      maxDuty := if b.maxDuty.Some? then b.maxDuty.value else U16_MAX;
      currentSpeed := 0;
      direction := Coast;
      initialized := false;
    }

    /** `control_enable`: drives every configured enable line to `enable`, in order, stopping
        at the first rejected write; with no enable lines it succeeds without writing. */
    method ControlEnable(enable: bool) returns (r: Result<()>)
      modifies this`enablePins
      ensures Pins(enablePins) == WriteAll(Pins(old(enablePins)), enable)
      ensures r == PinResult(Pins(old(enablePins)))
      ensures r.Ok? ==> AllHold(Pins(enablePins), enable)
    {
      match enablePins {
        case None =>
          r := Ok(());
        case Single(pin) =>
          assert Pins(old(enablePins)) == [pin];
          enablePins := EnablePins.Single(Written(pin, enable));
          if pin.faulty {
            assert !Healthy(Pins(old(enablePins))) by { assert Pins(old(enablePins))[0] == pin; }
            return Err(GpioError);
          }
          r := Ok(());
        case Dual(pin1, pin2) =>
          assert seq(2, _ => enable) == [enable, enable] && [pin1, pin2][1..] == [pin2];
          enablePins := EnablePins.Dual(Written(pin1, enable), pin2);
          if pin1.faulty {
            assert !Healthy(Pins(old(enablePins))) by { assert Pins(old(enablePins))[0] == pin1; }
            return Err(GpioError);
          }
          enablePins := EnablePins.Dual(Written(pin1, enable), Written(pin2, enable));
          if pin2.faulty {
            assert WriteInOrder([pin2], [enable]) == [pin2];
            assert WriteInOrder([pin1, pin2], [enable, enable]) == [Written(pin1, enable), pin2];
            assert !Healthy(Pins(old(enablePins))) by { assert Pins(old(enablePins))[1] == pin2; }
            return Err(GpioError);
          }
          r := Ok(());
      }
      if r.Ok? {
        WriteAllHealthy(Pins(old(enablePins)), enable);
      }
    }

    /** One `set_duty_cycle(d)?` on the single channel. */
    method WriteSingle(d: u16) returns (r: Result<()>)
      requires pwmChannels.Single?
      modifies this`pwmChannels
      ensures Pwms(pwmChannels) == WriteInOrder(Pwms(old(pwmChannels)), [d])
      ensures r == PwmResult(Pwms(old(pwmChannels)))
    {
      var pwm := pwmChannels.pwm;
      pwmChannels := PwmChannels.Single(Written(pwm, d));
      if pwm.faulty {
        assert !Healthy(Pwms(old(pwmChannels))) by { assert Pwms(old(pwmChannels))[0] == pwm; }
        return Err(PwmError);
      }
      r := Ok(());
    }

    /** `set_duty_cycle(d1)?` on the primary channel, then `set_duty_cycle(d2)?` on the
        secondary one. */
    method WriteDual(d1: u16, d2: u16) returns (r: Result<()>)
      requires pwmChannels.Dual?
      modifies this`pwmChannels
      ensures Pwms(pwmChannels) == WriteInOrder(Pwms(old(pwmChannels)), [d1, d2])
      ensures r == PwmResult(Pwms(old(pwmChannels)))
    {
      var pwm1, pwm2 := pwmChannels.pwm1, pwmChannels.pwm2;
      assert Pwms(old(pwmChannels)) == [pwm1, pwm2];
      pwmChannels := PwmChannels.Dual(Written(pwm1, d1), pwm2);
      if pwm1.faulty {
        return Err(PwmError);
      }
      pwmChannels := PwmChannels.Dual(Written(pwm1, d1), Written(pwm2, d2));
      assert [pwm1, pwm2][1..] == [pwm2];
      if pwm2.faulty {
        return Err(PwmError);
      }
      r := Ok(());
    }

    /** `update_pwm`: writes the duty table for the current speed and direction; without PWM
        channels nothing is written. */
    method UpdatePwm() returns (r: Result<()>)
      modifies this`pwmChannels
      ensures Pwms(pwmChannels) ==
              WriteInOrder(Pwms(old(pwmChannels)), PwmTargets(old(pwmChannels), direction, currentSpeed, maxDuty))
      ensures r == PwmResult(Pwms(old(pwmChannels)))
    {
      var duty := Duty(currentSpeed, maxDuty);
      match pwmChannels {
        case None =>
          r := Ok(());
        case Single(_) =>
          if direction == Coast {
            r := WriteSingle(0);
          } else {
            r := WriteSingle(duty);
          }
        case Dual(_, _) =>
          match direction {
            case Forward => r := WriteDual(duty, 0);
            case Reverse => r := WriteDual(0, duty);
            case Brake => r := WriteDual(maxDuty, maxDuty);
            case Coast => r := WriteDual(0, 0);
          }
      }
    }

    /** `initialize`: drives every enable line low, then every PWM channel to 0, and marks the
        driver initialised only when all of those writes went through. Calling it again is
        allowed. */
    method Initialize() returns (r: Result<()>)
      modifies this`enablePins, this`pwmChannels, this`initialized
      ensures Pins(enablePins) == WriteAll(Pins(old(enablePins)), false)
      ensures !Healthy(Pins(old(enablePins))) ==>
                r == Err(GpioError) && pwmChannels == old(pwmChannels) && initialized == old(initialized)
      ensures Healthy(Pins(old(enablePins))) ==>
                && Pwms(pwmChannels) == WriteAll(Pwms(old(pwmChannels)), 0)
                && r == PwmResult(Pwms(old(pwmChannels)))
      ensures initialized == (old(initialized) || r.Ok?)
      ensures r.Ok? ==> AllHold(Pins(enablePins), false) && AllHold(Pwms(pwmChannels), 0)
    {
      r := ControlEnable(false);
      if r.Err? {
        return;
      }
      WriteAllShort(Pwms(pwmChannels), 0);
      match pwmChannels {
        case None =>
        case Single(_) =>
          r := WriteSingle(0);
        case Dual(_, _) =>
          r := WriteDual(0, 0);
      }
      if r.Err? {
        return;
      }
      WriteAllHealthy(Pwms(old(pwmChannels)), 0);
      initialized := true;
    }

    /** `set_speed`: refuses before `initialize` and refuses a magnitude above `maxDuty`, in
        that order, leaving everything as it was. Otherwise it records the speed and the
        direction of its sign (zero keeps the direction), then rewrites the duties; those
        records stay even when a duty write is rejected. */
    method SetSpeed(speed: i16) returns (r: Result<()>)
      requires Valid()
      modifies this`currentSpeed, this`direction, this`pwmChannels
      ensures Valid()
      ensures !initialized ==> r == Err(NotInitialized) && unchanged(this)
      ensures initialized && UnsignedAbs(speed) > maxDuty ==> r == Err(InvalidSpeed) && unchanged(this)
      ensures initialized && UnsignedAbs(speed) <= maxDuty ==>
                && currentSpeed == speed
                && direction == DirectionAfterSetSpeed(old(direction), speed)
                && Pwms(pwmChannels) ==
                   WriteInOrder(Pwms(old(pwmChannels)), PwmTargets(old(pwmChannels), direction, speed, maxDuty))
                && r == PwmResult(Pwms(old(pwmChannels)))
      ensures r.Ok? ==> DrivesAt(pwmChannels, speed)
    {
      if !initialized {
        return Err(NotInitialized);
      }
      if UnsignedAbs(speed) > maxDuty {
        return Err(InvalidSpeed);
      }
      currentSpeed := speed;
      if speed < 0 {
        direction := Reverse;
      } else if speed > 0 {
        direction := Forward;
      }
      ghost var before := pwmChannels;
      r := UpdatePwm();
      if r.Ok? {
        SetSpeedTargetsDrive(before, old(direction), speed, maxDuty);
        WrittenTargets(before, pwmChannels, PwmTargets(before, direction, speed, maxDuty));
      }
    }

    /** `set_direction`: refuses before `initialize`; otherwise selects Forward or Reverse and
        rewrites the duties. The commanded speed is never touched. */
    method SetDirection(forward: bool) returns (r: Result<()>)
      modifies this`direction, this`pwmChannels
      ensures !initialized ==> r == Err(NotInitialized) && unchanged(this)
      ensures initialized ==>
                && direction == (if forward then Forward else Reverse)
                && Pwms(pwmChannels) ==
                   WriteInOrder(Pwms(old(pwmChannels)), PwmTargets(old(pwmChannels), direction, currentSpeed, maxDuty))
                && r == PwmResult(Pwms(old(pwmChannels)))
    {
      if !initialized {
        return Err(NotInitialized);
      }
      direction := if forward then Forward else Reverse;
      r := UpdatePwm();
    }

    /** `stop`: refuses before `initialize`; otherwise records speed 0 and Coast and drives
        every PWM channel to 0. */
    method Stop() returns (r: Result<()>)
      requires Valid()
      modifies this`currentSpeed, this`direction, this`pwmChannels
      ensures Valid()
      ensures !initialized ==> r == Err(NotInitialized) && unchanged(this)
      ensures initialized ==>
                && currentSpeed == 0 && direction == Coast
                && Pwms(pwmChannels) == WriteInOrder(Pwms(old(pwmChannels)), PwmTargets(old(pwmChannels), Coast, 0, maxDuty))
                && r == PwmResult(Pwms(old(pwmChannels)))
      ensures r.Ok? ==> AllHold(Pwms(pwmChannels), 0)
    {
      if !initialized {
        return Err(NotInitialized);
      }
      currentSpeed := 0;
      direction := Coast;
      ghost var before := pwmChannels;
      r := UpdatePwm();
      if r.Ok? {
        WrittenTargets(before, pwmChannels, PwmTargets(before, Coast, 0, maxDuty));
      }
    }

    /** `brake`: refuses before `initialize`; otherwise records speed 0 and Brake; two channels
        are both driven to `maxDuty` (both motor terminals at one potential), a single channel
        gets duty 0. */
    method Brake() returns (r: Result<()>)
      requires Valid()
      modifies this`currentSpeed, this`direction, this`pwmChannels
      ensures Valid()
      ensures !initialized ==> r == Err(NotInitialized) && unchanged(this)
      ensures initialized ==>
                && currentSpeed == 0 && direction == MotorDirection.Brake
                && Pwms(pwmChannels) ==
                   WriteInOrder(Pwms(old(pwmChannels)), PwmTargets(old(pwmChannels), MotorDirection.Brake, 0, maxDuty))
                && r == PwmResult(Pwms(old(pwmChannels)))
      ensures r.Ok? && pwmChannels.Dual? ==> pwmChannels.pwm1.value == maxDuty && pwmChannels.pwm2.value == maxDuty
      ensures r.Ok? && pwmChannels.Single? ==> pwmChannels.pwm.value == 0
    {
      if !initialized {
        return Err(NotInitialized);
      }
      currentSpeed := 0;
      direction := MotorDirection.Brake;
      ghost var before := pwmChannels;
      r := UpdatePwm();
      if r.Ok? {
        WrittenTargets(before, pwmChannels, PwmTargets(before, MotorDirection.Brake, 0, maxDuty));
      }
    }

    /** `enable`: refuses before `initialize`; otherwise drives every enable line high (a
        driver without enable lines succeeds without writing). */
    method Enable() returns (r: Result<()>)
      modifies this`enablePins
      ensures !initialized ==> r == Err(NotInitialized) && unchanged(this)
      ensures initialized ==>
                Pins(enablePins) == WriteAll(Pins(old(enablePins)), true) && r == PinResult(Pins(old(enablePins)))
      ensures initialized && old(enablePins).None? ==> r == Ok(()) && enablePins == EnablePins.None
      ensures r.Ok? ==> AllHold(Pins(enablePins), true)
    {
      if !initialized {
        return Err(NotInitialized);
      }
      r := ControlEnable(true);
    }

    /** `disable`: refuses before `initialize`; otherwise drives every enable line low (a
        driver without enable lines succeeds without writing). */
    method Disable() returns (r: Result<()>)
      modifies this`enablePins
      ensures !initialized ==> r == Err(NotInitialized) && unchanged(this)
      ensures initialized ==>
                Pins(enablePins) == WriteAll(Pins(old(enablePins)), false) && r == PinResult(Pins(old(enablePins)))
      ensures initialized && old(enablePins).None? ==> r == Ok(()) && enablePins == EnablePins.None
      ensures r.Ok? ==> AllHold(Pins(enablePins), false)
    {
      if !initialized {
        return Err(NotInitialized);
      }
      r := ControlEnable(false);
    }

    /** `get_speed`: the commanded speed, once initialised; it is within the duty range. */
    function GetSpeed(): (r: Result<i16>)
      reads this`initialized, this`currentSpeed
      ensures r.Ok? <==> initialized
      ensures r.Err? ==> r.error == NotInitialized
      ensures r.Ok? ==> r.value == currentSpeed
      ensures r.Ok? && Valid() ==> UnsignedAbs(r.value) <= maxDuty
    {
      if !initialized then Err(NotInitialized) else Ok(currentSpeed)
    }

    /** `get_direction`: true exactly when the direction is Forward (Reverse, Brake and Coast
        all read as false), once initialised. */
    function GetDirection(): (r: Result<bool>)
      reads this`initialized, this`direction
      ensures r.Ok? <==> initialized
      ensures r.Err? ==> r.error == NotInitialized
      ensures r.Ok? ==> (r.value <==> direction == Forward)
    {
      if !initialized then Err(NotInitialized) else Ok(direction == Forward)
    }

    /** `get_fault_status`: no fault (0) once initialised. */
    function GetFaultStatus(): (r: Result<u8>)
      reads this`initialized
      ensures r.Ok? <==> initialized
      ensures r.Err? ==> r.error == NotInitialized
      ensures r.Ok? ==> r.value == 0
    {
      if !initialized then Err(NotInitialized) else Ok(0)
    }

    /** `get_current`, `get_voltage` and `get_temperature` share this body: sensing is not
        implemented, so they report a hardware fault whether or not the driver is initialised. */
    function GetSensorReading(): (r: Result<()>)
      ensures r.Err? && r.error == HardwareFault
    {
      Err(HardwareFault)
    }
  }

  /** `build` on a builder with nothing configured. */
  method BuildDefaults() returns (m: MotorDriverWrapper)
    ensures fresh(m) && m.Valid()
    ensures m.enablePins == EnablePins.None && m.pwmChannels == PwmChannels.None && m.maxDuty == 65535
    ensures m.currentSpeed == 0 && m.direction == Coast && !m.initialized
  {
    m := new MotorDriverWrapper.Build(MotorDriverBuilder.New());
  }

  /** Every `with_*` setting reaches the built driver. */
  method BuildConfigured(pins: EnablePins, channels: PwmChannels, maxDuty: u16)
    returns (m: MotorDriverWrapper)
    ensures fresh(m) && m.Valid()
    ensures m.enablePins == pins && m.pwmChannels == channels && m.maxDuty == maxDuty
  {
    var b := MotorDriverBuilder.New().WithEnablePins(pins).WithPwmChannels(channels).WithMaxDuty(maxDuty);
    m := new MotorDriverWrapper.Build(b);
  }

  /** Once initialised, a speed `set_speed` accepts is what `get_speed` reports next, even
      when a duty write was rejected. */
  method SetSpeedThenGetSpeed(m: MotorDriverWrapper, speed: i16) returns (r: Result<()>, read: Result<i16>)
    requires m.Valid() && m.initialized && UnsignedAbs(speed) <= m.maxDuty
    modifies m
    ensures read == Ok(speed)
  {
    r := m.SetSpeed(speed);
    read := m.GetSpeed();
  }

  /** Two consecutive `brake` calls: the second one leaves the channels exactly as the first
      left them. That it also ends the same way follows from the model's fault behaviour (a
      channel that rejects one write rejects every write). */
  method BrakeTwice(m: MotorDriverWrapper) returns (first: Result<()>, afterFirst: PwmChannels, second: Result<()>)
    requires m.Valid()
    modifies m
    ensures m.pwmChannels == afterFirst && second == first
  {
    ghost var before := m.pwmChannels;
    first := m.Brake();
    afterFirst := m.pwmChannels;
    second := m.Brake();
    if m.initialized {
      PwmTargetsByTopology(before, afterFirst, MotorDirection.Brake, 0, m.maxDuty);
      WriteInOrderIdempotent(Pwms(before), PwmTargets(before, MotorDirection.Brake, 0, m.maxDuty));
      PwmsInjective(m.pwmChannels, afterFirst);
    }
  }

  /** A dual-PWM driver with `max_duty` 1000 and working channels: forward speed 300 gives
      duties (300, 0), reverse speed 300 gives (0, 300), and braking gives (1000, 1000). */
  method DualPwmScenario() returns (forward: seq<u16>, reverse: seq<u16>, braked: seq<u16>)
    ensures forward == [300, 0] && reverse == [0, 300] && braked == [1000, 1000]
  {
    var idle := Channel(0, false);
    var m := new MotorDriverWrapper.Build(MotorDriverBuilder.New()
      .WithEnablePins(EnablePins.Single(Channel(false, false)))
      .WithPwmChannels(PwmChannels.Dual(idle, idle))
      .WithMaxDuty(1000));
    var r := m.Initialize();
    r := m.Enable();
    r := m.SetSpeed(300);
    forward := [m.pwmChannels.pwm1.value, m.pwmChannels.pwm2.value];
    r := m.SetSpeed(-300);
    reverse := [m.pwmChannels.pwm1.value, m.pwmChannels.pwm2.value];
    r := m.Brake();
    braked := [m.pwmChannels.pwm1.value, m.pwmChannels.pwm2.value];
  }
}

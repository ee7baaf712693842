/** The H-bridge driver with a mandatory primary and an optional secondary enable line and PWM
    channel, and a boolean direction (true is forward). */
module Driver {
  import opened Errors
  import opened Hal

  /** The duties written for (speed, direction): with a secondary channel, forward puts the duty
      on the primary and reverse on the secondary; with the primary alone it carries the duty in
      either direction. No channel is driven above `maxDuty`. */
  function PwmTargets(dual: bool, forward: bool, speed: i16, maxDuty: u16): (t: seq<u16>)
    ensures |t| == if dual then 2 else 1
    ensures forall i :: 0 <= i < |t| ==> t[i] <= maxDuty
  {
    var duty := Duty(speed, maxDuty);
    if !dual then [duty]
    else if forward then [duty, 0]
    else [0, duty]
  }

  /** The duties `brake` writes: both channels at `maxDuty` when there is a secondary one, else
      the primary at 0. */
  function BrakeTargets(dual: bool, maxDuty: u16): (t: seq<u16>)
    ensures |t| == if dual then 2 else 1
    ensures forall i :: 0 <= i < |t| ==> t[i] <= maxDuty
    ensures dual ==> t[0] == t[1] == maxDuty
    ensures !dual ==> t[0] == 0
  {
    if dual then [maxDuty, maxDuty] else [0]
  }

  /** The duty as `update_pwm` computes it from a negative speed, `(-speed as u16).min(max)`:
      the negation happens in `i16`, which has no result for -32768. `None` is that overflow
      (a panic where overflow is checked). */
  function DutyAsWritten(speed: i16, maxDuty: u16): (r: Option<u16>)
    ensures r.None? <==> speed == -0x8000
    ensures r.Some? ==> r.value <= maxDuty
  {
    if speed < 0 then
      var negated := -(speed as int);
      if negated > I16_MAX as int then Option.None
      else Some(if negated < maxDuty then negated else maxDuty)
    else Some(if speed < maxDuty then speed else maxDuty)
  }

  /** `set_speed(-32768)` passes the range check whenever `maxDuty` is at least 32768, and the
      duty computation then overflows. */
  lemma DutyAsWrittenOverflows(maxDuty: u16)
    requires maxDuty >= 0x8000
    ensures UnsignedAbs(-0x8000) <= maxDuty
    ensures DutyAsWritten(-0x8000, maxDuty) == Option.None
  {
  }

  /** For every other speed the computation as written agrees with `Duty`, which the model uses
      instead. */
  lemma DutyAsWrittenElsewhere(speed: i16, maxDuty: u16)
    requires speed != -0x8000
    ensures DutyAsWritten(speed, maxDuty) == Some(Duty(speed, maxDuty))
  {
  }

  class HBridgeMotorDriver {
    var enable1: OutputPin
    var enable2: Option<OutputPin>
    var pwm1: PwmOutput
    var pwm2: Option<PwmOutput>
    const maxDuty: u16
    /** The commanded speed, between -maxDuty and maxDuty. */
    var currentSpeed: i16
    /** true is forward, false is reverse. */
    var direction: bool
    var initialized: bool

    /** The commanded speed never exceeds the duty range. */
    ghost predicate Valid()
      reads this`currentSpeed
    {
      UnsignedAbs(currentSpeed) <= maxDuty
    }

    /** The enable lines in the order they are written. */
    function Pins(): seq<OutputPin>
      reads this`enable1, this`enable2
    {
      [enable1] + (if enable2.Some? then [enable2.value] else [])
    }

    /** The PWM channels in the order they are written. */
    function Pwms(): seq<PwmOutput>
      reads this`pwm1, this`pwm2
    {
      [pwm1] + (if pwm2.Some? then [pwm2.value] else [])
    }

    /** The channels drive the motor at `speed`: with a secondary channel the primary duty minus
        the secondary duty is the signed speed, with the primary alone its duty is the speed's
        magnitude. */
    predicate DrivesAt(speed: i16)
      reads this`pwm1, this`pwm2
    {
      if pwm2.Some? then pwm1.value as int - pwm2.value.value as int == speed
      else pwm1.value == UnsignedAbs(speed)
    }

    /** `single_pwm`: one enable line, one PWM channel; speed 0, forward, not initialised. */
    constructor SinglePwm(enable: OutputPin, pwm: PwmOutput, maxDuty: u16)
      ensures Valid()
      ensures enable1 == enable && enable2 == Option.None && pwm1 == pwm && pwm2 == Option.None
      ensures this.maxDuty == maxDuty && currentSpeed == 0 && direction && !initialized
    {
      enable1, enable2, pwm1, pwm2 := enable, Option.None, pwm, Option.None;
      this.maxDuty := maxDuty;
      currentSpeed, direction, initialized := 0, true, false;
    }

    /** `dual_pwm`: two enable lines, two PWM channels; speed 0, forward, not initialised. */
    constructor DualPwm(enable1: OutputPin, enable2: OutputPin, pwm1: PwmOutput, pwm2: PwmOutput, maxDuty: u16)
      ensures Valid()
      ensures this.enable1 == enable1 && this.enable2 == Some(enable2)
      ensures this.pwm1 == pwm1 && this.pwm2 == Some(pwm2)
      ensures this.maxDuty == maxDuty && currentSpeed == 0 && direction && !initialized
    {
      this.enable1, this.enable2, this.pwm1, this.pwm2 := enable1, Some(enable2), pwm1, Some(pwm2);
      this.maxDuty := maxDuty;
      currentSpeed, direction, initialized := 0, true, false;
    }

    /** `set_high()?`/`set_low()?` on the primary enable line, then on the secondary if present. */
    method WritePins(level: bool) returns (r: Result<()>)
      modifies this`enable1, this`enable2
      ensures Pins() == WriteAll(old(Pins()), level)
      ensures r == PinResult(old(Pins()))
      ensures r.Ok? ==> AllHold(Pins(), level)
    {
      var e1 := enable1;
      assert old(Pins())[0] == e1;
      enable1 := Written(e1, level);
      if e1.faulty {
        return Err(GpioError);
      }
      match enable2 {
        case None =>
          assert seq(1, _ => level) == [level];
        case Some(e2) =>
          assert old(Pins()) == [e1, e2] && old(Pins())[1..] == [e2];
          assert seq(2, _ => level) == [level, level];
          enable2 := Some(Written(e2, level));
          if e2.faulty {
            assert WriteInOrder([e2], [level]) == [e2];
            assert WriteInOrder([e1, e2], [level, level]) == [Written(e1, level), e2];
            return Err(GpioError);
          }
      }
      r := Ok(());
      WriteAllHealthy(old(Pins()), level);
    }

    /** `set_duty_cycle(d1)?` on the primary channel, then `set_duty_cycle(d2)?` on the
        secondary if present. */
    method WriteDuties(d1: u16, d2: u16) returns (r: Result<()>)
      modifies this`pwm1, this`pwm2
      ensures Pwms() == WriteInOrder(old(Pwms()), if old(pwm2.Some?) then [d1, d2] else [d1])
      ensures r == PwmResult(old(Pwms()))
    {
      var p1 := pwm1;
      assert old(Pwms())[0] == p1;
      pwm1 := Written(p1, d1);
      if p1.faulty {
        return Err(PwmError);
      }
      match pwm2 {
        case None =>
        case Some(p2) =>
          assert old(Pwms()) == [p1, p2] && old(Pwms())[1..] == [p2];
          pwm2 := Some(Written(p2, d2));
          if p2.faulty {
            assert WriteInOrder([p2], [d2]) == [p2];
            return Err(PwmError);
          }
      }
      r := Ok(());
    }

    /** Zeroing every channel is the chain of writes `WriteDuties(0, 0)` issues. */
    lemma ZeroDuties()
      ensures WriteAll(Pwms(), 0) == WriteInOrder(Pwms(), if pwm2.Some? then [0, 0] else [0])
    {
      WriteAllShort(Pwms(), 0);
    }

    /** `update_pwm`: writes the duty table for the current speed and direction. */
    method UpdatePwm() returns (r: Result<()>)
      modifies this`pwm1, this`pwm2
      ensures Pwms() == WriteInOrder(old(Pwms()), PwmTargets(old(pwm2.Some?), direction, currentSpeed, maxDuty))
      ensures r == PwmResult(old(Pwms()))
    {
      // `Duty` stands for the source's negate-then-cast, which overflows at -32768
      // (see DutyAsWritten)
      var duty := Duty(currentSpeed, maxDuty);
      match pwm2 {
        case Some(_) =>
          if direction {
            r := WriteDuties(duty, 0);
          } else {
            r := WriteDuties(0, duty);
          }
        case None =>
          r := WriteDuties(duty, 0);
      }
    }

    /** `initialize`: drives the enable lines low, then the PWM channels to 0, and marks the
        driver initialised only when all of those writes went through. */
    method Initialize() returns (r: Result<()>)
      modifies this`enable1, this`enable2, this`pwm1, this`pwm2, this`initialized
      ensures Pins() == WriteAll(old(Pins()), false)
      ensures !Healthy(old(Pins())) ==>
                r == Err(GpioError) && Pwms() == old(Pwms()) && initialized == old(initialized)
      ensures Healthy(old(Pins())) ==> Pwms() == WriteAll(old(Pwms()), 0) && r == PwmResult(old(Pwms()))
      ensures initialized == (old(initialized) || r.Ok?)
      ensures r.Ok? ==> AllHold(Pins(), false) && AllHold(Pwms(), 0)
    {
      r := WritePins(false);
      if r.Err? {
        return;
      }
      ZeroDuties();
      r := WriteDuties(0, 0);
      if r.Err? {
        return;
      }
      WriteAllHealthy(old(Pwms()), 0);
      initialized := true;
    }

    /** `set_speed`: refuses before `initialize` and refuses a magnitude above `maxDuty`, in
        that order, leaving everything as it was. Otherwise it records the speed and sets the
        direction to `speed >= 0` (so zero means forward), then rewrites the duties; those
        records stay even when a duty write is rejected. */
    method SetSpeed(speed: i16) returns (r: Result<()>)
      requires Valid()
      modifies this`currentSpeed, this`direction, this`pwm1, this`pwm2
      ensures Valid()
      ensures !initialized ==> r == Err(NotInitialized) && unchanged(this)
      ensures initialized && UnsignedAbs(speed) > maxDuty ==> r == Err(InvalidSpeed) && unchanged(this)
      ensures initialized && UnsignedAbs(speed) <= maxDuty ==>
                && currentSpeed == speed
                && direction == (speed >= 0)
                && Pwms() == WriteInOrder(old(Pwms()), PwmTargets(old(pwm2.Some?), direction, speed, maxDuty))
                && r == PwmResult(old(Pwms()))
      ensures r.Ok? ==> DrivesAt(speed)
    {
      if !initialized {
        return Err(NotInitialized);
      }
      if UnsignedAbs(speed) > maxDuty {
        return Err(InvalidSpeed);
      }
      currentSpeed := speed;
      direction := speed >= 0;
      r := UpdatePwm();
      if r.Ok? {
        WriteInOrderHealthy(old(Pwms()), PwmTargets(old(pwm2.Some?), direction, speed, maxDuty));
        assert Pwms()[0] == pwm1;
        assert pwm2.Some? ==> Pwms()[1] == pwm2.value;
      }
    }

    /** `set_direction`: refuses before `initialize`; otherwise stores the direction and
        rewrites the duties. The commanded speed is never touched. */
    method SetDirection(forward: bool) returns (r: Result<()>)
      modifies this`direction, this`pwm1, this`pwm2
      ensures !initialized ==> r == Err(NotInitialized) && unchanged(this)
      ensures initialized ==>
                && direction == forward
                && Pwms() == WriteInOrder(old(Pwms()), PwmTargets(old(pwm2.Some?), forward, currentSpeed, maxDuty))
                && r == PwmResult(old(Pwms()))
    {
      if !initialized {
        return Err(NotInitialized);
      }
      direction := forward;
      r := UpdatePwm();
    }

    /** `stop`: refuses before `initialize`; otherwise records speed 0 and drives every PWM
        channel to 0. The direction is left as it was. */
    method Stop() returns (r: Result<()>)
      requires Valid()
      modifies this`currentSpeed, this`pwm1, this`pwm2
      ensures Valid()
      ensures !initialized ==> r == Err(NotInitialized) && unchanged(this)
      ensures initialized ==>
                currentSpeed == 0 && Pwms() == WriteAll(old(Pwms()), 0) && r == PwmResult(old(Pwms()))
      ensures r.Ok? ==> AllHold(Pwms(), 0)
    {
      if !initialized {
        return Err(NotInitialized);
      }
      currentSpeed := 0;
      ZeroDuties();
      r := WriteDuties(0, 0);
      if r.Ok? {
        WriteAllHealthy(old(Pwms()), 0);
      }
    }

    /** `brake`: refuses before `initialize`; otherwise records speed 0 and drives both channels
        to `maxDuty` when there is a secondary one, or the primary alone to 0. The direction is
        left as it was. */
    method Brake() returns (r: Result<()>)
      requires Valid()
      modifies this`currentSpeed, this`pwm1, this`pwm2
      ensures Valid()
      ensures !initialized ==> r == Err(NotInitialized) && unchanged(this)
      ensures initialized ==>
                && currentSpeed == 0
                && Pwms() == WriteInOrder(old(Pwms()), BrakeTargets(old(pwm2.Some?), maxDuty))
                && r == PwmResult(old(Pwms()))
      ensures r.Ok? && pwm2.Some? ==> pwm1.value == maxDuty && pwm2.value.value == maxDuty
      ensures r.Ok? && pwm2.None? ==> pwm1.value == 0
    {
      if !initialized {
        return Err(NotInitialized);
      }
      currentSpeed := 0;
      if pwm2.Some? {
        r := WriteDuties(maxDuty, maxDuty);
      } else {
        r := WriteDuties(0, 0);
      }
      if r.Ok? {
        WriteInOrderHealthy(old(Pwms()), BrakeTargets(old(pwm2.Some?), maxDuty));
        assert Pwms()[0] == pwm1;
        assert pwm2.Some? ==> Pwms()[1] == pwm2.value;
      }
    }

    /** `enable`: refuses before `initialize`; otherwise drives the enable lines high. */
    method Enable() returns (r: Result<()>)
      modifies this`enable1, this`enable2
      ensures !initialized ==> r == Err(NotInitialized) && unchanged(this)
      ensures initialized ==> Pins() == WriteAll(old(Pins()), true) && r == PinResult(old(Pins()))
      ensures r.Ok? ==> AllHold(Pins(), true)
    {
      if !initialized {
        return Err(NotInitialized);
      }
      r := WritePins(true);
    }

    /** `disable`: refuses before `initialize`; otherwise drives the enable lines low. */
    method Disable() returns (r: Result<()>)
      modifies this`enable1, this`enable2
      ensures !initialized ==> r == Err(NotInitialized) && unchanged(this)
      ensures initialized ==> Pins() == WriteAll(old(Pins()), false) && r == PinResult(old(Pins()))
      ensures r.Ok? ==> AllHold(Pins(), false)
    {
      if !initialized {
        return Err(NotInitialized);
      }
      r := WritePins(false);
    }

    /** `get_speed`: the commanded speed, once initialised; it is within the duty range. */
    function GetSpeed(): (r: Result<i16>)
      reads this`initialized, this`currentSpeed
      ensures r.Ok? <==> initialized
      ensures r.Err? ==> r.error == NotInitialized
      ensures r.Ok? ==> r.value == currentSpeed
      ensures r.Ok? && Valid() ==> UnsignedAbs(r.value) <= maxDuty
    {
      if !initialized then Err(NotInitialized) else Ok(currentSpeed)
    }

    /** `get_direction`: the stored direction, once initialised. */
    function GetDirection(): (r: Result<bool>)
      reads this`initialized, this`direction
      ensures r.Ok? <==> initialized
      ensures r.Err? ==> r.error == NotInitialized
      ensures r.Ok? ==> r.value == direction
    {
      if !initialized then Err(NotInitialized) else Ok(direction)
    }

    /** `get_fault_status`: no fault (0) once initialised. */
    function GetFaultStatus(): (r: Result<u8>)
      reads this`initialized
      ensures r.Ok? <==> initialized
      ensures r.Err? ==> r.error == NotInitialized
      ensures r.Ok? ==> r.value == 0
    {
      if !initialized then Err(NotInitialized) else Ok(0)
    }

    /** `get_current`, `get_voltage` and `get_temperature` share this body: sensing is not
        implemented, so they report a hardware fault whether or not the driver is initialised. */
    function GetSensorReading(): (r: Result<()>)
      ensures r.Err? && r.error == HardwareFault
    {
      Err(HardwareFault)
    }
  }

  /** Two consecutive `brake` calls: the second one leaves the channels exactly as the first
      left them. That it also ends the same way follows from the model's fault behaviour (a
      channel that rejects one write rejects every write). */
  method BrakeTwice(m: HBridgeMotorDriver) returns (first: Result<()>, afterFirst: seq<PwmOutput>, second: Result<()>)
    requires m.Valid()
    modifies m
    ensures m.Pwms() == afterFirst && second == first
  {
    ghost var before := m.Pwms();
    first := m.Brake();
    afterFirst := m.Pwms();
    second := m.Brake();
    if m.initialized {
      WriteInOrderIdempotent(before, BrakeTargets(m.pwm2.Some?, m.maxDuty));
    }
  }
}

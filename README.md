# motor-driver-hal: the H-bridge command core in Dafny

This project models the command core of `motor-driver-hal`, a hardware-independent driver for
brushed DC motors behind an H-bridge. A caller issues high-level commands: initialise, set a
signed speed, set a direction, stop, brake, enable and disable. The driver validates each
command, updates its state, and turns it into writes to enable lines (digital outputs) and PWM
channels (duty cycles).

The crate contains two drivers, and both are modelled:

- **`MotorDriverWrapper`** (`src/wrapper.rs`) is modelled by the class
  `Wrapper.MotorDriverWrapper`.
  - Its enable lines and PWM channels come in tagged topologies: none, single or dual.
  - Its direction has four states: Forward, Reverse, Brake and Coast.
  - It is built through `MotorDriverBuilder`, whose unset options take defaults.
- **`HBridgeMotorDriver`** (`src/driver.rs`) is modelled by the class
  `Driver.HBridgeMotorDriver`.
  - It always has a primary enable line and PWM channel, plus an optional secondary of each.
  - Its direction is a boolean.
- **`MotorDriverError`** (`src/error.rs`) is the error taxonomy both drivers return, together with
  its display messages. It is modelled in module `Errors`.

Module `Hal` holds what the two drivers share:

- The Rust integer widths `u16`, `i16` and `u8` as subset types.
- The duty computation `min(|speed|, max_duty)`.
- The model of an output capability. Each line is a `Channel`: the last value the hardware
  accepted, plus a flag saying whether the hardware rejects writes.
  - A rejected write leaves the line unchanged.
  - The driver's `?` then ends the command with `GpioError` or `PwmError`, so later writes in the
    same command never happen.
  - `Hal.WriteInOrder` states what a whole chain of writes does. Every command's postcondition
    relates the new line state to the old one through it.

Module `Variants` relates the two drivers. Their duty tables coincide for forward, reverse and
brake. Their direction rules differ at speed 0: the wrapper keeps its direction, while the older
driver switches to forward.

Four behaviours of the code that the model keeps:

- `set_speed` checks `NotInitialized` before the speed range (src/wrapper.rs:381-387,
  src/driver.rs:250-256).
- `build` never panics: an unset option takes its default (src/wrapper.rs:670-672).
- `HBridgeMotorDriver::stop` and `brake` leave the direction as it was (src/driver.rs:273-299).
- Nothing requires `max_duty` to be positive, so it may be 0.

## Model

| member | source | states |
|---|---|---|
| Errors.Message | src/error.rs:16-31 | The display mapping is total: each variant has one fixed, nonempty text. That distinct variants get distinct texts is `Errors.MessageInjective`, and the texts of the raised errors are `Errors.RaisedMessages`. |
| Errors.ElevenVariants | src/error.rs:1-14 | The error enumeration has exactly eleven pairwise distinct variants, and every error is one of them. |
| Errors.MessageInjective | src/error.rs:16-32 | Distinct errors display distinct messages, so a message identifies its error. |
| Errors.RaisedMessages | src/error.rs:19-29 | The display text of the errors the drivers raise: not initialised, invalid speed, hardware fault, GPIO and PWM errors. |
| Hal.UnsignedAbs | src/driver.rs:254 | The magnitude of every `i16`, including -32768: it is the speed or its negation, it is 0 exactly for speed 0, and it never exceeds 32768. |
| Hal.Duty | src/wrapper.rs:317 | The duty never exceeds `max_duty` or the speed's magnitude. It equals the magnitude when that is within range, and `max_duty` otherwise. |
| Hal.WriteInOrder | src/wrapper.rs:316-350 | A chain of writes keeps the number of lines and each line's fault behaviour. |
| Hal.WriteInOrderHealthy | src/driver.rs:236-246 | When no line rejects writes, each line ends holding exactly the value meant for it. |
| Hal.WriteAllHealthy | src/driver.rs:301-311 | Writing one level to a group with no rejecting line leaves every line at that level, still healthy. |
| Hal.WriteInOrderStops | src/driver.rs:208-220 | When line k is the first to reject, the lines before it hold their new values and line k and every later line are untouched. |
| Hal.WriteInOrderIdempotent | src/wrapper.rs:339-343 | Issuing the same writes twice leaves the lines as issuing them once does. This holds even with rejecting lines only because, in the model, a line that rejects one write rejects every write. |
| Hal.WriteAllShort | src/driver.rs:278-283 | For one or two lines, writing a value to all of them is the explicit chain of writes. |
| Wrapper.PwmTargets | src/wrapper.rs:316-350 | The duty table of `update_pwm` gives one duty per configured channel, none above `max_duty`, and all zero when coasting. |
| Wrapper.DirectionAfterSetSpeed | src/wrapper.rs:390-394 | A nonzero speed gives Forward exactly when it is positive and Reverse exactly when it is negative; speed 0 keeps the previous direction. |
| Wrapper.SetSpeedTargetsDrive | src/wrapper.rs:380-397 | For an accepted speed, the table after `set_speed` drives the motor at that speed: the primary duty minus the secondary duty is the signed speed on dual PWM, and the single channel carries its magnitude. |
| Wrapper.MotorDriverBuilder.New | src/wrapper.rs:546-552 | A new builder has no enable lines, PWM channels or duty range set. |
| Wrapper.MotorDriverBuilder.WithEnablePins | src/wrapper.rs:574-577 | Sets the enable lines and keeps the other settings. |
| Wrapper.MotorDriverBuilder.WithPwmChannels | src/wrapper.rs:599-602 | Sets the PWM channels and keeps the other settings. |
| Wrapper.MotorDriverBuilder.WithMaxDuty | src/wrapper.rs:624-627 | Sets the duty range and keeps the other settings. |
| Wrapper.MotorDriverWrapper.Build | src/wrapper.rs:668-677 | An unset option defaults to no enable lines, no PWM channels and `max_duty` 65535. The driver starts at speed 0, coasting, not initialised, with the speed invariant established. |
| Wrapper.MotorDriverWrapper.ControlEnable | src/wrapper.rs:270-292 | Drives every configured enable line to the level in order, stopping at the first rejected write. It fails with `GpioError` exactly when a line rejects, and succeeds without writing when there are no lines. |
| Wrapper.MotorDriverWrapper.WriteSingle | src/wrapper.rs:321-328 | One `set_duty_cycle(d)?` on the single channel: the channel takes the duty unless it rejects writes, and the result is `PwmError` exactly when it rejects. |
| Wrapper.MotorDriverWrapper.WriteDual | src/wrapper.rs:329-348 | `set_duty_cycle(d1)?` on the primary channel, then `set_duty_cycle(d2)?` on the secondary: the writes stop at the first rejecting channel, and the result is `PwmError` exactly when a channel rejects. |
| Wrapper.MotorDriverWrapper.UpdatePwm | src/wrapper.rs:316-350 | The channels become the result of writing the duty table for the current speed and direction. It fails with `PwmError` exactly when a channel rejects. |
| Wrapper.MotorDriverWrapper.Initialize | src/wrapper.rs:362-378 | Drives the enable lines low, then every channel to 0. A rejected enable write stops before the PWM writes. `initialized` becomes true only when every write went through, and then all lines are low and all duties 0. |
| Wrapper.MotorDriverWrapper.SetSpeed | src/wrapper.rs:380-397 | Before `initialize`: `NotInitialized`, nothing changes. A magnitude above `max_duty`: `InvalidSpeed`, nothing changes. Otherwise it records the speed, sets direction Reverse below 0 and Forward above 0 (unchanged at 0), and writes the table; these records stay even when a write fails. The speed invariant is preserved, and on success the channels drive the motor at the speed. |
| Wrapper.MotorDriverWrapper.SetDirection | src/wrapper.rs:399-411 | Before `initialize`: `NotInitialized`, nothing changes. Otherwise it sets Forward or Reverse and writes the table. The speed is never modified. |
| Wrapper.MotorDriverWrapper.Stop | src/wrapper.rs:413-421 | Before `initialize`: `NotInitialized`, nothing changes. Otherwise speed 0 and direction Coast, every channel written 0, and on success every duty is 0. |
| Wrapper.MotorDriverWrapper.Brake | src/wrapper.rs:423-431 | Before `initialize`: `NotInitialized`, nothing changes. Otherwise speed 0 and direction Brake. On success both dual channels are at `max_duty` and a single channel is at 0. |
| Wrapper.MotorDriverWrapper.Enable | src/wrapper.rs:433-439 | Before `initialize`: `NotInitialized`, nothing changes. Otherwise every enable line is driven high; no enable lines means success. |
| Wrapper.MotorDriverWrapper.Disable | src/wrapper.rs:441-447 | Before `initialize`: `NotInitialized`, nothing changes. Otherwise every enable line is driven low; no enable lines means success. |
| Wrapper.MotorDriverWrapper.GetSpeed | src/wrapper.rs:449-454 | `NotInitialized` before `initialize`, else the commanded speed, which is within the duty range. |
| Wrapper.MotorDriverWrapper.GetDirection | src/wrapper.rs:456-461 | `NotInitialized` before `initialize`, else true exactly when the direction is Forward. |
| Wrapper.MotorDriverWrapper.GetFaultStatus | src/wrapper.rs:481-486 | `NotInitialized` before `initialize`, else 0 (no fault). |
| Wrapper.MotorDriverWrapper.GetSensorReading | src/wrapper.rs:463-479 | Current, voltage and temperature sensing always report `HardwareFault`. |
| Wrapper.BuildDefaults | src/wrapper.rs:668-677 | An empty builder builds a new driver with no lines, `max_duty` 65535, speed 0, coasting, not initialised. |
| Wrapper.BuildConfigured | src/wrapper.rs:574-677 | Every `with_*` setting reaches the built driver. |
| Wrapper.SetSpeedThenGetSpeed | src/wrapper.rs:389-453 | Once initialised, a speed `set_speed` accepts is what `get_speed` reports next, even if a duty write failed. |
| Wrapper.BrakeTwice | src/wrapper.rs:423-431 | A second `brake` leaves the channels as the first left them, so both calls give identical duties. The equal results follow from the model's fault behaviour, where a channel that rejects one write rejects every write. |
| Wrapper.DualPwmScenario | src/wrapper.rs:330-343 | With dual PWM, `max_duty` 1000 and working hardware: speed 300 gives (300, 0), speed -300 gives (0, 300), and brake gives (1000, 1000). |
| Driver.PwmTargets | src/driver.rs:208-220 | The duty table of `update_pwm` gives one duty per present channel, none above `max_duty`. |
| Driver.BrakeTargets | src/driver.rs:291-298 | The duties `brake` writes: both channels at `max_duty` with a secondary present, otherwise the primary at 0; never above `max_duty`. |
| Driver.DutyAsWritten | src/driver.rs:202-206 | The duty as written has no value exactly for speed -32768, where the `i16` negation overflows; otherwise it is at most `max_duty`. |
| Driver.DutyAsWrittenOverflows | src/driver.rs:202-206 | Speed -32768 passes the range check whenever `max_duty` is at least 32768, and the duty computation as written then has no result. |
| Driver.DutyAsWrittenElsewhere | src/driver.rs:202-206 | For every other speed, the computation as written equals `Hal.Duty`. |
| Driver.HBridgeMotorDriver.SinglePwm | src/driver.rs:122-133 | No secondary enable line or PWM channel; speed 0, forward, not initialised. |
| Driver.HBridgeMotorDriver.DualPwm | src/driver.rs:176-187 | Both secondaries present; speed 0, forward, not initialised. |
| Driver.HBridgeMotorDriver.WritePins | src/driver.rs:301-311 | Drives the primary, then any secondary, enable line to a level, stopping at the first rejected write. It fails with `GpioError` exactly when a line rejects. |
| Driver.HBridgeMotorDriver.WriteDuties | src/driver.rs:240-243 | Writes the primary, then any secondary, duty, stopping at the first rejected write. It fails with `PwmError` exactly when a channel rejects. `initialize` issues this chain, and so do `stop` (src/driver.rs:279-282) and `brake` (src/driver.rs:293-296). |
| Driver.HBridgeMotorDriver.UpdatePwm | src/driver.rs:201-222 | The channels become the result of writing the duty table for the current speed and direction. It fails with `PwmError` exactly when a channel rejects. At speed -32768 it writes `min(32768, max_duty)`, the release-build result of src/driver.rs:203; a debug build panics there. |
| Driver.HBridgeMotorDriver.Initialize | src/driver.rs:234-247 | Drives the enable lines low, then every channel to 0. `initialized` becomes true only when every write went through, and then all lines are low and all duties 0. |
| Driver.HBridgeMotorDriver.SetSpeed | src/driver.rs:249-262 | Before `initialize`: `NotInitialized`, nothing changes. A magnitude above `max_duty`: `InvalidSpeed`, nothing changes. Otherwise it records the speed, sets direction forward exactly when the speed is not negative, and writes the table. The speed invariant is preserved, and on success the channels drive the motor at the speed. At speed -32768 the duty written follows the release build, as in `UpdatePwm`. |
| Driver.HBridgeMotorDriver.SetDirection | src/driver.rs:264-271 | Before `initialize`: `NotInitialized`, nothing changes. Otherwise it stores the direction and writes the table. The speed is never modified. |
| Driver.HBridgeMotorDriver.Stop | src/driver.rs:273-284 | Before `initialize`: `NotInitialized`, nothing changes. Otherwise speed 0 and every present channel written 0, with the direction untouched. |
| Driver.HBridgeMotorDriver.Brake | src/driver.rs:286-299 | Before `initialize`: `NotInitialized`, nothing changes. Otherwise speed 0, with the direction untouched. Both channels go to `max_duty` with a secondary present; otherwise the primary goes to 0. |
| Driver.HBridgeMotorDriver.Enable | src/driver.rs:301-311 | Before `initialize`: `NotInitialized`, nothing changes. Otherwise the primary and any secondary enable line are driven high. |
| Driver.HBridgeMotorDriver.Disable | src/driver.rs:313-323 | Before `initialize`: `NotInitialized`, nothing changes. Otherwise the primary and any secondary enable line are driven low. |
| Driver.HBridgeMotorDriver.GetSpeed | src/driver.rs:325-330 | `NotInitialized` before `initialize`, else the commanded speed, which is within the duty range. |
| Driver.HBridgeMotorDriver.GetDirection | src/driver.rs:332-337 | `NotInitialized` before `initialize`, else the stored direction. |
| Driver.HBridgeMotorDriver.GetFaultStatus | src/driver.rs:357-362 | `NotInitialized` before `initialize`, else 0. |
| Driver.HBridgeMotorDriver.GetSensorReading | src/driver.rs:339-355 | Current, voltage and temperature sensing always report `HardwareFault`. |
| Driver.BrakeTwice | src/driver.rs:286-299 | A second `brake` leaves the channels as the first left them, so both calls give identical duties. The equal results follow from the model's fault behaviour, where a channel that rejects one write rejects every write. |
| Variants.DualTablesAgree | src/driver.rs:208-216 | With two channels, both drivers write the same duties for forward and for reverse. |
| Variants.SingleTablesAgree | src/wrapper.rs:320-327 | With one channel, both drivers write the duty in every direction but Coast. With a nonzero duty, the wrapper's Coast differs from the older driver's table. |
| Variants.BrakeTablesAgree | src/driver.rs:291-298 | Both drivers brake with the same duties, on both topologies. |
| Variants.DirectionRulesAgreeOffZero | src/driver.rs:259 | For a nonzero speed, both drivers set forward exactly when the speed is positive. |
| Variants.DirectionRulesDifferAtZero | src/wrapper.rs:390-394 | At speed 0 the wrapper keeps its direction, so after a reverse command it disagrees with the older driver's forward. |
| Variants.ZeroSpeedScenario | src/driver.rs:249-262 | After -100 then 0 on healthy single-channel hardware, the wrapper reports reverse and the older driver forward. Both leave duty 0. |

## Left out

- The quadrature encoder and the pulses-per-revolution check have no code in `src/driver.rs` or `src/wrapper.rs`; they are not part of this model.
- The `MotorDriver` trait in `src/lib.rs` is declarations only. Both classes provide each of its operations as a member of the same name, except the three sensing stubs: `get_current`, `get_voltage` and `get_temperature` share the single member `GetSensorReading`, since their bodies are identical.
- Each embedded-hal capability's own error value is not modelled: the drivers discard it with `map_err`. A line either accepts every write or rejects every write, so intermittent faults are not modelled.
- The capability's own `max_duty_cycle` is not consulted, as in the drivers: a channel accepts any `u16` duty.
- The sensing stubs return `f32` in the source. The model keeps only their error, because no value is ever produced.
- The `Display` formatter plumbing is left out; only each message's text is modelled.
- The `Default` implementation of the builder and `MotorDriverWrapper::builder` only call `MotorDriverBuilder::new`.
- The example programs and `sample/sample.rs` bind the core to specific boards and are left out.
- Driver.HBridgeMotorDriver.UpdatePwm: at speed -32768 it writes the release-build duty `min(32768, max_duty)` through `Hal.Duty`, so it does not model the debug-build panic, which `Driver.DutyAsWritten` records; `Driver.HBridgeMotorDriver.SetSpeed` inherits this.
- Driver.DutyAsWritten: models a debug build, where the overflow at -32768 panics. In a release build the negation wraps, and the cast then happens to yield 32768.

## Findings

| source | as written | input that shows it | evidently intended | confidence | as-written member | corrected member |
|---|---|---|---|---|---|---|
| src/driver.rs:203 | `-self.current_speed as u16` negates in `i16` before the cast, and `i16` has no 32768 | `set_speed(-32768)` on a driver with `max_duty` 65535: the check at src/driver.rs:254 accepts it, then the negation overflows | duty = `unsigned_abs(speed).min(max_duty)`, as src/wrapper.rs:317 computes it | not executed | Driver.DutyAsWrittenOverflows | Hal.Duty |

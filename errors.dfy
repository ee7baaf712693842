/** The error taxonomy shared by both motor drivers, its display messages, and the
    result type every fallible command returns. */
module Errors {

  /** Every way a motor-driver operation can fail. */
  datatype MotorDriverError =
    | GpioError
    | PwmError
    | InvalidSpeed
    | InvalidConfiguration
    | NotInitialized
    | HardwareFault
    | OverCurrent
    | OverTemperature
    | UnderVoltage
    | OverVoltage
    | CommunicationError

  /** `Result<T, MotorDriverError>`; commands that return nothing use `Result<()>`. */
  datatype Result<T> = Ok(value: T) | Err(error: MotorDriverError)

  /** The `Display` text of each error: every variant has a text, and none is empty. */
  function Message(e: MotorDriverError): (m: string)
    ensures |m| > 0
  {
    match e
    case GpioError => "GPIO control error"
    case PwmError => "PWM control error"
    case InvalidSpeed => "Invalid speed value"
    case InvalidConfiguration => "Invalid configuration"
    case NotInitialized => "Driver not initialized"
    case HardwareFault => "Hardware fault detected"
    case OverCurrent => "Over current condition"
    case OverTemperature => "Over temperature condition"
    case UnderVoltage => "Under voltage condition"
    case OverVoltage => "Over voltage condition"
    case CommunicationError => "Communication error"
  }

  /** The variants in declaration order. */
  const AllErrors: seq<MotorDriverError> :=
    [GpioError, PwmError, InvalidSpeed, InvalidConfiguration, NotInitialized, HardwareFault,
     OverCurrent, OverTemperature, UnderVoltage, OverVoltage, CommunicationError]

  /** The enumeration has exactly eleven variants: each one is listed once in AllErrors. */
  lemma ElevenVariants(e: MotorDriverError)
    ensures |AllErrors| == 11
    ensures e in AllErrors
    ensures forall i, j :: 0 <= i < j < |AllErrors| ==> AllErrors[i] != AllErrors[j]
  {
  }

  /** Every variant has a message of its own: the mapping is injective, so a message
      identifies the error. */
  lemma MessageInjective(a: MotorDriverError, b: MotorDriverError)
    ensures Message(a) == Message(b) ==> a == b
  {
  }

  /** The messages callers see for the errors the drivers actually raise. */
  lemma RaisedMessages()
    ensures Message(NotInitialized) == "Driver not initialized"
    ensures Message(InvalidSpeed) == "Invalid speed value"
    ensures Message(HardwareFault) == "Hardware fault detected"
    ensures Message(GpioError) == "GPIO control error"
    ensures Message(PwmError) == "PWM control error"
  {
  }
}

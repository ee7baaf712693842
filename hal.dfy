/** What both motor drivers share: the Rust integer widths they compute with, the duty
    computation, and the abstract output capabilities (an embedded-hal `OutputPin` or
    `SetDutyCycle` channel) they write through. */
module Hal {
  import opened Errors

  /** Rust's `u16`, `i16` and `u8`. */
  type u16 = x: int | 0 <= x <= 0xFFFF
  type i16 = x: int | -0x8000 <= x <= 0x7FFF
  type u8 = x: int | 0 <= x <= 0xFF

  const U16_MAX: u16 := 0xFFFF
  const I16_MAX: i16 := 0x7FFF

  datatype Option<T> = None | Some(value: T)

  /** `i16::unsigned_abs`: the magnitude as a `u16`, defined for every `i16` including -32768,
      whose magnitude 32768 has no `i16` of its own. */
  function UnsignedAbs(x: i16): (m: u16)
    ensures m as int == x as int || m as int == -(x as int)
    ensures m == 0 <==> x == 0
    ensures m <= 0x8000
  {
    if x < 0 then -(x as int) else x as int
  }

  /** The duty cycle that realises a commanded speed: `speed.unsigned_abs().min(max_duty)`. */
  function Duty(speed: i16, maxDuty: u16): (d: u16)
    ensures d <= maxDuty && d <= UnsignedAbs(speed)
    ensures UnsignedAbs(speed) <= maxDuty ==> d == UnsignedAbs(speed)
    ensures UnsignedAbs(speed) >= maxDuty ==> d == maxDuty
  {
    var magnitude := UnsignedAbs(speed);
    if magnitude < maxDuty then magnitude else maxDuty
  }

  /** One output line as a driver sees it: the last value the hardware accepted, and whether
      the hardware rejects writes (the capability's `set_high`, `set_low` or `set_duty_cycle`
      returns an error). A rejected write leaves the line as it was. */
  datatype Channel<V> = Channel(value: V, faulty: bool)

  /** An enable line: `value` is true when the line was last driven high. */
  type OutputPin = Channel<bool>

  /** A PWM channel: `value` is the last duty cycle set. */
  type PwmOutput = Channel<u16>

  /** One write to one line. */
  function Written<V>(c: Channel<V>, v: V): Channel<V>
  {
    if c.faulty then c else c.(value := v)
  }

  /** No line in the group rejects writes. */
  predicate Healthy<V>(cs: seq<Channel<V>>)
  {
    forall i :: 0 <= i < |cs| ==> !cs[i].faulty
  }

  /** How a chain of enable-line writes ends: a rejected write is a GPIO error. */
  function PinResult(ps: seq<OutputPin>): Result<()>
  {
    if Healthy(ps) then Ok(()) else Err(GpioError)
  }

  /** How a chain of duty-cycle writes ends: a rejected write is a PWM error. */
  function PwmResult(cs: seq<PwmOutput>): Result<()>
  {
    if Healthy(cs) then Ok(()) else Err(PwmError)
  }

  /** Every line of the group holds `v`. */
  predicate AllHold<V(==)>(cs: seq<Channel<V>>, v: V)
  {
    forall i :: 0 <= i < |cs| ==> cs[i].value == v
  }

  /** The writes `vs[0]` to `cs[0]`, `vs[1]` to `cs[1]`, ... issued in order, where a rejected
      write ends the sequence (each write is followed by `?`). The lines keep their fault
      behaviour. */
  function WriteInOrder<V>(cs: seq<Channel<V>>, vs: seq<V>): (r: seq<Channel<V>>)
    requires |vs| == |cs|
    ensures |r| == |cs|
    ensures forall i :: 0 <= i < |r| ==> r[i].faulty == cs[i].faulty
    decreases |cs|
  {
    if cs == [] then []
    else if cs[0].faulty then cs
    else [Written(cs[0], vs[0])] + WriteInOrder(cs[1..], vs[1..])
  }

  /** The same value written to every line of a group, in order. */
  function WriteAll<V>(cs: seq<Channel<V>>, v: V): (r: seq<Channel<V>>)
  {
    WriteInOrder(cs, seq(|cs|, _ => v))
  }

  /** For a group of one or two lines, writing one value to all of them is the explicit chain
      of writes. */
  lemma WriteAllShort<V>(cs: seq<Channel<V>>, v: V)
    ensures |cs| == 1 ==> WriteAll(cs, v) == WriteInOrder(cs, [v])
    ensures |cs| == 2 ==> WriteAll(cs, v) == WriteInOrder(cs, [v, v])
  {
    if |cs| == 1 {
      assert seq(1, _ => v) == [v];
    } else if |cs| == 2 {
      assert seq(2, _ => v) == [v, v];
    }
  }

  /** When no line rejects a write, every line ends up holding exactly the value meant for it. */
  lemma {:induction false} WriteInOrderHealthy<V>(cs: seq<Channel<V>>, vs: seq<V>)
    requires |vs| == |cs| && Healthy(cs)
    ensures forall i :: 0 <= i < |cs| ==> WriteInOrder(cs, vs)[i] == Channel(vs[i], false)
    decreases |cs|
  {
    if cs != [] {
      assert !cs[0].faulty;
      WriteInOrderHealthy(cs[1..], vs[1..]);
      var r := WriteInOrder(cs, vs);
      forall i | 0 <= i < |cs| ensures r[i] == Channel(vs[i], false) {
        if i > 0 {
          assert r[i] == WriteInOrder(cs[1..], vs[1..])[i - 1];
        }
      }
    }
  }

  /** Writing one value to a group that rejects nothing leaves every line at that value. */
  lemma WriteAllHealthy<V>(cs: seq<Channel<V>>, v: V)
    requires Healthy(cs)
    ensures AllHold(WriteAll(cs, v), v) && Healthy(WriteAll(cs, v))
  {
    WriteInOrderHealthy(cs, seq(|cs|, _ => v));
  }

  /** When line `k` is the first to reject a write, the lines before it hold their new values
      and line `k` and every later line are left exactly as they were. */
  lemma {:induction false} WriteInOrderStops<V>(cs: seq<Channel<V>>, vs: seq<V>, k: nat)
    requires |vs| == |cs| && k < |cs| && cs[k].faulty
    requires forall j :: 0 <= j < k ==> !cs[j].faulty
    ensures forall i :: 0 <= i < k ==> WriteInOrder(cs, vs)[i] == Channel(vs[i], false)
    ensures forall i :: k <= i < |cs| ==> WriteInOrder(cs, vs)[i] == cs[i]
    decreases k
  {
    if k > 0 {
      assert !cs[0].faulty;
      WriteInOrderStops(cs[1..], vs[1..], k - 1);
      var r := WriteInOrder(cs, vs);
      forall i | 0 < i < |cs| ensures r[i] == WriteInOrder(cs[1..], vs[1..])[i - 1] {
      }
    }
  }

  /** Issuing the same writes twice leaves the lines as issuing them once does. That this holds
      whichever lines reject writes rests on the model's fault behaviour: a line that rejects one
      write rejects every write. */
  lemma {:induction false} WriteInOrderIdempotent<V>(cs: seq<Channel<V>>, vs: seq<V>)
    requires |vs| == |cs|
    ensures WriteInOrder(WriteInOrder(cs, vs), vs) == WriteInOrder(cs, vs)
    decreases |cs|
  {
    if cs != [] && !cs[0].faulty {
      var r := WriteInOrder(cs, vs);
      WriteInOrderIdempotent(cs[1..], vs[1..]);
      assert r[0] == Channel(vs[0], false);
      assert r[1..] == WriteInOrder(cs[1..], vs[1..]);
    }
  }
}

/// The sensor conversions: the ultrasonic ping with its unit switch, the fixed
/// centimetre reading of UsSensor, and the infrared obstacle sensor
/// (main.ts:597-614, 650-669, 731-737). The echo width measured by pulseIn and
/// the level read from a digital pin are inputs of the model.
module Sensors {
  import opened Hardware

  /** The unit of a ping result (main.ts:76-83). */
  datatype PingUnit = MicroSeconds | Centimeters | Inches

  /** The trigger pulse both ultrasonic readers send: low, 2 µs, high, 10 µs, low. */
  function TriggerPulse(trig: int): seq<Event>
  {
    [PinWrite(trig, 0), DelayMicros(2), PinWrite(trig, 1), DelayMicros(10), PinWrite(trig, 0)]
  }

  /** The pin traffic of ping (main.ts:599-607): release the pull, trigger, then time the echo for at most 58 µs per centimetre. */
  function PingTraffic(trig: int, echo: int, maxCmDistance: int): (t: seq<Event>)
    ensures |t| == 7 && t[6] == PulseIn(echo, Some(maxCmDistance * 58))
  {
    [PullNone(trig)] + TriggerPulse(trig) + [PulseIn(echo, Some(maxCmDistance * 58))]
  }

  /**
   * ping's result for an echo of `width` µs (main.ts:609-613): the width itself,
   * whole centimetres at 58 µs each, or whole inches at 148 µs each.
   */
  function PingResult(width: nat, unit: PingUnit): (d: nat)
    ensures unit == MicroSeconds ==> d == width
    ensures unit == Centimeters ==> 58 * d <= width < 58 * (d + 1)
    ensures unit == Inches ==> 148 * d <= width < 148 * (d + 1)
  {
    match unit
    case Centimeters => TruncDiv(width, 58)
    case Inches => TruncDiv(width, 148)
    case MicroSeconds => width
  }

  /** A longer echo never reads as a shorter distance, in any unit. */
  lemma PingMonotone(w1: nat, w2: nat, unit: PingUnit)
    requires w1 <= w2
    ensures PingResult(w1, unit) <= PingResult(w2, unit)
  {
    var d1 := PingResult(w1, unit);
    var d2 := PingResult(w2, unit);
    if unit == Centimeters {
      assert 58 * d1 <= w1 <= w2 < 58 * (d2 + 1);
    } else if unit == Inches {
      assert 148 * d1 <= w1 <= w2 < 148 * (d2 + 1);
    }
  }

  /** The pin traffic of UsSensor (main.ts:651-656): the same trigger, no pull change, and pulseIn with the platform's default limit. */
  function UsSensorTraffic(trig: int, echo: int): seq<Event>
  {
    TriggerPulse(trig) + [PulseIn(echo, None)]
  }

  /** Neither ultrasonic reader calls basic.pause: their waits are busy waits. */
  lemma SensorTrafficQuiet(trig: int, echo: int, maxCmDistance: int)
    ensures Quiet(PingTraffic(trig, echo, maxCmDistance))
    ensures Quiet(UsSensorTraffic(trig, echo))
  {
  }

  /** UsSensor's reading: the echo width divided by 58, toward zero (main.ts:656). */
  function UsSensorResult(width: nat): (d: nat)
    ensures 58 * d <= width < 58 * d + 58
  {
    TruncDiv(width, 58)
  }

  /**
   * UsSensor reads what ping reads in centimetres, and sends ping's traffic minus
   * the pull release, with the default limit instead of ping's.
   */
  lemma UsSensorIsPingInCm(width: nat, trig: int, echo: int, maxCmDistance: int)
    ensures UsSensorResult(width) == PingResult(width, Centimeters)
    ensures PingTraffic(trig, echo, maxCmDistance)[1..6] == UsSensorTraffic(trig, echo)[..5]
    ensures PingTraffic(trig, echo, maxCmDistance)[0] == PullNone(trig)
  {
  }

  /** IrSensor (main.ts:666-669): the sensor sees something when its pin reads 0. */
  predicate IrSensor(level: int)
  {
    level == 0
  }

  /** The level irSensorTrigger writes to its output pin (main.ts:731-737). */
  function TriggerLevel(level: int): (out: int)
    ensures level == 0 || level == 1 ==> out == 1 - level
    ensures out == 0 || out == 1
    ensures out == 1 <==> level == 0
  {
    if IrSensor(level) then 1 else 0
  }
}

/// What the robot library can observe and change: the sixteen PWM channels of
/// the PCA9685 expander and an append-only record of every bus transfer, delay
/// and pin access the library performs. Also the numeric conventions of the
/// MakeCode runtime that the library relies on (numbers are truncated toward
/// zero when stored as integers).
module Hardware {

  datatype Option<T> = None | Some(value: T)

  /** One channel's LEDn_ON and LEDn_OFF register pairs, read back as two 16-bit words. */
  datatype Duty = Duty(on: int, off: int)

  /** A channel with both counts zero: the output stays low. */
  const Stopped: Duty := Duty(0, 0)

  /** The register bank of the expander: channels 0 to 15. */
  type Bank = b: seq<Duty> | |b| == 16 witness seq(16, _ => Duty(0, 0))

  /** One action of the library that the outside world sees. */
  datatype Event =
    | PwmWrite(channel: int, on: int, off: int) // setPwm's five-byte buffer to 0x40 (Pca9685.PwmFrame)
    | BusWrite(bytes: seq<int>)           // any other buffer sent to the expander at address 0x40
    | BusRead(register: int)              // register select followed by a one-byte read
    | DelayMicros(us: int)                // busy wait of control.waitMicros
    | Delay(ms: real)                     // basic.pause
    | PullNone(pin: int)                  // pins.setPull(pin, PullNone)
    | PinWrite(pin: int, level: int)      // pins.digitalWritePin
    | PinRead(pin: int)                   // pins.digitalReadPin
    | PulseIn(pin: int, limit: Option<int>) // pins.pulseIn, None: the platform's default limit

  /** Sum of the basic.pause durations in a record, in milliseconds. */
  function PauseTotal(log: seq<Event>): real
  {
    if log == [] then 0.0
    else
      PauseTotal(log[..|log| - 1]) +
      (match log[|log| - 1] case Delay(ms) => ms case _ => 0.0)
  }

  lemma {:induction false} PauseTotalAppend(a: seq<Event>, b: seq<Event>)
    ensures PauseTotal(a + b) == PauseTotal(a) + PauseTotal(b)
    decreases |b|
  {
    if b == [] {
      assert a + b == a;
    } else {
      var b' := b[..|b| - 1];
      assert (a + b)[..|a + b| - 1] == a + b';
      assert (a + b)[|a + b| - 1] == b[|b| - 1];
      PauseTotalAppend(a, b');
    }
  }

  /** Regrouping a record: appending two parts one after the other appends their concatenation. */
  lemma Regroup(a: seq<Event>, b: seq<Event>, c: seq<Event>)
    ensures a + b + c == a + (b + c)
  {
  }

  /** No event of the sequence is a basic.pause. */
  predicate Quiet(events: seq<Event>)
  {
    forall i :: 0 <= i < |events| ==> !events[i].Delay?
  }

  lemma {:induction false} QuietTotal(events: seq<Event>)
    requires Quiet(events)
    ensures PauseTotal(events) == 0.0
    decreases |events|
  {
    if events != [] {
      QuietTotal(events[..|events| - 1]);
    }
  }

  /** A pause-free prefix adds nothing to the paused time of what follows it. */
  lemma QuietPrefix(a: seq<Event>, b: seq<Event>)
    requires Quiet(a)
    ensures PauseTotal(a + b) == PauseTotal(b)
  {
    QuietTotal(a);
    PauseTotalAppend(a, b);
  }

  /** A pause after pause-free events: the record pauses for exactly that long. */
  lemma QuietThenDelay(q: seq<Event>, ms: real)
    requires Quiet(q)
    ensures PauseTotal(q + [Delay(ms)]) == ms
  {
    QuietPrefix(q, [Delay(ms)]);
    assert [Delay(ms)][..0] == [];
  }

  /** Pause-free events before and after a record add nothing to its paused time. */
  lemma QuietBracket(a: seq<Event>, x: seq<Event>)
    requires Quiet(a)
    ensures PauseTotal(a + (x + a)) == PauseTotal(x)
  {
    QuietTotal(a);
    PauseTotalAppend(x, a);
    QuietPrefix(a, x + a);
  }

  /** A real number converted to an integer the way a byte store or `| 0` converts it: toward zero. */
  function Trunc(x: real): (n: int)
    ensures x >= 0.0 ==> n as real <= x < n as real + 1.0
    ensures x < 0.0 ==> n as real - 1.0 < x <= n as real
  {
    if x >= 0.0 then x.Floor else -((-x).Floor)
  }

  /** Integer division truncating toward zero, as Math.idiv and a byte store of a quotient do. */
  function TruncDiv(a: int, b: int): (q: int)
    requires b > 0
  {
    if a >= 0 then a / b else -((-a) / b)
  }

  /** Math.abs on integers. */
  function Magnitude(x: int): nat
  {
    if x < 0 then -x else x
  }
}

/// The PWM driver: the one-time initialisation of the PCA9685 expander, its
/// frequency (prescale) programming, and the raw write of one channel's
/// on/off counts (main.ts:146-200).
module Pca9685 {
  import opened Hardware

  /** Register addresses used by the library (main.ts:18-24). */
  const MODE1: int := 0x00
  const PRESCALE: int := 0xFE
  const LED0_ON_L: int := 0x06

  /** The frequency initialisation always programs, in Hz (main.ts:169). */
  const OperatingFrequency: int := 50

  /** MODE1 bits: ALLCALL, SLEEP, AI (auto-increment) and RESTART. */
  const ALLCALL: bv8 := 0x01
  const SLEEP: bv8 := 0x10
  const AI: bv8 := 0x20
  const RESTART: bv8 := 0x80

  /** `v & 0xff` for an integer `v`. */
  function Lo(v: int): (b: int)
    ensures 0 <= b < 256
    ensures 0 <= v < 256 ==> b == v
  {
    v % 256
  }

  /** `(v >> 8) & 0xff` for an integer `v`: the arithmetic shift is division by 256 rounding down. */
  function Hi(v: int): (b: int)
    ensures 0 <= b < 256
  {
    (v / 256) % 256
  }

  /** The low and high bytes of a number rebuild it modulo 2^16: what a register pair holds after both are written. */
  lemma WordRoundTrip(v: int)
    ensures Lo(v) + 256 * Hi(v) == v % 65536
  {
    var q := v / 256;
    var l := v % 256;
    var h := q % 256;
    var q2 := q / 256;
    assert v == 256 * q + l;
    assert q == 256 * q2 + h;
    assert v == 65536 * q2 + (256 * h + l);
    assert 0 <= 256 * h + l < 65536;
  }

  /** The five bytes setPwm sends: the channel's LEDn_ON_L address, then on and off, low byte first. */
  function PwmFrame(channel: int, on: int, off: int): seq<int>
  {
    [LED0_ON_L + 4 * channel, Lo(on), Hi(on), Lo(off), Hi(off)]
  }

  /** How the expander reads a five-byte frame: a channel number and the register words it latches. */
  function DecodeFrame(bytes: seq<int>): Option<(int, Duty)>
  {
    if |bytes| == 5 && bytes[0] >= LED0_ON_L && (bytes[0] - LED0_ON_L) % 4 == 0
    then Some(((bytes[0] - LED0_ON_L) / 4, Duty(bytes[1] + 256 * bytes[2], bytes[3] + 256 * bytes[4])))
    else None
  }

  /** setPwm's frame names its channel and decodes back to the counts, modulo 2^16. */
  lemma FrameRoundTrip(channel: int, on: int, off: int)
    requires 0 <= channel < 16
    ensures DecodeFrame(PwmFrame(channel, on, off)) == Some((channel, Duty(on % 65536, off % 65536)))
  {
    WordRoundTrip(on);
    WordRoundTrip(off);
  }

  /**
   * The bank after setPwm (main.ts:189-200): a channel outside 0..15 is ignored;
   * otherwise the channel latches the two 16-bit words its frame encodes (FrameRoundTrip).
   */
  function WithChannel(b: Bank, channel: int, on: int, off: int): (r: Bank)
    ensures !(0 <= channel < 16) ==> r == b
    ensures 0 <= channel < 16 ==> r[channel] == Duty(on % 65536, off % 65536)
  {
    if channel < 0 || channel > 15 then b else b[channel := Duty(on % 65536, off % 65536)]
  }

  /** setPwm touches only its own channel. */
  lemma WithChannelFrame(b: Bank, channel: int, on: int, off: int)
    ensures forall c :: 0 <= c < 16 && c != channel ==> WithChannel(b, channel, on, off)[c] == b[c]
  {
  }

  /** A second setPwm of the same channel replaces the first: the last write wins. */
  lemma WithChannelOverwrite(b: Bank, channel: int, on: int, off: int, on2: int, off2: int)
    ensures WithChannel(WithChannel(b, channel, on, off), channel, on2, off2) == WithChannel(b, channel, on2, off2)
  {
    if 0 <= channel < 16 {
      var x := WithChannel(WithChannel(b, channel, on, off), channel, on2, off2);
      var y := WithChannel(b, channel, on2, off2);
      assert forall c | 0 <= c < 16 :: x[c] == y[c];
    }
  }

  /** The bus traffic of setPwm: one five-byte frame for a channel in 0..15, nothing otherwise. */
  function PwmTraffic(channel: int, on: int, off: int): seq<Event>
  {
    if channel < 0 || channel > 15 then [] else [PwmWrite(channel, on, off)]
  }

  /** The MODE1 value written to put the oscillator to sleep: RESTART cleared, SLEEP set, the rest kept. */
  function SleepMode(mode: bv8): (m: bv8)
    ensures m & SLEEP == SLEEP && m & RESTART == 0
    ensures m & !(SLEEP | RESTART) == mode & !(SLEEP | RESTART)
  {
    (mode & 0x7F) | 0x10
  }

  /** The MODE1 value written last: RESTART, AI and ALLCALL set, the rest kept. */
  function RestartMode(mode: bv8): (m: bv8)
    ensures m & (RESTART | AI | ALLCALL) == RESTART | AI | ALLCALL
    ensures m & !(RESTART | AI | ALLCALL) == mode & !(RESTART | AI | ALLCALL)
  {
    mode | 0xa1
  }

  /** The prescale as computed: 25 MHz / 4096 / freq - 1, without rounding (main.ts:175-179). */
  function PrescaleValue(freq: int): real
    requires freq > 0
  {
    25000000.0 / 4096.0 / freq as real - 1.0
  }

  /** A number stored into a byte of a buffer: truncated toward zero, then its low eight bits. */
  function StoreByte(x: real): (b: int)
    ensures 0 <= b < 256
  {
    Trunc(x) % 256
  }

  /** The prescale byte the expander receives for a frequency. */
  function PrescaleByte(freq: int): (b: int)
    requires freq > 0
    ensures 0 <= b < 256
  {
    StoreByte(PrescaleValue(freq))
  }

  /**
   * For every frequency the formula keeps non-negative, the byte written is the
   * integer quotient 25000000 / (4096 * freq) minus one: the fraction is dropped, not rounded.
   */
  lemma PrescaleIsFloor(freq: int)
    requires 24 <= freq <= 6103
    ensures PrescaleByte(freq) == 25000000 / (4096 * freq) - 1
  {
    var n := 4096 * freq;
    var q := 25000000 / n;
    RealQuotientFloor(25000000, n);
    var x := 25000000.0 / 4096.0 / freq as real;
    assert x == 25000000.0 / n as real;
    assert 1 <= q <= 254;
    assert q as real <= x < q as real + 1.0;
    assert Trunc(x - 1.0) == q - 1;
  }

  lemma RealQuotientFloor(a: int, n: int)
    requires a >= 0 && n > 0
    ensures var x := a as real / n as real; (a / n) as real <= x < (a / n) as real + 1.0
  {
    var q := a / n;
    var rem := a % n;
    var x := a as real / n as real;
    assert a == q * n + rem;
    assert a as real == q as real * n as real + rem as real;
    var d := x - q as real;
    assert d * n as real == rem as real;
    assert (d - 1.0) * n as real == rem as real - n as real;
    SignOfFactor(d, n as real);
    SignOfFactor(d - 1.0, n as real);
  }

  lemma SignOfFactor(d: real, m: real)
    requires m > 0.0
    ensures d * m < 0.0 ==> d < 0.0
    ensures d * m >= 0.0 ==> d >= 0.0
  {
  }

  /** At the operating frequency of 50 Hz the prescale byte is 121 (25e6 / 4096 / 50 - 1 = 121.07). */
  lemma PrescaleAtOperatingFrequency()
    ensures PrescaleByte(OperatingFrequency) == 121
  {
    assert PrescaleValue(50) == 121.0703125;
  }

  /**
   * The bus traffic of setFreq (main.ts:173-187) when the expander answers `mode`
   * to the MODE1 read: read MODE1, write it back with SLEEP set, write PRESCALE,
   * restore MODE1, wait 5000 microseconds, then set RESTART|AI|ALLCALL.
   */
  function FreqTraffic(mode: bv8, freq: int): seq<Event>
    requires freq > 0
  {
    [
      BusRead(MODE1),
      BusWrite([MODE1, SleepMode(mode) as int]),
      BusWrite([PRESCALE, PrescaleByte(freq)]),
      BusWrite([MODE1, mode as int]),
      DelayMicros(5000),
      BusWrite([MODE1, RestartMode(mode) as int])]
  }

  /** The bus traffic of initPCA9685 (main.ts:167-171): clear MODE1, then program 50 Hz. */
  function InitTraffic(mode: bv8): (t: seq<Event>)
  {
    [BusWrite([MODE1, 0x00])] + FreqTraffic(mode, OperatingFrequency)
  }

  /**
   * Initialisation sends exactly these seven events, with prescale 121; it writes
   * no channel, and its only wait is the busy wait, so it adds nothing to the paused time.
   */
  lemma InitTrafficExplicit(mode: bv8)
    ensures InitTraffic(mode) ==
      [ BusWrite([MODE1, 0x00]),
        BusRead(MODE1),
        BusWrite([MODE1, SleepMode(mode) as int]),
        BusWrite([PRESCALE, 121]),
        BusWrite([MODE1, mode as int]),
        DelayMicros(5000),
        BusWrite([MODE1, RestartMode(mode) as int]) ]
    ensures PauseTotal(InitTraffic(mode)) == 0.0
  {
    PrescaleAtOperatingFrequency();
    QuietTotal(InitTraffic(mode));
  }

  /**
   * The `if (!initialized) initPCA9685()` guard of every actuator entry point:
   * initialisation traffic when the flag is still clear, nothing once it is set.
   */
  function InitGuard(initialized: bool, mode: bv8): (t: seq<Event>)
    ensures initialized ==> t == []
  {
    if initialized then [] else InitTraffic(mode)
  }

  /** Neither setPwm nor the initialisation guard ever calls basic.pause. */
  lemma RegisterTrafficQuiet(initialized: bool, mode: bv8, channel: int, on: int, off: int)
    ensures Quiet(PwmTraffic(channel, on, off))
    ensures Quiet(InitGuard(initialized, mode))
  {
    InitTrafficExplicit(mode);
  }
}

/// Actuator encoders: how a servo angle, a DC motor's direction and speed, and
/// a stepper group's commutation state become channel writes
/// (main.ts:33-56, 203-311, 530-533). Each operation is given by the bank it
/// leaves and the bus traffic it sends; the robot's methods follow both.
module Actuators {
  import opened Hardware
  import opened Pca9685

  /** Motor direction (main.ts:112-117): CW stands for +1, CCW for -1. */
  datatype Dir = CW | CCW

  function Sign(d: Dir): int
  {
    if d == CW then 1 else -1
  }

  // ---------------------------------------------------------------- servos

  /** The channel of servo slot `index`; the slots are numbered so that S1 (0x08) is channel 15 and S8 (0x01) channel 8. */
  function ServoChannel(index: int): int
  {
    index + 7
  }

  /**
   * The off-count for a servo angle: a pulse of 600 + 10 * degree microseconds
   * in a 20000-microsecond period of 4096 ticks, truncated by the byte store.
   */
  function ServoOff(degree: int): (v: int)
    ensures 0 <= degree <= 180 ==> 122 <= v <= 491
    ensures degree == 0 ==> v == 122
    ensures degree == 180 ==> v == 491
  {
    TruncDiv((degree * 1800 / 180 + 600) * 4096, 20000)
  }

  /** Each further degree adds 2.048 ticks, so the off-count rises by at least two per degree. */
  lemma ServoOffIncreasing(d1: int, d2: int)
    requires 0 <= d1 < d2 <= 180
    ensures ServoOff(d1) + 2 <= ServoOff(d2)
  {
    var n1 := (d1 * 1800 / 180 + 600) * 4096;
    var n2 := (d2 * 1800 / 180 + 600) * 4096;
    assert d1 * 1800 / 180 == 10 * d1 && d2 * 1800 / 180 == 10 * d2;
    assert n2 - n1 == 40960 * (d2 - d1) >= 40960;
  }

  /** The frame servo(index, degree) sends once the expander is initialised (main.ts:274-276). */
  function ServoTraffic(index: int, degree: int): (t: seq<Event>)
    ensures 1 <= index <= 8 ==> t == [PwmWrite(ServoChannel(index), 0, ServoOff(degree))]
  {
    PwmTraffic(ServoChannel(index), 0, ServoOff(degree))
  }

  /** The traffic of one servo call: the initialisation guard, then the slot's frame. */
  function ServoCallTraffic(initialized: bool, mode: bv8, index: int, degree: int): seq<Event>
  {
    InitGuard(initialized, mode) + ServoTraffic(index, degree)
  }

  /** A servo call never pauses. */
  lemma ServoCallQuiet(initialized: bool, mode: bv8, index: int, degree: int)
    ensures Quiet(ServoCallTraffic(initialized, mode, index, degree))
  {
    RegisterTrafficQuiet(initialized, mode, ServoChannel(index), 0, ServoOff(degree));
  }

  /**
   * servo on a slot S1..S8 with an angle in 0..180 writes (0, ServoOff(degree)) to
   * one of the channels 8..15 and nothing else: servos never disturb a motor channel.
   */
  lemma ServoWritesOneChannel(b: Bank, index: int, degree: int)
    requires 1 <= index <= 8 && 0 <= degree <= 180
    ensures 8 <= ServoChannel(index) <= 15
    ensures WithChannel(b, ServoChannel(index), 0, ServoOff(degree)) == b[ServoChannel(index) := Duty(0, ServoOff(degree))]
  {
    var r := WithChannel(b, ServoChannel(index), 0, ServoOff(degree));
    assert r[ServoChannel(index)] == Duty(0, ServoOff(degree));
  }

  // ------------------------------------------------------------- DC motors

  /** `speed * 16 * direction`, then clamped into [-4095, 4095] (main.ts:293-299). */
  function SignedDuty(speed: real, dir: Dir): (v: real)
    ensures -4096.0 < v < 4096.0
  {
    var raw := if dir == CW then speed * 16.0 else -(speed * 16.0);
    if raw >= 4096.0 then 4095.0 else if raw <= -4096.0 then -4095.0 else raw
  }

  /** The off-count a motor's odd channel receives: the signed duty when it is not negative. */
  function ForwardCount(speed: real, dir: Dir): (n: int)
    ensures 0 <= n <= 4095
  {
    var v := SignedDuty(speed, dir);
    if v >= 0.0 then Trunc(v) else 0
  }

  /** The off-count a motor's even channel receives: the magnitude of a negative signed duty. */
  function ReverseCount(speed: real, dir: Dir): (n: int)
    ensures 0 <= n <= 4095
    ensures n > 0 ==> ForwardCount(speed, dir) == 0
  {
    var v := SignedDuty(speed, dir);
    if v >= 0.0 then 0 else Trunc(-v)
  }

  /**
   * For a whole-number speed the two counts are the clamped product 16 * speed * direction,
   * split by sign: never both non-zero, and within the 12-bit range.
   */
  lemma IntegerSpeedCounts(speed: int, dir: Dir)
    ensures var m := 16 * speed * Sign(dir);
      var c := if m > 4095 then 4095 else if m < -4095 then -4095 else m;
      && ForwardCount(speed as real, dir) == (if c >= 0 then c else 0)
      && ReverseCount(speed as real, dir) == (if c >= 0 then 0 else -c)
  {
    var raw := if dir == CW then speed as real * 16.0 else -(speed as real * 16.0);
    assert raw == (16 * speed * Sign(dir)) as real;
  }

  /** A motor's even channel, `pn = (4 - index) * 2`. */
  function NegativeChannel(index: int): int
  {
    (4 - index) * 2
  }

  /** A motor's odd channel, `pp = (4 - index) * 2 + 1`. */
  function PositiveChannel(index: int): int
  {
    (4 - index) * 2 + 1
  }

  /** Whether `c` is one of motor `index`'s two channels: M1 has 6 and 7, M2 4 and 5, M3 2 and 3, M4 0 and 1. */
  predicate OnMotor(index: int, c: int)
  {
    c == NegativeChannel(index) || c == PositiveChannel(index)
  }

  /**
   * The bank after MotorRun (main.ts:300-310): for a motor 1..4 the odd channel
   * gets the forward count and the even channel the reverse count, both with on = 0;
   * for any other index no channel changes.
   */
  function RunBank(b: Bank, index: int, dir: Dir, speed: real): (r: Bank)
  {
    if index > 4 || index <= 0 then b
    else WithChannel(WithChannel(b, PositiveChannel(index), 0, ForwardCount(speed, dir)),
                     NegativeChannel(index), 0, ReverseCount(speed, dir))
  }

  /** MotorRun on a motor 1..4 sets exactly that motor's two channels; any other index changes nothing. */
  lemma RunEffect(b: Bank, index: int, dir: Dir, speed: real)
    ensures var r := RunBank(b, index, dir, speed);
      forall c :: 0 <= c < 16 ==>
        r[c] == (if 1 <= index <= 4 && c == PositiveChannel(index) then Duty(0, ForwardCount(speed, dir))
                 else if 1 <= index <= 4 && c == NegativeChannel(index) then Duty(0, ReverseCount(speed, dir))
                 else b[c])
  {
  }

  /** The frames MotorRun sends after the initialisation guard: odd channel first, then even. */
  function RunTraffic(index: int, dir: Dir, speed: real): (t: seq<Event>)
    ensures !(1 <= index <= 4) ==> t == []
  {
    if index > 4 || index <= 0 then []
    else
      PwmTraffic(PositiveChannel(index), 0, ForwardCount(speed, dir))
        + PwmTraffic(NegativeChannel(index), 0, ReverseCount(speed, dir))
  }

  /** The traffic of one MotorRun call: the initialisation guard, then the motor's frames. */
  function MotorRunTraffic(initialized: bool, mode: bv8, index: int, dir: Dir, speed: real): seq<Event>
  {
    InitGuard(initialized, mode) + RunTraffic(index, dir, speed)
  }

  /** A MotorRun call never pauses. */
  lemma MotorRunQuiet(initialized: bool, mode: bv8, index: int, dir: Dir, speed: real)
    ensures Quiet(MotorRunTraffic(initialized, mode, index, dir, speed))
  {
    RegisterTrafficQuiet(initialized, mode, 0, 0, 0);
  }

  /** The bank after motorStop (main.ts:530-533): both channels of the motor zeroed, through setPwm's guard only. */
  function StopBank(b: Bank, index: int): (r: Bank)
  {
    WithChannel(WithChannel(b, NegativeChannel(index), 0, 0), PositiveChannel(index), 0, 0)
  }

  /** motorStop zeroes the motor's two channels (those that exist) and no other. */
  lemma StopEffect(b: Bank, index: int)
    ensures var r := StopBank(b, index);
      forall c :: 0 <= c < 16 ==> r[c] == if OnMotor(index, c) then Stopped else b[c]
  {
  }

  /** The frames motorStop sends: even channel first. */
  function StopTraffic(index: int): (t: seq<Event>)
    ensures 1 <= index <= 4 ==>
      t == [PwmWrite(NegativeChannel(index), 0, 0), PwmWrite(PositiveChannel(index), 0, 0)]
  {
    PwmTraffic(NegativeChannel(index), 0, 0) + PwmTraffic(PositiveChannel(index), 0, 0)
  }

  /** Stopping a motor right after running it leaves the bank as stopping it alone would. */
  lemma StopUndoesRun(b: Bank, index: int, dir: Dir, speed: real)
    ensures StopBank(RunBank(b, index, dir, speed), index) == StopBank(b, index)
  {
    var x := StopBank(RunBank(b, index, dir, speed), index);
    var y := StopBank(b, index);
    forall c | 0 <= c < 16
      ensures x[c] == y[c]
    {
    }
  }

  // -------------------------------------------------------------- steppers

  /** One coil write of a stepper phase table. */
  datatype Coil = Coil(channel: int, duty: Duty)

  /** The 28BYJ-48 coil constants (main.ts:33-43). */
  const STP_CHA: Duty := Duty(2047, 4095)
  const STP_CHB: Duty := Duty(1, 2047)
  const STP_CHC: Duty := Duty(1023, 3071)
  const STP_CHD: Duty := Duty(3071, 1023)

  /** The 42BYGH1861A-C coil constants (main.ts:46-56). */
  const BYG_CHA: Duty := Duty(3071, 1023)
  const BYG_CHB: Duty := Duty(1023, 3071)
  const BYG_CHC: Duty := Duty(4095, 2047)
  const BYG_CHD: Duty := Duty(2047, 4095)

  /** setStepper_28's writes, in order (main.ts:203-229). */
  function Phase28(index: int, forward: bool): seq<Coil>
  {
    if index == 1 then
      if forward then [Coil(4, STP_CHA), Coil(6, STP_CHB), Coil(5, STP_CHC), Coil(7, STP_CHD)]
      else [Coil(7, STP_CHA), Coil(5, STP_CHB), Coil(6, STP_CHC), Coil(4, STP_CHD)]
    else
      if forward then [Coil(0, STP_CHA), Coil(2, STP_CHB), Coil(1, STP_CHC), Coil(3, STP_CHD)]
      else [Coil(3, STP_CHA), Coil(1, STP_CHB), Coil(2, STP_CHC), Coil(0, STP_CHD)]
  }

  /** setStepper_42's writes, in order (main.ts:232-258). */
  function Phase42(index: int, forward: bool): seq<Coil>
  {
    if index == 1 then
      if forward then [Coil(7, BYG_CHA), Coil(6, BYG_CHB), Coil(5, BYG_CHC), Coil(4, BYG_CHD)]
      else [Coil(7, BYG_CHC), Coil(6, BYG_CHD), Coil(5, BYG_CHA), Coil(4, BYG_CHB)]
    else
      if forward then [Coil(3, BYG_CHA), Coil(2, BYG_CHB), Coil(1, BYG_CHC), Coil(0, BYG_CHD)]
      else [Coil(3, BYG_CHC), Coil(2, BYG_CHD), Coil(1, BYG_CHA), Coil(0, BYG_CHB)]
  }

  /** Whether `c` belongs to stepper group `index`: motors 1 and 2 (channels 4..7) for group 1, motors 3 and 4 (0..3) for any other. */
  predicate InGroup(index: int, c: int)
  {
    if index == 1 then 4 <= c <= 7 else 0 <= c <= 3
  }

  /** Whether one of the four writes of a table goes to channel `c`. */
  predicate Writes(t: seq<Coil>, c: int)
    requires |t| == 4
  {
    c == t[0].channel || c == t[1].channel || c == t[2].channel || c == t[3].channel
  }

  /** A table whose four writes go to distinct channels of the bank, with counts that fit a register pair. */
  predicate WellFormedTable(t: seq<Coil>)
  {
    && |t| == 4
    && (forall i :: 0 <= i < 4 ==> 0 <= t[i].channel < 16)
    && (forall i :: 0 <= i < 4 ==> 0 <= t[i].duty.on < 65536 && 0 <= t[i].duty.off < 65536)
    && (forall i, j :: 0 <= i < j < 4 ==> t[i].channel != t[j].channel)
  }

  /** A table whose channels are `lo`, `lo + 1`, `lo + 2` and `lo + 3` in some order writes exactly those four. */
  lemma CoversBlock(t: seq<Coil>, lo: int)
    requires |t| == 4 && 0 <= lo <= 12
    requires forall i :: 0 <= i < 4 ==> lo <= t[i].channel <= lo + 3
    requires forall i :: 0 <= i < 4 ==> 0 <= t[i].duty.on < 65536 && 0 <= t[i].duty.off < 65536
    requires forall i, j :: 0 <= i < j < 4 ==> t[i].channel != t[j].channel
    ensures WellFormedTable(t)
    ensures forall c :: Writes(t, c) <==> lo <= c <= lo + 3
  {
  }

  /** The 28-family table is well formed and writes exactly the group's four channels. */
  lemma Phase28CoversGroup(index: int, forward: bool)
    ensures WellFormedTable(Phase28(index, forward))
    ensures forall c :: Writes(Phase28(index, forward), c) <==> InGroup(index, c)
  {
    CoversBlock(Phase28(index, forward), if index == 1 then 4 else 0);
  }

  /** The 42-family table is well formed and writes exactly the group's four channels. */
  lemma Phase42CoversGroup(index: int, forward: bool)
    ensures WellFormedTable(Phase42(index, forward))
    ensures forall c :: Writes(Phase42(index, forward), c) <==> InGroup(index, c)
  {
    CoversBlock(Phase42(index, forward), if index == 1 then 4 else 0);
  }

  /** Reversing a 28-family group mirrors its wiring: the same coil values go to the channels in reverse order within the group. */
  lemma Reverse28Mirrors(index: int)
    ensures forall i :: 0 <= i < 4 ==>
      && Phase28(index, false)[i].duty == Phase28(index, true)[i].duty
      && Phase28(index, false)[i].channel == (if index == 1 then 11 else 3) - Phase28(index, true)[i].channel
  {
  }

  /** Reversing a 42-family group keeps the channel order and advances each channel's coil value by two table steps. */
  lemma Reverse42Advances(index: int)
    ensures forall i :: 0 <= i < 4 ==>
      && Phase42(index, false)[i].channel == Phase42(index, true)[i].channel
      && Phase42(index, false)[i].duty == Phase42(index, true)[(i + 2) % 4].duty
  {
    var f := Phase42(index, true);
    var b := Phase42(index, false);
    forall i | 0 <= i < 4
      ensures b[i].channel == f[i].channel && b[i].duty == f[(i + 2) % 4].duty
    {
      if i == 0 {
        assert (i + 2) % 4 == 2;
      } else if i == 1 {
        assert (i + 2) % 4 == 3;
      } else if i == 2 {
        assert (i + 2) % 4 == 0;
      } else {
        assert (i + 2) % 4 == 1;
      }
    }
  }

  /** The bank after the four writes of a table, one setPwm(channel, on, off) each, in order. */
  function EnergizeBank(b: Bank, t: seq<Coil>): Bank
    requires |t| == 4
  {
    var b1 := WithChannel(b, t[0].channel, t[0].duty.on, t[0].duty.off);
    var b2 := WithChannel(b1, t[1].channel, t[1].duty.on, t[1].duty.off);
    var b3 := WithChannel(b2, t[2].channel, t[2].duty.on, t[2].duty.off);
    WithChannel(b3, t[3].channel, t[3].duty.on, t[3].duty.off)
  }

  /** The four frames of a table, in order. */
  function EnergizeTraffic(t: seq<Coil>): seq<Event>
    requires |t| == 4
  {
    PwmTraffic(t[0].channel, t[0].duty.on, t[0].duty.off)
      + PwmTraffic(t[1].channel, t[1].duty.on, t[1].duty.off)
      + PwmTraffic(t[2].channel, t[2].duty.on, t[2].duty.off)
      + PwmTraffic(t[3].channel, t[3].duty.on, t[3].duty.off)
  }

  /** A phase write never pauses. */
  lemma EnergizeQuiet(t: seq<Coil>)
    requires |t| == 4
    ensures Quiet(EnergizeTraffic(t))
  {
  }

  /** A well-formed table sets each of its channels to its counts and leaves every other channel alone. */
  lemma EnergizeEffect(b: Bank, t: seq<Coil>)
    requires WellFormedTable(t)
    ensures forall c :: 0 <= c < 16 && !Writes(t, c) ==> EnergizeBank(b, t)[c] == b[c]
    ensures forall i :: 0 <= i < 4 ==> EnergizeBank(b, t)[t[i].channel] == t[i].duty
  {
    var d := seq(4, i requires 0 <= i < 4 => Duty(t[i].duty.on % 65536, t[i].duty.off % 65536));
    forall i | 0 <= i < 4 ensures d[i] == t[i].duty { }
    assert EnergizeBank(b, t) ==
      b[t[0].channel := d[0]][t[1].channel := d[1]][t[2].channel := d[2]][t[3].channel := d[3]];
  }

  /**
   * A phase write touches exactly the group's channels: every one of them is
   * energised (no channel of the group is left stopped) and the rest of the bank is unchanged.
   */
  lemma PhaseWriteConfined(b: Bank, index: int, forward: bool)
    ensures forall c :: 0 <= c < 16 && !InGroup(index, c) ==>
      EnergizeBank(b, Phase28(index, forward))[c] == b[c] && EnergizeBank(b, Phase42(index, forward))[c] == b[c]
    ensures forall c :: InGroup(index, c) ==>
      EnergizeBank(b, Phase28(index, forward))[c] != Stopped && EnergizeBank(b, Phase42(index, forward))[c] != Stopped
  {
    var t28 := Phase28(index, forward);
    var t42 := Phase42(index, forward);
    Phase28CoversGroup(index, forward);
    Phase42CoversGroup(index, forward);
    EnergizeEffect(b, t28);
    EnergizeEffect(b, t42);
    forall c | InGroup(index, c)
      ensures EnergizeBank(b, t28)[c] != Stopped && EnergizeBank(b, t42)[c] != Stopped
    {
      assert Writes(t28, c) && Writes(t42, c);
    }
  }

  /**
   * The bank after the trailing stops of a stepper move (main.ts:334-340, 381-387):
   * motors 1 and 2 for group 1, motors 3 and 4 otherwise; exactly the group's channels become zero.
   */
  function StopGroupBank(b: Bank, index: int): (r: Bank)
  {
    if index == 1 then StopBank(StopBank(b, 1), 2) else StopBank(StopBank(b, 3), 4)
  }

  lemma StopGroupEffect(b: Bank, index: int)
    ensures var r := StopGroupBank(b, index);
      forall c :: 0 <= c < 16 ==> r[c] == if InGroup(index, c) then Stopped else b[c]
  {
  }

  /** The frames of those trailing stops. */
  function StopGroupTraffic(index: int): seq<Event>
  {
    if index == 1 then StopTraffic(1) + StopTraffic(2) else StopTraffic(3) + StopTraffic(4)
  }

  /** Neither a motorStop nor a group's stops pause. */
  lemma StopQuiet(index: int)
    ensures Quiet(StopTraffic(index))
    ensures Quiet(StopGroupTraffic(index))
  {
  }

  /** The trailing stops undo exactly what the phase write did, in both families. */
  lemma StopsUndoPhase(b: Bank, index: int, forward: bool)
    ensures StopGroupBank(EnergizeBank(b, Phase28(index, forward)), index) == StopGroupBank(b, index)
    ensures StopGroupBank(EnergizeBank(b, Phase42(index, forward)), index) == StopGroupBank(b, index)
  {
    PhaseWriteConfined(b, index, forward);
    var x := StopGroupBank(EnergizeBank(b, Phase28(index, forward)), index);
    var y := StopGroupBank(EnergizeBank(b, Phase42(index, forward)), index);
    var z := StopGroupBank(b, index);
    forall c | 0 <= c < 16 ensures x[c] == z[c] && y[c] == z[c] {
    }
  }
}

/// The navigation behaviours: the angle clamps and servo sweeps of the
/// labyrinth navigator, the look-around decision, and the two line followers
/// (main.ts:754-1001). Readings come in as echo widths and pin levels; the
/// decisions are functions from readings to a command.
module Navigation {
  import opened Hardware
  import opened Pca9685
  import opened Actuators
  import opened Motion
  import opened Sensors

  // ------------------------------------------------------------ angle clamps

  /** LavNabUS's scan angle (main.ts:757-763): clamped into [2, 180] through a first clamp into [0, 255], then rounded up to even. */
  function NormalizeScan(angle: int): (a: int)
    ensures 2 <= a <= 180 && a % 2 == 0
    ensures a == if angle >= 180 then 180 else if angle <= 2 then 2 else angle + angle % 2
  {
    var a1 := if angle > 250 then 255 else if angle < 0 then 0 else angle;
    var a2 := if a1 > 180 then 180 else if a1 < 2 then 2 else a1;
    if a2 % 2 != 0 then a2 + 1 else a2
  }

  /** The look-around range (main.ts:789-792): clamped into [2, 180], then rounded up to even. */
  function NormalizeLook(range: int): (r: int)
    ensures 2 <= r <= 180 && r % 2 == 0
  {
    var r1 := if range > 180 then 180 else if range < 2 then 2 else range;
    if r1 % 2 != 0 then r1 + 1 else r1
  }

  /** The first clamp of the scan angle changes nothing: both normalisations agree on every input. */
  lemma NormalizationsAgree(x: int)
    ensures NormalizeScan(x) == NormalizeLook(x)
  {
  }

  // ------------------------------------------------------------ servo sweeps

  /** The angles a `while (index < hi) { ...; index++ }` loop visits from `lo`: lo, lo + 1, ..., hi - 1. */
  function Up(lo: int, hi: int): (r: seq<int>)
    ensures |r| == if lo < hi then hi - lo else 0
    ensures forall i :: 0 <= i < |r| ==> r[i] == lo + i
    decreases hi - lo
  {
    if lo >= hi then [] else Up(lo, hi - 1) + [hi - 1]
  }

  /** The angles a `while (index > lo) { ...; index-- }` loop visits from `hi`: hi, hi - 1, ..., lo + 1. */
  function Down(hi: int, lo: int): (r: seq<int>)
    ensures |r| == if lo < hi then hi - lo else 0
    ensures forall i :: 0 <= i < |r| ==> r[i] == hi - i
    decreases hi - lo
  {
    if hi <= lo then [] else Down(hi, lo + 1) + [lo + 1]
  }

  /** The frames, initialisations and settling pauses of servo(pin, d) for each angle d in turn. */
  function SweepTraffic(initialized: bool, mode: bv8, pin: int, degrees: seq<int>, settle: bool): seq<Event>
    decreases |degrees|
  {
    if degrees == [] then []
    else
      var n := |degrees|;
      var before := SweepTraffic(initialized, mode, pin, degrees[..n - 1], settle);
      var step := ServoCallTraffic(AfterSweep(initialized, degrees[..n - 1]), mode, pin, degrees[n - 1]);
      if settle then before + step + [Delay(5.0)] else before + step
  }

  /** A sweep pauses 5 ms per angle when it settles, and not at all otherwise. */
  lemma {:induction false} SweepPause(initialized: bool, mode: bv8, pin: int, degrees: seq<int>, settle: bool)
    ensures PauseTotal(SweepTraffic(initialized, mode, pin, degrees, settle)) == if settle then 5.0 * |degrees| as real else 0.0
    decreases |degrees|
  {
    if degrees != [] {
      var n := |degrees|;
      var before := SweepTraffic(initialized, mode, pin, degrees[..n - 1], settle);
      var step := ServoCallTraffic(AfterSweep(initialized, degrees[..n - 1]), mode, pin, degrees[n - 1]);
      SweepPause(initialized, mode, pin, degrees[..n - 1], settle);
      ServoCallQuiet(AfterSweep(initialized, degrees[..n - 1]), mode, pin, degrees[n - 1]);
      StepPause(before, step, settle);
    }
  }

  /** One sweep step: a pause-free servo call, then 5 ms when the sweep settles. */
  lemma StepPause(before: seq<Event>, step: seq<Event>, settle: bool)
    requires Quiet(step)
    ensures PauseTotal(if settle then before + step + [Delay(5.0)] else before + step)
      == PauseTotal(before) + if settle then 5.0 else 0.0
  {
    QuietTotal(step);
    PauseTotalAppend(before, step);
    PauseTotalAppend(before + step, [Delay(5.0)]);
    assert [Delay(5.0)][..0] == [];
  }

  /** One step of a sweep: servo(pin, d), then the 5 ms settling pause when the loop has one. */
  function StepTraffic(initialized: bool, mode: bv8, pin: int, d: int, settle: bool): seq<Event>
  {
    if settle then ServoCallTraffic(initialized, mode, pin, d) + [Delay(5.0)] else ServoCallTraffic(initialized, mode, pin, d)
  }

  /** Extending a sweep by one angle appends that angle's step and sets that one channel. */
  lemma SweepStep(b: Bank, initialized: bool, mode: bv8, pin: int, degrees: seq<int>, d: int, settle: bool)
    ensures SweepTraffic(initialized, mode, pin, degrees + [d], settle)
      == SweepTraffic(initialized, mode, pin, degrees, settle) + StepTraffic(AfterSweep(initialized, degrees), mode, pin, d, settle)
    ensures SweepBank(b, pin, degrees + [d]) == WithChannel(SweepBank(b, pin, degrees), ServoChannel(pin), 0, ServoOff(d))
    ensures AfterSweep(initialized, degrees + [d])
  {
    assert (degrees + [d])[..|degrees|] == degrees;
  }

  /** The bank after servo(pin, d) for each angle d in turn. */
  function SweepBank(b: Bank, pin: int, degrees: seq<int>): Bank
    decreases |degrees|
  {
    if degrees == [] then b
    else WithChannel(SweepBank(b, pin, degrees[..|degrees| - 1]), ServoChannel(pin), 0, ServoOff(degrees[|degrees| - 1]))
  }

  /** A sweep leaves its servo at the last angle it visited and every other channel as it was. */
  lemma {:induction false} SweepEndsAtLast(b: Bank, pin: int, degrees: seq<int>)
    requires degrees != []
    ensures SweepBank(b, pin, degrees) == WithChannel(b, ServoChannel(pin), 0, ServoOff(degrees[|degrees| - 1]))
    decreases |degrees|
  {
    var n := |degrees|;
    if n > 1 {
      SweepEndsAtLast(b, pin, degrees[..n - 1]);
      WithChannelOverwrite(b, ServoChannel(pin), 0, ServoOff(degrees[n - 2]), 0, ServoOff(degrees[n - 1]));
    }
  }

  /** The front sweep of LavNabUS (main.ts:765-778): every angle from 90 - a/2 up to 89 + a/2, without pauses. */
  function FrontSweep(angle: int): (r: seq<int>)
    ensures var a := NormalizeScan(angle);
      && |r| == a
      && (forall i :: 0 <= i < |r| ==> r[i] == 90 - a / 2 + i)
      && r[0] == 90 - a / 2 && r[|r| - 1] == 89 + a / 2
      && (forall i :: 0 <= i < |r| ==> 0 <= r[i] <= 180)
  {
    var a := NormalizeScan(angle);
    Up(90 - a / 2, 90 + a / 2)
  }

  /** lookLeft's outward sweep (main.ts:865-869): from `index` down to 91 - range. */
  function LeftOut(index: int, range: int): seq<int>
  {
    Down(index, 90 - range)
  }

  /** lookLeft's return sweep (main.ts:875-879): from where the outward sweep stopped up to 89. */
  function LeftBack(index: int, range: int): seq<int>
  {
    Up(if index > 90 - range then 90 - range else index, 90)
  }

  /** lookRight's outward sweep (main.ts:890-894): from `index` up to 89 + range. */
  function RightOut(index: int, range: int): seq<int>
  {
    Up(index, 90 + range)
  }

  /** lookRight's return sweep (main.ts:900-904): from where the outward sweep stopped down to 91. */
  function RightBack(index: int, range: int): seq<int>
  {
    Down(if index < 90 + range then 90 + range else index, 90)
  }

  /**
   * Looking around from the centre (the only way LavNabUS calls it) sweeps
   * `range` angles out and `range` back on each side, each followed by 5 ms, and
   * leaves the servo at 91 degrees, not 90.
   */
  lemma LookFromCentre(range: int)
    requires range >= 1
    ensures |LeftOut(90, range)| == range && |LeftBack(90, range)| == range
    ensures |RightOut(90, range)| == range && |RightBack(90, range)| == range
    ensures LeftOut(90, range)[range - 1] == 91 - range && LeftBack(90, range)[range - 1] == 89
    ensures RightOut(90, range)[range - 1] == 89 + range && RightBack(90, range)[range - 1] == 91
  {
  }

  // --------------------------------------------------------------- commands

  /** What a decision tells the motors to do. */
  datatype Command = Forward | TurnLeft | TurnRight | StopAll | BackUp | NoCommand

  /** The drive pattern of a moving command. */
  function CommandWheels(c: Command): Wheels
  {
    match c
    case Forward => ForwardWheels
    case TurnLeft => LeftWheels
    case TurnRight => RightWheels
    case BackUp => BackWheels
    case _ => ForwardWheels
  }

  predicate Moving(c: Command)
  {
    c == Forward || c == TurnLeft || c == TurnRight
  }

  /**
   * lookAround's decision (main.ts:817-823): both unequal cases turn left for the
   * given time, equal readings back up; the robot never turns right here.
   */
  function LookAroundChoice(left: int, right: int): (c: Command)
    ensures c == TurnLeft || c == BackUp
    ensures c == BackUp <==> left == right
  {
    if left > right then TurnLeft
    else if right > left then TurnLeft
    else BackUp
  }

  /** The two-sensor line follower's decision (main.ts:942-960); `left` and `right` are the IrSensor results. */
  function TwoSensorChoice(left: bool, right: bool): (c: Command)
    ensures c != NoCommand && c != BackUp
    ensures c == Forward <==> left && right
    ensures c == StopAll <==> !left && !right
    ensures c == TurnLeft <==> right && !left
  {
    if left && right then Forward
    else if right && !left then TurnLeft
    else if !right && left then TurnRight
    else StopAll
  }

  /** The three-sensor line follower's decision (main.ts:981-1000). */
  function ThreeSensorChoice(left: bool, center: bool, right: bool): (c: Command)
    ensures c != BackUp
    ensures c == NoCommand <==> !left && center && !right
    ensures c == Forward <==> left && !center && right
    ensures c == StopAll <==> left == center == right
  {
    if left && !center && right then Forward
    else if !left && !center && !right then StopAll
    else if left && center && right then StopAll
    else if !left && !center && right then TurnLeft
    else if left && !center && !right then TurnRight
    else if !left && center && right then TurnLeft
    else if left && center && !right then TurnRight
    else NoCommand
  }

  /**
   * With the centre sensor dark the three-sensor follower decides as the two-sensor
   * one; with it lit they differ only when the outer sensors agree.
   */
  lemma CentreSensorRefines(left: bool, right: bool)
    ensures ThreeSensorChoice(left, false, right) == TwoSensorChoice(left, right)
    ensures left != right ==> ThreeSensorChoice(left, true, right) == TwoSensorChoice(left, right)
    ensures ThreeSensorChoice(true, true, true) == StopAll && TwoSensorChoice(true, true) == Forward
    ensures ThreeSensorChoice(false, true, false) == NoCommand && TwoSensorChoice(false, false) == StopAll
  {
  }

  // ------------------------------------------------------------ look around

  /** Whether the flag is set after a sweep over `degrees`: one servo call initialises. */
  function AfterSweep(initialized: bool, degrees: seq<int>): bool
  {
    initialized || |degrees| > 0
  }

  /** The traffic of lookLeft or lookRight: the outward sweep, the reading, the return sweep, all with 5 ms pauses. */
  function LookTraffic(initialized: bool, mode: bv8, pin: int, trig: int, echo: int, out: seq<int>, back: seq<int>): seq<Event>
  {
    SweepTraffic(initialized, mode, pin, out, true) + UsSensorTraffic(trig, echo)
      + SweepTraffic(AfterSweep(initialized, out), mode, pin, back, true)
  }

  /** A look pauses 5 ms after every servo step out and back; the reading itself does not pause. */
  lemma LookPause(initialized: bool, mode: bv8, pin: int, trig: int, echo: int, out: seq<int>, back: seq<int>)
    ensures PauseTotal(LookTraffic(initialized, mode, pin, trig, echo, out, back)) == 5.0 * (|out| + |back|) as real
  {
    var a := SweepTraffic(initialized, mode, pin, out, true);
    var u := UsSensorTraffic(trig, echo);
    var c := SweepTraffic(AfterSweep(initialized, out), mode, pin, back, true);
    SweepPause(initialized, mode, pin, out, true);
    SweepPause(AfterSweep(initialized, out), mode, pin, back, true);
    SensorTrafficQuiet(trig, echo, 0);
    QuietTotal(u);
    PauseTotalAppend(a, u);
    PauseTotalAppend(a + u, c);
  }

  /** The bank after both looks: four servo sweeps. */
  function LookedBank(b: Bank, pin: int, index: int, range: int): Bank
  {
    SweepBank(SweepBank(SweepBank(SweepBank(b, pin, LeftOut(index, range)), pin, LeftBack(index, range)),
                        pin, RightOut(index, range)), pin, RightBack(index, range))
  }

  /** The bank after lookAround (main.ts:807-824): both looks, then the chosen timed drive. */
  function LookAroundBank(b: Bank, pin: int, speed: real, index: int, range: int, leftWidth: nat, rightWidth: nat): Bank
  {
    var c := LookAroundChoice(UsSensorResult(leftWidth), UsSensorResult(rightWidth));
    if c == TurnLeft then DriveBank(LookedBank(b, pin, index, range), LeftWheels, speed)
    else DriveBank(LookedBank(b, pin, index, range), BackWheels, speed / 2.0)
  }

  function LookAroundTraffic(initialized: bool, mode: bv8, pin: int, trig: int, echo: int, speed: real, index: int,
                             seconds: real, range: int, leftWidth: nat, rightWidth: nat): seq<Event>
  {
    var i1 := AfterSweep(AfterSweep(initialized, LeftOut(index, range)), LeftBack(index, range));
    var i2 := AfterSweep(AfterSweep(i1, RightOut(index, range)), RightBack(index, range));
    var looks := LookTraffic(initialized, mode, pin, trig, echo, LeftOut(index, range), LeftBack(index, range))
      + LookTraffic(i1, mode, pin, trig, echo, RightOut(index, range), RightBack(index, range));
    if LookAroundChoice(UsSensorResult(leftWidth), UsSensorResult(rightWidth)) == TurnLeft
    then looks + TimedDriveTraffic(i2, mode, LeftWheels, speed, seconds)
    else looks + TimedDriveTraffic(i2, mode, BackWheels, speed / 2.0, seconds)
  }

  /** From the centre, lookAround pauses 5 ms for each of its 4 * range servo steps, then for the drive's seconds. */
  lemma LookAroundPause(initialized: bool, mode: bv8, pin: int, trig: int, echo: int, speed: real,
                        seconds: real, range: int, leftWidth: nat, rightWidth: nat)
    requires range >= 1
    ensures PauseTotal(LookAroundTraffic(initialized, mode, pin, trig, echo, speed, 90, seconds, range, leftWidth, rightWidth))
      == 20.0 * range as real + 1000.0 * seconds
  {
    LookFromCentre(range);
    var i1 := AfterSweep(AfterSweep(initialized, LeftOut(90, range)), LeftBack(90, range));
    var i2 := AfterSweep(AfterSweep(i1, RightOut(90, range)), RightBack(90, range));
    var l := LookTraffic(initialized, mode, pin, trig, echo, LeftOut(90, range), LeftBack(90, range));
    var r := LookTraffic(i1, mode, pin, trig, echo, RightOut(90, range), RightBack(90, range));
    LookPause(initialized, mode, pin, trig, echo, LeftOut(90, range), LeftBack(90, range));
    LookPause(i1, mode, pin, trig, echo, RightOut(90, range), RightBack(90, range));
    PauseTotalAppend(l, r);
    var turn := LookAroundChoice(UsSensorResult(leftWidth), UsSensorResult(rightWidth)) == TurnLeft;
    var w := if turn then LeftWheels else BackWheels;
    var v := if turn then speed else speed / 2.0;
    var d := TimedDriveTraffic(i2, mode, w, v, seconds);
    assert LookAroundTraffic(initialized, mode, pin, trig, echo, speed, 90, seconds, range, leftWidth, rightWidth)
      == (l + r) + d;
    TimedDrivePause(i2, mode, w, v, seconds);
    PauseTotalAppend(l + r, d);
  }

  /** lookAround ends with the left-turn pattern when the readings differ and the half-speed reverse when they are equal. */
  lemma LookAroundDrives(b: Bank, pin: int, speed: real, index: int, range: int, leftWidth: nat, rightWidth: nat)
    ensures var r := LookAroundBank(b, pin, speed, index, range, leftWidth, rightWidth);
      var turn := UsSensorResult(leftWidth) != UsSensorResult(rightWidth);
      forall m :: 1 <= m <= 4 ==>
        && r[PositiveChannel(m)] == Duty(0, if turn then ForwardCount(speed, Wheel(LeftWheels, m)) else ForwardCount(speed / 2.0, CCW))
        && r[NegativeChannel(m)] == Duty(0, if turn then ReverseCount(speed, Wheel(LeftWheels, m)) else ReverseCount(speed / 2.0, CCW))
  {
    var looked := LookedBank(b, pin, index, range);
    if UsSensorResult(leftWidth) == UsSensorResult(rightWidth) {
      assert LookAroundBank(b, pin, speed, index, range, leftWidth, rightWidth) == DriveBank(looked, BackWheels, speed / 2.0);
      DriveEffect(looked, BackWheels, speed / 2.0);
      forall m | 1 <= m <= 4 ensures Wheel(BackWheels, m) == CCW { }
    } else {
      assert LookAroundBank(b, pin, speed, index, range, leftWidth, rightWidth) == DriveBank(looked, LeftWheels, speed);
      DriveEffect(looked, LeftWheels, speed);
    }
  }

  // ----------------------------------------------------- labyrinth navigator

  /** Whether LavNabUS's front reading is at or within the threshold (main.ts:785). */
  predicate Blocked(frontWidth: nat, distance: int)
  {
    UsSensorResult(frontWidth) <= distance
  }

  /** The bank after LavNabUS (main.ts:754-798). */
  function LavNabBank(b: Bank, pin: int, angle: int, speed: real, distance: int, range: int,
                      frontWidth: nat, leftWidth: nat, rightWidth: nat): Bank
  {
    var swept := SweepBank(b, pin, FrontSweep(angle));
    if Blocked(frontWidth, distance)
    then LookAroundBank(StopAllBank(swept), pin, speed, 90, NormalizeLook(range), leftWidth, rightWidth)
    else DriveBank(swept, ForwardWheels, speed)
  }

  function LavNabTraffic(initialized: bool, mode: bv8, trig: int, echo: int, angle: int, speed: real, distance: int,
                         pin: int, seconds: real, range: int, frontWidth: nat, leftWidth: nat, rightWidth: nat): seq<Event>
  {
    var front := SweepTraffic(initialized, mode, pin, FrontSweep(angle), false) + UsSensorTraffic(trig, echo);
    if Blocked(frontWidth, distance)
    then front + StopAllTraffic()
         + LookAroundTraffic(true, mode, pin, trig, echo, speed, 90, seconds, NormalizeLook(range), leftWidth, rightWidth)
    else front + DriveTraffic(true, mode, ForwardWheels, speed)
  }

  /**
   * A clear path (reading beyond the threshold) only drives forward: no stop, no
   * look-around, no pause; the motors end with the forward pattern.
   */
  lemma LavNabClear(b: Bank, initialized: bool, mode: bv8, trig: int, echo: int, angle: int, speed: real, distance: int,
                    pin: int, seconds: real, range: int, frontWidth: nat, leftWidth: nat, rightWidth: nat)
    requires !Blocked(frontWidth, distance)
    ensures LavNabBank(b, pin, angle, speed, distance, range, frontWidth, leftWidth, rightWidth)
      == DriveBank(SweepBank(b, pin, FrontSweep(angle)), ForwardWheels, speed)
    ensures PauseTotal(LavNabTraffic(initialized, mode, trig, echo, angle, speed, distance, pin, seconds, range,
                                     frontWidth, leftWidth, rightWidth)) == 0.0
  {
    var s := SweepTraffic(initialized, mode, pin, FrontSweep(angle), false);
    var u := UsSensorTraffic(trig, echo);
    SweepPause(initialized, mode, pin, FrontSweep(angle), false);
    SensorTrafficQuiet(trig, echo, 0);
    DriveQuiet(true, mode, ForwardWheels, speed);
    QuietTotal(u);
    QuietTotal(DriveTraffic(true, mode, ForwardWheels, speed));
    PauseTotalAppend(s, u);
    PauseTotalAppend(s + u, DriveTraffic(true, mode, ForwardWheels, speed));
  }

  /**
   * A blocked path stops the motors, looks both ways from the centre and then turns
   * left when the two readings differ, or backs up at half speed when they are equal.
   */
  lemma LavNabBlockedDrives(b: Bank, pin: int, angle: int, speed: real, distance: int, range: int,
                            frontWidth: nat, leftWidth: nat, rightWidth: nat)
    requires Blocked(frontWidth, distance)
    ensures var r := LavNabBank(b, pin, angle, speed, distance, range, frontWidth, leftWidth, rightWidth);
      var turn := UsSensorResult(leftWidth) != UsSensorResult(rightWidth);
      forall m :: 1 <= m <= 4 ==>
        && r[PositiveChannel(m)] == Duty(0, if turn then ForwardCount(speed, Wheel(LeftWheels, m)) else ForwardCount(speed / 2.0, CCW))
        && r[NegativeChannel(m)] == Duty(0, if turn then ReverseCount(speed, Wheel(LeftWheels, m)) else ReverseCount(speed / 2.0, CCW))
  {
    var swept := SweepBank(b, pin, FrontSweep(angle));
    assert LavNabBank(b, pin, angle, speed, distance, range, frontWidth, leftWidth, rightWidth)
      == LookAroundBank(StopAllBank(swept), pin, speed, 90, NormalizeLook(range), leftWidth, rightWidth);
    LookAroundDrives(StopAllBank(swept), pin, speed, 90, NormalizeLook(range), leftWidth, rightWidth);
  }

  /** A blocked path pauses 20 ms per degree of the look range, plus the drive's seconds. */
  lemma LavNabBlockedPause(initialized: bool, mode: bv8, trig: int, echo: int, angle: int, speed: real, distance: int,
                           pin: int, seconds: real, range: int, frontWidth: nat, leftWidth: nat, rightWidth: nat)
    requires Blocked(frontWidth, distance)
    ensures PauseTotal(LavNabTraffic(initialized, mode, trig, echo, angle, speed, distance, pin, seconds, range,
                                     frontWidth, leftWidth, rightWidth))
      == 20.0 * NormalizeLook(range) as real + 1000.0 * seconds
  {
    var s := SweepTraffic(initialized, mode, pin, FrontSweep(angle), false);
    var u := UsSensorTraffic(trig, echo);
    var look := LookAroundTraffic(true, mode, pin, trig, echo, speed, 90, seconds, NormalizeLook(range), leftWidth, rightWidth);
    assert LavNabTraffic(initialized, mode, trig, echo, angle, speed, distance, pin, seconds, range,
                         frontWidth, leftWidth, rightWidth) == s + u + StopAllTraffic() + look;
    LookAroundPause(true, mode, pin, trig, echo, speed, seconds, NormalizeLook(range), leftWidth, rightWidth);
    SweepPause(initialized, mode, pin, FrontSweep(angle), false);
    SensorTrafficQuiet(trig, echo, 0);
    StopAllQuiet();
    QuietTotal(u);
    QuietTotal(StopAllTraffic());
    PauseTotalAppend(s, u);
    PauseTotalAppend(s + u, StopAllTraffic());
    PauseTotalAppend(s + u + StopAllTraffic(), look);
  }

  // ----------------------------------------------------------- line followers

  /** The bank after LineFollower (main.ts:937-961): a moving command drives, pauses and stops all; otherwise stop all. */
  function TwoSensorBank(b: Bank, c: Command, speed: real): Bank
  {
    if Moving(c) then StopAllBank(DriveBank(b, CommandWheels(c), speed)) else StopAllBank(b)
  }

  /** LineFollower reads the right sensor first, then the left. */
  function TwoSensorTraffic(initialized: bool, mode: bv8, pinleft: int, pinright: int, c: Command, speed: real, ms: real): seq<Event>
  {
    var sensed := [PinRead(pinright), PinRead(pinleft)];
    if Moving(c) then sensed + (DriveTraffic(initialized, mode, CommandWheels(c), speed) + [Delay(ms)] + StopAllTraffic())
    else sensed + StopAllTraffic()
  }

  /** Whatever the two sensors read, LineFollower leaves every motor stopped and the servos as they were. */
  lemma TwoSensorEndsStopped(b: Bank, left: bool, right: bool, speed: real)
    ensures TwoSensorBank(b, TwoSensorChoice(left, right), speed) == StopAllBank(b)
  {
    var c := TwoSensorChoice(left, right);
    if Moving(c) {
      var d := DriveBank(b, CommandWheels(c), speed);
      DriveEffect(b, CommandWheels(c), speed);
      StopAllEffect(d);
      StopAllEffect(b);
      assert StopAllBank(d) == StopAllBank(b);
    }
  }

  /** The bank after LineFollowerThreeSensors (main.ts:975-1001): a moving command is left running; no command changes nothing. */
  function ThreeSensorBank(b: Bank, c: Command, speed: real): Bank
  {
    if Moving(c) then DriveBank(b, CommandWheels(c), speed)
    else if c == StopAll then StopAllBank(b)
    else b
  }

  /** LineFollowerThreeSensors reads left, centre, then right. */
  function ThreeSensorTraffic(initialized: bool, mode: bv8, pinleft: int, pincenter: int, pinright: int,
                              c: Command, speed: real, ms: real): seq<Event>
  {
    var sensed := [PinRead(pinleft), PinRead(pincenter), PinRead(pinright)];
    if Moving(c) then sensed + (DriveTraffic(initialized, mode, CommandWheels(c), speed) + [Delay(ms)])
    else if c == StopAll then sensed + StopAllTraffic()
    else sensed
  }

  /**
   * Unlike the two-sensor follower, the three-sensor follower never stops after
   * moving: a moving decision leaves each motor at its command's counts.
   */
  lemma ThreeSensorKeepsRunning(b: Bank, left: bool, center: bool, right: bool, speed: real)
    requires Moving(ThreeSensorChoice(left, center, right))
    ensures var c := ThreeSensorChoice(left, center, right);
      forall m :: 1 <= m <= 4 ==>
        && ThreeSensorBank(b, c, speed)[PositiveChannel(m)] == Duty(0, ForwardCount(speed, Wheel(CommandWheels(c), m)))
        && ThreeSensorBank(b, c, speed)[NegativeChannel(m)] == Duty(0, ReverseCount(speed, Wheel(CommandWheels(c), m)))
  {
    DriveEffect(b, CommandWheels(ThreeSensorChoice(left, center, right)), speed);
  }
}

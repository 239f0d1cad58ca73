/// Motion primitives built on the actuator encoders: stopping and starting all
/// four DC motors, the four-wheel drive patterns, the timed moves, and the
/// single and dual stepper moves (main.ts:321-640, 800-924). Each operation is
/// given by the bank it leaves and the traffic it appends to the record; the
/// robot's methods follow both.
module Motion {
  import opened Hardware
  import opened Pca9685
  import opened Actuators

  // ------------------------------------------------------ stop and start all

  /** The bank after motorStop(1) .. motorStop(n): motors 1..n own channels 8 - 2n .. 7. */
  function StopMotorsBank(b: Bank, n: int): (r: Bank)
    requires 0 <= n <= 4
    decreases n
  {
    if n == 0 then b else StopBank(StopMotorsBank(b, n - 1), n)
  }

  lemma {:induction false} StopMotorsEffect(b: Bank, n: int)
    requires 0 <= n <= 4
    ensures var r := StopMotorsBank(b, n);
      forall c :: 0 <= c < 16 ==> r[c] == if 8 - 2 * n <= c <= 7 then Stopped else b[c]
    decreases n
  {
    if n > 0 {
      StopMotorsEffect(b, n - 1);
      StopEffect(StopMotorsBank(b, n - 1), n);
    }
  }

  /** The frames of motorStop(1) .. motorStop(n), in that order. */
  function StopMotorsTraffic(n: int): seq<Event>
    requires 0 <= n <= 4
    decreases n
  {
    if n == 0 then [] else StopMotorsTraffic(n - 1) + StopTraffic(n)
  }

  lemma {:induction false} StopMotorsQuiet(n: int)
    requires 0 <= n <= 4
    ensures Quiet(StopMotorsTraffic(n))
    decreases n
  {
    if n > 0 {
      StopMotorsQuiet(n - 1);
      StopQuiet(n);
    }
  }

  /** The bank after motorStopAll (main.ts:540-544): every motor channel 0..7 zeroed, the servo channels 8..15 untouched. */
  function StopAllBank(b: Bank): (r: Bank)
  {
    StopMotorsBank(b, 4)
  }

  lemma StopAllEffect(b: Bank)
    ensures forall c :: 0 <= c < 8 ==> StopAllBank(b)[c] == Stopped
    ensures forall c :: 8 <= c < 16 ==> StopAllBank(b)[c] == b[c]
  {
    StopMotorsEffect(b, 4);
  }

  function StopAllTraffic(): seq<Event>
  {
    StopMotorsTraffic(4)
  }

  /** motorStopAll never pauses. */
  lemma StopAllQuiet()
    ensures Quiet(StopAllTraffic())
  {
    StopMotorsQuiet(4);
  }

  /** Stopping everything twice is stopping it once. */
  lemma StopAllIdempotent(b: Bank)
    ensures StopAllBank(StopAllBank(b)) == StopAllBank(b)
  {
    var x := StopAllBank(StopAllBank(b));
    var y := StopAllBank(b);
    forall c | 0 <= c < 16 ensures x[c] == y[c] {
      if c >= 8 {
        assert x[c] == StopAllBank(b)[c];
      }
    }
  }

  /** The four drive directions of a command, motor 1 to motor 4. */
  datatype Wheels = Wheels(m1: Dir, m2: Dir, m3: Dir, m4: Dir)

  function Wheel(w: Wheels, m: int): Dir
  {
    if m == 1 then w.m1 else if m == 2 then w.m2 else if m == 3 then w.m3 else w.m4
  }

  /** Forward (main.ts:800-805) and MotorsStart with CW: every motor clockwise. */
  const ForwardWheels: Wheels := Wheels(CW, CW, CW, CW)
  /** BackUp (main.ts:826-833): every motor counter-clockwise. */
  const BackWheels: Wheels := Wheels(CCW, CCW, CCW, CCW)
  /** TurnRightRobot and RotateRight (main.ts:565-572, 835-840). */
  const RightWheels: Wheels := Wheels(CCW, CW, CCW, CW)
  /** TurnLeftRobot and RotateLeft (main.ts:580-586, 847-852). */
  const LeftWheels: Wheels := Wheels(CW, CCW, CW, CCW)

  /** The opposite rotation of a motor. */
  function Flip(d: Dir): Dir
  {
    if d == CW then CCW else CW
  }

  /** Turning left spins every motor against its turn-right direction; backing up spins every motor against forward. */
  lemma TurnsAreMirrored()
    ensures forall m :: 1 <= m <= 4 ==> Wheel(LeftWheels, m) == Flip(Wheel(RightWheels, m))
    ensures forall m :: 1 <= m <= 4 ==> Wheel(BackWheels, m) == Flip(Wheel(ForwardWheels, m))
  {
  }

  /**
   * The bank after MotorRun on motors 1, 2, 3 and 4 in turn: each motor's pair
   * holds the counts of its own direction at the speed, whatever it held before,
   * and the servo channels are untouched.
   */
  function DriveBank(b: Bank, w: Wheels, speed: real): (r: Bank)
  {
    RunBank(RunBank(RunBank(RunBank(b, 1, w.m1, speed), 2, w.m2, speed), 3, w.m3, speed), 4, w.m4, speed)
  }

  lemma DriveEffect(b: Bank, w: Wheels, speed: real)
    ensures var r := DriveBank(b, w, speed);
      && (forall m :: 1 <= m <= 4 ==>
            && r[PositiveChannel(m)] == Duty(0, ForwardCount(speed, Wheel(w, m)))
            && r[NegativeChannel(m)] == Duty(0, ReverseCount(speed, Wheel(w, m))))
      && (forall c :: 8 <= c < 16 ==> r[c] == b[c])
  {
    var b1 := RunBank(b, 1, w.m1, speed);
    var b2 := RunBank(b1, 2, w.m2, speed);
    var b3 := RunBank(b2, 3, w.m3, speed);
    var r := RunBank(b3, 4, w.m4, speed);
    RunEffect(b, 1, w.m1, speed);
    RunEffect(b1, 2, w.m2, speed);
    RunEffect(b2, 3, w.m3, speed);
    RunEffect(b3, 4, w.m4, speed);
    assert r[6] == b1[6] && r[7] == b1[7];
    assert r[4] == b2[4] && r[5] == b2[5];
    assert r[2] == b3[2] && r[3] == b3[3];
  }

  /** The traffic of those four MotorRun calls: only the first can find the flag clear. */
  function DriveTraffic(initialized: bool, mode: bv8, w: Wheels, speed: real): seq<Event>
  {
    MotorRunTraffic(initialized, mode, 1, w.m1, speed)
      + MotorRunTraffic(true, mode, 2, w.m2, speed)
      + MotorRunTraffic(true, mode, 3, w.m3, speed)
      + MotorRunTraffic(true, mode, 4, w.m4, speed)
  }

  /** A drive pattern never pauses. */
  lemma DriveQuiet(initialized: bool, mode: bv8, w: Wheels, speed: real)
    ensures Quiet(DriveTraffic(initialized, mode, w, speed))
  {
    MotorRunQuiet(initialized, mode, 1, w.m1, speed);
    MotorRunQuiet(true, mode, 2, w.m2, speed);
    MotorRunQuiet(true, mode, 3, w.m3, speed);
    MotorRunQuiet(true, mode, 4, w.m4, speed);
  }

  /** A drive pattern initialises the expander at most once, before its first frame, and then sends the four motors' frames. */
  lemma DriveInitialisesOnce(initialized: bool, mode: bv8, w: Wheels, speed: real)
    ensures DriveTraffic(initialized, mode, w, speed) ==
      InitGuard(initialized, mode) + RunTraffic(1, w.m1, speed) + RunTraffic(2, w.m2, speed)
        + RunTraffic(3, w.m3, speed) + RunTraffic(4, w.m4, speed)
  {
    assert InitGuard(true, mode) == [];
    var g := InitGuard(initialized, mode);
    var r1 := RunTraffic(1, w.m1, speed);
    var r2 := RunTraffic(2, w.m2, speed);
    var r3 := RunTraffic(3, w.m3, speed);
    var r4 := RunTraffic(4, w.m4, speed);
    assert MotorRunTraffic(true, mode, 2, w.m2, speed) == r2;
    assert MotorRunTraffic(true, mode, 3, w.m3, speed) == r3;
    assert MotorRunTraffic(true, mode, 4, w.m4, speed) == r4;
  }

  /** A drive pattern overwrites every motor channel, so a preceding stop of all motors leaves no trace in the bank. */
  lemma DriveOverridesStop(b: Bank, w: Wheels, speed: real)
    ensures DriveBank(StopAllBank(b), w, speed) == DriveBank(b, w, speed)
  {
    var x := DriveBank(StopAllBank(b), w, speed);
    var y := DriveBank(b, w, speed);
    forall c | 0 <= c < 16 ensures x[c] == y[c] {
      if c < 8 {
        var m := 4 - c / 2;
        assert c == PositiveChannel(m) || c == NegativeChannel(m);
      }
    }
  }

  /** The bank after MotorRun(1..n) all in one direction (the loop of MotorsStart, main.ts:553-557). */
  function RunMotorsBank(b: Bank, n: int, dir: Dir, speed: real): (r: Bank)
    requires 0 <= n <= 4
    decreases n
  {
    if n == 0 then b else RunBank(RunMotorsBank(b, n - 1, dir, speed), n, dir, speed)
  }

  /** The traffic of MotorRun(1..n) in one direction when the flag was `initialized` before the first. */
  function RunMotorsTraffic(initialized: bool, mode: bv8, n: int, dir: Dir, speed: real): seq<Event>
    requires 0 <= n <= 4
    decreases n
  {
    if n == 0 then []
    else RunMotorsTraffic(initialized, mode, n - 1, dir, speed) + MotorRunTraffic(initialized || n > 1, mode, n, dir, speed)
  }

  /** MotorsStart's loop does what the four-call drive pattern does with every motor in the same direction. */
  lemma MotorsStartIsDrive(b: Bank, dir: Dir, speed: real)
    ensures RunMotorsBank(b, 4, dir, speed) == DriveBank(b, Wheels(dir, dir, dir, dir), speed)
  {
    var b1 := RunBank(b, 1, dir, speed);
    assert RunMotorsBank(b, 1, dir, speed) == b1;
    assert RunMotorsBank(b, 2, dir, speed) == RunBank(b1, 2, dir, speed);
    assert RunMotorsBank(b, 3, dir, speed) == RunBank(RunBank(b1, 2, dir, speed), 3, dir, speed);
  }

  /** MotorsStart's loop sends what the four-call drive pattern sends: only its first call can initialise. */
  lemma MotorsStartTraffic(initialized: bool, mode: bv8, dir: Dir, speed: real)
    ensures RunMotorsTraffic(initialized, mode, 4, dir, speed) == DriveTraffic(initialized, mode, Wheels(dir, dir, dir, dir), speed)
  {
    var t1 := MotorRunTraffic(initialized, mode, 1, dir, speed);
    var t2 := MotorRunTraffic(true, mode, 2, dir, speed);
    var t3 := MotorRunTraffic(true, mode, 3, dir, speed);
    var t4 := MotorRunTraffic(true, mode, 4, dir, speed);
    assert RunMotorsTraffic(initialized, mode, 1, dir, speed) == [] + t1 == t1;
    assert RunMotorsTraffic(initialized, mode, 2, dir, speed) == t1 + t2;
    assert RunMotorsTraffic(initialized, mode, 3, dir, speed) == t1 + t2 + t3;
  }

  /**
   * BackUp halves the speed before the motors run: for a whole-number speed in
   * 0..255 every motor's even channel gets 8 * speed (clamped to 4095) and its odd channel 0.
   */
  lemma BackUpHalvesSpeed(speed: int)
    requires speed >= 0
    ensures ForwardCount(speed as real / 2.0, CCW) == 0
    ensures ReverseCount(speed as real / 2.0, CCW) == if 8 * speed > 4095 then 4095 else 8 * speed
  {
    assert -(speed as real / 2.0 * 16.0) == (-8 * speed) as real;
  }

  // ------------------------------------------------------------ timed moves

  /** The direction of a straight-line move (main.ts:119-127). */
  datatype TwoDDir = FW | BW

  /** The direction of a timed turn (main.ts:128-133). */
  datatype DirRot = Right | Left

  /** Move's speed check (main.ts:626): below the minimum becomes the minimum, above the maximum the maximum. */
  function ClampSpeed(speed: real, minVelocity: real, maxVelocity: real): (r: real)
    ensures minVelocity <= maxVelocity ==> minVelocity <= r <= maxVelocity
    ensures minVelocity <= speed <= maxVelocity ==> r == speed
    ensures r == speed || r == minVelocity || r == maxVelocity
    ensures speed < minVelocity ==> r == minVelocity
    ensures minVelocity <= speed && speed > maxVelocity ==> r == maxVelocity
  {
    if speed < minVelocity then minVelocity else if speed > maxVelocity then maxVelocity else speed
  }

  /** The motor direction Move uses for a straight-line direction (main.ts:627-633). */
  function MoveDir(direction: TwoDDir): Dir
  {
    if direction == FW then CW else CCW
  }

  /** The bank after Move (main.ts:624-640): stop all, drive every motor one way, pause, stop all. */
  function MoveBank(b: Bank, direction: TwoDDir, speed: real, minVelocity: real, maxVelocity: real): Bank
  {
    var d := MoveDir(direction);
    StopAllBank(DriveBank(StopAllBank(b), Wheels(d, d, d, d), ClampSpeed(speed, minVelocity, maxVelocity)))
  }

  function MoveTraffic(initialized: bool, mode: bv8, direction: TwoDDir, speed: real, duration: real,
                       minVelocity: real, maxVelocity: real): seq<Event>
  {
    var d := MoveDir(direction);
    StopAllTraffic()
      + (DriveTraffic(initialized, mode, Wheels(d, d, d, d), ClampSpeed(speed, minVelocity, maxVelocity)) + [Delay(duration)]
         + StopAllTraffic())
  }

  /** Move ends with every motor stopped and the servos where they were. */
  lemma MoveEndsStopped(b: Bank, direction: TwoDDir, speed: real, minVelocity: real, maxVelocity: real)
    ensures MoveBank(b, direction, speed, minVelocity, maxVelocity) == StopAllBank(b)
  {
    var d := MoveDir(direction);
    var v := ClampSpeed(speed, minVelocity, maxVelocity);
    var s := StopAllBank(b);
    var r := DriveBank(s, Wheels(d, d, d, d), v);
    DriveEffect(s, Wheels(d, d, d, d), v);
    StopAllEffect(r);
    StopAllEffect(s);
    StopAllEffect(b);
    assert StopAllBank(r) == s;
  }

  /** Move pauses for exactly its duration. */
  lemma MovePausesForDuration(initialized: bool, mode: bv8, direction: TwoDDir, speed: real, duration: real,
                              minVelocity: real, maxVelocity: real)
    ensures PauseTotal(MoveTraffic(initialized, mode, direction, speed, duration, minVelocity, maxVelocity)) == duration
  {
    var d := MoveDir(direction);
    var v := ClampSpeed(speed, minVelocity, maxVelocity);
    var dr := DriveTraffic(initialized, mode, Wheels(d, d, d, d), v);
    StopAllQuiet();
    DriveQuiet(initialized, mode, Wheels(d, d, d, d), v);
    QuietThenDelay(dr, duration);
    QuietBracket(StopAllTraffic(), dr + [Delay(duration)]);
  }

  /** The wheels a timed turn uses (main.ts:918-924). */
  function TurnWheels(direction: DirRot): Wheels
  {
    if direction == Right then RightWheels else LeftWheels
  }

  /** The traffic of TurnLeft/RightRobotForSeconds and of BackUp: the drive pattern, then a pause of seconds * 1000 ms. */
  function TimedDriveTraffic(initialized: bool, mode: bv8, w: Wheels, speed: real, seconds: real): seq<Event>
  {
    DriveTraffic(initialized, mode, w, speed) + [Delay(seconds * 1000.0)]
  }

  /** A timed drive pauses for exactly its seconds, in milliseconds. */
  lemma TimedDrivePause(initialized: bool, mode: bv8, w: Wheels, speed: real, seconds: real)
    ensures PauseTotal(TimedDriveTraffic(initialized, mode, w, speed, seconds)) == seconds * 1000.0
  {
    DriveQuiet(initialized, mode, w, speed);
    QuietThenDelay(DriveTraffic(initialized, mode, w, speed), seconds * 1000.0);
  }

  // --------------------------------------------------------------- steppers

  /** The hold of stepperDegree_42 and of both dual-stepper families: 50000 * degree / 36000 ms (100 Hz stepping). */
  function HoldTime42(degree: int): real
  {
    (50000 * degree) as real / 36000.0
  }

  /** The hold of stepperDegree_28: 1000 * degree / 360 ms. */
  function HoldTime28(degree: int): real
  {
    (1000 * degree) as real / 360.0
  }

  /**
   * The single 28BYJ-48 move holds twice as long per degree as the 42BYGH move,
   * a full turn taking 1000 ms against 500 ms; holds add up over consecutive angles.
   */
  lemma HoldTimes(d: int, e: int)
    ensures HoldTime28(d) == 2.0 * HoldTime42(d)
    ensures HoldTime42(360) == 500.0 && HoldTime28(360) == 1000.0
    ensures HoldTime42(d) + HoldTime42(e) == HoldTime42(d + e)
    ensures d < e ==> HoldTime42(d) < HoldTime42(e)
  {
  }

  /** The tail of a completed stepper move: the hold, then the group's stops. */
  function HoldAndStop(hold: real, index: int): seq<Event>
  {
    [Delay(hold)] + StopGroupTraffic(index)
  }

  /** The tail pauses for exactly the hold. */
  lemma HoldAndStopPause(hold: real, index: int)
    ensures PauseTotal(HoldAndStop(hold, index)) == hold
  {
    StopQuiet(index);
    QuietTotal(StopGroupTraffic(index));
    PauseTotalAppend([Delay(hold)], StopGroupTraffic(index));
    assert [Delay(hold)][..0] == [];
  }

  /** The bank after stepperDegree_42 (main.ts:321-342): the phase is written even for degree 0; a move then stops the group. */
  function StepperDegree42Bank(b: Bank, index: int, direction: Dir, degree: int): Bank
  {
    var energized := EnergizeBank(b, Phase42(index, direction == CW));
    if degree == 0 then energized else StopGroupBank(energized, index)
  }

  function StepperDegree42Traffic(initialized: bool, mode: bv8, index: int, direction: Dir, degree: int): seq<Event>
  {
    if degree == 0 then InitGuard(initialized, mode) + EnergizeTraffic(Phase42(index, direction == CW))
    else InitGuard(initialized, mode) + EnergizeTraffic(Phase42(index, direction == CW))
           + HoldAndStop(HoldTime42(Magnitude(degree)), index)
  }

  /** The bank after stepperDegree_28 (main.ts:368-388): nothing for degree 0; otherwise the phase, then the group's stops. */
  function StepperDegree28Bank(b: Bank, index: int, direction: Dir, degree: int): Bank
  {
    if degree == 0 then b
    else StopGroupBank(EnergizeBank(b, Phase28(index, direction == CW)), index)
  }

  function StepperDegree28Traffic(initialized: bool, mode: bv8, index: int, direction: Dir, degree: int): seq<Event>
  {
    if degree == 0 then InitGuard(initialized, mode)
    else InitGuard(initialized, mode) + EnergizeTraffic(Phase28(index, direction == CW))
           + HoldAndStop(HoldTime28(Magnitude(degree)), index)
  }

  /**
   * A completed single-stepper move (non-zero degree) leaves exactly the group's
   * channels zeroed and every other channel as it was, and pauses for the family's hold time.
   */
  lemma StepperMoveCompletes(b: Bank, initialized: bool, mode: bv8, index: int, direction: Dir, degree: int)
    requires degree != 0
    ensures StepperDegree42Bank(b, index, direction, degree) == StopGroupBank(b, index)
    ensures StepperDegree28Bank(b, index, direction, degree) == StopGroupBank(b, index)
    ensures PauseTotal(StepperDegree42Traffic(initialized, mode, index, direction, degree)) == HoldTime42(Magnitude(degree))
    ensures PauseTotal(StepperDegree28Traffic(initialized, mode, index, direction, degree)) == HoldTime28(Magnitude(degree))
  {
    StopsUndoPhase(b, index, direction == CW);
    var g := InitGuard(initialized, mode);
    var e42 := EnergizeTraffic(Phase42(index, direction == CW));
    var e28 := EnergizeTraffic(Phase28(index, direction == CW));
    RegisterTrafficQuiet(initialized, mode, 0, 0, 0);
    EnergizeQuiet(Phase42(index, direction == CW));
    EnergizeQuiet(Phase28(index, direction == CW));
    HoldAndStopPause(HoldTime42(Magnitude(degree)), index);
    HoldAndStopPause(HoldTime28(Magnitude(degree)), index);
    QuietPrefix(g + e42, HoldAndStop(HoldTime42(Magnitude(degree)), index));
    QuietPrefix(g + e28, HoldAndStop(HoldTime28(Magnitude(degree)), index));
  }

  /** Zero rotation: stepperDegree_28 returns right after the initialisation guard, writing no channel. */
  lemma StepperZeroDegree28(b: Bank, initialized: bool, mode: bv8, index: int, direction: Dir)
    ensures StepperDegree28Bank(b, index, direction, 0) == b
    ensures StepperDegree28Traffic(initialized, mode, index, direction, 0) == InitGuard(initialized, mode)
  {
  }

  /** Zero rotation: stepperDegree_42 still writes its four phase channels, but does not pause or stop. */
  lemma StepperZeroDegree42(b: Bank, initialized: bool, mode: bv8, index: int, direction: Dir)
    ensures StepperDegree42Bank(b, index, direction, 0) == EnergizeBank(b, Phase42(index, direction == CW))
    ensures StepperDegree42Traffic(initialized, mode, index, direction, 0)
      == InitGuard(initialized, mode) + EnergizeTraffic(Phase42(index, direction == CW))
    ensures PauseTotal(StepperDegree42Traffic(initialized, mode, index, direction, 0)) == 0.0
  {
    RegisterTrafficQuiet(initialized, mode, 0, 0, 0);
    EnergizeQuiet(Phase42(index, direction == CW));
    QuietTotal(InitGuard(initialized, mode) + EnergizeTraffic(Phase42(index, direction == CW)));
  }

  // ----------------------------------------------------------- dual stepper

  /** One step of the dual stepper's stagger: pause for `hold` ms, then stop group `group` (1: motors 1 and 2, 2: motors 3 and 4). */
  datatype Stage = Stage(hold: real, group: int)

  /**
   * The stagger of stepperDegreeDual_42 for magnitudes a1 and a2 (main.ts:425-457):
   * the smaller rotation's group stops first, the larger one's after the difference;
   * a group with no rotation is never stopped; equal rotations match no branch.
   */
  function DualSchedule(a1: int, a2: int): seq<Stage>
  {
    if a1 == 0 && a2 == 0 then []
    else if a1 == 0 && a2 > 0 then [Stage(HoldTime42(a2), 2)]
    else if a2 == 0 && a1 > 0 then [Stage(HoldTime42(a1), 1)]
    else if a2 > a1 then [Stage(HoldTime42(a1), 1), Stage(HoldTime42(a2 - a1), 2)]
    else if a2 < a1 then [Stage(HoldTime42(a2), 2), Stage(HoldTime42(a1 - a2), 1)]
    else []
  }

  /** Whether a branch of the dual stepper matches: all of them but equal non-zero magnitudes. */
  predicate DualActs(family: int, a1: int, a2: int)
  {
    (family == 1 || family == 2) && !(a1 == a2 && a1 != 0)
  }

  /** The bank after both groups' phase writes, group 1 first, in the family's tables (42 for family 1, 28 for family 2). */
  function DualEnergizeBank(b: Bank, family: int, direction1: Dir, direction2: Dir): Bank
  {
    if family == 1 then EnergizeBank(EnergizeBank(b, Phase42(1, direction1 == CW)), Phase42(2, direction2 == CW))
    else EnergizeBank(EnergizeBank(b, Phase28(1, direction1 == CW)), Phase28(2, direction2 == CW))
  }

  function DualEnergizeTraffic(family: int, direction1: Dir, direction2: Dir): seq<Event>
  {
    if family == 1 then EnergizeTraffic(Phase42(1, direction1 == CW)) + EnergizeTraffic(Phase42(2, direction2 == CW))
    else EnergizeTraffic(Phase28(1, direction1 == CW)) + EnergizeTraffic(Phase28(2, direction2 == CW))
  }

  /** The bank after the stages of a stagger, in order. */
  function ScheduleBank(b: Bank, stages: seq<Stage>): Bank
    decreases |stages|
  {
    if stages == [] then b
    else StopGroupBank(ScheduleBank(b, stages[..|stages| - 1]), stages[|stages| - 1].group)
  }

  /** The traffic of the stages of a stagger, in order. */
  function ScheduleTraffic(stages: seq<Stage>): seq<Event>
    decreases |stages|
  {
    if stages == [] then []
    else ScheduleTraffic(stages[..|stages| - 1]) + HoldAndStop(stages[|stages| - 1].hold, stages[|stages| - 1].group)
  }

  /** Total hold of a stagger. */
  function TotalHold(stages: seq<Stage>): real
    decreases |stages|
  {
    if stages == [] then 0.0 else TotalHold(stages[..|stages| - 1]) + stages[|stages| - 1].hold
  }

  lemma {:induction false} SchedulePause(stages: seq<Stage>)
    ensures PauseTotal(ScheduleTraffic(stages)) == TotalHold(stages)
    decreases |stages|
  {
    if stages != [] {
      var init := stages[..|stages| - 1];
      var last := stages[|stages| - 1];
      SchedulePause(init);
      HoldAndStopPause(last.hold, last.group);
      PauseTotalAppend(ScheduleTraffic(init), HoldAndStop(last.hold, last.group));
    }
  }

  /** The bank after stepperDegreeDual_42 (main.ts:415-497). */
  function DualBank(b: Bank, family: int, direction1: Dir, degree1: int, direction2: Dir, degree2: int): Bank
  {
    var a1 := Magnitude(degree1);
    var a2 := Magnitude(degree2);
    if DualActs(family, a1, a2)
    then ScheduleBank(DualEnergizeBank(b, family, direction1, direction2), DualSchedule(a1, a2))
    else b
  }

  function DualTraffic(initialized: bool, mode: bv8, family: int, direction1: Dir, degree1: int,
                       direction2: Dir, degree2: int): seq<Event>
  {
    var a1 := Magnitude(degree1);
    var a2 := Magnitude(degree2);
    if DualActs(family, a1, a2)
    then InitGuard(initialized, mode) + (DualEnergizeTraffic(family, direction1, direction2) + ScheduleTraffic(DualSchedule(a1, a2)))
    else InitGuard(initialized, mode)
  }

  /**
   * When the two rotations differ, the dual stepper pauses in total for the larger
   * one's 42-family hold, and the smaller rotation's group (if it moves at all) is
   * stopped first, after its own hold; a group with no rotation is never stopped.
   */
  lemma DualStagger(a1: int, a2: int)
    requires 0 <= a1 && 0 <= a2 && a1 != a2
    ensures TotalHold(DualSchedule(a1, a2)) == HoldTime42(if a1 > a2 then a1 else a2)
    ensures a1 != 0 && a2 != 0 ==>
      && |DualSchedule(a1, a2)| == 2
      && DualSchedule(a1, a2)[0] == Stage(HoldTime42(if a1 < a2 then a1 else a2), if a1 < a2 then 1 else 2)
      && DualSchedule(a1, a2)[1] == Stage(HoldTime42(if a1 < a2 then a2 - a1 else a1 - a2), if a1 < a2 then 2 else 1)
    ensures a1 == 0 ==> forall i :: 0 <= i < |DualSchedule(a1, a2)| ==> DualSchedule(a1, a2)[i].group == 2
    ensures a2 == 0 ==> forall i :: 0 <= i < |DualSchedule(a1, a2)| ==> DualSchedule(a1, a2)[i].group == 1
  {
    var s := DualSchedule(a1, a2);
    if |s| == 2 {
      assert s[..1][..0] == [];
      assert TotalHold(s[..1]) == s[0].hold;
      assert TotalHold(s) == s[0].hold + s[1].hold;
    } else {
      assert s[..0] == [];
    }
  }

  /** Both groups' phase writes leave all eight coil channels energised and the servo channels alone. */
  lemma DualEnergizeEffect(b: Bank, family: int, direction1: Dir, direction2: Dir)
    ensures var e := DualEnergizeBank(b, family, direction1, direction2);
      && (forall c :: 8 <= c < 16 ==> e[c] == b[c])
      && (forall c :: 0 <= c < 8 ==> e[c] != Stopped)
  {
    var e1 := if family == 1 then EnergizeBank(b, Phase42(1, direction1 == CW)) else EnergizeBank(b, Phase28(1, direction1 == CW));
    PhaseWriteConfined(b, 1, direction1 == CW);
    PhaseWriteConfined(e1, 2, direction2 == CW);
  }

  /**
   * The end state of an acting dual move (main.ts:424-493): the group of a
   * nonzero rotation ends stopped, the group of a zero rotation stays energised,
   * and the servo channels are untouched.
   */
  lemma DualEndsStopped(b: Bank, family: int, direction1: Dir, degree1: int, direction2: Dir, degree2: int)
    requires DualActs(family, Magnitude(degree1), Magnitude(degree2))
    ensures var r := DualBank(b, family, direction1, degree1, direction2, degree2);
      && (forall c :: 8 <= c < 16 ==> r[c] == b[c])
      && (forall c :: InGroup(1, c) ==> (r[c] == Stopped <==> degree1 != 0))
      && (forall c :: InGroup(2, c) ==> (r[c] == Stopped <==> degree2 != 0))
  {
    var a1 := Magnitude(degree1);
    var a2 := Magnitude(degree2);
    var e := DualEnergizeBank(b, family, direction1, direction2);
    var s := DualSchedule(a1, a2);
    DualEnergizeEffect(b, family, direction1, direction2);
    assert DualBank(b, family, direction1, degree1, direction2, degree2) == ScheduleBank(e, s);
    if a1 == 0 && a2 == 0 {
      assert s == [];
    } else if a1 == 0 || a2 == 0 {
      var g := if a1 == 0 then 2 else 1;
      assert s == [Stage(HoldTime42(a1 + a2), g)];
      assert s[..0] == [];
      assert ScheduleBank(e, s) == StopGroupBank(e, g);
      StopGroupEffect(e, g);
    } else {
      var first := if a1 < a2 then 1 else 2;
      var mid := StopGroupBank(e, first);
      assert s[0].group == first && s[1].group == 3 - first;
      assert s[..1][..0] == [];
      assert ScheduleBank(e, s[..1]) == mid;
      StopGroupEffect(e, first);
      StopGroupEffect(mid, 3 - first);
    }
  }

  /** Equal non-zero rotations, or a family other than 1 and 2, leave the bank alone and pause nowhere. */
  lemma DualInert(b: Bank, initialized: bool, mode: bv8, family: int, direction1: Dir, degree1: int,
                  direction2: Dir, degree2: int)
    requires !DualActs(family, Magnitude(degree1), Magnitude(degree2))
    ensures DualBank(b, family, direction1, degree1, direction2, degree2) == b
    ensures DualTraffic(initialized, mode, family, direction1, degree1, direction2, degree2) == InitGuard(initialized, mode)
    ensures PauseTotal(DualTraffic(initialized, mode, family, direction1, degree1, direction2, degree2)) == 0.0
  {
    RegisterTrafficQuiet(initialized, mode, 0, 0, 0);
    QuietTotal(InitGuard(initialized, mode));
  }

  /** The dual stepper's total pause, for any rotations it acts on. */
  lemma DualPause(initialized: bool, mode: bv8, family: int, direction1: Dir, degree1: int, direction2: Dir, degree2: int)
    requires DualActs(family, Magnitude(degree1), Magnitude(degree2))
    ensures PauseTotal(DualTraffic(initialized, mode, family, direction1, degree1, direction2, degree2))
      == TotalHold(DualSchedule(Magnitude(degree1), Magnitude(degree2)))
  {
    var g := InitGuard(initialized, mode);
    var e := DualEnergizeTraffic(family, direction1, direction2);
    var s := ScheduleTraffic(DualSchedule(Magnitude(degree1), Magnitude(degree2)));
    RegisterTrafficQuiet(initialized, mode, 0, 0, 0);
    if family == 1 {
      EnergizeQuiet(Phase42(1, direction1 == CW));
      EnergizeQuiet(Phase42(2, direction2 == CW));
    } else {
      EnergizeQuiet(Phase28(1, direction1 == CW));
      EnergizeQuiet(Phase28(2, direction2 == CW));
    }
    QuietPrefix(e, s);
    QuietPrefix(g, e + s);
    SchedulePause(DualSchedule(Magnitude(degree1), Magnitude(degree2)));
  }
}

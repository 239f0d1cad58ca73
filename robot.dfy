/// The robot library as the program sees it: one driver object holding the
/// `initialized` flag, the expander's sixteen channels and the record of all
/// traffic. Every exported block of main.ts is a method; each one's new state is
/// stated through the bank and traffic functions of the other modules, so that the
/// properties proved there carry over to the methods.
module Eurate {
  import opened Hardware
  import opened Pca9685
  import opened Actuators
  import opened Motion
  import opened Sensors
  import opened Navigation

  class Robot {
    /** Whether initPCA9685 has run (main.ts:146). */
    var initialized: bool
    /** The expander's channel registers. */
    var bank: Bank
    /** Everything the library has sent, waited for or read, in order. */
    var log: seq<Event>
    /** The byte the expander answers to a MODE1 read. */
    const mode1Reply: bv8

    /** A library that has not yet initialised the expander, whose channels hold `powerOn`. */
    constructor (powerOn: Bank, reply: bv8)
      ensures !initialized && bank == powerOn && log == [] && mode1Reply == reply
    {
      initialized := false;
      bank := powerOn;
      log := [];
      mode1Reply := reply;
    }

    // ------------------------------------------------------- register layer

    /** setPwm (main.ts:189-200): a channel outside 0..15 is ignored; otherwise one frame, which the expander latches. */
    method SetPwm(channel: int, on: int, off: int)
      modifies this`log, this`bank
      ensures bank == WithChannel(old(bank), channel, on, off)
      ensures log == old(log) + PwmTraffic(channel, on, off)
    {
      if channel < 0 || channel > 15 {
        return;
      }
      log := log + [PwmWrite(channel, on, off)];
      FrameRoundTrip(channel, on, off);
      var latched := DecodeFrame(PwmFrame(channel, on, off)).value;
      bank := bank[latched.0 := latched.1];
    }

    /** basic.pause: recorded, not waited for. */
    method Pause(ms: real)
      modifies this`log
      ensures log == old(log) + [Delay(ms)]
    {
      log := log + [Delay(ms)];
    }

    /** setFreq (main.ts:173-187), with the expander answering `mode1Reply` to the MODE1 read. */
    method SetFreq(freq: int)
      requires freq > 0
      modifies this`log
      ensures log == old(log) + FreqTraffic(mode1Reply, freq)
    {
      var prescale := PrescaleValue(freq);
      log := log + [BusRead(MODE1)];
      var oldmode := mode1Reply;
      var newmode := (oldmode & 0x7F) | 0x10;
      log := log + [BusWrite([MODE1, newmode as int])];
      log := log + [BusWrite([PRESCALE, StoreByte(prescale)])];
      log := log + [BusWrite([MODE1, oldmode as int])];
      log := log + [DelayMicros(5000)];
      log := log + [BusWrite([MODE1, (oldmode | 0xa1) as int])];
    }

    /** initPCA9685 (main.ts:167-171): clear MODE1, program 50 Hz, set the flag. */
    method InitPca9685()
      modifies this`log, this`initialized
      ensures log == old(log) + InitTraffic(mode1Reply)
      ensures initialized
    {
      log := log + [BusWrite([MODE1, 0x00])];
      SetFreq(OperatingFrequency);
      initialized := true;
    }

    /** The `if (!initialized) initPCA9685()` guard that opens every actuator block. */
    method EnsureInitialized()
      modifies this`log, this`initialized
      ensures log == old(log) + InitGuard(old(initialized), mode1Reply)
      ensures initialized
    {
      if !initialized {
        InitPca9685();
      }
    }

    // ------------------------------------------------------------ actuators

    /** The four setPwm calls of a stepper phase table, in order. */
    method Energize(t: seq<Coil>)
      requires |t| == 4
      modifies this`log, this`bank
      ensures bank == EnergizeBank(old(bank), t)
      ensures log == old(log) + EnergizeTraffic(t)
    {
      ghost var log0 := log;
      SetPwm(t[0].channel, t[0].duty.on, t[0].duty.off);
      SetPwm(t[1].channel, t[1].duty.on, t[1].duty.off);
      SetPwm(t[2].channel, t[2].duty.on, t[2].duty.off);
      SetPwm(t[3].channel, t[3].duty.on, t[3].duty.off);
      ghost var p0 := PwmTraffic(t[0].channel, t[0].duty.on, t[0].duty.off);
      ghost var p1 := PwmTraffic(t[1].channel, t[1].duty.on, t[1].duty.off);
      ghost var p2 := PwmTraffic(t[2].channel, t[2].duty.on, t[2].duty.off);
      ghost var p3 := PwmTraffic(t[3].channel, t[3].duty.on, t[3].duty.off);
      Regroup(log0, p0, p1);
      Regroup(log0, p0 + p1, p2);
      Regroup(log0, p0 + p1 + p2, p3);
    }

    /** setStepper_28 (main.ts:203-229): group 1 energises channels 4..7, any other group 0..3. */
    method SetStepper28(index: int, forward: bool)
      modifies this`log, this`bank
      ensures bank == EnergizeBank(old(bank), Phase28(index, forward))
      ensures log == old(log) + EnergizeTraffic(Phase28(index, forward))
      ensures forall c :: 0 <= c < 16 && !InGroup(index, c) ==> bank[c] == old(bank)[c]
    {
      PhaseWriteConfined(bank, index, forward);
      Energize(Phase28(index, forward));
    }

    /** setStepper_42 (main.ts:232-258). */
    method SetStepper42(index: int, forward: bool)
      modifies this`log, this`bank
      ensures bank == EnergizeBank(old(bank), Phase42(index, forward))
      ensures log == old(log) + EnergizeTraffic(Phase42(index, forward))
      ensures forall c :: 0 <= c < 16 && !InGroup(index, c) ==> bank[c] == old(bank)[c]
    {
      PhaseWriteConfined(bank, index, forward);
      Energize(Phase42(index, forward));
    }

    /** servo (main.ts:269-277): the slot's channel gets on = 0 and the angle's off-count; nothing else changes. */
    method Servo(index: int, degree: int)
      modifies this
      ensures bank == WithChannel(old(bank), ServoChannel(index), 0, ServoOff(degree))
      ensures log == old(log) + ServoCallTraffic(old(initialized), mode1Reply, index, degree)
      ensures initialized
    {
      EnsureInitialized();
      var vUs := degree * 1800 / 180 + 600;
      var value := TruncDiv(vUs * 4096, 20000);
      SetPwm(index + 7, 0, value);
      Regroup(old(log), InitGuard(old(initialized), mode1Reply), ServoTraffic(index, degree));
    }

    /** MotorRun (main.ts:289-311): initialise, clamp the signed duty, then odd channel and even channel of a motor 1..4. */
    method MotorRun(index: int, direction: Dir, speed: real)
      modifies this
      ensures bank == RunBank(old(bank), index, direction, speed)
      ensures log == old(log) + MotorRunTraffic(old(initialized), mode1Reply, index, direction, speed)
      ensures initialized
    {
      EnsureInitialized();
      var s := if direction == CW then speed * 16.0 else -(speed * 16.0);
      if s >= 4096.0 {
        s := 4095.0;
      }
      if s <= -4096.0 {
        s := -4095.0;
      }
      if index > 4 || index <= 0 {
        return;
      }
      var pn := (4 - index) * 2;
      var pp := (4 - index) * 2 + 1;
      assert s == SignedDuty(speed, direction);
      ghost var log0 := log;
      if s >= 0.0 {
        assert ForwardCount(speed, direction) == Trunc(s) && ReverseCount(speed, direction) == 0;
        SetPwm(pp, 0, Trunc(s));
        SetPwm(pn, 0, 0);
      } else {
        assert ForwardCount(speed, direction) == 0 && ReverseCount(speed, direction) == Trunc(-s);
        SetPwm(pp, 0, 0);
        SetPwm(pn, 0, Trunc(-s));
      }
      Regroup(log0, PwmTraffic(pp, 0, ForwardCount(speed, direction)), PwmTraffic(pn, 0, ReverseCount(speed, direction)));
      Regroup(old(log), InitGuard(old(initialized), mode1Reply), RunTraffic(index, direction, speed));
    }

    /** motorStop (main.ts:530-533): both channels of the motor zeroed, even channel first. */
    method MotorStop(index: int)
      modifies this`log, this`bank
      ensures bank == StopBank(old(bank), index)
      ensures log == old(log) + StopTraffic(index)
    {
      SetPwm((4 - index) * 2, 0, 0);
      SetPwm((4 - index) * 2 + 1, 0, 0);
      Regroup(old(log), PwmTraffic(NegativeChannel(index), 0, 0), PwmTraffic(PositiveChannel(index), 0, 0));
    }

    /** motorStopAll (main.ts:540-544): motorStop(1) .. motorStop(4); the flag is neither read nor set. */
    method MotorStopAll()
      modifies this`log, this`bank
      ensures bank == StopAllBank(old(bank))
      ensures log == old(log) + StopAllTraffic()
    {
      for idx := 1 to 5
        invariant bank == StopMotorsBank(old(bank), idx - 1)
        invariant log == old(log) + StopMotorsTraffic(idx - 1)
      {
        StopNext(old(bank), old(log), idx);
      }
    }

    /** One pass of motorStopAll's loop: motors 1 .. n - 1 are stopped, now stop motor n. */
    method StopNext(ghost b0: Bank, ghost l0: seq<Event>, n: int)
      requires 1 <= n <= 4
      requires bank == StopMotorsBank(b0, n - 1) && log == l0 + StopMotorsTraffic(n - 1)
      modifies this`log, this`bank
      ensures bank == StopMotorsBank(b0, n) && log == l0 + StopMotorsTraffic(n)
    {
      MotorStop(n);
      Regroup(l0, StopMotorsTraffic(n - 1), StopTraffic(n));
    }

    /** The trailing stops of a stepper move: motors 1 and 2 for group 1, motors 3 and 4 otherwise (main.ts:334-340). */
    method StopGroup(index: int)
      modifies this`log, this`bank
      ensures bank == StopGroupBank(old(bank), index)
      ensures log == old(log) + StopGroupTraffic(index)
    {
      if index == 1 {
        MotorStop(1);
        MotorStop(2);
        Regroup(old(log), StopTraffic(1), StopTraffic(2));
      } else {
        MotorStop(3);
        MotorStop(4);
        Regroup(old(log), StopTraffic(3), StopTraffic(4));
      }
    }

    /** MotorRun on motors 1, 2, 3 and 4 with their own directions, as Forward, TurnLeftRobot and the others spell out. */
    method Drive(w: Wheels, speed: real)
      modifies this
      ensures bank == DriveBank(old(bank), w, speed)
      ensures log == old(log) + DriveTraffic(old(initialized), mode1Reply, w, speed)
      ensures initialized
    {
      ghost var t1 := MotorRunTraffic(old(initialized), mode1Reply, 1, w.m1, speed);
      ghost var t2 := MotorRunTraffic(true, mode1Reply, 2, w.m2, speed);
      ghost var t3 := MotorRunTraffic(true, mode1Reply, 3, w.m3, speed);
      ghost var t4 := MotorRunTraffic(true, mode1Reply, 4, w.m4, speed);
      MotorRun(1, w.m1, speed);
      MotorRun(2, w.m2, speed);
      Regroup(old(log), t1, t2);
      MotorRun(3, w.m3, speed);
      Regroup(old(log), t1 + t2, t3);
      MotorRun(4, w.m4, speed);
      Regroup(old(log), t1 + t2 + t3, t4);
    }

    /** MotorsStart (main.ts:553-557): MotorRun(1) .. MotorRun(4) in one direction, the drive pattern with all four equal. */
    method MotorsStart(direction: Dir, speed: real)
      modifies this
      ensures bank == DriveBank(old(bank), Wheels(direction, direction, direction, direction), speed)
      ensures log == old(log) + DriveTraffic(old(initialized), mode1Reply, Wheels(direction, direction, direction, direction), speed)
      ensures initialized
    {
      for idx := 1 to 5
        invariant initialized == (old(initialized) || idx > 1)
        invariant bank == RunMotorsBank(old(bank), idx - 1, direction, speed)
        invariant log == old(log) + RunMotorsTraffic(old(initialized), mode1Reply, idx - 1, direction, speed)
      {
        MotorRun(idx, direction, speed);
        Regroup(old(log), RunMotorsTraffic(old(initialized), mode1Reply, idx - 1, direction, speed),
                MotorRunTraffic(old(initialized) || idx > 1, mode1Reply, idx, direction, speed));
      }
      MotorsStartIsDrive(old(bank), direction, speed);
      MotorsStartTraffic(old(initialized), mode1Reply, direction, speed);
    }

    /** RotateRight (main.ts:565-572): stop all, then the turn-right pattern; the stop leaves no trace in the bank. */
    method RotateRight(speed: real)
      modifies this
      ensures bank == DriveBank(old(bank), RightWheels, speed)
      ensures log == old(log) + (StopAllTraffic() + DriveTraffic(old(initialized), mode1Reply, RightWheels, speed))
      ensures initialized
    {
      MotorStopAll();
      Drive(RightWheels, speed);
      DriveOverridesStop(old(bank), RightWheels, speed);
      Regroup(old(log), StopAllTraffic(), DriveTraffic(old(initialized), mode1Reply, RightWheels, speed));
    }

    /** RotateLeft (main.ts:580-586): stop all, then the turn-left pattern. */
    method RotateLeft(speed: real)
      modifies this
      ensures bank == DriveBank(old(bank), LeftWheels, speed)
      ensures log == old(log) + (StopAllTraffic() + DriveTraffic(old(initialized), mode1Reply, LeftWheels, speed))
      ensures initialized
    {
      MotorStopAll();
      Drive(LeftWheels, speed);
      DriveOverridesStop(old(bank), LeftWheels, speed);
      Regroup(old(log), StopAllTraffic(), DriveTraffic(old(initialized), mode1Reply, LeftWheels, speed));
    }

    /** Forward (main.ts:800-805): every motor clockwise. */
    method Forward(speed: real)
      modifies this
      ensures bank == DriveBank(old(bank), ForwardWheels, speed)
      ensures log == old(log) + DriveTraffic(old(initialized), mode1Reply, ForwardWheels, speed)
      ensures initialized
    {
      Drive(ForwardWheels, speed);
    }

    /** TurnRightRobot (main.ts:835-840). */
    method TurnRightRobot(speed: real)
      modifies this
      ensures bank == DriveBank(old(bank), RightWheels, speed)
      ensures log == old(log) + DriveTraffic(old(initialized), mode1Reply, RightWheels, speed)
      ensures initialized
    {
      Drive(RightWheels, speed);
    }

    /** TurnLeftRobot (main.ts:847-852). */
    method TurnLeftRobot(speed: real)
      modifies this
      ensures bank == DriveBank(old(bank), LeftWheels, speed)
      ensures log == old(log) + DriveTraffic(old(initialized), mode1Reply, LeftWheels, speed)
      ensures initialized
    {
      Drive(LeftWheels, speed);
    }

    /** TurnRightRobotForSeconds (main.ts:842-845): the pattern, then a pause of seconds * 1000 ms; the motors keep running. */
    method TurnRightRobotForSeconds(speed: real, seconds: real)
      modifies this
      ensures bank == DriveBank(old(bank), RightWheels, speed)
      ensures log == old(log) + TimedDriveTraffic(old(initialized), mode1Reply, RightWheels, speed, seconds)
      ensures initialized
    {
      TurnRightRobot(speed);
      Pause(seconds * 1000.0);
      Regroup(old(log), DriveTraffic(old(initialized), mode1Reply, RightWheels, speed), [Delay(seconds * 1000.0)]);
    }

    /** TurnLeftRobotForSeconds (main.ts:854-857). */
    method TurnLeftRobotForSeconds(speed: real, seconds: real)
      modifies this
      ensures bank == DriveBank(old(bank), LeftWheels, speed)
      ensures log == old(log) + TimedDriveTraffic(old(initialized), mode1Reply, LeftWheels, speed, seconds)
      ensures initialized
    {
      TurnLeftRobot(speed);
      Pause(seconds * 1000.0);
      Regroup(old(log), DriveTraffic(old(initialized), mode1Reply, LeftWheels, speed), [Delay(seconds * 1000.0)]);
    }

    /** BackUp (main.ts:826-833): every motor counter-clockwise at half the speed, then a pause of seconds * 1000 ms. */
    method BackUp(speed: real, seconds: real)
      modifies this
      ensures bank == DriveBank(old(bank), BackWheels, speed / 2.0)
      ensures log == old(log) + TimedDriveTraffic(old(initialized), mode1Reply, BackWheels, speed / 2.0, seconds)
      ensures initialized
    {
      var half := speed / 2.0;
      Drive(BackWheels, half);
      Pause(seconds * 1000.0);
      Regroup(old(log), DriveTraffic(old(initialized), mode1Reply, BackWheels, half), [Delay(seconds * 1000.0)]);
    }

    /** Turn (main.ts:918-924): the timed turn in the given direction. */
    method Turn(speed: real, seconds: real, direction: DirRot)
      modifies this
      ensures bank == DriveBank(old(bank), TurnWheels(direction), speed)
      ensures log == old(log) + TimedDriveTraffic(old(initialized), mode1Reply, TurnWheels(direction), speed, seconds)
      ensures initialized
    {
      if direction == Right {
        TurnRightRobotForSeconds(speed, seconds);
      } else if direction == Left {
        TurnLeftRobotForSeconds(speed, seconds);
      }
    }

    /** A drive pattern followed by basic.pause(ms): the moving branches of the line followers and the middle of Move. */
    method DriveFor(w: Wheels, speed: real, ms: real)
      modifies this
      ensures bank == DriveBank(old(bank), w, speed)
      ensures log == old(log) + (DriveTraffic(old(initialized), mode1Reply, w, speed) + [Delay(ms)])
      ensures initialized
    {
      Drive(w, speed);
      Pause(ms);
      Regroup(old(log), DriveTraffic(old(initialized), mode1Reply, w, speed), [Delay(ms)]);
    }

    /** A drive pattern, basic.pause(ms), then motorStopAll: Move after its first stop, and the two-sensor follower's moves. */
    method DriveForThenStop(w: Wheels, speed: real, ms: real)
      modifies this
      ensures bank == StopAllBank(DriveBank(old(bank), w, speed))
      ensures log == old(log) + (DriveTraffic(old(initialized), mode1Reply, w, speed) + [Delay(ms)] + StopAllTraffic())
      ensures initialized
    {
      DriveFor(w, speed, ms);
      MotorStopAll();
      Regroup(old(log), DriveTraffic(old(initialized), mode1Reply, w, speed) + [Delay(ms)], StopAllTraffic());
    }

    /** Move (main.ts:624-640): stop all, clamp the speed, drive every motor one way for `duration` ms, stop all. */
    method Move(speed: real, direction: TwoDDir, duration: real, maxVelocity: real, minVelocity: real)
      modifies this
      ensures bank == MoveBank(old(bank), direction, speed, minVelocity, maxVelocity)
      ensures log == old(log) + MoveTraffic(old(initialized), mode1Reply, direction, speed, duration, minVelocity, maxVelocity)
      ensures initialized
    {
      MotorStopAll();
      var s := speed;
      if s < minVelocity {
        s := minVelocity;
      } else if s > maxVelocity {
        s := maxVelocity;
      }
      var d := if direction == FW then CW else CCW;
      assert s == ClampSpeed(speed, minVelocity, maxVelocity) && d == MoveDir(direction);
      DriveForThenStop(Wheels(d, d, d, d), s, duration);
      Regroup(old(log), StopAllTraffic(),
              DriveTraffic(old(initialized), mode1Reply, Wheels(d, d, d, d), s) + [Delay(duration)] + StopAllTraffic());
    }

    // -------------------------------------------------------------- steppers

    /** The tail of a stepper move: pause for the hold, then stop the group's two motors. */
    method HoldThenStop(hold: real, index: int)
      modifies this`log, this`bank
      ensures bank == StopGroupBank(old(bank), index)
      ensures log == old(log) + HoldAndStop(hold, index)
    {
      Pause(hold);
      StopGroup(index);
      Regroup(old(log), [Delay(hold)], StopGroupTraffic(index));
    }

    /** The opening of every stepper block: the initialisation guard, then the four phase writes. */
    method InitAndEnergize(t: seq<Coil>)
      requires |t| == 4
      modifies this
      ensures bank == EnergizeBank(old(bank), t)
      ensures log == old(log) + (InitGuard(old(initialized), mode1Reply) + EnergizeTraffic(t))
      ensures initialized
    {
      EnsureInitialized();
      Energize(t);
      Regroup(old(log), InitGuard(old(initialized), mode1Reply), EnergizeTraffic(t));
    }

    /** stepperDegree_42 (main.ts:321-342): initialise, write the phase, and unless the degree is 0 hold and stop the group. */
    method StepperDegree42(index: int, direction: Dir, degree: int)
      modifies this
      ensures bank == StepperDegree42Bank(old(bank), index, direction, degree)
      ensures log == old(log) + StepperDegree42Traffic(old(initialized), mode1Reply, index, direction, degree)
      ensures initialized
    {
      InitAndEnergize(Phase42(index, direction == CW));
      if degree == 0 {
        return;
      }
      var magnitude := Magnitude(degree);
      HoldThenStop(HoldTime42(magnitude), index);
      Regroup(old(log), InitGuard(old(initialized), mode1Reply) + EnergizeTraffic(Phase42(index, direction == CW)),
              HoldAndStop(HoldTime42(magnitude), index));
    }

    /** stepperDegree_28 (main.ts:368-389): initialise; for a non-zero degree write the phase, hold and stop the group. */
    method StepperDegree28(index: int, direction: Dir, degree: int)
      modifies this
      ensures bank == StepperDegree28Bank(old(bank), index, direction, degree)
      ensures log == old(log) + StepperDegree28Traffic(old(initialized), mode1Reply, index, direction, degree)
      ensures initialized
    {
      if degree == 0 {
        EnsureInitialized();
        return;
      }
      var signed: int := if direction == CW then Magnitude(degree) else -(Magnitude(degree) as int);
      InitAndEnergize(Phase28(index, signed > 0));
      var magnitude := Magnitude(signed);
      HoldThenStop(HoldTime28(magnitude), index);
      Regroup(old(log), InitGuard(old(initialized), mode1Reply) + EnergizeTraffic(Phase28(index, direction == CW)),
              HoldAndStop(HoldTime28(magnitude), index));
    }

    /** stepperTurn_42 (main.ts:352-358): a turn of 0 returns before anything; otherwise turn * 360 degrees. */
    method StepperTurn42(index: int, direction: Dir, turn: int)
      modifies this
      ensures bank == if turn == 0 then old(bank) else StepperDegree42Bank(old(bank), index, direction, turn * 360)
      ensures log == old(log) +
        if turn == 0 then [] else StepperDegree42Traffic(old(initialized), mode1Reply, index, direction, turn * 360)
      ensures initialized == (old(initialized) || turn != 0)
    {
      if turn == 0 {
        return;
      }
      var degree := turn * 360;
      StepperDegree42(index, direction, degree);
    }

    /** stepperTurn_28 (main.ts:399-405). */
    method StepperTurn28(index: int, direction: Dir, turn: int)
      modifies this
      ensures bank == if turn == 0 then old(bank) else StepperDegree28Bank(old(bank), index, direction, turn * 360)
      ensures log == old(log) +
        if turn == 0 then [] else StepperDegree28Traffic(old(initialized), mode1Reply, index, direction, turn * 360)
      ensures initialized == (old(initialized) || turn != 0)
    {
      if turn == 0 {
        return;
      }
      var degree := turn * 360;
      StepperDegree28(index, direction, degree);
    }

    /**
     * The pauses and stops shared by every branch of stepperDegreeDual_42 for the
     * magnitudes a1 and a2 (main.ts:425-457 and, identically, 460-492).
     */
    method Stagger(a1: int, a2: int)
      modifies this`log, this`bank
      ensures bank == ScheduleBank(old(bank), DualSchedule(a1, a2))
      ensures log == old(log) + ScheduleTraffic(DualSchedule(a1, a2))
    {
      StageAppended(old(bank), DualSchedule(a1, a2));
      if a1 == 0 && a2 == 0 {
      } else if a1 == 0 && a2 > 0 {
        HoldThenStop(HoldTime42(a2), 2);
      } else if a2 == 0 && a1 > 0 {
        HoldThenStop(HoldTime42(a1), 1);
      } else if a2 > a1 {
        HoldThenStop(HoldTime42(a1), 1);
        HoldThenStop(HoldTime42(a2 - a1), 2);
        Regroup(old(log), HoldAndStop(HoldTime42(a1), 1), HoldAndStop(HoldTime42(a2 - a1), 2));
      } else if a2 < a1 {
        HoldThenStop(HoldTime42(a2), 2);
        HoldThenStop(HoldTime42(a1 - a2), 1);
        Regroup(old(log), HoldAndStop(HoldTime42(a2), 2), HoldAndStop(HoldTime42(a1 - a2), 1));
      }
    }

    /** The two phase writes of stepperDegreeDual_42: family 1 in the 42 tables, family 2 in the 28 tables, group 1 first. */
    method EnergizePair(family: int, direction1: Dir, direction2: Dir)
      modifies this`log, this`bank
      ensures bank == DualEnergizeBank(old(bank), family, direction1, direction2)
      ensures log == old(log) + DualEnergizeTraffic(family, direction1, direction2)
    {
      if family == 1 {
        SetStepper42(1, direction1 == CW);
        SetStepper42(2, direction2 == CW);
        Regroup(old(log), EnergizeTraffic(Phase42(1, direction1 == CW)), EnergizeTraffic(Phase42(2, direction2 == CW)));
      } else {
        SetStepper28(1, direction1 == CW);
        SetStepper28(2, direction2 == CW);
        Regroup(old(log), EnergizeTraffic(Phase28(1, direction1 == CW)), EnergizeTraffic(Phase28(2, direction2 == CW)));
      }
    }

    /** The moving part of stepperDegreeDual_42 once a branch matched: both phase writes, then the stagger. */
    method EnergizeAndStagger(family: int, direction1: Dir, direction2: Dir, a1: int, a2: int)
      modifies this`log, this`bank
      ensures bank == ScheduleBank(DualEnergizeBank(old(bank), family, direction1, direction2), DualSchedule(a1, a2))
      ensures log == old(log) + (DualEnergizeTraffic(family, direction1, direction2) + ScheduleTraffic(DualSchedule(a1, a2)))
    {
      EnergizePair(family, direction1, direction2);
      Stagger(a1, a2);
      Regroup(old(log), DualEnergizeTraffic(family, direction1, direction2), ScheduleTraffic(DualSchedule(a1, a2)));
    }

    /** stepperDegreeDual_42 (main.ts:415-497): family 1 drives two 42-type steppers, family 2 two 28-type ones. */
    method StepperDegreeDual42(family: int, direction1: Dir, degree1: int, direction2: Dir, degree2: int)
      modifies this
      ensures bank == DualBank(old(bank), family, direction1, degree1, direction2, degree2)
      ensures log == old(log) + DualTraffic(old(initialized), mode1Reply, family, direction1, degree1, direction2, degree2)
      ensures initialized
    {
      EnsureInitialized();
      var a1 := Magnitude(degree1);
      var a2 := Magnitude(degree2);
      if family != 1 && family != 2 {
        return;
      }
      if a1 == a2 && a1 != 0 {
        return;
      }
      EnergizeAndStagger(family, direction1, direction2, a1, a2);
      Regroup(old(log), InitGuard(old(initialized), mode1Reply),
              DualEnergizeTraffic(family, direction1, direction2) + ScheduleTraffic(DualSchedule(a1, a2)));
    }

    /** stepperTurnDual_42 (main.ts:507-522): both turns 0 return at once; families other than 1 and 2 do nothing. */
    method StepperTurnDual42(family: int, direction1: Dir, turn1: int, direction2: Dir, turn2: int)
      modifies this
      ensures var acts := !(turn1 == 0 && turn2 == 0) && (family == 1 || family == 2);
        && bank == (if acts then DualBank(old(bank), family, direction1, turn1 * 360, direction2, turn2 * 360) else old(bank))
        && log == old(log) +
             (if acts then DualTraffic(old(initialized), mode1Reply, family, direction1, turn1 * 360, direction2, turn2 * 360) else [])
        && initialized == (old(initialized) || acts)
    {
      if turn1 == 0 && turn2 == 0 {
        return;
      }
      var degree1 := turn1 * 360;
      var degree2 := turn2 * 360;
      if family == 1 {
        StepperDegreeDual42(family, direction1, degree1, direction2, degree2);
      } else if family == 2 {
        StepperDegreeDual42(family, direction1, degree1, direction2, degree2);
      }
    }

    // --------------------------------------------------------------- sensors

    /** ping (main.ts:597-614): release the pull, trigger, time the echo (`width` µs, as measured), convert. */
    method Ping(trig: int, echo: int, unit: PingUnit, maxCmDistance: int, width: nat) returns (d: nat)
      modifies this`log
      ensures log == old(log) + PingTraffic(trig, echo, maxCmDistance)
      ensures d == PingResult(width, unit)
    {
      log := log + [PullNone(trig)];
      log := log + [PinWrite(trig, 0)];
      log := log + [DelayMicros(2)];
      log := log + [PinWrite(trig, 1)];
      log := log + [DelayMicros(10)];
      log := log + [PinWrite(trig, 0)];
      log := log + [PulseIn(echo, Some(maxCmDistance * 58))];
      var pulse := width;
      match unit
      case Centimeters =>
        d := TruncDiv(pulse, 58);
      case Inches =>
        d := TruncDiv(pulse, 148);
      case MicroSeconds =>
        d := pulse;
    }

    /** UsSensor (main.ts:650-657): the trigger, an echo of `width` µs with the default limit, whole centimetres. */
    method UsSensor(trig: int, echo: int, width: nat) returns (d: nat)
      modifies this`log
      ensures log == old(log) + UsSensorTraffic(trig, echo)
      ensures d == UsSensorResult(width)
    {
      log := log + [PinWrite(trig, 0)];
      log := log + [DelayMicros(2)];
      log := log + [PinWrite(trig, 1)];
      log := log + [DelayMicros(10)];
      log := log + [PinWrite(trig, 0)];
      log := log + [PulseIn(echo, None)];
      d := TruncDiv(width, 58);
    }

    /** IrSensor (main.ts:666-669): read the pin, which reads `level`; something is seen when it is 0. */
    method IrSensor(pin: int, level: int) returns (seen: bool)
      modifies this`log
      ensures log == old(log) + [PinRead(pin)]
      ensures seen <==> level == 0
    {
      log := log + [PinRead(pin)];
      var value := level;
      seen := value == 0;
    }

    /** irSensorTrigger (main.ts:731-737): the output pin goes high exactly when the input sensor sees something. */
    method IrSensorTrigger(pinInput: int, pinOutput: int, level: int)
      modifies this`log
      ensures log == old(log) + [PinRead(pinInput), PinWrite(pinOutput, TriggerLevel(level))]
    {
      var seen := IrSensor(pinInput, level);
      if seen {
        log := log + [PinWrite(pinOutput, 1)];
      } else {
        log := log + [PinWrite(pinOutput, 0)];
      }
    }
    // ------------------------------------------------------------ navigation

    /** One pass of a servo loop's body: servo(pin, d), then basic.pause(5) when the loop settles. */
    method ServoStep(pin: int, d: int, settle: bool)
      modifies this
      ensures bank == WithChannel(old(bank), ServoChannel(pin), 0, ServoOff(d))
      ensures log == old(log) + StepTraffic(old(initialized), mode1Reply, pin, d, settle)
      ensures initialized
    {
      Servo(pin, d);
      if settle {
        Pause(5.0);
        Regroup(old(log), ServoCallTraffic(old(initialized), mode1Reply, pin, d), [Delay(5.0)]);
      }
    }

    /**
     * A sweep that has visited `visited` from the state (b0, l0, init0), extended
     * by one more pass of the loop body at angle d.
     */
    method Advance(ghost b0: Bank, ghost l0: seq<Event>, ghost init0: bool, pin: int, ghost visited: seq<int>, d: int, settle: bool)
      requires bank == SweepBank(b0, pin, visited)
      requires log == l0 + SweepTraffic(init0, mode1Reply, pin, visited, settle)
      requires initialized == AfterSweep(init0, visited)
      modifies this
      ensures bank == SweepBank(b0, pin, visited + [d])
      ensures log == l0 + SweepTraffic(init0, mode1Reply, pin, visited + [d], settle)
      ensures initialized == AfterSweep(init0, visited + [d])
    {
      SweepStep(b0, init0, mode1Reply, pin, visited, d, settle);
      Regroup(l0, SweepTraffic(init0, mode1Reply, pin, visited, settle), StepTraffic(initialized, mode1Reply, pin, d, settle));
      ServoStep(pin, d, settle);
    }

    /**
     * The servo loop `while (index < to) { servo(pin, index); [basic.pause(5);] index++ }`
     * of LavNabUS and lookRight, and of lookLeft's return; the final index is returned.
     */
    method SweepUp(pin: int, from: int, to: int, settle: bool) returns (index: int)
      modifies this
      ensures index == if from < to then to else from
      ensures bank == SweepBank(old(bank), pin, Up(from, to))
      ensures log == old(log) + SweepTraffic(old(initialized), mode1Reply, pin, Up(from, to), settle)
      ensures initialized == AfterSweep(old(initialized), Up(from, to))
    {
      var i := from;
      ghost var visited: seq<int> := [];
      while i < to
        invariant from <= i && (i <= to || i == from)
        invariant visited == Up(from, i)
        invariant bank == SweepBank(old(bank), pin, visited)
        invariant log == old(log) + SweepTraffic(old(initialized), mode1Reply, pin, visited, settle)
        invariant initialized == AfterSweep(old(initialized), visited)
        decreases if i < to then to - i else 0
      {
        Advance(old(bank), old(log), old(initialized), pin, visited, i, settle);
        visited := visited + [i];
        i := i + 1;
      }
      index := i;
    }

    /**
     * The servo loop `while (i > to) { servo(pin, i); basic.pause(5); i-- }`
     * of lookLeft and of lookRight's return; the final i is returned.
     */
    method SweepDown(pin: int, from: int, to: int, settle: bool) returns (index: int)
      modifies this
      ensures index == if from > to then to else from
      ensures bank == SweepBank(old(bank), pin, Down(from, to))
      ensures log == old(log) + SweepTraffic(old(initialized), mode1Reply, pin, Down(from, to), settle)
      ensures initialized == AfterSweep(old(initialized), Down(from, to))
    {
      var i := from;
      ghost var visited: seq<int> := [];
      while i > to
        invariant i <= from && (to <= i || i == from)
        invariant visited == Down(from, i)
        invariant bank == SweepBank(old(bank), pin, visited)
        invariant log == old(log) + SweepTraffic(old(initialized), mode1Reply, pin, visited, settle)
        invariant initialized == AfterSweep(old(initialized), visited)
        decreases if i > to then i - to else 0
      {
        Advance(old(bank), old(log), old(initialized), pin, visited, i, settle);
        visited := visited + [i];
        i := i - 1;
      }
      index := i;
    }

    /**
     * lookLeft (main.ts:859-882): sweep the servo from `index` down to 91 - range with
     * 5 ms after each step, read the ultrasonic sensor (an echo of `width` µs), then
     * sweep back up to 89; the reading is returned.
     */
    method LookLeft(pin: int, trig: int, echo: int, index: int, range: int, width: nat) returns (us: nat)
      modifies this
      ensures bank == SweepBank(SweepBank(old(bank), pin, LeftOut(index, range)), pin, LeftBack(index, range))
      ensures log == old(log) + LookTraffic(old(initialized), mode1Reply, pin, trig, echo, LeftOut(index, range), LeftBack(index, range))
      ensures initialized == AfterSweep(AfterSweep(old(initialized), LeftOut(index, range)), LeftBack(index, range))
      ensures us == UsSensorResult(width)
    {
      var min := 90 - range;
      var mid := 90;
      var i := SweepDown(pin, index, min, true);
      ghost var out := SweepTraffic(old(initialized), mode1Reply, pin, LeftOut(index, range), true);
      us := UsSensor(trig, echo, width);
      Regroup(old(log), out, UsSensorTraffic(trig, echo));
      i := SweepUp(pin, i, mid, true);
      Regroup(old(log), out + UsSensorTraffic(trig, echo),
              SweepTraffic(AfterSweep(old(initialized), LeftOut(index, range)), mode1Reply, pin, LeftBack(index, range), true));
    }

    /**
     * lookRight (main.ts:884-906): sweep from `index` up to 89 + range with 5 ms after
     * each step, read the sensor, then sweep back down to 91; the reading is returned.
     */
    method LookRight(pin: int, trig: int, echo: int, index: int, range: int, width: nat) returns (us: nat)
      modifies this
      ensures bank == SweepBank(SweepBank(old(bank), pin, RightOut(index, range)), pin, RightBack(index, range))
      ensures log == old(log) + LookTraffic(old(initialized), mode1Reply, pin, trig, echo, RightOut(index, range), RightBack(index, range))
      ensures initialized == AfterSweep(AfterSweep(old(initialized), RightOut(index, range)), RightBack(index, range))
      ensures us == UsSensorResult(width)
    {
      var mid := 90;
      var max := 90 + range;
      var i := SweepUp(pin, index, max, true);
      ghost var out := SweepTraffic(old(initialized), mode1Reply, pin, RightOut(index, range), true);
      us := UsSensor(trig, echo, width);
      Regroup(old(log), out, UsSensorTraffic(trig, echo));
      i := SweepDown(pin, i, mid, true);
      Regroup(old(log), out + UsSensorTraffic(trig, echo),
              SweepTraffic(AfterSweep(old(initialized), RightOut(index, range)), mode1Reply, pin, RightBack(index, range), true));
    }

    /** The two looks of lookAround, left first, both from the same `index`; their readings are returned. */
    method LookBothWays(pin: int, trig: int, echo: int, index: int, range: int, leftWidth: nat, rightWidth: nat)
      returns (left: nat, right: nat)
      modifies this
      ensures bank == LookedBank(old(bank), pin, index, range)
      ensures log == old(log) +
        (LookTraffic(old(initialized), mode1Reply, pin, trig, echo, LeftOut(index, range), LeftBack(index, range))
         + LookTraffic(AfterSweep(AfterSweep(old(initialized), LeftOut(index, range)), LeftBack(index, range)),
                       mode1Reply, pin, trig, echo, RightOut(index, range), RightBack(index, range)))
      ensures initialized == AfterSweep(AfterSweep(AfterSweep(AfterSweep(old(initialized), LeftOut(index, range)),
                                                   LeftBack(index, range)), RightOut(index, range)), RightBack(index, range))
      ensures left == UsSensorResult(leftWidth) && right == UsSensorResult(rightWidth)
    {
      left := LookLeft(pin, trig, echo, index, range, leftWidth);
      ghost var lookedLeft := log;
      ghost var i1 := initialized;
      right := LookRight(pin, trig, echo, index, range, rightWidth);
      Regroup(old(log),
              LookTraffic(old(initialized), mode1Reply, pin, trig, echo, LeftOut(index, range), LeftBack(index, range)),
              LookTraffic(i1, mode1Reply, pin, trig, echo, RightOut(index, range), RightBack(index, range)));
    }

    /**
     * lookAround (main.ts:807-824): look left, look right, then turn left for `seconds`
     * when the readings differ (whichever is larger) or back up when they are equal.
     */
    method LookAround(pin: int, trig: int, echo: int, speed: real, index: int, seconds: real, range: int,
                      leftWidth: nat, rightWidth: nat)
      modifies this
      ensures bank == LookAroundBank(old(bank), pin, speed, index, range, leftWidth, rightWidth)
      ensures log == old(log) + LookAroundTraffic(old(initialized), mode1Reply, pin, trig, echo, speed, index, seconds, range,
                                                  leftWidth, rightWidth)
      ensures initialized
    {
      var left, right := LookBothWays(pin, trig, echo, index, range, leftWidth, rightWidth);
      ghost var looks := log[|old(log)|..];
      assert log == old(log) + looks;
      if left > right {
        TurnLeftRobotForSeconds(speed, seconds);
      } else if right > left {
        TurnLeftRobotForSeconds(speed, seconds);
      } else {
        // the source's final test, right == left, always holds here
        BackUp(speed, seconds);
      }
      ghost var i2 := AfterSweep(AfterSweep(AfterSweep(AfterSweep(old(initialized), LeftOut(index, range)),
                                                       LeftBack(index, range)), RightOut(index, range)), RightBack(index, range));
      if left != right {
        Regroup(old(log), looks, TimedDriveTraffic(i2, mode1Reply, LeftWheels, speed, seconds));
      } else {
        Regroup(old(log), looks, TimedDriveTraffic(i2, mode1Reply, BackWheels, speed / 2.0, seconds));
      }
    }

    /**
     * The front scan of LavNabUS (main.ts:757-784): clamp the angle, sweep the servo
     * across the front without pauses, then take one ultrasonic reading.
     */
    method ScanFront(trig: int, echo: int, angle: int, pin: int, frontWidth: nat) returns (us: nat)
      modifies this
      ensures bank == SweepBank(old(bank), pin, FrontSweep(angle))
      ensures log == old(log) + (SweepTraffic(old(initialized), mode1Reply, pin, FrontSweep(angle), false) + UsSensorTraffic(trig, echo))
      ensures initialized
      ensures us == UsSensorResult(frontWidth)
    {
      var a := angle;
      if a > 250 {
        a := 255;
      } else if a < 0 {
        a := 0;
      }
      if a > 180 {
        a := 180;
      } else if a < 2 {
        a := 2;
      }
      if a % 2 != 0 {
        a := a + 1;
      }
      assert a == NormalizeScan(angle);
      var max := 90 + a / 2;
      var min := 90 - a / 2;
      assert Up(min, max) == FrontSweep(angle);
      var index := SweepUp(pin, min, max, false);
      us := UsSensor(trig, echo, frontWidth);
      Regroup(old(log), SweepTraffic(old(initialized), mode1Reply, pin, FrontSweep(angle), false), UsSensorTraffic(trig, echo));
    }

    /**
     * LavNabUS (main.ts:754-798): scan the front; at or within `distance` cm stop all and
     * look around from the centre with the clamped look range, otherwise drive forward.
     */
    method LavNabUs(trig: int, echo: int, angle: int, speed: real, distance: int, pin: int, seconds: real, range: int,
                    frontWidth: nat, leftWidth: nat, rightWidth: nat)
      modifies this
      ensures bank == LavNabBank(old(bank), pin, angle, speed, distance, range, frontWidth, leftWidth, rightWidth)
      ensures log == old(log) + LavNabTraffic(old(initialized), mode1Reply, trig, echo, angle, speed, distance, pin, seconds,
                                              range, frontWidth, leftWidth, rightWidth)
      ensures initialized
    {
      var us := ScanFront(trig, echo, angle, pin, frontWidth);
      ghost var front := log[|old(log)|..];
      assert log == old(log) + front;
      if us <= distance {
        AvoidObstacle(trig, echo, speed, pin, seconds, range, leftWidth, rightWidth);
        ghost var look := LookAroundTraffic(true, mode1Reply, pin, trig, echo, speed, 90, seconds, NormalizeLook(range), leftWidth, rightWidth);
        Regroup(old(log), front, StopAllTraffic() + look);
        Regroup(front, StopAllTraffic(), look);
      } else {
        Forward(speed);
        Regroup(old(log), front, DriveTraffic(true, mode1Reply, ForwardWheels, speed));
      }
    }

    /**
     * The blocked branch of LavNabUS (main.ts:785-794): stop all motors, clamp the
     * look range to an even number in 2..180, then look around from the centre.
     */
    method AvoidObstacle(trig: int, echo: int, speed: real, pin: int, seconds: real, range: int,
                         leftWidth: nat, rightWidth: nat)
      modifies this
      ensures bank == LookAroundBank(StopAllBank(old(bank)), pin, speed, 90, NormalizeLook(range), leftWidth, rightWidth)
      ensures log == old(log) + (StopAllTraffic()
        + LookAroundTraffic(old(initialized), mode1Reply, pin, trig, echo, speed, 90, seconds, NormalizeLook(range), leftWidth, rightWidth))
      ensures initialized
    {
      MotorStopAll();
      var index := 90;
      var r := range;
      if r > 180 {
        r := 180;
      } else if r < 2 {
        r := 2;
      }
      if r % 2 != 0 {
        r := r + 1;
      }
      assert r == NormalizeLook(range);
      LookAround(pin, trig, echo, speed, index, seconds, r, leftWidth, rightWidth);
      Regroup(old(log), StopAllTraffic(),
        LookAroundTraffic(old(initialized), mode1Reply, pin, trig, echo, speed, 90, seconds, r, leftWidth, rightWidth));
    }

    // ---------------------------------------------------------- line followers

    /**
     * LineFollower (main.ts:937-961): read the right sensor, then the left (their pins
     * read `rightLevel` and `leftLevel`); a moving decision drives for `ms` ms and stops all,
     * and no sensor on the line stops all at once.
     */
    method LineFollower(pinleft: int, pinright: int, speed: real, ms: real, leftLevel: int, rightLevel: int)
      modifies this
      ensures var c := TwoSensorChoice(Sensors.IrSensor(leftLevel), Sensors.IrSensor(rightLevel));
        && bank == TwoSensorBank(old(bank), c, speed)
        && log == old(log) + TwoSensorTraffic(old(initialized), mode1Reply, pinleft, pinright, c, speed, ms)
        && initialized == (old(initialized) || Moving(c))
    {
      var right := IrSensor(pinright, rightLevel);
      var left := IrSensor(pinleft, leftLevel);
      ghost var sensed := [PinRead(pinright), PinRead(pinleft)];
      assert log == old(log) + sensed;
      if left && right {
        DriveForThenStop(ForwardWheels, speed, ms);
        Regroup(old(log), sensed, DriveTraffic(old(initialized), mode1Reply, ForwardWheels, speed) + [Delay(ms)] + StopAllTraffic());
      } else if right && !left {
        DriveForThenStop(LeftWheels, speed, ms);
        Regroup(old(log), sensed, DriveTraffic(old(initialized), mode1Reply, LeftWheels, speed) + [Delay(ms)] + StopAllTraffic());
      } else if !right && left {
        DriveForThenStop(RightWheels, speed, ms);
        Regroup(old(log), sensed, DriveTraffic(old(initialized), mode1Reply, RightWheels, speed) + [Delay(ms)] + StopAllTraffic());
      } else {
        // the source's final test, !right && !left, always holds here
        MotorStopAll();
        Regroup(old(log), sensed, StopAllTraffic());
      }
    }

    /**
     * LineFollowerThreeSensors (main.ts:975-1001): read left, centre and right; a moving
     * decision drives and pauses `ms` ms without stopping, all-equal readings stop all,
     * and the centre sensor alone on the line matches no branch.
     */
    method LineFollowerThreeSensors(pinleft: int, pinright: int, pincenter: int, speed: real, ms: real,
                                    leftLevel: int, centerLevel: int, rightLevel: int)
      modifies this
      ensures var c := ThreeSensorChoice(Sensors.IrSensor(leftLevel), Sensors.IrSensor(centerLevel), Sensors.IrSensor(rightLevel));
        && bank == ThreeSensorBank(old(bank), c, speed)
        && log == old(log) + ThreeSensorTraffic(old(initialized), mode1Reply, pinleft, pincenter, pinright, c, speed, ms)
        && initialized == (old(initialized) || Moving(c))
    {
      var leftV := IrSensor(pinleft, leftLevel);
      var centerV := IrSensor(pincenter, centerLevel);
      var rightV := IrSensor(pinright, rightLevel);
      ghost var sensed := [PinRead(pinleft), PinRead(pincenter), PinRead(pinright)];
      assert log == old(log) + sensed;
      if leftV && !centerV && rightV {
        DriveFor(ForwardWheels, speed, ms);
        Regroup(old(log), sensed, DriveTraffic(old(initialized), mode1Reply, ForwardWheels, speed) + [Delay(ms)]);
      } else if !leftV && !centerV && !rightV {
        MotorStopAll();
        Regroup(old(log), sensed, StopAllTraffic());
      } else if leftV && centerV && rightV {
        MotorStopAll();
        Regroup(old(log), sensed, StopAllTraffic());
      } else if !leftV && !centerV && rightV {
        DriveFor(LeftWheels, speed, ms);
        Regroup(old(log), sensed, DriveTraffic(old(initialized), mode1Reply, LeftWheels, speed) + [Delay(ms)]);
      } else if leftV && !centerV && !rightV {
        DriveFor(RightWheels, speed, ms);
        Regroup(old(log), sensed, DriveTraffic(old(initialized), mode1Reply, RightWheels, speed) + [Delay(ms)]);
      } else if !leftV && centerV && rightV {
        DriveFor(LeftWheels, speed, ms);
        Regroup(old(log), sensed, DriveTraffic(old(initialized), mode1Reply, LeftWheels, speed) + [Delay(ms)]);
      } else if leftV && centerV && !rightV {
        DriveFor(RightWheels, speed, ms);
        Regroup(old(log), sensed, DriveTraffic(old(initialized), mode1Reply, RightWheels, speed) + [Delay(ms)]);
      }
    }
  }

  /** Facts that let the stagger's stages be carried out one at a time. */
  lemma StageAppended(b: Bank, stages: seq<Stage>)
    ensures |stages| == 0 ==> ScheduleTraffic(stages) == [] && ScheduleBank(b, stages) == b
    ensures |stages| == 1 ==>
      && ScheduleTraffic(stages) == HoldAndStop(stages[0].hold, stages[0].group)
      && ScheduleBank(b, stages) == StopGroupBank(b, stages[0].group)
    ensures |stages| == 2 ==>
      && ScheduleTraffic(stages) == HoldAndStop(stages[0].hold, stages[0].group) + HoldAndStop(stages[1].hold, stages[1].group)
      && ScheduleBank(b, stages) == StopGroupBank(StopGroupBank(b, stages[0].group), stages[1].group)
  {
    if |stages| == 2 {
      assert stages[..1][..0] == [];
      assert ScheduleBank(b, stages[..1]) == StopGroupBank(b, stages[0].group);
    } else if |stages| == 1 {
      assert stages[..0] == [];
    }
  }
}

# EuRate robot library — a Dafny model

EuRate (`pxt-eu-rate`) is a MakeCode library that drives a micro:bit robot
through a PCA9685 sixteen-channel PWM expander. Channels 0..7 drive four DC
motors, or two stepper groups of four coils. Channels 8..15 drive eight servos.
The library also reads an ultrasonic range finder and infrared line and
obstacle sensors.

This project models the library's `main.ts`. It describes what the library
writes to the expander, how long it pauses, and the state it leaves the
channels in.

- `hardware.dfy` (module `Hardware`) defines the shared types.
  - A channel is a `Duty`, a pair of on and off counts.
  - The `Bank` is the sixteen channels.
  - An `Event` is one observable action: an expander frame, another bus
    write, a register read, a busy wait, a `basic.pause`, or a pin access.
  - The module also holds the MakeCode numeric conventions used here:
    truncation toward zero and integer division.
- `pca9685.dfy` (`Pca9685`) covers the register layer:
  - `setPwm`'s five-byte frame and its decoding, and the channel update it
    causes;
  - the prescale `setFreq` computes, and its mode-register sequence;
  - `initPCA9685`.
- `actuators.dfy` (`Actuators`) covers one actuator per call:
  - the servo angle-to-count map;
  - `MotorRun`'s clamped signed duty;
  - `motorStop`;
  - the four stepper phase tables, and stopping a stepper group.
- `motion.dfy` (`Motion`) covers everything built from those:
  - `motorStopAll`, `MotorsStart`, the rotations and turns, `Forward`,
    `BackUp` and `Move`;
  - the single stepper moves, and the staggered schedule of the dual stepper.
- `sensors.dfy` (`Sensors`) covers the readings:
  - `ping` with its unit conversion;
  - `UsSensor`;
  - `IrSensor` and `irSensorTrigger`.
- `navigation.dfy` (`Navigation`) covers the behaviours:
  - the angle clamps and servo sweeps of `LavNabUS`;
  - `lookLeft`, `lookRight` and `lookAround` with its decision;
  - the two-sensor and three-sensor line followers.
- `robot.dfy` (module `Eurate`, class `Robot`) is the library as a program
  uses it.
  - The class holds the `initialized` flag, the expander's `bank` and the
    append-only `log` of events.
  - Every block of `main.ts` is a method with the source's own loops.
  - Each method states its new bank as a function of the old one. It states
    the log as the old log followed by the traffic function of the modules
    above.
  - So each property proved about those functions holds for the method.

The pure modules carry the properties. Examples:

- The bytes of a frame decode back to the channel and the counts.
- A motor is never driven both ways.
- A phase table writes exactly its group's four coils.
- `motorStopAll` is idempotent and leaves the servos alone.
- `Move` ends stopped after pausing exactly its duration.
- The dual stepper stops the smaller rotation first and waits in total for
  the larger rotation's hold.
- The two-sensor follower always issues a command. The three-sensor one issues none exactly on the centre-only reading (`Navigation.ThreeSensorChoice`).
- The two-sensor follower always ends stopped.

Sensor values that the hardware supplies are parameters of the methods:

- the echo width returned by `pins.pulseIn`;
- the level returned by `pins.digitalReadPin`;
- the byte the expander answers to a MODE1 read.

A pause is recorded in the log, not waited for.

Behaviour of the code worth noting (the model follows the code as written):

- **Prescale.** `setFreq` stores the prescale without rounding it; the
  rounding is commented out at main.ts:179. The stored byte is
  25 MHz/(4096·freq) − 1 rounded down, which is 121 at 50 Hz
  (`Pca9685.PrescaleIsFloor`).
- **Servo counts.** The servo off-counts run from 122 (0°) to 491 (180°). The
  code truncates the count when it splits it into bytes
  (`Actuators.ServoOff`).
- **Dual stepper timing.** `stepperDegreeDual_42` uses the 42BYG timing,
  500 ms per turn, for the 28BYJ family too.
  - Two equal nonzero rotations fall through every branch and do nothing.
  - An unknown family does nothing (`Motion.DualInert`).
- **lookAround.** It turns left whether the left reading is the larger or
  the right one. It backs up only on equal readings
  (`Navigation.LookAroundChoice`). The comment at main.ts:740 says the
  robot turns toward the side with the most free space; the code does not.
- **Three-sensor follower.**
  - Centre-only is handled by no branch, so nothing happens.
  - The moving branches pause but never stop the motors
    (`Navigation.ThreeSensorKeepsRunning`).
  - The two-sensor follower stops after every branch
    (`Navigation.TwoSensorEndsStopped`).
- **Servo position after looking.** Looking left then right from 90° leaves
  the servo at 91°, because the return sweeps stop one step short of the
  centre (`Navigation.LookFromCentre`).

## Model

| member | source | states |
|---|---|---|
| Hardware.PauseTotalAppend | main.ts:638 | the paused time of two records run one after the other is the sum of their paused times |
| Hardware.QuietTotal | main.ts:189-200 | a record with no basic.pause in it pauses for no time at all |
| Hardware.QuietPrefix | main.ts:624-640 | register traffic issued before a pause adds nothing to the paused time of what follows |
| Hardware.QuietThenDelay | main.ts:842-845 | pause-free traffic followed by one basic.pause(ms) pauses for exactly ms |
| Hardware.QuietBracket | main.ts:624-640 | pause-free traffic before and after a record (the two motorStopAll calls of Move) leaves its paused time unchanged |
| Hardware.Trunc | main.ts:195-198 | storing a number as an integer truncates toward zero: the result is within one of the input, on the zero side |
| Pca9685.Lo | main.ts:195 | the low byte `v & 0xff` is a byte, and is `v` itself when `v` already fits in a byte |
| Pca9685.Hi | main.ts:196 | the high byte `(v >> 8) & 0xff` is a byte |
| Pca9685.WordRoundTrip | main.ts:195-198 | the low and high bytes written by setPwm recombine into the count modulo 65536: no bits of a 16-bit count are lost |
| Pca9685.FrameRoundTrip | main.ts:193-199 | decoding setPwm's five-byte buffer gives back the channel (register 6 + 4·channel) and both counts modulo 65536 |
| Pca9685.WithChannel | main.ts:189-200 | a channel outside 0..15 leaves every register unchanged; otherwise the addressed channel holds the written on/off counts (as 16-bit words) |
| Pca9685.WithChannelFrame | main.ts:189-200 | setPwm changes no channel other than the one addressed |
| Pca9685.WithChannelOverwrite | main.ts:189-200 | a second write to the same channel wins: writing twice equals writing the last pair once |
| Pca9685.SleepMode | main.ts:181 | the sleep mode sets bit 0x10, clears the restart bit 0x80 and keeps every other bit of the MODE1 reply |
| Pca9685.RestartMode | main.ts:186 | the wake-up mode sets restart, auto-increment and all-call (0xa1) and keeps every other bit of the reply |
| Pca9685.StoreByte | main.ts:183 | a number stored into the two-byte I2C buffer becomes a byte |
| Pca9685.PrescaleByte | main.ts:175-183 | the prescale setFreq writes is always a byte |
| Pca9685.PrescaleIsFloor | main.ts:175-179 | for every frequency the chip supports, the prescale written is 25 MHz/(4096·freq) − 1 rounded down, not to nearest |
| Pca9685.RealQuotientFloor | main.ts:176-177 | the exact quotient of two naturals lies between its floor and the floor plus one |
| Pca9685.PrescaleAtOperatingFrequency | main.ts:169 | at the 50 Hz initPCA9685 selects, the prescale register receives 121 |
| Pca9685.InitTrafficExplicit | main.ts:167-187 | initPCA9685 sends exactly: MODE1←0, a MODE1 read, MODE1←sleep mode, PRESCALE←121, MODE1←reply, a 5000 µs wait, MODE1←wake mode; and it never calls basic.pause |
| Pca9685.InitGuard | main.ts:270-272 | once the library is initialised, the initialisation guard sends nothing |
| Pca9685.RegisterTrafficQuiet | main.ts:167-200 | neither a channel write nor the initialisation guard pauses |
| Actuators.ServoOff | main.ts:274-275 | the servo off-count for 0..180° stays within 122..491, with 122 at 0° and 491 at 180° |
| Actuators.ServoOffIncreasing | main.ts:274-275 | a larger angle gives an off-count at least two counts larger: the map is strictly increasing |
| Actuators.ServoTraffic | main.ts:276 | a servo index 1..8 (S8 is 1, S1 is 8) writes a single frame, to channel index+7, with on-count 0 and the angle's off-count |
| Actuators.ServoCallQuiet | main.ts:269-277 | a servo call (with its initialisation guard) never pauses |
| Actuators.ServoWritesOneChannel | main.ts:276 | a servo write lands on one of channels 8..15 and changes only that channel |
| Actuators.SignedDuty | main.ts:293-299 | the signed duty after the clamps lies strictly between −4096 and 4096 |
| Actuators.ForwardCount | main.ts:304-305 | the count written to the motor's positive channel is 0..4095 |
| Actuators.ReverseCount | main.ts:307-309 | the count written to the negative channel is 0..4095, and is nonzero only when the positive channel gets 0: a motor is never driven both ways |
| Actuators.IntegerSpeedCounts | main.ts:293-310 | for an integer speed the counts are 16·speed·direction clamped to ±4095, on the positive channel when non-negative and on the negative channel otherwise |
| Actuators.RunEffect | main.ts:300-310 | MotorRun on M1..M4 sets the positive channel (9−2·index) and the negative channel (8−2·index) and leaves every other channel; an index outside 1..4 changes nothing |
| Actuators.RunTraffic | main.ts:300-301 | a motor index outside 1..4 sends no channel write |
| Actuators.MotorRunQuiet | main.ts:289-311 | MotorRun never pauses |
| Actuators.StopEffect | main.ts:530-533 | motorStop zeroes exactly the motor's two channels and leaves the others |
| Actuators.StopTraffic | main.ts:530-533 | motorStop on M1..M4 sends a zero frame to the negative channel, then to the positive one |
| Actuators.StopUndoesRun | main.ts:530-533 | (motorStop after MotorRun, main.ts:289-311) stopping a motor after running it leaves the same bank as stopping it without running it |
| Actuators.CoversBlock | main.ts:203-258 | a four-entry phase table with distinct channels inside one block of four writes exactly that block |
| Actuators.Phase28CoversGroup | main.ts:203-229 | each 28BYJ phase table writes every coil channel of its group (4..7 for group 1, 0..3 otherwise) and nothing else |
| Actuators.Phase42CoversGroup | main.ts:232-258 | each 42BYG phase table writes every coil channel of its group and nothing else |
| Actuators.Reverse28Mirrors | main.ts:203-229 | the 28BYJ reverse table uses the same duty sequence on the mirrored channel order |
| Actuators.Reverse42Advances | main.ts:232-258 | the 42BYG reverse table keeps the channel order and shifts the duty pattern by two phases |
| Actuators.EnergizeQuiet | main.ts:203-258 | writing a phase table never pauses |
| Actuators.EnergizeEffect | main.ts:203-258 | after a phase table is written, each listed channel holds its duty and every other channel is unchanged |
| Actuators.PhaseWriteConfined | main.ts:203-258 | a stepper phase write changes only its group's channels and leaves all four of them energised |
| Actuators.StopGroupEffect | main.ts:334-340 | (the same stops close stepperDegree_28 at main.ts:381-387) stopping a stepper group zeroes exactly its four channels |
| Actuators.StopQuiet | main.ts:530-533 | motorStop and a group stop never pause |
| Actuators.StopsUndoPhase | main.ts:328-340 | (likewise main.ts:378-387 for the 28BYJ) stopping a group after energising it leaves the same bank as stopping it without energising it |
| Motion.StopMotorsEffect | main.ts:541-543 | after the first n iterations of motorStopAll's loop, channels 8−2n..7 are zero and all others unchanged |
| Motion.StopMotorsQuiet | main.ts:541-543 | no iteration of motorStopAll's loop pauses |
| Motion.StopAllEffect | main.ts:540-544 | motorStopAll zeroes the eight motor channels 0..7 and keeps the servo channels 8..15 |
| Motion.StopAllQuiet | main.ts:540-544 | motorStopAll never pauses |
| Motion.StopAllIdempotent | main.ts:540-544 | stopping all motors twice is the same as stopping them once |
| Motion.TurnsAreMirrored | main.ts:826-852 | (and RotateRight/RotateLeft, main.ts:565-586) turning left drives every wheel opposite to turning right, and backing up opposite to going forward |
| Motion.DriveEffect | main.ts:800-805 | (and the turns, main.ts:835-852) driving the four wheels sets each motor's channels to that wheel's forward/reverse counts and leaves the servo channels alone |
| Motion.DriveQuiet | main.ts:800-805 | driving the four wheels never pauses |
| Motion.DriveInitialisesOnce | main.ts:290-292 | (four calls, as in Forward at main.ts:800-805) four MotorRun calls initialise the expander at most once, before the first write: their traffic is the guard followed by the four motors' writes |
| Motion.DriveOverridesStop | main.ts:565-572 | (and RotateLeft, main.ts:580-586) stopping all motors before driving all four (RotateRight/RotateLeft) ends in the same bank as driving without the stop |
| Motion.MotorsStartIsDrive | main.ts:553-557 | MotorsStart's loop ends with all four wheels driven in the one direction |
| Motion.MotorsStartTraffic | main.ts:553-557 | MotorsStart's loop sends the same traffic as driving the four wheels in that direction |
| Motion.BackUpHalvesSpeed | main.ts:826-831 | backing up at an integer speed puts min(8·speed, 4095) on each reverse channel and nothing on the forward ones |
| Motion.ClampSpeed | main.ts:626 | Move's speed lies within [minVelocity, maxVelocity] when that interval is non-empty; it is the speed itself inside it, minVelocity below it, and maxVelocity above it when the speed is at least minVelocity; it is always one of the three inputs |
| Motion.MoveEndsStopped | main.ts:624-640 | Move ends with all motors stopped and the servo channels unchanged, whatever the direction and speed |
| Motion.MovePausesForDuration | main.ts:624-640 | Move pauses for exactly its duration |
| Motion.TimedDrivePause | main.ts:842-845 | (and main.ts:854-857, 826-833) the timed turns and BackUp pause for exactly seconds·1000 ms |
| Motion.HoldTimes | main.ts:333 | (the 28BYJ hold is at main.ts:380) a 28BYJ hold is twice a 42BYG hold; 360° holds 500 ms (42) and 1000 ms (28); holds are additive and increase with the angle |
| Motion.HoldAndStopPause | main.ts:333-340 | holding and then stopping a group pauses for exactly the hold |
| Motion.StepperMoveCompletes | main.ts:321-342 | (and stepperDegree_28, main.ts:368-389) a nonzero stepper move ends with its group's channels zero and pauses for the family's hold of abs(degree) |
| Motion.StepperZeroDegree28 | main.ts:372-374 | stepperDegree_28 with 0° only initialises: no channel changes |
| Motion.StepperZeroDegree42 | main.ts:328-331 | stepperDegree_42 with 0° energises the group and returns without pausing or stopping, so the coils stay energised |
| Motion.SchedulePause | main.ts:445-457 | the staggered stops of the dual stepper pause in total for the sum of their holds |
| Motion.DualStagger | main.ts:425-457 | with different rotations, the dual stepper waits in total for the larger rotation's hold; with both nonzero it has exactly two stages, the smaller rotation's group stopped after its hold and then the other group after the hold of the difference; a group with no rotation is never stopped |
| Motion.DualEnergizeEffect | main.ts:426-427 | the two phase writes energise all eight coil channels and leave the servo channels alone |
| Motion.DualEndsStopped | main.ts:424-493 | an acting dual move ends with the group of a nonzero rotation stopped, the group of a zero rotation still energised, and the servo channels untouched |
| Motion.DualInert | main.ts:415-497 | an unknown family, or two equal nonzero rotations, leaves every channel unchanged and sends only the initialisation guard |
| Motion.DualPause | main.ts:415-497 | whenever the dual stepper acts, its paused time is the total hold of its stop schedule |
| Sensors.PingTraffic | main.ts:599-607 | ping releases the trigger pull, sends the trigger pulse and times the echo for at most 58 µs per centimetre of range |
| Sensors.PingResult | main.ts:609-613 | ping returns the echo width, or the whole centimetres (58 µs each) or whole inches (148 µs each) it contains |
| Sensors.PingMonotone | main.ts:609-613 | a longer echo never gives a shorter ping reading, in any unit |
| Sensors.SensorTrafficQuiet | main.ts:597-657 | neither ultrasonic read calls basic.pause |
| Sensors.UsSensorResult | main.ts:656 | UsSensor returns the whole centimetres in the echo width |
| Sensors.UsSensorIsPingInCm | main.ts:650-657 | (ping is main.ts:597-614) UsSensor reads what ping in centimetres reads and sends the same trigger pulse, without the pull release and the timeout |
| Sensors.TriggerLevel | main.ts:731-737 | irSensorTrigger writes 1 exactly when the level read is 0 and 0 otherwise: the inverse of a binary level |
| Navigation.NormalizeScan | main.ts:757-763 | the scan angle ends even and in [2, 180]: 180 above, 2 below, otherwise rounded up to even |
| Navigation.NormalizeLook | main.ts:789-792 | the look-around range ends even and in [2, 180] |
| Navigation.NormalizationsAgree | main.ts:757-763 | (the range clamp is main.ts:789-792) the scan angle and look range clamps agree on every input, in spite of the extra [0, 255] clamp |
| Navigation.Up | main.ts:770-773 | (also lookRight, main.ts:890-894) an ascending sweep visits from, from+1, … up to but not including to |
| Navigation.Down | main.ts:865-869 | (also lookRight's return, main.ts:900-904) a descending sweep visits from, from−1, … down to but not including to |
| Navigation.SweepPause | main.ts:865-869 | a settling sweep pauses 5 ms per angle visited; a front sweep not at all |
| Navigation.StepPause | main.ts:866-867 | one sweep step adds 5 ms of pause exactly when it settles |
| Navigation.SweepStep | main.ts:770-773 | one more angle extends the sweep's traffic by one servo step and moves the servo channel to that angle |
| Navigation.SweepEndsAtLast | main.ts:770-773 | after a non-empty sweep the servo channel holds the last angle visited and nothing else has changed |
| Navigation.FrontSweep | main.ts:765-778 | the front scan visits a consecutive run of angles centred on 90, as many as the normalised angle, all within 0..180 |
| Navigation.LookFromCentre | main.ts:859-906 | looking from 90°: each side sweeps range angles out and range angles back, the left look ending at 89 and the right at 91 |
| Navigation.LookAroundChoice | main.ts:817-823 | lookAround backs up exactly when the two readings are equal, and otherwise turns left (for either inequality) |
| Navigation.TwoSensorChoice | main.ts:942-960 | two-sensor following: both on goes forward, neither stops, right only turns left, left only turns right |
| Navigation.ThreeSensorChoice | main.ts:981-1000 | three-sensor following: does nothing exactly on centre only, goes forward exactly on left and right without centre, stops exactly when all three agree |
| Navigation.CentreSensorRefines | main.ts:981-1000 | (two-sensor table at main.ts:942-960) with the centre sensor off, or on with left and right differing, the three-sensor follower decides as the two-sensor one; all-on and centre-only are where they differ |
| Navigation.LookPause | main.ts:859-906 | a look to one side pauses 5 ms per servo step, out and back |
| Navigation.LookAroundPause | main.ts:807-824 | lookAround from the centre pauses 20 ms per degree of range plus seconds·1000 for the manoeuvre |
| Navigation.LookAroundDrives | main.ts:807-833 | (the left turn is main.ts:847-857) after lookAround the wheels run the left turn when the readings differ and the half-speed reverse when they are equal |
| Navigation.LavNabClear | main.ts:795-797 | with a clear path the navigator sweeps the front and drives forward, without pausing |
| Navigation.LavNabBlockedDrives | main.ts:785-794 | when blocked, the navigator ends driving the lookAround manoeuvre chosen by the side readings |
| Navigation.LavNabBlockedPause | main.ts:785-794 | when blocked, the navigator pauses for the look-around of the normalised range plus the manoeuvre |
| Navigation.TwoSensorEndsStopped | main.ts:937-961 | every branch of the two-sensor follower ends with all motors stopped |
| Navigation.ThreeSensorKeepsRunning | main.ts:981-999 | every moving branch of the three-sensor follower leaves the chosen wheels running after its pause |
| Eurate.Robot.constructor | main.ts:146 | a fresh library is not initialised and has sent nothing |
| Eurate.Robot.SetPwm | main.ts:189-200 | the bank is updated as the frame addresses it (nothing for a bad channel) and exactly that frame is sent |
| Eurate.Robot.Pause | main.ts:333 | one basic.pause of the given length is recorded |
| Eurate.Robot.SetFreq | main.ts:173-187 | the sleep, prescale, restore, wait and wake sequence is sent, and the bank is untouched |
| Eurate.Robot.InitPca9685 | main.ts:167-171 | the initialisation sequence is sent and the flag is set |
| Eurate.Robot.EnsureInitialized | main.ts:270-272 | initialises only when the flag is clear; the flag is set afterwards |
| Eurate.Robot.Energize | main.ts:203-258 | each coil of a phase table is written in order, and the bank becomes the energised bank |
| Eurate.Robot.SetStepper28 | main.ts:203-229 | the 28BYJ phase table is written and no channel outside the group changes |
| Eurate.Robot.SetStepper42 | main.ts:232-258 | the 42BYG phase table is written and no channel outside the group changes |
| Eurate.Robot.Servo | main.ts:269-277 | the servo channel moves to the angle's off-count and only it changes (Actuators.ServoWritesOneChannel), after initialising if needed |
| Eurate.Robot.MotorRun | main.ts:289-311 | the motor's two channels take the clamped counts and no other channel changes (Actuators.RunEffect), after initialising if needed |
| Eurate.Robot.MotorStop | main.ts:530-533 | the motor's two channels are zeroed and nothing else (Actuators.StopEffect) |
| Eurate.Robot.MotorStopAll | main.ts:540-544 | the loop leaves the bank of stopping all motors (channels 0..7 zero, 8..15 kept, by Motion.StopAllEffect) and sends two zero frames per motor, M1 to M4 |
| Eurate.Robot.StopNext | main.ts:541-543 | one iteration of motorStopAll's loop extends the stopped state by one motor |
| Eurate.Robot.StopGroup | main.ts:334-340 | a stepper group's two motors are stopped |
| Eurate.Robot.Drive | main.ts:800-805 | four MotorRun calls, one per wheel |
| Eurate.Robot.MotorsStart | main.ts:553-557 | the loop leaves the bank and traffic of driving all four wheels in one direction (Motion.MotorsStartIsDrive), initialising at most once |
| Eurate.Robot.RotateRight | main.ts:565-572 | stops all motors, then drives the right-rotation pattern; the bank is that of driving without the stop (Motion.DriveOverridesStop) |
| Eurate.Robot.RotateLeft | main.ts:580-586 | stops all motors, then drives the left-rotation pattern, the mirror of RotateRight (Motion.TurnsAreMirrored) |
| Eurate.Robot.Forward | main.ts:800-805 | all four wheels clockwise at the speed |
| Eurate.Robot.TurnRightRobot | main.ts:835-840 | the right-turn wheel pattern |
| Eurate.Robot.TurnLeftRobot | main.ts:847-852 | the left-turn wheel pattern |
| Eurate.Robot.TurnRightRobotForSeconds | main.ts:842-845 | the right turn, then a pause of seconds·1000 ms |
| Eurate.Robot.TurnLeftRobotForSeconds | main.ts:854-857 | the left turn, then a pause of seconds·1000 ms |
| Eurate.Robot.BackUp | main.ts:826-833 | all wheels counter-clockwise at half the speed, then the pause |
| Eurate.Robot.Turn | main.ts:918-924 | the timed turn in the requested direction |
| Eurate.Robot.DriveFor | main.ts:634-638 | drives, then pauses |
| Eurate.Robot.DriveForThenStop | main.ts:634-639 | drives, pauses, then stops all motors |
| Eurate.Robot.Move | main.ts:624-640 | the bank and traffic of Move: it ends with all motors stopped (Motion.MoveEndsStopped) after pausing exactly the duration (Motion.MovePausesForDuration) |
| Eurate.Robot.HoldThenStop | main.ts:333-340 | pauses for the hold, then stops the group |
| Eurate.Robot.InitAndEnergize | main.ts:322-328 | initialises if needed, then writes the phase table |
| Eurate.Robot.StepperDegree42 | main.ts:321-342 | the 42BYG move: energise the group, and unless 0° hold abs(degree)·500/360 ms and stop the group (Motion.StepperMoveCompletes) |
| Eurate.Robot.StepperDegree28 | main.ts:368-389 | the 28BYJ move: only initialise at 0°; else energise, hold abs(degree)·1000/360 ms and stop the group |
| Eurate.Robot.StepperTurn42 | main.ts:352-358 | zero turns do nothing at all (no initialisation); otherwise the move of 360° per turn |
| Eurate.Robot.StepperTurn28 | main.ts:399-405 | zero turns do nothing at all; otherwise the 28BYJ move of 360° per turn |
| Eurate.Robot.Stagger | main.ts:440-457 | the stop schedule: each stage holds, then stops its group |
| Eurate.Robot.EnergizePair | main.ts:426-431 | both groups' phase tables, group 1 first, in the family's tables |
| Eurate.Robot.EnergizeAndStagger | main.ts:440-457 | energise both groups, then run the stop schedule |
| Eurate.Robot.StepperDegreeDual42 | main.ts:415-497 | the dual move: both groups energised, the smaller rotation's group stopped first and the total pause the larger rotation's hold (Motion.DualStagger, Motion.DualPause), ending with each moved group stopped (Motion.DualEndsStopped); inert cases per Motion.DualInert |
| Eurate.Robot.StepperTurnDual42 | main.ts:507-522 | zero turns on both, or an unknown family, do nothing at all; otherwise the dual move of 360° per turn |
| Eurate.Robot.Ping | main.ts:597-614 | the ping traffic is sent and the reading is converted to the unit |
| Eurate.Robot.UsSensor | main.ts:650-657 | the trigger pulse and untimed echo are sent, and the reading is in centimetres |
| Eurate.Robot.IrSensor | main.ts:666-669 | one pin read; the sensor reports an obstacle exactly when the level read is 0 |
| Eurate.Robot.IrSensorTrigger | main.ts:731-737 | one pin read, then the inverse level written to the output pin |
| Eurate.Robot.ServoStep | main.ts:866-867 | one servo write, followed by a 5 ms pause when settling |
| Eurate.Robot.Advance | main.ts:770-773 | one loop iteration of a sweep extends the swept state by one angle |
| Eurate.Robot.SweepUp | main.ts:770-773 | (also lookRight, main.ts:890-894) the ascending loop leaves the state of sweeping Up(from, to) (servo on the last angle, Navigation.SweepEndsAtLast) and returns max(from, to) |
| Eurate.Robot.SweepDown | main.ts:865-869 | (also lookRight's return, main.ts:900-904) the descending loop leaves the state of sweeping Down(from, to) and returns min(from, to) |
| Eurate.Robot.LookLeft | main.ts:859-882 | sweep left out, read, sweep back; the reading is the centimetre conversion |
| Eurate.Robot.LookRight | main.ts:884-906 | sweep right out, read, sweep back |
| Eurate.Robot.LookBothWays | main.ts:814-815 | the left look, then the right look |
| Eurate.Robot.LookAround | main.ts:807-824 | looks both ways, then the manoeuvre the readings choose: the left turn when they differ, half-speed reverse when equal (Navigation.LookAroundDrives) |
| Eurate.Robot.ScanFront | main.ts:757-784 | the front sweep without pauses, then one ultrasonic read |
| Eurate.Robot.LavNabUs | main.ts:754-798 | scan the front, then either drive forward (Navigation.LavNabClear) or stop and look around with the normalised range (Navigation.LavNabBlockedDrives) |
| Eurate.Robot.AvoidObstacle | main.ts:785-794 | stop all motors, then look around from 90° with the normalised range |
| Eurate.Robot.LineFollower | main.ts:937-961 | the two-sensor decision from the two readings, its drive, pause of ms and stop; every branch ends stopped (Navigation.TwoSensorEndsStopped) |
| Eurate.Robot.LineFollowerThreeSensors | main.ts:975-1001 | the three-sensor decision from the three readings, its drive and pause; the moving branches leave the wheels running (Navigation.ThreeSensorKeepsRunning) |
| Eurate.StageAppended | main.ts:445-457 | a stop schedule of one or two stages is the stages' hold-and-stop traffic in order |

## Left out

- `IrSensorDigital` (main.ts:678-681) and `ClassSensorRange` (main.ts:683-720) are not part of this model. They are declarations that no modelled operation uses.
- The LED display calls of `LineFollower` (`basic.showArrow`, `basic.showIcon`) are not modelled. They do not touch the expander or the motors.
- Default arguments become explicit parameters: `Eurate.Robot.Move` takes `maxVelocity` and `minVelocity` (defaults 255 and 1, main.ts:624), and `Eurate.Robot.Ping` takes `maxCmDistance` (default 500, main.ts:597).
- Real time is not modelled. A `basic.pause` and a `control.waitMicros` become events in the log, and the model reasons about their total length only.
- The I2C and pin primitives are not modelled.
  - They become events.
  - `i2cWrite`, `i2cCmd` and `i2cRead` are folded into `BusWrite` and `BusRead`.
  - A `PwmWrite` event stands for the five bytes of `Pca9685.PwmFrame`.
- Hardware answers are method parameters:
  - the echo width of `pins.pulseIn`, which is 0 on a timeout;
  - the digital level read;
  - the MODE1 reply (a `const` field of the robot).
- Numbers are JavaScript doubles in the source. The model uses `real` for speeds and times, and `int` for angles and channel indices.
  - NaN, infinities and rounding of double arithmetic are not modelled.
  - Conversions to integers are modelled where the source makes them: byte stores and bit operations truncate toward zero, and `Math.idiv` divides toward zero.
- The unreachable `else if (index == max)` branch of `LavNabUS` (main.ts:774-779) is not modelled. `index` has just been set to `min`, so the first branch is always taken.
- Some methods of `Eurate.Robot` are helper steps of the source's own functions rather than functions of `main.ts`:
  - `StopNext`, `ServoStep` and `Advance` are loop bodies;
  - `DriveFor`, `DriveForThenStop`, `HoldThenStop` and `InitAndEnergize` are fixed runs of calls;
  - `Stagger`, `EnergizePair` and `EnergizeAndStagger` are the branches of the dual stepper;
  - `SweepUp` and `SweepDown` are the loops;
  - `LookBothWays`, `ScanFront` and `AvoidObstacle` are parts of `lookAround` and `LavNabUS`.

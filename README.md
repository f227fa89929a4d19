# Robot periodic control loop — colour classifier, button mapper, sampling throttle

This project models the logic of a small competition-robot program whose
only class, `Robot`, has two periodic hooks called by the robot framework:

- `teleopPeriodic` maps the state of four gamepad buttons (Cross, Circle,
  Square, Triangle) to a motor duty-cycle through a first-match-wins cascade.
  It does nothing when the motor or the controller failed to initialise.
- `robotPeriodic` rate-limits access to a colour sensor through a gate on
  the `lastPrintTime` field: 0.5 s between samples, or 2.0 s between warnings
  when the sensor was never created. Each reading it takes is classified.
  The RGB triple becomes a hue in degrees and a saturation. An ordered
  cascade then picks one label: Black/Dark, White, Red, Yellow, Green, Cyan,
  Blue or Purple, with "Unknown" as the fall-through default.

Files and modules:

- `color_classification.dfy` (`ColorClassification`): the classifier as pure
  functions over exact reals. It also gives an independent description of the
  hue bands as six 60-degree sectors, and lemmas that connect the two.
- `button_mapping.dfy` (`ButtonMapping`): the button cascade as a function.
  The same mapping is also written as a table of (button, speed) rules read
  first to last, with a lemma that the two agree.
- `sampling_throttle.dfy` (`SamplingThrottle`): the gate, the update of the
  last-print time, and the gate openings over any run of ticks.
- `robot.dfy` (`RobotModel`): the class `Robot`, holding `lastPrintTime` and
  flags for which devices initialisation created. Its methods
  `TeleopPeriodic` and `RobotPeriodic` follow the two hooks statement by
  statement. The sensor read is passed in as a `SensorRead`: either a
  `Sample` or a `Fault` carrying the exception's message. So the
  try/catch in `robotPeriodic` becomes an explicit match.

Modelling decisions:

- Channels, hue and saturation are Dafny `real`s, not IEEE doubles.
- Java's floating-point `%` at Robot.java line 137 is modelled exactly as
  `Rem6`: truncating division, with the remainder keeping the dividend's
  sign. It is proved to be the identity on (-6, 6). The dividend at that line
  always lies in [-1, 1].
- The hue results hold for every real triple. The hue formula is never
  given negative channels by the sensor, but it does not need that. Only the
  saturation bounds need non-negative channels.
- Where two channels share the maximum, the code takes the first in red,
  green, blue order. `TieBreakImmaterial` shows that this order never changes
  the hue: the formula of the channel passed over gives the same value after
  the +360 fix-up.
- Hardware calls are not modelled. Their inputs are parameters: the clock
  value `currentTime`, the button states and the sensor read. Their outputs
  are results: the `Option<real>` command returned to the motor and the
  `Report` of what the tick would print.

## Model

| member | source | states |
|---|---|---|
| `ColorClassification.MaxChannel` | src/main/java/frc/robot/Robot.java:128 | the maximum is one of the three channels and none exceeds it |
| `ColorClassification.MinChannel` | src/main/java/frc/robot/Robot.java:129 | the minimum is one of the three channels and none is below it |
| `ColorClassification.Delta` | src/main/java/frc/robot/Robot.java:130 | the spread is non-negative, and zero exactly when all three channels are equal |
| `ColorClassification.Truncate` | src/main/java/frc/robot/Robot.java:137 | the quotient Java's floating `%` uses rounds toward zero: it lies within one of its argument, on the same side of zero |
| `ColorClassification.Rem6` | src/main/java/frc/robot/Robot.java:137 | Java's `x % 6` keeps the sign of x, has magnitude below 6, and is x itself when x lies in (-6, 6) |
| `ColorClassification.HueRange` | src/main/java/frc/robot/Robot.java:132-143 | after the +360 fix-up the hue lies in [0, 360) for every triple; equal channels give 0; the red formula gives [0, 60] or [300, 360), green (60, 180], blue (180, 300) |
| `ColorClassification.TieBreakImmaterial` | src/main/java/frc/robot/Robot.java:136-143 | when two channels share the maximum, the formula of the one the r-then-g-then-b order passes over gives the same hue as the one it takes |
| `ColorClassification.SaturationRange` | src/main/java/frc/robot/Robot.java:146 | for non-negative channels saturation lies in [0, 1], is 0 exactly when the channels are equal and 1 exactly when the minimum is 0 and the maximum is positive |
| `ColorClassification.BandsPartition` | src/main/java/frc/robot/Robot.java:153-164 | the six hue bands the cascade tests are disjoint and cover [0, 360): a hue lies in band k if and only if k is its 60-degree sector |
| `ColorClassification.HueLabelBySector` | src/main/java/frc/robot/Robot.java:153-165 | on [0, 360) the hue tests give the label of the hue's sector and never fall through to "Unknown" |
| `ColorClassification.ClassifySpec` | src/main/java/frc/robot/Robot.java:123-165 | for every triple: Black/Dark if and only if the maximum is below 0.2; White if and only if the maximum exceeds 0.4 and saturation is below 0.2; otherwise the hue's sector label; never "Unknown" |
| `ColorClassification.PrimaryExamples` | src/main/java/frc/robot/Robot.java:133-164 | (1,0,0), (0,1,0), (0,0,1) give hue 0, 120, 240, saturation 1 and Red, Green, Blue |
| `ColorClassification.TieExamples` | src/main/java/frc/robot/Robot.java:136-164 | (1,1,0), (0,1,1), (1,0,1) give hue 60, 180, 300 and Yellow, Cyan, Purple |
| `ColorClassification.GreyExamples` | src/main/java/frc/robot/Robot.java:134-152 | (0.05,0.05,0.05) is Black/Dark and (0.9,0.9,0.9) is White, both at hue 0 and saturation 0 |
| `ButtonMapping.Speed` | src/main/java/frc/robot/Robot.java:83-97 | the speed is one of 0.0, 0.7, 0.75, 0.8, within [-1, 1]; 0.7 if and only if Cross is pressed, 0.8 if and only if Circle is pressed and Cross is not, 0.75 if and only if Square is the first pressed, 0.0 if and only if none of Cross, Circle, Square is pressed |
| `ButtonMapping.FirstPressed` | src/main/java/frc/robot/Robot.java:85-97 | the first rule whose button is pressed: every earlier rule's button is up, and the rule found has its button down |
| `ButtonMapping.SpeedIsFirstMatch` | src/main/java/frc/robot/Robot.java:83-97 | the cascade equals the priority table Cross 0.7, Circle 0.8, Square 0.75, Triangle 0.0 read first to last, with 0.0 when no rule fires |
| `ButtonMapping.SpeedExamples` | src/main/java/frc/robot/Robot.java:83-97 | Cross alone, Cross with Circle, and all four give 0.7; Square with Triangle gives 0.75; Triangle alone and nothing give 0.0 |
| `SamplingThrottle.GateTimesSpaced` | src/main/java/frc/robot/Robot.java:108-117 | over any run of ticks the gate opens only at tick times, each at least one interval after the starting last-print time, and any two openings at least one interval apart |
| `SamplingThrottle.LastAfterIsLastGateTime` | src/main/java/frc/robot/Robot.java:108-117 | after any run of ticks the last-print time is the time of the last gate opening, or the starting value if the gate never opened |
| `SamplingThrottle.TwoCloseTicksOpenOnce` | src/main/java/frc/robot/Robot.java:116-117 | two ticks less than one interval apart pass the gate at most once |
| `SamplingThrottle.SecondTickOpensIff` | src/main/java/frc/robot/Robot.java:116-117 | after a tick that passed the gate, the next passes it if and only if it comes at least one interval later |
| `RobotModel.PeriodicReportCases` | src/main/java/frc/robot/Robot.java:105-173 | a tick reads the sensor if and only if the sensor exists and the gate is open; it warns of a missing sensor if and only if the sensor is absent and the gate is open; it is quiet if and only if the gate is closed; a faulting read yields the fault's message |
| `RobotModel.DetectedIsClassified` | src/main/java/frc/robot/Robot.java:119-168 | a successful read is reported with its own channels and proximity, a hue in [0, 360) and a label other than "Unknown" |
| `RobotModel.Robot.constructor` | src/main/java/frc/robot/Robot.java:17-26 | the robot starts with last-print time 0 and the device flags initialisation produced |
| `RobotModel.Robot.TeleopPeriodic` | src/main/java/frc/robot/Robot.java:77-102 | a command is issued if and only if both motor and controller exist, and its value is the cascade's speed |
| `RobotModel.Robot.RobotPeriodic` | src/main/java/frc/robot/Robot.java:105-175 | the last-print time becomes the current time exactly when the gate opens, before the read, so a faulting read advances it too; otherwise it is unchanged; the report is the one the gate, the sensor flag and the read determine |
| `RobotModel.TwoTicks` | src/main/java/frc/robot/Robot.java:116-119 | on a fresh robot with a sensor, the first tick samples if and only if it comes at 0.5 s or later; after a sample, the second samples if and only if it comes at least 0.5 s later; two ticks closer than 0.5 s sample at most once |

## Left out

- Device construction in `robotInit` (Robot.java lines 29-74): the motor, controller and sensor constructors, `RobotBase.isReal` and the `isConnected` check. These only log. The model keeps only their outcome: one "present" flag per device.
- `motor.set` and the `DutyCycleOut` allocation at lines 100-101, including the `dutyCycleControl` field. These are actuator calls. `TeleopPeriodic` returns the speed it would send instead.
- `Timer.getFPGATimestamp`, `colorSensor.getColor` and `getProximity`. These are hardware reads. They come in as the `currentTime` and `SensorRead` parameters. The model takes the read as a parameter on every tick; the source performs it only when the gate is open and the sensor exists.
- All console output: `println`, the `printf` formatting (`%-7s`, `%.2f`, `%.1f`) and `printStackTrace`. Each printing path is a `Report` value instead.
- IEEE-754 double behaviour: rounding in the hue and saturation formulas, NaN and signed zero in `Math.max`/`Math.min`. The model uses exact reals.
- The framework's scheduling rate and threading. The hooks are modelled as called one at a time with whatever times the caller supplies. No monotonic clock is assumed.

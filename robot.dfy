/** The robot's two periodic hooks and the state they share. The devices are
    represented only by whether initialisation produced them; hardware reads
    and the clock come in as parameters, and what the hooks would print or
    send to the motor comes back as results. */
module RobotModel {
  import opened ColorClassification
  import opened ButtonMapping
  import opened SamplingThrottle

  datatype Option<T> = None | Some(value: T)

  /** The outcome of reading colour and proximity from the sensor: the
      values, or the message of the fault the read raised. */
  datatype SensorRead = Sample(color: Rgb, proximity: int) | Fault(message: string)

  /** What one robotPeriodic tick emits. */
  datatype Report =
    | Quiet
    | SensorMissing
    | Detected(color: Rgb, classification: Classification, proximity: int)
    | ReadFailed(message: string)

  /** A tick that went to the sensor, whether the read succeeded or not. */
  predicate Sampled(r: Report)
  {
    r.Detected? || r.ReadFailed?
  }

  /** The report of a tick at time `now`, given the last-print time before it. */
  function PeriodicReport(last: real, now: real, sensorPresent: bool, read: SensorRead): Report
  {
    if !GateOpen(last, now, sensorPresent) then Quiet
    else if !sensorPresent then SensorMissing
    else match read
      case Sample(c, p) => Detected(c, Classify(c), p)
      case Fault(m) => ReadFailed(m)
  }

  /** A tick goes to the sensor exactly when the sensor exists and the gate is
      open, warns about a missing sensor exactly when it does not exist and
      the gate is open, and is quiet exactly when the gate is closed. A fault
      becomes a report of its message. */
  lemma PeriodicReportCases(last: real, now: real, sensorPresent: bool, read: SensorRead)
    ensures var r := PeriodicReport(last, now, sensorPresent, read);
      (Sampled(r) <==> sensorPresent && GateOpen(last, now, sensorPresent)) &&
      (r == SensorMissing <==> !sensorPresent && GateOpen(last, now, sensorPresent)) &&
      (r == Quiet <==> !GateOpen(last, now, sensorPresent)) &&
      (Sampled(r) && read.Fault? ==> r == ReadFailed(read.message))
  {
  }

  /** A successful read is reported with its own channels and proximity, a
      hue in [0, 360) and a label that is never Unknown. */
  lemma DetectedIsClassified(last: real, now: real, sensorPresent: bool, read: SensorRead)
    ensures var r := PeriodicReport(last, now, sensorPresent, read);
      r.Detected? ==> r.color == read.color && r.proximity == read.proximity &&
                      0.0 <= r.classification.hue < 360.0 &&
                      r.classification.color != Unknown
  {
    if read.Sample? {
      ClassifySpec(read.color);
    }
  }

  /** The robot: whether each device was created at initialisation, and the
      time of the last sample or warning. */
  class Robot {
    var lastPrintTime: real
    const motorPresent: bool
    const controllerPresent: bool
    const sensorPresent: bool

    /** The state after initialisation, with the devices it managed to create. */
    constructor (motorPresent: bool, controllerPresent: bool, sensorPresent: bool)
      ensures this.motorPresent == motorPresent
      ensures this.controllerPresent == controllerPresent
      ensures this.sensorPresent == sensorPresent
      ensures lastPrintTime == 0.0
    {
      this.motorPresent := motorPresent;
      this.controllerPresent := controllerPresent;
      this.sensorPresent := sensorPresent;
      lastPrintTime := 0.0;
    }

    /** One teleop tick: no command at all when the motor or the controller is
      missing, otherwise the speed the button cascade selects. */
    method TeleopPeriodic(buttons: Buttons) returns (command: Option<real>)
      ensures command.Some? <==> motorPresent && controllerPresent
      ensures command.Some? ==> command.value == Speed(buttons)
    {
      if !motorPresent || !controllerPresent {
        return None;
      }
      var speed := IdleSpeed;
      if buttons.cross {
        speed := 0.7;
      } else if buttons.circle {
        speed := 0.8;
      } else if buttons.square {
        speed := 0.75;
      } else if buttons.triangle {
        speed := 0.0;
      }
      command := Some(speed);
    }

    /** One robotPeriodic tick at time `currentTime`. The last-print time moves
      to the current time exactly when the gate opens, before the sensor is
      read, so a faulting read moves it too; otherwise nothing changes. */
    method RobotPeriodic(currentTime: real, read: SensorRead) returns (report: Report)
      modifies this
      ensures lastPrintTime == NextLast(old(lastPrintTime), currentTime, sensorPresent)
      ensures report == PeriodicReport(old(lastPrintTime), currentTime, sensorPresent, read)
      ensures report != Quiet ==> lastPrintTime == currentTime
      ensures report == Quiet ==> lastPrintTime == old(lastPrintTime)
    {
      if !sensorPresent {
        if currentTime - lastPrintTime >= MissingSensorInterval {
          lastPrintTime := currentTime;
          return SensorMissing;
        }
        return Quiet;
      }
      if currentTime - lastPrintTime >= PrintInterval {
        lastPrintTime := currentTime;
        match read {
          case Sample(c, proximity) =>
            report := Detected(c, Classify(c), proximity);
          case Fault(message) =>
            report := ReadFailed(message);
        }
      } else {
        report := Quiet;
      }
    }
  }

  /** Two robotPeriodic ticks of a freshly initialised robot with a sensor:
      the first goes to the sensor once 0.5 s have passed since start-up;
      after it, the second goes to the sensor exactly when it comes at least
      0.5 s later, so two ticks closer than that sample at most once. */
  method TwoTicks(t1: real, t2: real, read1: SensorRead, read2: SensorRead)
    returns (first: Report, second: Report)
    ensures Sampled(first) <==> t1 >= PrintInterval
    ensures Sampled(first) ==> (Sampled(second) <==> t2 - t1 >= PrintInterval)
    ensures t2 - t1 < PrintInterval ==> !(Sampled(first) && Sampled(second))
  {
    var robot := new Robot(true, true, true);
    first := robot.RobotPeriodic(t1, read1);
    PeriodicReportCases(0.0, t1, true, read1);
    ghost var last := robot.lastPrintTime;
    second := robot.RobotPeriodic(t2, read2);
    PeriodicReportCases(last, t2, true, read2);
  }
}

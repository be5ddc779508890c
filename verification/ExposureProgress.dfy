// That the exposure system comes to its end: every effective step uses up a
// bounded supply, and unless a wait runs out of time something can always move.
module ExposureProgress {
  import opened ExposureModel
  import opened ExposureSafety

  // ---- Every run is finite ------------------------------------------------

  function DeviceLeft(d: Device): nat {
    4 * |d.queue| + (if d.worker.Busy? then 2 else 0) + (if d.worker.Left? then 0 else 1)
  }

  // The steps still to come inside a state that takes several.
  function PcLeft(state: FsmState, pc: nat): nat {
    if state == OpenShutterAndCapture then (if pc == 0 then 5 else 0)
    else if state == TaskFinished || state == Error then (if pc <= 8 then 5 * (8 - pc) else 0)
    else 0
  }

  function DevicesLeft(platform: Device, shutter: Device, camera: Device): nat {
    DeviceLeft(platform) + DeviceLeft(shutter) + DeviceLeft(camera)
  }

  function LoopLeft(segments: nat, iterations: nat): int {
    50 * (6 * segments + 2 - iterations)
  }

  // Loop iterations left, command pushes left, commands and events in flight.
  ghost function Supply(s: System): int {
    LoopLeft(|s.segments|, s.iterations) + PcLeft(s.state, s.pc)
    + DevicesLeft(s.platform, s.shutter, s.camera) + |s.events|
  }

  // An iteration more pays for a command pushed and any way on.
  lemma IterationShrinks(s: System, t: System)
    requires t.segments == s.segments && t.iterations == s.iterations + 1 && |t.events| <= |s.events|
    requires DevicesLeft(t.platform, t.shutter, t.camera) <= DevicesLeft(s.platform, s.shutter, s.camera) + 4
    ensures Supply(t) < Supply(s)
  {
    hide DevicesLeft;
  }

  lemma EventShrinks(s: System, t: System)
    requires t.segments == s.segments && t.iterations == s.iterations && t.state == s.state && t.pc == s.pc
    requires t.platform == s.platform && t.shutter == s.shutter && t.camera == s.camera && |t.events| < |s.events|
    ensures Supply(t) < Supply(s)
  {
    hide DevicesLeft, PcLeft;
  }

  // A step inside a state that takes several.
  lemma PcShrinks(s: System, t: System)
    requires t.segments == s.segments && t.iterations == s.iterations && t.state == s.state && t.pc == s.pc + 1
    requires DevicesLeft(t.platform, t.shutter, t.camera) <= DevicesLeft(s.platform, s.shutter, s.camera) + 4 && t.events == s.events
    requires (s.state == OpenShutterAndCapture && s.pc == 0) || (Stopping(s) && s.pc <= 7)
    ensures Supply(t) < Supply(s)
  {
    hide DevicesLeft;
  }

  lemma SupplyNonNegative(s: System)
    requires Inv(s)
    ensures Supply(s) >= 0
  {
    hide DeviceLeft, PcLeft, Inv;
    InvIsGood(s);
  }

  lemma ReportAddsOne(s: System, which: Which, c: Command)
    ensures |Report(s, which, c).events| <= |s.events| + 1
    ensures Report(s, which, c).platform == s.platform && Report(s, which, c).shutter == s.shutter
         && Report(s, which, c).camera == s.camera
  {
    hide DoneEvent, Handles;
  }

  lemma FinishEvents(s: System, which: Which)
    requires DeviceOf(s, which).worker.Busy?
    ensures |FinishCommand(s, which).events| <= |s.events| + 1
  {
    hide Report, Finished;
    var d := DeviceOf(s, which);
    ReportAddsOne(WithDevice(s, which, Finished(d)), which, d.worker.command);
  }

  lemma WorkerShrinks(s: System, which: Which)
    requires Inv(s)
    ensures WorkerStep(s, which) == s || Supply(WorkerStep(s, which)) < Supply(s)
  {
    hide Inv, TakeCommand, FinishCommand, PcLeft;
    var d := DeviceOf(s, which);
    if d.worker.Busy? {
      FinishFrame(s, which);
      FinishEvents(s, which);
    } else if d.worker == Waiting {
      if d.queue != [] {
        TakeFrame(s, which);
      } else {
        TakeNothing(s, which);
      }
    }
  }

  lemma TakeNothing(s: System, which: Which)
    requires Inv(s) && DeviceOf(s, which).worker == Waiting && DeviceOf(s, which).queue == []
    ensures TakeCommand(s, which) == s
  {
    hide Inv;
    if DeviceOf(s, which).stopped { NeverThrows(s, which); }
  }

  lemma PushLeft(d: Device, c: Command)
    ensures DeviceLeft(Push(d, c)) == DeviceLeft(d) + 4
    ensures DeviceLeft(d.(stopped := true)) == DeviceLeft(d)
  {
  }

  lemma MoveShrinks(s: System)
    requires s.state == MoveToPoint && s.index < |s.segments|
    ensures Supply(MoveStep(s)) < Supply(s)
  {
    hide DeviceLeft, Push, Supply;
    PushLeft(s.platform, MoveCmd(s));
    IterationShrinks(s, MoveStep(s));
  }

  lemma OpenShrinks(s: System)
    requires s.state == OpenShutterAndCapture && s.index < |s.segments|
    ensures Supply(OpenAndCaptureStep(s)) < Supply(s)
  {
    hide DeviceLeft, Push, Supply;
    PushLeft(s.shutter, CmdHere(s, OpenShutterCmd));
    PushLeft(s.camera, CmdHere(s, CaptureImage));
    if s.pc == 0 {
      PcShrinks(s, OpenAndCaptureStep(s));
    } else {
      IterationShrinks(s, OpenAndCaptureStep(s));
    }
  }

  lemma CloseShrinks(s: System)
    requires s.state == CloseShutter && s.index < |s.segments|
    ensures Supply(CloseStep(s)) < Supply(s)
  {
    hide DeviceLeft, Push, Supply;
    PushLeft(s.shutter, CmdHere(s, CloseShutterCmd));
    IterationShrinks(s, CloseStep(s));
  }

  lemma SendStopShrinks(s: System)
    requires Stopping(s) && s.pc < 3
    ensures Supply(SendStopStep(s)) < Supply(s)
  {
    hide DeviceLeft, Push, Supply;
    PushLeft(s.platform, STOP);
    PushLeft(s.shutter, STOP);
    PushLeft(s.camera, STOP);
    PcShrinks(s, SendStopStep(s));
  }

  lemma CloseQueueShrinks(s: System)
    requires Stopping(s) && 3 <= s.pc < 6
    ensures Supply(CloseQueueStep(s)) < Supply(s)
  {
    hide DeviceLeft, Push, Supply;
    PushLeft(s.platform, STOP);
    PushLeft(s.shutter, STOP);
    PushLeft(s.camera, STOP);
    PcShrinks(s, CloseQueueStep(s));
  }

  lemma StopShrinks(s: System)
    requires Stopping(s) && s.pc <= 7
    ensures Supply(StopStep(s)) < Supply(s)
  {
    hide DevicesLeft, Supply, SendStopStep, CloseQueueStep;
    if s.pc < 3 {
      SendStopShrinks(s);
    } else if s.pc < 6 {
      CloseQueueShrinks(s);
    } else if s.pc == 6 {
      PcShrinks(s, StopStep(s));
    } else {
      IterationShrinks(s, StopStep(s));
    }
  }

  // The controller has taken an event and updated its own variables.
  ghost predicate EventTaken(s: System, u: System) {
    s.events != [] && u == s.(events := s.events[1..], index := u.index, captureDone := u.captureDone,
                              shutterOpened := u.shutterOpened)
  }

  // Going round the loop again, having at most taken an event.
  lemma NextShrinks(s: System, u: System, state: FsmState)
    requires u == s || EventTaken(s, u)
    ensures Supply(Next(u, state)) < Supply(s)
  {
    hide DevicesLeft, Supply;
    IterationShrinks(s, Next(u, state));
  }

  lemma WaitArrivedShrinks(s: System, expired: bool)
    requires s.index < |s.segments|
    ensures WaitArrivedStep(s, expired) == s || Supply(WaitArrivedStep(s, expired)) < Supply(s)
  {
    hide Supply, Next;
    if s.events == [] {
      NextShrinks(s, s, Error);
    } else {
      var t := s.(events := s.events[1..]);
      NextShrinks(s, t, s.state);
      NextShrinks(s, t, OpenShutterAndCapture);
      NextShrinks(s, t, Error);
    }
  }

  lemma SegmentFinishedShrinks(s: System, expired: bool)
    requires s.index < |s.segments|
    ensures SegmentFinishedStep(s, expired) == s || Supply(SegmentFinishedStep(s, expired)) < Supply(s)
  {
    hide Supply, Next;
    if s.events == [] {
      NextShrinks(s, s, Error);
    } else {
      var t := s.(events := s.events[1..]);
      var u := t.(index := s.index + 1);
      NextShrinks(s, t, s.state);
      NextShrinks(s, t, Error);
      NextShrinks(s, u, TaskFinished);
      NextShrinks(s, u, MoveToPoint);
    }
  }

  lemma TakenShrinks(s: System, u: System)
    requires EventTaken(s, u)
    ensures Supply(u) < Supply(s)
  {
    hide Supply;
    EventShrinks(s, u);
  }

  lemma WaitCaptureShrinks(s: System, expired: bool)
    requires s.index < |s.segments|
    ensures WaitCaptureStep(s, expired) == s || Supply(WaitCaptureStep(s, expired)) < Supply(s)
  {
    hide Supply, Next, EventTaken;
    if expired {
      NextShrinks(s, s, Error);
    } else if s.events != [] {
      var t := s.(events := s.events[1..]);
      var kind := s.events[0].kind;
      var u := if kind == ShutterOpened then t.(shutterOpened := true)
               else if kind == CaptureDone then t.(captureDone := true) else t;
      Takes(s);
      TakenShrinks(s, t);
      TakenShrinks(s, u);
      NextShrinks(s, u, Error);
      NextShrinks(s, u, CloseShutter);
    }
  }

  lemma Takes(s: System)
    requires s.events != []
    ensures var t := s.(events := s.events[1..]);
            EventTaken(s, t) && EventTaken(s, t.(shutterOpened := true)) && EventTaken(s, t.(captureDone := true))
  {
  }

  lemma LoadShrinks(s: System)
    ensures Supply(TaskLoadedStep(s)) < Supply(s)
  {
    hide DevicesLeft, Supply;
    IterationShrinks(s, TaskLoadedStep(s));
  }

  lemma ControllerShrinks(s: System, expired: bool)
    requires IndexOk(s) && s.state != Idle && (Stopping(s) ==> s.pc <= 7)
    ensures ControllerStep(s, expired) == s || Supply(ControllerStep(s, expired)) < Supply(s)
  {
    hide Supply, TaskLoadedStep, MoveStep, WaitArrivedStep, OpenAndCaptureStep, WaitCaptureStep, CloseStep,
         SegmentFinishedStep, StopStep;
    if s.running {
      match s.state {
        case TaskLoaded => LoadShrinks(s);
        case MoveToPoint => MoveShrinks(s);
        case OpenShutterAndCapture => OpenShrinks(s);
        case CloseShutter => CloseShrinks(s);
        case TaskFinished => StopShrinks(s);
        case Error => StopShrinks(s);
        case Idle =>
        case WaitPlatformArrived => WaitArrivedShrinks(s, expired);
        case WaitCaptureDone => WaitCaptureShrinks(s, expired);
        case SegmentFinished => SegmentFinishedShrinks(s, expired);
      }
    }
  }

  lemma StoppingPc(s: System)
    requires Inv(s)
    ensures Stopping(s) ==> s.pc <= 7
  {
  }

  // Main result: a step either changes nothing or uses up supply, of which
  // there is only so much: no run goes on for ever.
  lemma StepShrinks(s: System, c: Choice)
    requires Inv(s)
    ensures IndexOk(s) && Inv(Step(s, c)) && 0 <= Supply(Step(s, c))
    ensures Step(s, c) == s || Supply(Step(s, c)) < Supply(s)
  {
    hide Inv, WorkerStep, ControllerStep, Supply;
    NotIdle(s);
    StoppingPc(s);
    StepKeepsInv(s, c);
    SupplyNonNegative(Step(s, c));
    match c {
      case Worker(which) => WorkerShrinks(s, which);
      case Controller(expired) => ControllerShrinks(s, expired);
    }
  }

  // ---- Without a timeout it succeeds --------------------------------------

  ghost predicate Patient(c: Choice) {
    c != Controller(true)
  }

  lemma FlightMoves(s: System, which: Which)
    requires StopsInOrder(s) && Flight(DeviceOf(s, which)) != []
    ensures WorkerStep(s, which) != s
  {
    hide StopsInOrder, FinishCommand, TakeCommand;
    StopsFor(s, which);
    var d := DeviceOf(s, which);
    if d.worker.Busy? {
      FinishFrame(s, which);
    } else {
      TakeFrame(s, which);
    }
  }

  lemma PatientStep(s: System, c: Choice)
    requires Inv(s) && s.state != Error && Patient(c)
    ensures IndexOk(s) && Step(s, c).state != Error
  {
    hide StopsInOrder, Exclusive, LogCovers, Block, RaceLog, Flight, WorkerStep;
    if c.Worker? {
      WorkerKeepsControl(s, c.which);
    } else {
      ExpectedOnly(s);
    }
  }

  // A wait with no event yet has a device at work for it.
  lemma WaitingOnDevice(s: System) returns (which: Which)
    requires InState(s) && s.events == []
    requires s.state == WaitPlatformArrived || s.state == WaitCaptureDone || s.state == SegmentFinished
    ensures Flight(DeviceOf(s, which)) != []
  {
    hide Flight, LogCovers, Block, RaceLog;
    which := if s.state == WaitPlatformArrived then PlatformW
             else if s.state == SegmentFinished then ShutterW
             else if Flight(s.shutter) == [] then CameraW else ShutterW;
  }

  ghost predicate Over(s: System) {
    !s.running && s.platform.worker.Left? && s.shutter.worker.Left? && s.camera.worker.Left?
  }

  lemma RunningMoves(s: System) returns (c: Choice)
    requires Inv(s) && s.running
    ensures Patient(c) && IndexOk(s) && Step(s, c) != s
  {
    hide StopsInOrder, Exclusive, LogCovers, Block, RaceLog, Flight, WorkerStep, IterationsOk;
    c := Controller(false);
    if s.events == [] && (s.state == WaitPlatformArrived || s.state == WaitCaptureDone || s.state == SegmentFinished) {
      var which := WaitingOnDevice(s);
      FlightMoves(s, which);
      c := Worker(which);
    } else if Stopping(s) {
      StopShrinks(s);
    }
  }

  // Unless all is over, some patient step changes something.
  lemma PatientMove(s: System) returns (c: Choice)
    requires Inv(s) && !Over(s)
    ensures Patient(c) && IndexOk(s) && Step(s, c) != s
  {
    hide Inv, WorkerStep;
    NotIdle(s);
    if s.running {
      c := RunningMoves(s);
    } else {
      var which := if !s.platform.worker.Left? then PlatformW
                   else if !s.shutter.worker.Left? then ShutterW else CameraW;
      WorkersDrain(s, which);
      c := Worker(which);
    }
  }

  lemma {:induction false} PatientRunsAvoidError(s: System, choices: seq<Choice>)
    requires Inv(s) && s.state != Error && forall c :: c in choices ==> Patient(c)
    ensures Run(s, choices).state != Error
    decreases |choices|
  {
    hide Inv, Step;
    if choices != [] {
      assert choices[0] in choices;
      NotIdle(s);
      PatientStep(s, choices[0]);
      StepKeepsInv(s, choices[0]);
      PatientRunsAvoidError(Step(s, choices[0]), choices[1..]);
    }
  }

  // Main result: a run in which no wait times out, carried on until nothing
  // can move any more, ends with the task finished, the shutter closed, the
  // whole task in the device log and every worker gone by its Stop command.
  lemma PatientRunsSucceed(segments: seq<Segment>, choices: seq<Choice>)
    requires forall c :: c in choices ==> Patient(c)
    ensures Inv(Initial(segments))
    ensures var s := Run(Initial(segments), choices);
            IndexOk(s) && s.state != Error
            && ((forall c :: Patient(c) ==> Step(s, c) == s) ==>
                  Over(s) && s.state == TaskFinished && LogComplete(s) && !s.shutterOpen && LeftByStop(s))
  {
    hide Inv, Step, Run, LogComplete;
    InitialInv(segments);
    var s := Run(Initial(segments), choices);
    RunKeepsInv(Initial(segments), choices);
    NotIdle(s);
    PatientRunsAvoidError(Initial(segments), choices);
    EveryRunIsGood(segments, choices);
    if forall c :: Patient(c) ==> Step(s, c) == s {
      if !Over(s) {
        var c := PatientMove(s);
      }
      DoneIsStopping(s);
    }
  }

  lemma DoneIsStopping(s: System)
    requires Inv(s) && !s.running
    ensures Stopping(s)
  {
  }
}

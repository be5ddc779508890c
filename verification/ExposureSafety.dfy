// Every interleaving of the controller and its workers keeps the invariant of
// ExposureModel, and what follows from it.
module ExposureSafety {
  import opened ExposureModel

  // ---- Frames -------------------------------------------------------------

  // Nothing of the controller moved.
  ghost predicate SameControl(s: System, t: System) {
    && t.segments == s.segments && t.state == s.state && t.index == s.index && t.running == s.running
    && t.pc == s.pc && t.captureDone == s.captureDone && t.shutterOpened == s.shutterOpened
    && t.iterations == s.iterations && t.eventsStopped == s.eventsStopped
  }

  // Only this device moved, and it moved to d.
  ghost predicate Moved(s: System, t: System, which: Which, d: Device) {
    && t.platform == (if which == PlatformW then d else s.platform)
    && t.shutter == (if which == ShutterW then d else s.shutter)
    && t.camera == (if which == CameraW then d else s.camera)
  }

  lemma ReportFrame(s: System, which: Which, c: Command)
    ensures var t := Report(s, which, c);
            SameControl(s, t) && t.platform == s.platform && t.shutter == s.shutter && t.camera == s.camera
  {
    hide Handles, DoneEvent;
  }

  lemma FinishFrame(s: System, which: Which)
    requires DeviceOf(s, which).worker.Busy?
    ensures SameControl(s, FinishCommand(s, which))
    ensures Moved(s, FinishCommand(s, which), which, Finished(DeviceOf(s, which)))
  {
    hide Finished, Report;
    var d := DeviceOf(s, which);
    ReportFrame(WithDevice(s, which, Finished(d)), which, d.worker.command);
  }

  lemma TakeFrame(s: System, which: Which)
    requires DeviceOf(s, which).worker == Waiting && DeviceOf(s, which).queue != []
    ensures var d, t := DeviceOf(s, which), TakeCommand(s, which);
            SameControl(s, t) && t.events == s.events && t.shutterOpen == s.shutterOpen && t.log == s.log
            && Moved(s, t, which, d.(queue := d.queue[1..], worker := Busy(d.queue[0])))
  {
  }

  lemma StopsFor(s: System, w: Which)
    requires StopsInOrder(s)
    ensures StopState(DeviceOf(s, w), SentTo(s, w), ClosedTo(s, w))
  {
    hide StopState;
  }

  // The invariant, once its parts about devices are known to be kept.
  lemma ControlKeepsInv(s: System, t: System)
    requires Inv(s) && SameControl(s, t) && StopsInOrder(t) && Exclusive(t) && InState(t)
    ensures Inv(t) && t.segments == s.segments
  {
    hide StopsInOrder, Exclusive, InState;
  }

  // ---- Worker steps -------------------------------------------------------

  // Taking a command into hand moves it inside the flight, no more.
  lemma TakeKeepsFlight(d: Device)
    requires d.worker == Waiting && d.queue != []
    ensures Flight(d.(queue := d.queue[1..], worker := Busy(d.queue[0]))) == Flight(d)
  {
  }

  ghost predicate SameFlight(d: Device, e: Device) {
    Flight(e) == Flight(d) && e.stopped == d.stopped && !e.worker.Left? && !d.worker.Left?
  }

  lemma SameFlightKeepsStop(d: Device, e: Device, sent: bool, closed: bool)
    requires StopState(d, sent, closed) && SameFlight(d, e)
    ensures StopState(e, sent, closed) && Work(e, sent) == Work(d, sent)
  {
  }

  lemma TakeKeepsStops(s: System, t: System, which: Which, e: Device)
    requires StopsInOrder(s) && SameControl(s, t) && Moved(s, t, which, e) && SameFlight(DeviceOf(s, which), e)
    ensures StopsInOrder(t)
    ensures WorkOf(t, PlatformW) == WorkOf(s, PlatformW) && WorkOf(t, ShutterW) == WorkOf(s, ShutterW)
         && WorkOf(t, CameraW) == WorkOf(s, CameraW)
  {
    hide StopState, SameFlight, Flight, Work;
    StopsFor(s, which);
    SameFlightKeepsStop(DeviceOf(s, which), e, SentTo(s, which), ClosedTo(s, which));
  }

  lemma TakeKeepsState(s: System, t: System)
    requires InState(s) && SameControl(s, t)
    requires t.events == s.events && t.shutterOpen == s.shutterOpen && t.log == s.log
    requires Flight(t.platform) == Flight(s.platform) && Flight(t.shutter) == Flight(s.shutter)
    requires Flight(t.camera) == Flight(s.camera)
    requires WorkOf(t, PlatformW) == WorkOf(s, PlatformW) && WorkOf(t, ShutterW) == WorkOf(s, ShutterW)
    requires WorkOf(t, CameraW) == WorkOf(s, CameraW)
    ensures InState(t)
  {
    hide Flight, WorkOf, LogCovers, RaceEvents, Block;
  }

  lemma TakeKeepsInv(s: System, which: Which)
    requires Inv(s) && DeviceOf(s, which).worker == Waiting && DeviceOf(s, which).queue != []
    ensures Inv(TakeCommand(s, which)) && TakeCommand(s, which).segments == s.segments
  {
    hide InState, StopsInOrder, TakeCommand, Flight, WorkOf, IterationsOk, IndexOk;
    var d, t := DeviceOf(s, which), TakeCommand(s, which);
    var e := d.(queue := d.queue[1..], worker := Busy(d.queue[0]));
    TakeFrame(s, which);
    TakeKeepsFlight(d);
    TakeKeepsStops(s, t, which, e);
    TakeKeepsState(s, t);
    ControlKeepsInv(s, t);
  }

  // A waiting worker never meets a stopped empty queue: Stop came first.
  lemma NeverThrows(s: System, which: Which)
    requires Inv(s) && DeviceOf(s, which).worker == Waiting && DeviceOf(s, which).stopped
    ensures DeviceOf(s, which).queue != []
  {
    hide InState, IterationsOk, StopsInOrder, Exclusive;
    StopsFor(s, which);
  }

  // The head of a flight is Stop only if it is the whole flight.
  lemma StopComesLast(d: Device, sent: bool, closed: bool)
    requires StopState(d, sent, closed) && d.worker.Busy?
    ensures d.worker.command.kind == StopCmd ==> sent && Flight(d) == [STOP]
    ensures d.worker.command.kind != StopCmd ==>
              Work(d, sent) != [] && Work(d, sent)[0] == d.worker.command
  {
    assert Flight(d)[0] == d.worker.command;
  }

  // Completing a command takes it off the front of the work, or ends the worker.
  lemma FinishDevice(d: Device, sent: bool, closed: bool)
    requires StopState(d, sent, closed) && d.worker.Busy?
    ensures StopState(Finished(d), sent, closed)
    ensures d.worker.command.kind == StopCmd ==> Work(d, sent) == [] && Work(Finished(d), sent) == []
    ensures d.worker.command.kind != StopCmd ==> Work(d, sent) == [d.worker.command] + Work(Finished(d), sent)
  {
    StopComesLast(d, sent, closed);
    var e := Finished(d);
    if d.worker.command.kind != StopCmd {
      assert Flight(d) == [d.worker.command] + Flight(e);
      assert forall i :: 0 <= i < |Flight(e)| ==> Flight(e)[i] == Flight(d)[i + 1];
    } else {
      assert d.queue == [];
    }
  }

  lemma FinishKeepsStops(s: System, which: Which)
    requires StopsInOrder(s) && DeviceOf(s, which).worker.Busy?
    ensures StopsInOrder(FinishCommand(s, which))
    ensures var c, t := DeviceOf(s, which).worker.command, FinishCommand(s, which);
            (c.kind != StopCmd ==> WorkOf(s, which) == [c] + WorkOf(t, which))
            && (c.kind == StopCmd ==> WorkOf(t, which) == [] && WorkOf(s, which) == [])
            && (which != PlatformW ==> WorkOf(t, PlatformW) == WorkOf(s, PlatformW))
            && (which != ShutterW ==> WorkOf(t, ShutterW) == WorkOf(s, ShutterW))
            && (which != CameraW ==> WorkOf(t, CameraW) == WorkOf(s, CameraW))
  {
    hide StopState, FinishCommand, Work, Finished, Flight;
    FinishFrame(s, which);
    StopsFor(s, which);
    FinishDevice(DeviceOf(s, which), SentTo(s, which), ClosedTo(s, which));
  }

  lemma HasShrinks(c: Command, cs: seq<Command>, kind: CommandKind)
    requires Has(cs, kind)
    ensures Has([c] + cs, kind)
  {
    var i :| 0 <= i < |cs| && cs[i].kind == kind;
    assert ([c] + cs)[i + 1].kind == kind;
  }

  lemma FinishKeepsExclusive(s: System, which: Which)
    requires StopsInOrder(s) && Exclusive(s) && DeviceOf(s, which).worker.Busy?
    ensures Exclusive(FinishCommand(s, which))
  {
    hide WorkOf, StopsInOrder, Has;
    var t := FinishCommand(s, which);
    var c := DeviceOf(s, which).worker.command;
    FinishKeepsStops(s, which);
    if Has(WorkOf(t, PlatformW), MovePlatform) {
      if which == PlatformW && c.kind != StopCmd {
        HasShrinks(c, WorkOf(t, PlatformW), MovePlatform);
      }
      assert Has(WorkOf(s, PlatformW), MovePlatform);
    }
  }

  lemma LogGrows(s: System, t: System, tail: seq<Entry>, e: Entry)
    requires Logged(s, tail) && t.log == s.log + [e] && t.segments == s.segments && t.index == s.index
    ensures Logged(t, tail + [e])
  {
    forall i | 0 <= i < s.index ensures Block(t.segments[i], t.log[4 * i..4 * i + 4]) {
      assert t.log[4 * i..4 * i + 4] == s.log[4 * i..4 * i + 4];
    }
    assert t.log[4 * s.index..] == tail + [e];
  }

  // In a working state, what completing the command in hand changes.
  lemma FinishShape(s: System, which: Which)
    requires DeviceOf(s, which).worker.Busy? && DeviceOf(s, which).worker.command.kind != StopCmd
    requires Handles(which, DeviceOf(s, which).worker.command.kind)
    ensures var c, t := DeviceOf(s, which).worker.command, FinishCommand(s, which);
            t.log == s.log + [Entry(c.kind, c.segmentId)]
            && t.events == s.events + [Event(DoneEvent(c.kind), c.segmentId)]
            && t.shutterOpen == (if c.kind == OpenShutterCmd then true
                                 else if c.kind == CloseShutterCmd then false else s.shutterOpen)
            && Flight(DeviceOf(s, which)) == [c] + Flight(Finished(DeviceOf(s, which)))
  {
  }

  lemma FinishInWaitArrived(s: System, which: Which)
    requires InWaitArrived(s) && DeviceOf(s, which).worker.Busy?
    ensures InWaitArrived(FinishCommand(s, which))
  {
    hide Logged, FinishCommand, Finished;
    var t := FinishCommand(s, which);
    FinishFrame(s, which);
    assert Flight(DeviceOf(s, which)) != [];
    assert which == PlatformW && Flight(s.platform)[0] == s.platform.worker.command;
    FinishShape(s, which);
    LogGrows(s, t, [], EntryHere(s, MovePlatform));
    assert [] + [EntryHere(s, MovePlatform)] == [EntryHere(s, MovePlatform)];
    assert Flight(t.platform) == [];
  }

  lemma FinishInOpen(s: System, which: Which)
    requires InOpen(s) && DeviceOf(s, which).worker.Busy?
    ensures InOpen(FinishCommand(s, which))
  {
    hide Logged, FinishCommand, Finished;
    var t := FinishCommand(s, which);
    FinishFrame(s, which);
    assert Flight(DeviceOf(s, which)) != [];
    assert which == ShutterW && s.pc != 0 && Flight(s.shutter)[0] == s.shutter.worker.command;
    FinishShape(s, which);
    var m, o := EntryHere(s, MovePlatform), EntryHere(s, OpenShutterCmd);
    LogGrows(s, t, [m], o);
    assert [m] + [o] == [m, o];
    assert Flight(t.shutter) == [];
  }

  lemma RaceLogGrows(s: System, t: System, isOpen: bool, isCaptured: bool, e: Entry)
    requires s.index < |s.segments| && RaceLog(s, isOpen, isCaptured)
    requires t.log == s.log + [e] && t.segments == s.segments && t.index == s.index
    ensures e == EntryHere(s, OpenShutterCmd) && !isOpen ==> RaceLog(t, true, isCaptured)
    ensures e == EntryHere(s, CaptureImage) && !isCaptured ==> RaceLog(t, isOpen, true)
  {
    hide Logged;
    var m, o, c := EntryHere(s, MovePlatform), EntryHere(s, OpenShutterCmd), EntryHere(s, CaptureImage);
    var tail := if isOpen && isCaptured then (if Logged(s, [m, o, c]) then [m, o, c] else [m, c, o])
                else if isOpen then [m, o] else if isCaptured then [m, c] else [m];
    LogGrows(s, t, tail, e);
    assert [m] + [o] == [m, o] && [m] + [c] == [m, c] && [m, o] + [c] == [m, o, c] && [m, c] + [o] == [m, c, o];
  }

  lemma FinishInWaitCapture(s: System, which: Which)
    requires InWaitCapture(s) && DeviceOf(s, which).worker.Busy?
    ensures InWaitCapture(FinishCommand(s, which))
  {
    hide RaceLog, FinishCommand, Finished;
    var t := FinishCommand(s, which);
    FinishFrame(s, which);
    var isOpen, isCaptured := Flight(s.shutter) == [], Flight(s.camera) == [];
    assert Flight(DeviceOf(s, which)) != [];
    assert which != PlatformW && Flight(DeviceOf(s, which))[0] == DeviceOf(s, which).worker.command;
    FinishShape(s, which);
    var c := DeviceOf(s, which).worker.command;
    RaceLogGrows(s, t, isOpen, isCaptured, Entry(c.kind, c.segmentId));
    assert Flight(DeviceOf(t, which)) == [];
  }

  lemma FinishInSegmentFinished(s: System, which: Which)
    requires InSegmentFinished(s) && DeviceOf(s, which).worker.Busy?
    ensures InSegmentFinished(FinishCommand(s, which))
  {
    hide RaceLog, BlockLogged, FinishCommand, Finished;
    var t := FinishCommand(s, which);
    FinishFrame(s, which);
    assert Flight(DeviceOf(s, which)) != [];
    assert which == ShutterW && Flight(s.shutter)[0] == s.shutter.worker.command;
    FinishShape(s, which);
    ClosedBlock(s, t);
    assert Flight(t.shutter) == [];
  }

  lemma ClosedBlock(s: System, t: System)
    requires s.index < |s.segments| && RaceLog(s, true, true)
    requires t.log == s.log + [EntryHere(s, CloseShutterCmd)] && t.segments == s.segments && t.index == s.index
    ensures BlockLogged(t)
  {
    hide LogCovers;
    var m, o, c := EntryHere(s, MovePlatform), EntryHere(s, OpenShutterCmd), EntryHere(s, CaptureImage);
    LogGrows(s, t, if Logged(s, [m, o, c]) then [m, o, c] else [m, c, o], EntryHere(s, CloseShutterCmd));
  }

  // The log, the segments and the index are all that Logged looks at.
  lemma LoggedSame(s: System, t: System)
    requires t.log == s.log && t.segments == s.segments && t.index == s.index
    ensures forall tail :: Logged(s, tail) == Logged(t, tail)
  {
  }

  lemma FinishInFinished(s: System, which: Which)
    requires s.state == TaskFinished && InFinished(s) && StopsInOrder(s) && DeviceOf(s, which).worker.Busy?
    ensures InFinished(FinishCommand(s, which))
  {
    hide Logged, WorkOf, StopsInOrder;
    FinishKeepsStops(s, which);
    FinishFrame(s, which);
    LoggedSame(s, FinishCommand(s, which));
  }

  // Completing a command in each state where a device can have one.
  lemma FinishKeepsState(s: System, which: Which)
    requires InState(s) && StopsInOrder(s) && DeviceOf(s, which).worker.Busy?
    ensures InState(FinishCommand(s, which))
  {
    hide Logged, WorkOf, StopsInOrder, FinishCommand, RaceLog, RaceState, BlockLogged, InWaitArrived, InOpen,
         InWaitCapture, InSegmentFinished, InFinished, Finished;
    FinishFrame(s, which);
    assert Flight(DeviceOf(s, which)) != [];
    match s.state {
      case WaitPlatformArrived => FinishInWaitArrived(s, which);
      case OpenShutterAndCapture => FinishInOpen(s, which);
      case WaitCaptureDone => FinishInWaitCapture(s, which);
      case SegmentFinished => FinishInSegmentFinished(s, which);
      case TaskFinished => FinishInFinished(s, which);
      case _ =>
    }
  }

  lemma WorkerKeepsInv(s: System, which: Which)
    requires Inv(s)
    ensures Inv(WorkerStep(s, which)) && WorkerStep(s, which).segments == s.segments
  {
    hide InState, StopsInOrder, Exclusive, IterationsOk, IndexOk, FinishCommand;
    match DeviceOf(s, which).worker {
      case Waiting =>
        if DeviceOf(s, which).queue != [] {
          TakeKeepsInv(s, which);
        } else if DeviceOf(s, which).stopped {
          NeverThrows(s, which);
        }
      case Left(_) =>
      case Busy(c) =>
        FinishFrame(s, which);
        FinishKeepsStops(s, which);
        FinishKeepsExclusive(s, which);
        FinishKeepsState(s, which);
        ControlKeepsInv(s, FinishCommand(s, which));
    }
  }

  // ---- Controller steps ---------------------------------------------------

  lemma PushGrowsFlight(d: Device, c: Command)
    ensures Flight(Push(d, c)) == Flight(d) + [c]
  {
  }

  ghost predicate Unstopped(d: Device) {
    StopState(d, false, false)
  }

  // No device has been sent Stop.
  ghost predicate AllUnstopped(s: System) {
    Unstopped(s.platform) && Unstopped(s.shutter) && Unstopped(s.camera)
  }

  lemma WorkingDevices(s: System)
    requires StopsInOrder(s) && !Stopping(s)
    ensures AllUnstopped(s)
    ensures WorkOf(s, PlatformW) == Flight(s.platform) && WorkOf(s, ShutterW) == Flight(s.shutter)
         && WorkOf(s, CameraW) == Flight(s.camera)
  {
    hide StopState;
  }

  lemma PushWork(d: Device, c: Command)
    requires Unstopped(d) && c.kind != StopCmd
    ensures Unstopped(Push(d, c)) && Flight(Push(d, c)) == Flight(d) + [c]
  {
    PushGrowsFlight(d, c);
  }

  // The stop discipline and the exclusion of a state that has sent no Stop.
  lemma StillWorking(t: System)
    requires AllUnstopped(t) && (Stopping(t) ==> t.pc == 0)
    ensures StopsInOrder(t)
    ensures WorkOf(t, PlatformW) == Flight(t.platform) && WorkOf(t, ShutterW) == Flight(t.shutter)
         && WorkOf(t, CameraW) == Flight(t.camera)
    ensures Flight(t.platform) == [] || (Flight(t.shutter) == [] && Flight(t.camera) == [] && !t.shutterOpen)
            ==> Exclusive(t)
  {
    hide StopState;
  }

  lemma ControllerFromLoaded(s: System)
    requires Inv(s) && s.running && s.state == TaskLoaded
    ensures Inv(TaskLoadedStep(s)) && TaskLoadedStep(s).segments == s.segments
  {
    hide StopState, StopsInOrder, Exclusive, LogCovers, WorkOf;
    var t := TaskLoadedStep(s);
    WorkingDevices(s);
    StillWorking(t);
  }

  lemma ControllerFromMove(s: System)
    requires Inv(s) && s.running && s.state == MoveToPoint
    ensures Inv(MoveStep(s)) && MoveStep(s).segments == s.segments
  {
    hide StopState, StopsInOrder, Exclusive, LogCovers, Flight, WorkOf, Push;
    var t := MoveStep(s);
    WorkingDevices(s);
    PushWork(s.platform, MoveCmd(s));
    StillWorking(t);
  }

  lemma ControllerFromWaitArrived(s: System, timeout: bool)
    requires Inv(s) && s.running && s.state == WaitPlatformArrived
    ensures Inv(WaitArrivedStep(s, timeout)) && WaitArrivedStep(s, timeout).segments == s.segments
  {
    hide StopState, StopsInOrder, Exclusive, LogCovers, Flight, WorkOf;
    var t := WaitArrivedStep(s, timeout);
    WorkingDevices(s);
    StillWorking(t);
  }

  lemma ControllerFromOpen(s: System)
    requires Inv(s) && s.running && s.state == OpenShutterAndCapture
    ensures Inv(OpenAndCaptureStep(s)) && OpenAndCaptureStep(s).segments == s.segments
  {
    hide StopState, StopsInOrder, Exclusive, Logged, Flight, WorkOf, Push;
    var t := OpenAndCaptureStep(s);
    WorkingDevices(s);
    if s.pc == 0 {
      PushWork(s.shutter, CmdHere(s, OpenShutterCmd));
    } else {
      PushWork(s.camera, CmdHere(s, CaptureImage));
    }
    StillWorking(t);
    LoggedSame(s, t);
  }

  lemma ControllerFromWaitCapture(s: System, expired: bool)
    requires Inv(s) && s.running && s.state == WaitCaptureDone
    ensures Inv(WaitCaptureStep(s, expired)) && WaitCaptureStep(s, expired).segments == s.segments
  {
    hide StopState, StopsInOrder, Exclusive, Logged, Flight, WorkOf;
    var t := WaitCaptureStep(s, expired);
    WorkingDevices(s);
    StillWorking(t);
    LoggedSame(s, t);
  }

  lemma ControllerFromClose(s: System)
    requires Inv(s) && s.running && s.state == CloseShutter
    ensures Inv(CloseStep(s)) && CloseStep(s).segments == s.segments
  {
    hide StopState, StopsInOrder, Exclusive, Logged, Flight, WorkOf, Push;
    var t := CloseStep(s);
    WorkingDevices(s);
    PushWork(s.shutter, CmdHere(s, CloseShutterCmd));
    StillWorking(t);
    LoggedSame(s, t);
  }

  lemma SegmentLogged(s: System, t: System)
    requires s.index < |s.segments| && BlockLogged(s)
    requires t.log == s.log && t.segments == s.segments && t.index == s.index + 1
    ensures Logged(t, [])
  {
    assert s.log[4 * s.index..4 * s.index + 4] == s.log[4 * s.index..];
  }

  lemma ControllerFromSegmentFinished(s: System, timeout: bool)
    requires Inv(s) && s.running && s.state == SegmentFinished
    ensures Inv(SegmentFinishedStep(s, timeout)) && SegmentFinishedStep(s, timeout).segments == s.segments
  {
    hide StopState, StopsInOrder, Exclusive, Logged, BlockLogged, Flight, WorkOf;
    var t := SegmentFinishedStep(s, timeout);
    WorkingDevices(s);
    StillWorking(t);
    if t.index == s.index + 1 {
      SegmentLogged(s, t);
    }
  }

  lemma SendStop(d: Device)
    requires StopState(d, false, false)
    ensures StopState(Push(d, STOP), true, false) && Work(Push(d, STOP), true) == Work(d, false)
  {
    PushGrowsFlight(d, STOP);
  }

  lemma CloseQueue(d: Device)
    requires StopState(d, true, false)
    ensures var e := d.(stopped := true);
            StopState(e, true, true) && Work(e, true) == Work(d, true)
  {
  }

  lemma StopIsSent(s: System)
    requires StopsInOrder(s) && Stopping(s) && s.pc < 3
    ensures StopsInOrder(SendStopStep(s))
    ensures WorkOf(SendStopStep(s), PlatformW) == WorkOf(s, PlatformW)
    ensures WorkOf(SendStopStep(s), ShutterW) == WorkOf(s, ShutterW)
    ensures WorkOf(SendStopStep(s), CameraW) == WorkOf(s, CameraW)
  {
    hide StopState, Work, Push;
    if s.pc == 0 {
      SendStop(s.platform);
    } else if s.pc == 1 {
      SendStop(s.shutter);
    } else {
      SendStop(s.camera);
    }
  }

  lemma QueueIsClosed(s: System)
    requires StopsInOrder(s) && Stopping(s) && 3 <= s.pc < 6
    ensures StopsInOrder(CloseQueueStep(s))
    ensures WorkOf(CloseQueueStep(s), PlatformW) == WorkOf(s, PlatformW)
    ensures WorkOf(CloseQueueStep(s), ShutterW) == WorkOf(s, ShutterW)
    ensures WorkOf(CloseQueueStep(s), CameraW) == WorkOf(s, CameraW)
  {
    hide StopState, Work, Push;
    if s.pc == 3 {
      CloseQueue(s.platform);
    } else if s.pc == 4 {
      CloseQueue(s.shutter);
    } else {
      CloseQueue(s.camera);
    }
  }

  lemma StopKeepsStops(s: System)
    requires StopsInOrder(s) && Stopping(s) && s.pc <= 7
    ensures StopsInOrder(StopStep(s))
    ensures WorkOf(StopStep(s), PlatformW) == WorkOf(s, PlatformW)
    ensures WorkOf(StopStep(s), ShutterW) == WorkOf(s, ShutterW)
    ensures WorkOf(StopStep(s), CameraW) == WorkOf(s, CameraW)
  {
    hide StopState, Work, Push;
    if s.pc < 3 {
      StopIsSent(s);
    } else if s.pc < 6 {
      QueueIsClosed(s);
    }
  }

  lemma ControllerFromStop(s: System)
    requires Inv(s) && s.running && Stopping(s)
    ensures Inv(StopStep(s)) && StopStep(s).segments == s.segments
  {
    hide StopsInOrder, WorkOf, LogCovers, Push;
    StopKeepsStops(s);
  }

  lemma StepKeepsInv(s: System, c: Choice)
    requires Inv(s)
    ensures Inv(Step(s, c)) && Step(s, c).segments == s.segments
  {
    hide Inv, WorkerStep, MoveStep, WaitArrivedStep, OpenAndCaptureStep, WaitCaptureStep, CloseStep, SegmentFinishedStep, StopStep, TaskLoadedStep;
    match c {
      case Worker(which) => WorkerKeepsInv(s, which);
      case Controller(expired) =>
        if s.running {
          NotIdle(s);
          match s.state {
            case TaskLoaded => ControllerFromLoaded(s);
            case MoveToPoint => ControllerFromMove(s);
            case WaitPlatformArrived => ControllerFromWaitArrived(s, expired);
            case OpenShutterAndCapture => ControllerFromOpen(s);
            case WaitCaptureDone => ControllerFromWaitCapture(s, expired);
            case CloseShutter => ControllerFromClose(s);
            case SegmentFinished => ControllerFromSegmentFinished(s, expired);
            case TaskFinished => ControllerFromStop(s);
            case Error => ControllerFromStop(s);
            case Idle =>
          }
        }
    }
  }

  lemma NotIdle(s: System)
    requires Inv(s)
    ensures s.state != Idle && IndexOk(s)
  {
  }

  // ---- Results ------------------------------------------------------------

  ghost predicate Moving(s: System) {
    s.platform.worker.Busy? && s.platform.worker.command.kind == MovePlatform
  }

  ghost predicate Exposed(s: System) {
    s.shutterOpen || (s.shutter.worker.Busy? && s.shutter.worker.command.kind == OpenShutterCmd)
  }

  ghost predicate Capturing(s: System) {
    s.camera.worker.Busy? && s.camera.worker.command.kind == CaptureImage
  }

  ghost predicate LeftByStop(s: System) {
    forall w :: DeviceOf(s, w).worker.Left? ==> DeviceOf(s, w).worker.byStop
  }

  // The whole task in the log, segment by segment, and nothing else.
  ghost predicate LogComplete(s: System) {
    |s.log| == 4 * |s.segments| && forall i :: 0 <= i < |s.segments| ==> Block(s.segments[i], s.log[4 * i..4 * i + 4])
  }

  // An event that the controller's current wait does not expect.
  ghost predicate Unexpected(s: System) {
    s.events != [] &&
    match s.state
    case WaitPlatformArrived =>
      s.index < |s.segments| && s.events[0] != EventHere(s, PlatformArrived)
    case WaitCaptureDone =>
      s.index < |s.segments| && s.events[0] != EventHere(s, ShutterOpened) && s.events[0] != EventHere(s, CaptureDone)
    case SegmentFinished =>
      s.index < |s.segments| && s.events[0] != EventHere(s, ShutterClosed)
    case _ => false
  }

  ghost predicate Good(s: System) {
    && !(Moving(s) && Exposed(s)) && !(Moving(s) && Capturing(s))
    && !Unexpected(s) && LeftByStop(s)
    && s.iterations <= 6 * |s.segments| + 2
    && (s.state == TaskFinished ==> LogComplete(s) && !s.shutterOpen)
  }

  lemma BusyIsWork(s: System, which: Which)
    requires StopsInOrder(s) && DeviceOf(s, which).worker.Busy? && DeviceOf(s, which).worker.command.kind != StopCmd
    ensures WorkOf(s, which) != [] && WorkOf(s, which)[0] == DeviceOf(s, which).worker.command
  {
    hide StopsInOrder;
    StopsFor(s, which);
    StopComesLast(DeviceOf(s, which), SentTo(s, which), ClosedTo(s, which));
  }

  lemma NeverMovingExposed(s: System)
    requires StopsInOrder(s) && Exclusive(s)
    ensures !(Moving(s) && Exposed(s)) && !(Moving(s) && Capturing(s))
  {
    hide StopsInOrder, WorkOf;
    if Moving(s) {
      BusyIsWork(s, PlatformW);
      assert Has(WorkOf(s, PlatformW), MovePlatform);
      if s.shutter.worker.Busy? && s.shutter.worker.command.kind == OpenShutterCmd { BusyIsWork(s, ShutterW); }
      if Capturing(s) { BusyIsWork(s, CameraW); }
    }
  }

  lemma ExpectedOnly(s: System)
    requires InState(s)
    ensures !Unexpected(s)
  {
    hide RaceLog, LogCovers, Block, Flight;
  }

  lemma InvIsGood(s: System)
    requires Inv(s)
    ensures Good(s)
  {
    hide StopsInOrder, Exclusive, Moving, Exposed, Capturing, Unexpected;
    NeverMovingExposed(s);
    ExpectedOnly(s);
    forall w ensures DeviceOf(s, w).worker.Left? ==> DeviceOf(s, w).worker.byStop {
      StopsFor(s, w);
    }
  }

  ghost function Run(s: System, choices: seq<Choice>): System
    requires Inv(s)
    decreases |choices|
  {
    if choices == [] then s
    else
      StepKeepsInv(s, choices[0]);
      Run(Step(s, choices[0]), choices[1..])
  }

  lemma {:induction false} RunKeepsInv(s: System, choices: seq<Choice>)
    requires Inv(s)
    ensures Inv(Run(s, choices)) && Run(s, choices).segments == s.segments
    decreases |choices|
  {
    hide Inv, Step;
    if choices != [] {
      NotIdle(s);
      StepKeepsInv(s, choices[0]);
      RunKeepsInv(Step(s, choices[0]), choices[1..]);
    }
  }

  lemma InitialInv(segments: seq<Segment>)
    ensures Inv(Initial(segments))
  {
  }

  // Main result: for any segments and any interleaving of controller, workers
  // and timeouts, the platform never moves while the shutter is open or
  // opening or while a capture runs; no wait ever sees an event it does not
  // expect; workers leave only by their Stop command; the loop takes at most
  // 6n + 2 iterations; and TaskFinished means the shutter is closed and the
  // devices did, per segment in order, move, open and capture in either order,
  // close, each exactly once.
  lemma EveryRunIsGood(segments: seq<Segment>, choices: seq<Choice>)
    ensures Inv(Initial(segments)) && Good(Run(Initial(segments), choices))
    ensures Run(Initial(segments), choices).segments == segments
  {
    hide Inv, Good, Run;
    InitialInv(segments);
    RunKeepsInv(Initial(segments), choices);
    InvIsGood(Run(Initial(segments), choices));
  }

  // Work a device still has to do before its thread ends.
  function Remaining(d: Device): nat {
    if d.worker.Left? then 0 else 1 + 2 * |d.queue| + (if d.worker.Busy? then 1 else 0)
  }

  lemma DeviceDrains(d: Device)
    requires StopState(d, true, true) && !d.worker.Left?
    ensures d.worker.Busy? ==> Remaining(Finished(d)) < Remaining(d)
    ensures d.worker == Waiting ==> d.queue != [] && Remaining(d.(queue := d.queue[1..], worker := Busy(d.queue[0]))) < Remaining(d)
  {
    if d.worker.Busy? { FinishDevice(d, true, true); }
  }

  // Once the controller is done, every worker that has not left can move, and
  // each of its moves brings it nearer its end: the joins return.
  lemma WorkersDrain(s: System, which: Which)
    requires Inv(s) && !s.running && !DeviceOf(s, which).worker.Left?
    ensures Remaining(DeviceOf(WorkerStep(s, which), which)) < Remaining(DeviceOf(s, which))
  {
    hide StopState, InState, Exclusive, IterationsOk, FinishCommand, Remaining, StopsInOrder, TakeCommand;
    StopsFor(s, which);
    DeviceDrains(DeviceOf(s, which));
    if DeviceOf(s, which).worker.Busy? {
      FinishFrame(s, which);
    } else {
      TakeFrame(s, which);
    }
  }

  // ---- Reachable states ---------------------------------------------------

  lemma WorkerKeepsControl(s: System, which: Which)
    ensures SameControl(s, WorkerStep(s, which))
  {
    hide FinishCommand, TakeCommand;
    if DeviceOf(s, which).worker.Busy? {
      FinishFrame(s, which);
    } else {
      TakeKeepsControl(s, which);
    }
  }

  lemma WithDeviceFrame(s: System, which: Which, d: Device)
    ensures SameControl(s, WithDevice(s, which, d))
  {
  }

  lemma TakeKeepsControl(s: System, which: Which)
    ensures SameControl(s, TakeCommand(s, which))
  {
    hide WithDevice;
    var d := DeviceOf(s, which);
    if d.queue != [] { WithDeviceFrame(s, which, d.(queue := d.queue[1..], worker := Busy(d.queue[0]))); }
    WithDeviceFrame(s, which, d.(worker := Left(false)));
  }

  ghost predicate Reachable(segments: seq<Segment>, s: System) {
    Inv(Initial(segments)) && exists choices :: Run(Initial(segments), choices) == s
  }

  lemma {:induction false} RunSnoc(s: System, choices: seq<Choice>, c: Choice)
    requires Inv(s)
    ensures Inv(Run(s, choices)) && IndexOk(Run(s, choices))
    ensures Run(s, choices + [c]) == Step(Run(s, choices), c)
    decreases |choices|
  {
    hide Inv, Step;
    RunKeepsInv(s, choices);
    NotIdle(Run(s, choices));
    if choices == [] {
      NotIdle(s);
      assert ([] + [c])[1..] == [];
    } else {
      NotIdle(s);
      StepKeepsInv(s, choices[0]);
      RunSnoc(Step(s, choices[0]), choices[1..], c);
      assert (choices + [c])[1..] == choices[1..] + [c];
    }
  }

  lemma ReachStep(segments: seq<Segment>, s: System, c: Choice)
    requires Reachable(segments, s)
    ensures IndexOk(s) && Reachable(segments, Step(s, c))
  {
    hide Inv, Step, Run;
    var choices :| Run(Initial(segments), choices) == s;
    RunSnoc(Initial(segments), choices, c);
  }

  lemma InitialReachable(segments: seq<Segment>)
    ensures Reachable(segments, Initial(segments))
  {
    hide Inv;
    InitialInv(segments);
    assert Run(Initial(segments), []) == Initial(segments);
  }
}

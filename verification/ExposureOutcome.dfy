// How a run of the exposure system comes out: exactly when it fails, and where
// the platform is sent.
module ExposureOutcome {
  import opened ExposureModel
  import opened ExposureSafety
  import opened ExposureProgress

  // ---- Failing ------------------------------------------------------------

  // The controller runs out of time: in a wait for one event with none there,
  // or at the deadline of WaitCaptureDone whatever is there.
  predicate MissesLimit(s: System, c: Choice) {
    c == Controller(true)
    && (s.state == WaitCaptureDone
        || ((s.state == WaitPlatformArrived || s.state == SegmentFinished) && s.events == []))
  }

  lemma StepFailsIff(s: System, c: Choice)
    requires Inv(s)
    ensures IndexOk(s) && (Step(s, c).state == Error <==> s.state == Error || MissesLimit(s, c))
  {
    hide StopsInOrder, Exclusive, LogCovers, Block, RaceLog, Flight, WorkerStep, StopStep;
    if c.Worker? {
      WorkerKeepsControl(s, c.which);
    } else {
      ExpectedOnly(s);
      StopKeepsState(s);
    }
  }

  lemma StopKeepsState(s: System)
    ensures StopStep(s).state == s.state
  {
    hide Push;
  }

  // Somewhere in the run the controller runs out of time.
  ghost predicate MissesSome(s: System, choices: seq<Choice>)
    requires Inv(s)
    decreases |choices|
  {
    choices != []
    && (MissesLimit(s, choices[0]) || (StepKeepsInv(s, choices[0]); MissesSome(Step(s, choices[0]), choices[1..])))
  }

  lemma {:induction false} RunFailsIff(s: System, choices: seq<Choice>)
    requires Inv(s)
    ensures Run(s, choices).state == Error <==> s.state == Error || MissesSome(s, choices)
    decreases |choices|
  {
    hide Inv, Step, MissesLimit;
    if choices != [] {
      StepFailsIff(s, choices[0]);
      StepKeepsInv(s, choices[0]);
      RunFailsIff(Step(s, choices[0]), choices[1..]);
    }
  }

  // Main result: whatever the schedule, a run that is over has done the whole
  // task and closed the shutter exactly when the controller ran out of time in
  // none of its three waits.
  lemma SucceedsIff(segments: seq<Segment>, choices: seq<Choice>)
    requires Inv(Initial(segments)) && Over(Run(Initial(segments), choices))
    ensures var s := Run(Initial(segments), choices);
            s.state == TaskFinished && LogComplete(s) && !s.shutterOpen <==> !MissesSome(Initial(segments), choices)
  {
    hide Inv, Run, MissesSome, LogComplete;
    EveryRunIsGood(segments, choices);
    RunKeepsInv(Initial(segments), choices);
    RunFailsIff(Initial(segments), choices);
    DoneIsStopping(Run(Initial(segments), choices));
  }

  // ---- What a wait makes of an event --------------------------------------

  // Of another segment than the current one.
  predicate Stray(s: System, e: Event)
    requires IndexOk(s) && NeedsSegment(s.state)
  {
    e.segmentId != s.segments[s.index].id
  }

  // The state an event of the current segment leads to from each wait.
  function Answer(s: System, kind: EventKind): FsmState {
    match s.state
    case WaitPlatformArrived => if kind == PlatformArrived then OpenShutterAndCapture else Error
    case SegmentFinished =>
      if kind != ShutterClosed then Error else if s.index + 1 < |s.segments| then MoveToPoint else TaskFinished
    case _ =>
      if kind == CaptureFailed || kind == ShutterFailed then Error
      else if (s.captureDone && kind == ShutterOpened) || (s.shutterOpened && kind == CaptureDone) then CloseShutter
      else WaitCaptureDone
  }

  // The event is taken, and only the controller's own place changes.
  ghost predicate Took(s: System, t: System) {
    && s.events != [] && t.events == s.events[1..]
    && t.platform == s.platform && t.shutter == s.shutter && t.camera == s.camera && t.segments == s.segments
  }

  lemma NextKeeps(t: System, state: FsmState)
    ensures var u := Next(t, state);
            u.state == state && u.index == t.index && u.events == t.events && u.captureDone == t.captureDone
            && u.shutterOpened == t.shutterOpened && u.segments == t.segments
            && u.platform == t.platform && u.shutter == t.shutter && u.camera == t.camera
  {
  }

  lemma ArrivedAnswer(s: System, expired: bool)
    requires IndexOk(s) && s.state == WaitPlatformArrived && s.events != []
    ensures var e, t := s.events[0], WaitArrivedStep(s, expired);
            Took(s, t) && t.index == s.index && t.state == (if Stray(s, e) then s.state else Answer(s, e.kind))
  {
    hide Next;
    var u := s.(events := s.events[1..]);
    NextKeeps(u, if Stray(s, s.events[0]) then s.state else Answer(s, s.events[0].kind));
  }

  lemma FinishedAnswer(s: System, expired: bool)
    requires IndexOk(s) && s.state == SegmentFinished && s.events != []
    ensures var e, t := s.events[0], SegmentFinishedStep(s, expired);
            Took(s, t) && t.index == s.index + (if !Stray(s, e) && e.kind == ShutterClosed then 1 else 0)
            && t.state == (if Stray(s, e) then s.state else Answer(s, e.kind))
  {
    hide Next;
    var e, u := s.events[0], s.(events := s.events[1..]);
    var closed := !Stray(s, e) && e.kind == ShutterClosed;
    NextKeeps(if closed then u.(index := s.index + 1) else u, if Stray(s, e) then s.state else Answer(s, e.kind));
  }

  lemma CaptureAnswer(s: System)
    requires IndexOk(s) && s.state == WaitCaptureDone && s.events != [] && !(s.captureDone && s.shutterOpened)
    ensures var e, t := s.events[0], WaitCaptureStep(s, false);
            Took(s, t) && t.index == s.index && t.state == (if Stray(s, e) then s.state else Answer(s, e.kind))
            && t.captureDone == (s.captureDone || (!Stray(s, e) && e.kind == CaptureDone))
            && t.shutterOpened == (s.shutterOpened || (!Stray(s, e) && e.kind == ShutterOpened))
  {
    hide Next;
    var e, t := s.events[0], s.(events := s.events[1..]);
    var u := if e.kind == ShutterOpened then t.(shutterOpened := true)
             else if e.kind == CaptureDone then t.(captureDone := true) else t;
    NextKeeps(u, Answer(s, e.kind));
  }

  // In any state whatever, reachable or not: a wait takes the oldest event; a
  // stray one changes nothing else, and any other decides as above.
  lemma WaitsAnswer(s: System)
    requires IndexOk(s) && s.running && s.events != [] && !(s.captureDone && s.shutterOpened)
    requires s.state == WaitPlatformArrived || s.state == WaitCaptureDone || s.state == SegmentFinished
    ensures var e, t := s.events[0], ControllerStep(s, false);
            Took(s, t) && t.state == (if Stray(s, e) then s.state else Answer(s, e.kind))
            && t.index == s.index + (if s.state == SegmentFinished && !Stray(s, e) && e.kind == ShutterClosed then 1 else 0)
            && (s.state == WaitCaptureDone ==>
                  t.captureDone == (s.captureDone || (!Stray(s, e) && e.kind == CaptureDone))
                  && t.shutterOpened == (s.shutterOpened || (!Stray(s, e) && e.kind == ShutterOpened)))
  {
    hide WaitArrivedStep, WaitCaptureStep, SegmentFinishedStep, Took, Answer, StopStep;
    match s.state {
      case WaitPlatformArrived => ArrivedAnswer(s, false);
      case SegmentFinished => FinishedAnswer(s, false);
      case _ => CaptureAnswer(s);
    }
  }

  // ---- Where the platform is sent -----------------------------------------

  // A move under way is to the current segment's own target.
  ghost predicate MovesTo(segments: seq<Segment>, index: nat, flight: seq<Command>) {
    forall c :: c in flight && c.kind == MovePlatform ==>
      index < |segments| && c == Command(MovePlatform, segments[index].id, segments[index].target)
  }

  ghost predicate MovesHere(s: System) {
    MovesTo(s.segments, s.index, Flight(s.platform))
  }

  lemma MovesWhileWorking(s: System)
    requires InState(s) && s.state != Error
    requires StopState(s.platform, SentTo(s, PlatformW), ClosedTo(s, PlatformW))
    ensures MovesHere(s)
  {
    hide StopState, LogCovers, Block, RaceLog, RaceEvents, Flight;
    if s.state == TaskFinished {
      NoWorkNoMove(s.platform, SentTo(s, PlatformW), ClosedTo(s, PlatformW));
    }
  }

  lemma NoWorkNoMove(d: Device, sent: bool, closed: bool)
    requires StopState(d, sent, closed) && Work(d, sent) == []
    ensures forall c :: c in Flight(d) ==> c.kind != MovePlatform
  {
  }

  lemma StopFlight(s: System)
    ensures var t := StopStep(s);
            t.segments == s.segments && t.index == s.index
            && (Flight(t.platform) == Flight(s.platform) || Flight(t.platform) == Flight(s.platform) + [STOP])
  {
    hide Flight, Push;
    PushGrowsFlight(s.platform, STOP);
    SameFlightWhenClosed(s.platform);
  }

  lemma SameFlightWhenClosed(d: Device)
    ensures Flight(d.(stopped := true)) == Flight(d)
  {
  }

  lemma WorkerFlight(s: System, which: Which)
    ensures var t := WorkerStep(s, which);
            t.segments == s.segments && t.index == s.index
            && forall c :: c in Flight(t.platform) ==> c in Flight(s.platform)
  {
    hide FinishCommand, TakeCommand, Flight, Finished;
    var d := DeviceOf(s, which);
    WorkerKeepsControl(s, which);
    if d.worker.Busy? {
      FinishFrame(s, which);
      FlightAfter(d);
    } else if d.worker == Waiting {
      if d.queue != [] {
        TakeFrame(s, which);
        TakeKeepsFlight(d);
      } else {
        TakeNone(s, which);
      }
    }
  }

  lemma TakeNone(s: System, which: Which)
    requires DeviceOf(s, which).worker == Waiting && DeviceOf(s, which).queue == []
    ensures Flight(TakeCommand(s, which).platform) == Flight(s.platform)
  {
  }

  lemma FlightAfter(d: Device)
    requires d.worker.Busy?
    ensures Flight(d) == [d.worker.command] + Flight(Finished(d))
    ensures forall c :: c in Flight(Finished(d)) ==> c in Flight(d)
  {
  }

  // Running into an error leaves the platform and the segment as they are.
  lemma IntoError(s: System, expired: bool)
    requires Inv(s) && s.state != Error && ControllerStep(s, expired).state == Error
    ensures var t := ControllerStep(s, expired);
            t.segments == s.segments && t.index == s.index && t.platform == s.platform
  {
    hide StopStep, StopsInOrder, Exclusive, LogCovers, Block, RaceLog, RaceEvents, Flight, Push;
    StopKeepsState(s);
  }

  lemma StepMovesHere(s: System, c: Choice)
    requires Inv(s) && MovesHere(s)
    ensures IndexOk(s) && MovesHere(Step(s, c))
  {
    hide Inv, WorkerStep, ControllerStep, Flight, StopStep;
    NotIdle(s);
    StepKeepsInv(s, c);
    match c {
      case Worker(which) => WorkerFlight(s, which);
      case Controller(expired) =>
        var t := Step(s, c);
        InvParts(t);
        if t.state != Error {
          MovesWhileWorking(t);
        } else if s.state == Error {
          Stops(s, expired);
          StopFlight(s);
        } else {
          IntoError(s, expired);
        }
    }
  }

  lemma InvParts(s: System)
    requires Inv(s)
    ensures InState(s) && StopState(s.platform, SentTo(s, PlatformW), ClosedTo(s, PlatformW))
  {
    hide StopState;
  }

  lemma Stops(s: System, expired: bool)
    requires IndexOk(s) && s.state == Error
    ensures ControllerStep(s, expired) == if s.running then StopStep(s) else s
  {
    hide StopStep;
  }

  lemma {:induction false} RunMovesHere(s: System, choices: seq<Choice>)
    requires Inv(s) && MovesHere(s)
    ensures MovesHere(Run(s, choices))
    decreases |choices|
  {
    hide Inv, Step, MovesHere;
    if choices != [] {
      StepMovesHere(s, choices[0]);
      StepKeepsInv(s, choices[0]);
      RunMovesHere(Step(s, choices[0]), choices[1..]);
    }
  }

  // In every interleaving, a platform that is moving is on its way to the target
  // of the segment the controller is at, also after an error.
  lemma MovesGoToTarget(segments: seq<Segment>, choices: seq<Choice>)
    requires Inv(Initial(segments))
    ensures var s := Run(Initial(segments), choices);
            Moving(s) ==> s.index < |segments| && s.platform.worker.command.segmentId == segments[s.index].id
                          && s.platform.worker.command.pos == segments[s.index].target
  {
    hide Inv, Run;
    RunMovesHere(Initial(segments), choices);
    RunKeepsInv(Initial(segments), choices);
    var s := Run(Initial(segments), choices);
    if Moving(s) { assert Flight(s.platform)[0] == s.platform.worker.command; }
  }
}

// What becomes of the shutter when a run ends in an error: exactly when it is
// left open for good.
module ExposureShutter {
  import opened ExposureModel
  import opened ExposureSafety
  import opened ExposureProgress

  // The controller has given up; the shutter is open or will be, and nothing
  // under way will close it.
  ghost predicate Doomed(s: System) {
    && s.state == Error
    && (s.shutterOpen || Has(Flight(s.shutter), OpenShutterCmd))
    && !Has(Flight(s.shutter), CloseShutterCmd)
  }

  // The controller has given up; nothing under way will open the shutter, and
  // if it is open a close is under way.
  ghost predicate Spared(s: System) {
    && s.state == Error
    && !Has(Flight(s.shutter), OpenShutterCmd)
    && (s.shutterOpen ==> Has(Flight(s.shutter), CloseShutterCmd))
  }

  lemma HasHead(c: Command, cs: seq<Command>, kind: CommandKind)
    ensures Has([c] + cs, kind) <==> c.kind == kind || Has(cs, kind)
  {
    if Has([c] + cs, kind) {
      var i :| 0 <= i < |[c] + cs| && ([c] + cs)[i].kind == kind;
      assert i == 0 || cs[i - 1].kind == kind;
    }
    if c.kind == kind { assert ([c] + cs)[0].kind == kind; }
    if Has(cs, kind) { HasShrinks(c, cs, kind); }
  }

  lemma HasTail(cs: seq<Command>, c: Command, kind: CommandKind)
    requires c.kind != kind
    ensures Has(cs + [c], kind) <==> Has(cs, kind)
  {
    if Has(cs + [c], kind) {
      var i :| 0 <= i < |cs + [c]| && (cs + [c])[i].kind == kind;
      assert cs[i].kind == kind;
    }
    if Has(cs, kind) {
      var i :| 0 <= i < |cs| && cs[i].kind == kind;
      assert (cs + [c])[i].kind == kind;
    }
  }

  // ---- After the error ----------------------------------------------------

  lemma QueueCloseKeepsFlight(d: Device)
    ensures Flight(d.(stopped := true)) == Flight(d)
  {
  }

  // Shutting down sends the shutter Stop, and nothing else.
  lemma StopKeepsFate(s: System)
    requires s.state == Error
    ensures Doomed(s) ==> Doomed(StopStep(s))
    ensures Spared(s) ==> Spared(StopStep(s))
  {
    hide Flight, Has, Push;
    PushGrowsFlight(s.shutter, STOP);
    QueueCloseKeepsFlight(s.shutter);
    HasTail(Flight(s.shutter), STOP, OpenShutterCmd);
    HasTail(Flight(s.shutter), STOP, CloseShutterCmd);
  }

  lemma FinishShutter(s: System, which: Which)
    requires DeviceOf(s, which).worker.Busy?
    ensures var kind := DeviceOf(s, which).worker.command.kind;
            FinishCommand(s, which).shutterOpen ==
              if which == ShutterW && kind == OpenShutterCmd then true
              else if which == ShutterW && kind == CloseShutterCmd then false else s.shutterOpen
  {
  }

  lemma FinishFlight(d: Device)
    requires d.worker.Busy?
    ensures Flight(d) == [d.worker.command] + Flight(Finished(d))
  {
  }

  lemma WorkerKeepsFate(s: System, which: Which)
    requires Inv(s) && s.state == Error
    ensures Doomed(s) ==> Doomed(WorkerStep(s, which))
    ensures Spared(s) ==> Spared(WorkerStep(s, which))
  {
    hide Inv, TakeCommand, FinishCommand, Flight, Has, Finished;
    var d := DeviceOf(s, which);
    if d.worker.Busy? {
      FinishFrame(s, which);
      FinishShutter(s, which);
      FinishFlight(d);
      HasHead(d.worker.command, Flight(Finished(d)), OpenShutterCmd);
      HasHead(d.worker.command, Flight(Finished(d)), CloseShutterCmd);
    } else if d.worker == Waiting {
      if d.queue != [] {
        TakeFrame(s, which);
        TakeKeepsFlight(d);
      } else {
        TakeNothing(s, which);
      }
    }
  }

  lemma ErrorKeepsFate(s: System, c: Choice)
    requires Inv(s) && s.state == Error
    ensures IndexOk(s) && Step(s, c).state == Error
    ensures Doomed(s) ==> Doomed(Step(s, c))
    ensures Spared(s) ==> Spared(Step(s, c))
  {
    hide Inv, WorkerStep, StopStep, Doomed, Spared;
    NotIdle(s);
    match c {
      case Worker(which) =>
        WorkerKeepsFate(s, which);
        WorkerKeepsControl(s, which);
      case Controller(_) =>
        StopKeepsFate(s);
        StopFrame(s);
    }
  }

  lemma StopFrame(s: System)
    ensures StopStep(s).state == s.state
  {
    hide Push;
  }

  // ---- Into the error -----------------------------------------------------

  lemma OpeningShutter(s: System)
    requires InWaitCapture(s)
    ensures s.shutterOpen || Has(Flight(s.shutter), OpenShutterCmd)
    ensures !Has(Flight(s.shutter), CloseShutterCmd)
  {
    if !s.shutterOpen { assert Flight(s.shutter)[0].kind == OpenShutterCmd; }
  }

  lemma ClosingShutter(s: System)
    requires InSegmentFinished(s)
    ensures !Has(Flight(s.shutter), OpenShutterCmd)
    ensures s.shutterOpen ==> Has(Flight(s.shutter), CloseShutterCmd)
  {
    if s.shutterOpen { assert Flight(s.shutter)[0].kind == CloseShutterCmd; }
  }

  lemma IdleShutter(s: System)
    requires InWaitArrived(s)
    ensures !s.shutterOpen && !Has(Flight(s.shutter), OpenShutterCmd)
  {
  }

  // The one way to doom the shutter is to miss the deadline in WaitCaptureDone,
  // whether it has opened by then or not; every other error spares it.
  lemma MissedDeadlineDooms(s: System, c: Choice)
    requires Inv(s) && s.state != Error
    ensures IndexOk(s)
    ensures Doomed(Step(s, c)) <==> s.state == WaitCaptureDone && c == Controller(true)
    ensures Step(s, c).state == Error ==> Doomed(Step(s, c)) || Spared(Step(s, c))
  {
    hide StopsInOrder, Exclusive, LogCovers, Block, RaceLog, RaceEvents, WorkOf, Flight, Has, WorkerStep, IterationsOk,
         StopStep;
    if c.Worker? {
      WorkerKeepsControl(s, c.which);
    } else if s.state == WaitPlatformArrived {
      IdleShutter(s);
    } else if s.state == SegmentFinished {
      ClosingShutter(s);
    } else if s.state == WaitCaptureDone {
      OpeningShutter(s);
      ExpectedOnly(s);
    } else if Stopping(s) {
      StopFrame(s);
    }
  }

  // ---- Whole runs ---------------------------------------------------------

  // Somewhere in the run the controller misses the deadline of WaitCaptureDone.
  ghost predicate MissesCapture(s: System, choices: seq<Choice>)
    requires Inv(s)
    decreases |choices|
  {
    choices != []
    && ((s.state == WaitCaptureDone && choices[0] == Controller(true))
        || (StepKeepsInv(s, choices[0]); MissesCapture(Step(s, choices[0]), choices[1..])))
  }

  // What having missed it or not says about the state.
  ghost predicate Fate(s: System, missed: bool) {
    if s.state == Error then (if missed then Doomed(s) else Spared(s)) else !missed
  }

  lemma StepFate(s: System, c: Choice, missed: bool)
    requires Inv(s) && Fate(s, missed)
    ensures IndexOk(s) && Fate(Step(s, c), missed || (s.state == WaitCaptureDone && c == Controller(true)))
  {
    hide Inv, Step, Doomed, Spared;
    if s.state == Error {
      ErrorKeepsFate(s, c);
    } else {
      MissedDeadlineDooms(s, c);
      if s.state == WaitCaptureDone && c == Controller(true) { DoomedIsError(Step(s, c)); }
    }
  }

  lemma DoomedIsError(s: System)
    requires Doomed(s)
    ensures s.state == Error
  {
  }

  lemma {:induction false} RunFate(s: System, choices: seq<Choice>, missed: bool)
    requires Inv(s) && Fate(s, missed)
    ensures Fate(Run(s, choices), missed || MissesCapture(s, choices))
    decreases |choices|
  {
    hide Inv, Step, Fate;
    if choices != [] {
      NotIdle(s);
      StepKeepsInv(s, choices[0]);
      var now := s.state == WaitCaptureDone && choices[0] == Controller(true);
      StepFate(s, choices[0], missed);
      RunFate(Step(s, choices[0]), choices[1..], missed || now);
    }
  }

  // With every worker gone, its fate has come to pass.
  lemma FateAtTheEnd(s: System, missed: bool)
    requires Inv(s) && Over(s) && Fate(s, missed) && Good(s)
    ensures s.shutterOpen <==> missed
  {
    hide InState, IterationsOk, Exclusive;
    assert Flight(s.shutter) == [];
    assert Stopping(s);
  }

  // Main result: a run that is over leaves the shutter open exactly when the
  // controller missed the deadline of WaitCaptureDone in it.
  lemma OpenAtTheEndIff(segments: seq<Segment>, choices: seq<Choice>)
    requires Inv(Initial(segments)) && Over(Run(Initial(segments), choices))
    ensures Run(Initial(segments), choices).shutterOpen <==> MissesCapture(Initial(segments), choices)
  {
    hide Inv, Run, Over, Good, MissesCapture, Doomed, Spared;
    EveryRunIsGood(segments, choices);
    RunKeepsInv(Initial(segments), choices);
    RunFate(Initial(segments), choices, false);
    FateAtTheEnd(Run(Initial(segments), choices), MissesCapture(Initial(segments), choices));
  }

  // ---- It does come about -------------------------------------------------

  // One segment, the platform in place.
  function InPlace(seg: Segment): System {
    System([seg], OpenShutterAndCapture, 0, true, 0, false, false, 3, FRESH, FRESH, FRESH, [], false, false,
           [Entry(MovePlatform, seg.id)])
  }

  lemma InPlaceReachable(seg: Segment)
    ensures Reachable([seg], InPlace(seg))
  {
    hide Inv, Run, Reachable;
    var s0, go := Initial([seg]), Controller(false);
    InitialReachable([seg]);
    ReachStep([seg], s0, go);
    var s1 := Step(s0, go);
    ReachStep([seg], s1, go);
    var s2 := Step(s1, go);
    assert s2.platform.queue == [MoveCmd(s2)];
    ReachStep([seg], s2, Worker(PlatformW));
    var s3 := Step(s2, Worker(PlatformW));
    assert s3.platform == Device([], false, Busy(MoveCmd(s2)));
    ReachStep([seg], s3, Worker(PlatformW));
    var s4 := Step(s3, Worker(PlatformW));
    assert s4.platform == FRESH && s4.events == [Event(PlatformArrived, seg.id)];
    ReachStep([seg], s4, go);
    assert Step(s4, go) == InPlace(seg);
  }

  // Both commands sent, and neither the shutter nor the camera has begun.
  lemma AskedReachable(seg: Segment) returns (s: System)
    ensures Reachable([seg], s) && s.state == WaitCaptureDone && !s.shutterOpen
    ensures s.shutter == FRESH.(queue := [Command(OpenShutterCmd, seg.id, ORIGIN)])
  {
    hide Inv, Run, Reachable;
    var s0, go := InPlace(seg), Controller(false);
    InPlaceReachable(seg);
    ReachStep([seg], s0, go);
    var s1 := Step(s0, go);
    ReachStep([seg], s1, go);
    s := Step(s1, go);
  }

  // And the shutter has opened.
  lemma OpenedReachable(seg: Segment) returns (s: System)
    ensures Reachable([seg], s) && s.state == WaitCaptureDone && s.shutterOpen
  {
    hide Inv, Run, Reachable;
    var s0 := AskedReachable(seg);
    ReachStep([seg], s0, Worker(ShutterW));
    var s1 := Step(s0, Worker(ShutterW));
    assert s1.shutter == Device([], false, Busy(Command(OpenShutterCmd, seg.id, ORIGIN)));
    ReachStep([seg], s1, Worker(ShutterW));
    s := Step(s1, Worker(ShutterW));
  }

  lemma ReachableInv(segments: seq<Segment>, s: System)
    requires Reachable(segments, s)
    ensures Inv(s)
  {
    hide Inv, Run;
    var choices :| Run(Initial(segments), choices) == s;
    RunKeepsInv(Initial(segments), choices);
  }

  // A doomed run can be carried on to its end, where the shutter stands open.
  lemma {:induction false} DoomedEnd(segments: seq<Segment>, s: System) returns (t: System)
    requires Inv(s) && Reachable(segments, s) && Doomed(s)
    ensures Reachable(segments, t) && Over(t) && t.shutterOpen
    decreases Supply(s)
  {
    hide Inv, Reachable, Step, Supply, Over;
    SupplyNonNegative(s);
    if Over(s) {
      DoomedAndOver(s);
      t := s;
    } else {
      var c := PatientMove(s);
      DoomedIsError(s);
      ErrorKeepsFate(s, c);
      StepShrinks(s, c);
      ReachStep(segments, s, c);
      t := DoomedEnd(segments, Step(s, c));
    }
  }

  lemma DoomedAndOver(s: System)
    requires Inv(s) && Doomed(s) && Over(s)
    ensures s.shutterOpen
  {
    hide InState, IterationsOk, Exclusive;
    assert Flight(s.shutter) == [];
  }

  // For every segment a run can end with the shutter open, whether it had
  // opened when the deadline was missed or opened only afterwards.
  lemma ShutterCanStayOpen(seg: Segment, openedInTime: bool)
    ensures exists s, t :: Reachable([seg], s) && s.state == WaitCaptureDone && s.shutterOpen == openedInTime
                           && IndexOk(s) && Doomed(Step(s, Controller(true)))
                           && Reachable([seg], t) && Over(t) && t.shutterOpen
  {
    hide Inv, Reachable, Step, Doomed, Over, Run;
    var s: System;
    if openedInTime { s := OpenedReachable(seg); } else { s := AskedReachable(seg); }
    ReachableInv([seg], s);
    MissedDeadlineDooms(s, Controller(true));
    ReachStep([seg], s, Controller(true));
    StepKeepsInv(s, Controller(true));
    var t := DoomedEnd([seg], Step(s, Controller(true)));
  }
}

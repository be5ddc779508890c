// The controller program itself: the queues, the device workers and the
// controller as objects whose methods update their fields, each method doing
// one atomic step of ExposureModel.
module ExposureController {
  import opened ExposureModel
  import opened ExposureSafety

  // What a blocking pop comes back with: a value, the exception of a stopped
  // empty queue, or nothing yet.
  datatype Popped<T> = Got(value: T) | Threw | Blocked

  class ThreadSafeQueue<T> {
    var queue: seq<T>
    var stopped: bool

    constructor ()
      ensures queue == [] && !stopped
    {
      queue, stopped := [], false;
    }

    method Push(value: T)
      modifies this
      ensures queue == old(queue) + [value] && stopped == old(stopped)
    {
      queue := queue + [value];
    }

    method WaitAndPop() returns (popped: Popped<T>)
      modifies this
      ensures stopped == old(stopped)
      ensures old(queue) != [] ==> popped == Got(old(queue)[0]) && queue == old(queue)[1..]
      ensures old(queue) == [] ==> popped == (if stopped then Threw else Blocked) && queue == []
    {
      if queue == [] {
        return if stopped then Threw else Blocked;
      }
      popped := Got(queue[0]);
      queue := queue[1..];
    }

    // With a time limit the stopped empty queue is no exception: both that and
    // the limit come back as false.
    method WaitAndPopFor(expired: bool) returns (popped: Popped<T>)
      modifies this
      ensures stopped == old(stopped)
      ensures old(queue) != [] ==> popped == Got(old(queue)[0]) && queue == old(queue)[1..]
      ensures old(queue) == [] ==> popped == (if expired || stopped then Threw else Blocked) && queue == []
    {
      if queue == [] {
        return if expired || stopped then Threw else Blocked;
      }
      popped := Got(queue[0]);
      queue := queue[1..];
    }

    method Stop()
      modifies this
      ensures stopped && queue == old(queue)
    {
      stopped := true;
    }
  }

  // The shutter blades and the record of completed device actions.
  class Bench {
    var shutterOpen: bool
    var log: seq<Entry>

    constructor ()
      ensures !shutterOpen && log == []
    {
      shutterOpen, log := false, [];
    }
  }

  // PlatformWorker, ShutterWorker and CameraWorker: one loop, three devices.
  class DeviceWorker {
    const which: Which
    const commands: ThreadSafeQueue<Command>
    const events: ThreadSafeQueue<Event>
    const bench: Bench
    var hand: Worker

    constructor (which: Which, commands: ThreadSafeQueue<Command>, events: ThreadSafeQueue<Event>, bench: Bench)
      ensures this.which == which && this.commands == commands && this.events == events && this.bench == bench
      ensures hand == Waiting
    {
      this.which, this.commands, this.events, this.bench := which, commands, events, bench;
      hand := Waiting;
    }

    ghost function View(): Device
      reads this, commands
    {
      Device(commands.queue, commands.stopped, hand)
    }

    // The head of the loop: wait for a command; the exception ends the thread.
    method Take()
      requires hand == Waiting
      modifies this, commands, events
      ensures old(commands.queue) != [] ==>
                View() == old(View()).(queue := old(commands.queue)[1..], worker := Busy(old(commands.queue)[0]))
                && events.queue == old(events.queue)
      ensures old(commands.queue) == [] && commands.stopped ==>
                View() == old(View()).(worker := Left(false))
                && events.queue == old(events.queue) + [Event(FailEvent(which), -1)]
      ensures old(commands.queue) == [] && !commands.stopped ==> View() == old(View()) && events.queue == old(events.queue)
      ensures commands.stopped == old(commands.stopped) && events.stopped == old(events.stopped)
    {
      var popped := commands.WaitAndPop();
      match popped {
        case Got(command) => hand := Busy(command);
        case Threw =>
          events.Push(Event(FailEvent(which), -1));
          hand := Left(false);
        case Blocked =>
      }
    }

    // The body of the loop: act on the command in hand and report.
    method Finish()
      requires hand.Busy?
      modifies this, events, bench
      ensures View() == Finished(old(View()))
      ensures events.stopped == old(events.stopped)
      ensures var c := old(hand).command;
              events.queue == old(events.queue)
                + (if c.kind == StopCmd then [Event(Stopped, c.segmentId)]
                   else if Handles(which, c.kind) then [Event(DoneEvent(c.kind), c.segmentId)] else [])
              && bench.log == old(bench.log)
                + (if c.kind != StopCmd && Handles(which, c.kind) then [Entry(c.kind, c.segmentId)] else [])
              && bench.shutterOpen ==
                  (if which == ShutterW && c.kind == OpenShutterCmd then true
                   else if which == ShutterW && c.kind == CloseShutterCmd then false else old(bench.shutterOpen))
    {
      var command := hand.command;
      if command.kind == StopCmd {
        events.Push(Event(Stopped, command.segmentId));
        hand := Left(true);
        return;
      }
      if Handles(which, command.kind) {
        if command.kind == OpenShutterCmd {
          bench.shutterOpen := true;
        } else if command.kind == CloseShutterCmd {
          bench.shutterOpen := false;
        }
        bench.log := bench.log + [Entry(command.kind, command.segmentId)];
        events.Push(Event(DoneEvent(command.kind), command.segmentId));
      }
      hand := Waiting;
    }
  }

  class ProcessController {
    const segments: seq<Segment>
    const platformCommands: ThreadSafeQueue<Command>
    const shutterCommands: ThreadSafeQueue<Command>
    const cameraCommands: ThreadSafeQueue<Command>
    const events: ThreadSafeQueue<Event>
    const platform: DeviceWorker
    const shutter: DeviceWorker
    const camera: DeviceWorker
    const bench: Bench

    var state: FsmState
    var index: nat
    var running: bool
    // Where the thread stands inside a state that takes several steps, and the
    // locals of WaitCaptureDone.
    var pc: nat
    var captureDone: bool
    var shutterOpened: bool
    ghost var iterations: nat

    constructor (segments: seq<Segment>)
      ensures Valid() && View() == Initial(segments)
      ensures fresh(Parts())
    {
      this.segments := segments;
      var pq := new ThreadSafeQueue<Command>();
      var sq := new ThreadSafeQueue<Command>();
      var cq := new ThreadSafeQueue<Command>();
      var eq := new ThreadSafeQueue<Event>();
      var b := new Bench();
      platformCommands, shutterCommands, cameraCommands, events, bench := pq, sq, cq, eq, b;
      platform := new DeviceWorker(PlatformW, pq, eq, b);
      shutter := new DeviceWorker(ShutterW, sq, eq, b);
      camera := new DeviceWorker(CameraW, cq, eq, b);
      state, index, running, pc, captureDone, shutterOpened, iterations := TaskLoaded, 0, true, 0, false, false, 0;
    }

    ghost function Parts(): set<object> {
      {platformCommands, shutterCommands, cameraCommands, events, platform, shutter, camera, bench}
    }

    // The workers are wired to the controller's own queues, all distinct.
    ghost predicate Valid() {
      && platformCommands != shutterCommands && platformCommands != cameraCommands && shutterCommands != cameraCommands
      && platform != shutter && platform != camera && shutter != camera
      && platform.which == PlatformW && shutter.which == ShutterW && camera.which == CameraW
      && platform.commands == platformCommands && shutter.commands == shutterCommands
      && camera.commands == cameraCommands
      && platform.events == events && shutter.events == events && camera.events == events
      && platform.bench == bench && shutter.bench == bench && camera.bench == bench
    }

    ghost function View(): System
      requires Valid()
      reads this, Parts()
    {
      System(segments, state, index, running, pc, captureDone, shutterOpened, iterations,
             platform.View(), shutter.View(), camera.View(), events.queue, events.stopped, bench.shutterOpen, bench.log)
    }

    // break: the end of one iteration of the loop.
    method Break(next: FsmState)
      requires Valid()
      modifies this
      ensures View() == Next(old(View()), next)
    {
      state, pc, iterations := next, 0, iterations + 1;
    }

    method LoadTask()
      requires Valid()
      modifies this
      ensures View() == TaskLoadedStep(old(View()))
    {
      if segments == [] {
        Break(TaskFinished);
      } else {
        index := 0;
        Break(MoveToPoint);
      }
    }

    method Move()
      requires Valid() && index < |segments|
      modifies this, platformCommands
      ensures View() == MoveStep(old(View()))
    {
      var seg := segments[index];
      platformCommands.Push(Command(MovePlatform, seg.id, seg.target));
      Break(WaitPlatformArrived);
    }

    method WaitArrived(expired: bool)
      requires Valid() && index < |segments|
      modifies this, events
      ensures View() == WaitArrivedStep(old(View()), expired)
    {
      var seg := segments[index];
      var popped := events.WaitAndPopFor(expired);
      match popped {
        case Blocked =>
        case Threw => Break(Error);
        case Got(event) =>
          if event.segmentId != seg.id {
            Break(state);
          } else if event.kind == PlatformArrived {
            Break(OpenShutterAndCapture);
          } else {
            Break(Error);
          }
      }
    }

    method OpenAndCapture()
      requires Valid() && index < |segments|
      modifies this, shutterCommands, cameraCommands
      ensures View() == OpenAndCaptureStep(old(View()))
    {
      var seg := segments[index];
      if pc == 0 {
        shutterCommands.Push(Command(OpenShutterCmd, seg.id, ORIGIN));
        pc := 1;
      } else {
        cameraCommands.Push(Command(CaptureImage, seg.id, ORIGIN));
        captureDone, shutterOpened := false, false;
        Break(WaitCaptureDone);
      }
    }

    method WaitCapture(expired: bool)
      requires Valid() && index < |segments| && state == WaitCaptureDone
      modifies this, events
      ensures View() == WaitCaptureStep(old(View()), expired)
    {
      if expired {
        Break(Error);
        return;
      }
      var seg := segments[index];
      var popped := events.WaitAndPopFor(false);
      if !popped.Got? { return; }
      var event := popped.value;
      if event.segmentId != seg.id { return; }
      if event.kind == ShutterOpened {
        shutterOpened := true;
      } else if event.kind == CaptureDone {
        captureDone := true;
      } else if event.kind == CaptureFailed || event.kind == ShutterFailed {
        Break(Error);
        return;
      }
      if captureDone && shutterOpened { Break(CloseShutter); }
    }

    method Close()
      requires Valid() && index < |segments|
      modifies this, shutterCommands
      ensures View() == CloseStep(old(View()))
    {
      var seg := segments[index];
      shutterCommands.Push(Command(CloseShutterCmd, seg.id, ORIGIN));
      Break(SegmentFinished);
    }

    method FinishSegment(expired: bool)
      requires Valid() && index < |segments|
      modifies this, events
      ensures View() == SegmentFinishedStep(old(View()), expired)
    {
      var seg := segments[index];
      var popped := events.WaitAndPopFor(expired);
      match popped {
        case Blocked =>
        case Threw => Break(Error);
        case Got(event) =>
          if event.segmentId != seg.id {
            Break(state);
          } else if event.kind == ShutterClosed {
            index := index + 1;
            Break(if index >= |segments| then TaskFinished else MoveToPoint);
          } else {
            Break(Error);
          }
      }
    }

    // stopAllWorkers, queue operation by queue operation, then the flag.
    method StopAllWorkers()
      requires Valid()
      modifies this, platformCommands, shutterCommands, cameraCommands, events
      ensures View() == StopStep(old(View()))
    {
      match pc {
        case 0 => platformCommands.Push(STOP);
        case 1 => shutterCommands.Push(STOP);
        case 2 => cameraCommands.Push(STOP);
        case 3 => platformCommands.Stop();
        case 4 => shutterCommands.Stop();
        case 5 => cameraCommands.Stop();
        case 6 => events.Stop();
        case _ => running, iterations := false, iterations + 1;
      }
      if pc < 7 { pc := pc + 1; }
    }

    // One step of fsmLoop.
    method FsmStep(expired: bool)
      requires Valid() && IndexOk(View())
      modifies this, platformCommands, shutterCommands, cameraCommands, events
      ensures View() == ControllerStep(old(View()), expired)
    {
      if !running { return; }
      match state {
        case TaskLoaded => LoadTask();
        case MoveToPoint => Move();
        case WaitPlatformArrived => WaitArrived(expired);
        case OpenShutterAndCapture => OpenAndCapture();
        case WaitCaptureDone => WaitCapture(expired);
        case CloseShutter => Close();
        case SegmentFinished => FinishSegment(expired);
        case TaskFinished => StopAllWorkers();
        case Error => StopAllWorkers();
        case Idle => Break(Error);
      }
    }

    method TakeFor(which: Which)
      requires Valid() && DeviceOf(View(), which).worker == Waiting
      modifies Parts()
      ensures View() == TakeCommand(old(View()), which)
    {
      match which {
        case PlatformW => platform.Take();
        case ShutterW => shutter.Take();
        case CameraW => camera.Take();
      }
    }

    method FinishFor(which: Which)
      requires Valid() && DeviceOf(View(), which).worker.Busy?
      modifies Parts()
      ensures View() == FinishCommand(old(View()), which)
    {
      hide Finished;
      match which {
        case PlatformW => platform.Finish();
        case ShutterW => shutter.Finish();
        case CameraW => camera.Finish();
      }
    }

    // One step of a worker's thread.
    method RunWorker(which: Which)
      requires Valid()
      modifies Parts()
      ensures View() == WorkerStep(old(View()), which)
    {
      hide TakeCommand, FinishCommand;
      var worker := match which case PlatformW => platform case ShutterW => shutter case CameraW => camera;
      match worker.hand {
        case Waiting => TakeFor(which);
        case Busy(_) => FinishFor(which);
        case Left(_) =>
      }
    }

    // start to join under a scheduler that may pick anything at every step.
    method Execute(choices: seq<Choice>)
      requires Valid() && View() == Initial(segments)
      modifies this, Parts()
      ensures Inv(Initial(segments)) && View() == Run(Initial(segments), choices) && Good(View())
    {
      InitialInv(segments);
      var i := 0;
      while i < |choices|
        invariant 0 <= i <= |choices|
        invariant View() == Run(Initial(segments), choices[..i])
      {
        RunSnoc(Initial(segments), choices[..i], choices[i]);
        assert choices[..i] + [choices[i]] == choices[..i + 1];
        match choices[i] {
          case Controller(expired) => FsmStep(expired);
          case Worker(which) => RunWorker(which);
        }
        i := i + 1;
      }
      assert choices[..|choices|] == choices;
      EveryRunIsGood(segments, choices);
    }
  }
}

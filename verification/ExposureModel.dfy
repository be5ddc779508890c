// The exposure controller and its three device workers as one system of
// interleaved atomic steps: a queue operation, a device action or a timeout.
module ExposureModel {

  datatype Position = Position(x: real, y: real)
  datatype Segment = Segment(id: int, target: Position)

  datatype FsmState =
    | Idle | TaskLoaded | MoveToPoint | WaitPlatformArrived | OpenShutterAndCapture
    | WaitCaptureDone | CloseShutter | SegmentFinished | TaskFinished | Error

  datatype CommandKind = MovePlatform | OpenShutterCmd | CloseShutterCmd | CaptureImage | StopCmd
  datatype Command = Command(kind: CommandKind, segmentId: int, pos: Position)

  datatype EventKind =
    | PlatformArrived | PlatformMoveFailed | ShutterOpened | ShutterClosed | ShutterFailed
    | CaptureDone | CaptureFailed | Timeout | Stopped
  datatype Event = Event(kind: EventKind, segmentId: int)

  const ORIGIN: Position := Position(0.0, 0.0)
  const STOP: Command := Command(StopCmd, -1, ORIGIN)

  // A worker waits for a command, acts on one, or has left its loop: by its
  // Stop command, or by the exception of a stopped empty queue.
  datatype Worker = Waiting | Busy(command: Command) | Left(byStop: bool)

  // A worker with its command queue.
  datatype Device = Device(queue: seq<Command>, stopped: bool, worker: Worker)

  // One entry per completed device action.
  datatype Entry = Entry(kind: CommandKind, segmentId: int)

  datatype Which = PlatformW | ShutterW | CameraW

  datatype System = System(
    segments: seq<Segment>,
    // the controller: its state, its position inside a multi-step state, the
    // two locals of WaitCaptureDone, and how many loop iterations it finished
    state: FsmState, index: nat, running: bool, pc: nat, captureDone: bool, shutterOpened: bool, iterations: nat,
    platform: Device, shutter: Device, camera: Device,
    events: seq<Event>, eventsStopped: bool,
    shutterOpen: bool, log: seq<Entry>)

  const FRESH: Device := Device([], false, Waiting)

  function Initial(segments: seq<Segment>): System {
    System(segments, TaskLoaded, 0, true, 0, false, false, 0, FRESH, FRESH, FRESH, [], false, false, [])
  }

  // ---- Workers ------------------------------------------------------------

  function DeviceOf(s: System, which: Which): Device {
    match which
    case PlatformW => s.platform
    case ShutterW => s.shutter
    case CameraW => s.camera
  }

  function WithDevice(s: System, which: Which, d: Device): System {
    match which
    case PlatformW => s.(platform := d)
    case ShutterW => s.(shutter := d)
    case CameraW => s.(camera := d)
  }

  predicate Handles(which: Which, kind: CommandKind) {
    match which
    case PlatformW => kind == MovePlatform
    case ShutterW => kind == OpenShutterCmd || kind == CloseShutterCmd
    case CameraW => kind == CaptureImage
  }

  function DoneEvent(kind: CommandKind): EventKind {
    match kind
    case MovePlatform => PlatformArrived
    case OpenShutterCmd => ShutterOpened
    case CloseShutterCmd => ShutterClosed
    case CaptureImage => CaptureDone
    case StopCmd => Stopped
  }

  function FailEvent(which: Which): EventKind {
    match which
    case PlatformW => PlatformMoveFailed
    case ShutterW => ShutterFailed
    case CameraW => CaptureFailed
  }

  // wait_and_pop: take the head, throw when stopped and empty, else block.
  function TakeCommand(s: System, which: Which): System {
    var d := DeviceOf(s, which);
    if d.queue != [] then WithDevice(s, which, d.(queue := d.queue[1..], worker := Busy(d.queue[0])))
    else if d.stopped then
      WithDevice(s, which, d.(worker := Left(false))).(events := s.events + [Event(FailEvent(which), -1)])
    else s
  }

  // The device once the command in hand is done: Stop ends the worker's loop.
  function Finished(d: Device): Device
    requires d.worker.Busy?
  {
    d.(worker := if d.worker.command.kind == StopCmd then Left(true) else Waiting)
  }

  // What finishing a command leaves behind outside its device.
  function Report(s: System, which: Which, command: Command): System {
    if command.kind == StopCmd then s.(events := s.events + [Event(Stopped, command.segmentId)])
    else if Handles(which, command.kind) then
      s.(events := s.events + [Event(DoneEvent(command.kind), command.segmentId)],
         shutterOpen := if command.kind == OpenShutterCmd then true
                        else if command.kind == CloseShutterCmd then false else s.shutterOpen,
         log := s.log + [Entry(command.kind, command.segmentId)])
    else s
  }

  function FinishCommand(s: System, which: Which): System
    requires DeviceOf(s, which).worker.Busy?
  {
    var d := DeviceOf(s, which);
    Report(WithDevice(s, which, Finished(d)), which, d.worker.command)
  }

  function WorkerStep(s: System, which: Which): System {
    match DeviceOf(s, which).worker
    case Waiting => TakeCommand(s, which)
    case Busy(_) => FinishCommand(s, which)
    case Left(_) => s
  }

  // ---- Controller ---------------------------------------------------------

  function Push(d: Device, c: Command): Device {
    d.(queue := d.queue + [c])
  }

  // The end of a case of the switch: break, and round the loop again.
  function Next(s: System, state: FsmState): System {
    s.(state := state, pc := 0, iterations := s.iterations + 1)
  }

  function TaskLoadedStep(s: System): System {
    if s.segments == [] then Next(s, TaskFinished) else Next(s.(index := 0), MoveToPoint)
  }

  function MoveStep(s: System): System
    requires s.index < |s.segments|
  {
    var seg := s.segments[s.index];
    Next(s.(platform := Push(s.platform, Command(MovePlatform, seg.id, seg.target))), WaitPlatformArrived)
  }

  // wait_and_pop_for gives up only when nothing is queued.
  function WaitArrivedStep(s: System, timeout: bool): System
    requires s.index < |s.segments|
  {
    if s.events == [] then (if timeout || s.eventsStopped then Next(s, Error) else s)
    else
      var e, t := s.events[0], s.(events := s.events[1..]);
      if e.segmentId != s.segments[s.index].id then Next(t, s.state)
      else if e.kind == PlatformArrived then Next(t, OpenShutterAndCapture)
      else Next(t, Error)
  }

  // Two pushes, with the workers free to run in between.
  function OpenAndCaptureStep(s: System): System
    requires s.index < |s.segments|
  {
    var id := s.segments[s.index].id;
    if s.pc == 0 then s.(shutter := Push(s.shutter, Command(OpenShutterCmd, id, ORIGIN)), pc := 1)
    else Next(s.(camera := Push(s.camera, Command(CaptureImage, id, ORIGIN)),
                 captureDone := false, shutterOpened := false), WaitCaptureDone)
  }

  // The inner loop: expired is the deadline test at its head; a 50 ms wait
  // that brings nothing just goes round.
  function WaitCaptureStep(s: System, expired: bool): System
    requires s.index < |s.segments|
  {
    if expired then Next(s, Error)
    else if s.events == [] then s
    else
      var e, t := s.events[0], s.(events := s.events[1..]);
      if e.segmentId != s.segments[s.index].id then t
      else
        var u := if e.kind == ShutterOpened then t.(shutterOpened := true)
                 else if e.kind == CaptureDone then t.(captureDone := true) else t;
        if e.kind == CaptureFailed || e.kind == ShutterFailed then Next(u, Error)
        else if u.captureDone && u.shutterOpened then Next(u, CloseShutter)
        else u
  }

  function CloseStep(s: System): System
    requires s.index < |s.segments|
  {
    var id := s.segments[s.index].id;
    Next(s.(shutter := Push(s.shutter, Command(CloseShutterCmd, id, ORIGIN))), SegmentFinished)
  }

  function SegmentFinishedStep(s: System, timeout: bool): System
    requires s.index < |s.segments|
  {
    if s.events == [] then (if timeout || s.eventsStopped then Next(s, Error) else s)
    else
      var e, t := s.events[0], s.(events := s.events[1..]);
      if e.segmentId != s.segments[s.index].id then Next(t, s.state)
      else if e.kind == ShutterClosed then
        Next(t.(index := s.index + 1), if s.index + 1 >= |s.segments| then TaskFinished else MoveToPoint)
      else Next(t, Error)
  }

  function SendStopStep(s: System): System {
    if s.pc == 0 then s.(platform := Push(s.platform, STOP), pc := 1)
    else if s.pc == 1 then s.(shutter := Push(s.shutter, STOP), pc := 2)
    else s.(camera := Push(s.camera, STOP), pc := 3)
  }

  function CloseQueueStep(s: System): System {
    if s.pc == 3 then s.(platform := s.platform.(stopped := true), pc := 4)
    else if s.pc == 4 then s.(shutter := s.shutter.(stopped := true), pc := 5)
    else s.(camera := s.camera.(stopped := true), pc := 6)
  }

  // stopAllWorkers, one queue operation at a time, then running_ = false.
  function StopStep(s: System): System {
    if s.pc < 3 then SendStopStep(s)
    else if s.pc < 6 then CloseQueueStep(s)
    else if s.pc == 6 then s.(eventsStopped := true, pc := 7)
    else s.(running := false, iterations := s.iterations + 1)
  }

  predicate NeedsSegment(state: FsmState) {
    state == MoveToPoint || state == WaitPlatformArrived || state == OpenShutterAndCapture
    || state == WaitCaptureDone || state == CloseShutter || state == SegmentFinished
  }

  predicate IndexOk(s: System) {
    NeedsSegment(s.state) ==> s.index < |s.segments|
  }

  function ControllerStep(s: System, expired: bool): System
    requires IndexOk(s)
  {
    if !s.running then s
    else
      match s.state
      case TaskLoaded => TaskLoadedStep(s)
      case MoveToPoint => MoveStep(s)
      case WaitPlatformArrived => WaitArrivedStep(s, expired)
      case OpenShutterAndCapture => OpenAndCaptureStep(s)
      case WaitCaptureDone => WaitCaptureStep(s, expired)
      case CloseShutter => CloseStep(s)
      case SegmentFinished => SegmentFinishedStep(s, expired)
      case TaskFinished => StopStep(s)
      case Error => StopStep(s)
      case Idle => Next(s, Error)
  }

  // Who moves next; for the controller, whether its wait runs out of time.
  datatype Choice = Controller(expired: bool) | Worker(which: Which)

  function Step(s: System, c: Choice): System
    requires IndexOk(s)
  {
    match c
    case Controller(expired) => ControllerStep(s, expired)
    case Worker(which) => WorkerStep(s, which)
  }

  // ---- What is in flight --------------------------------------------------

  // Commands a device has accepted but not completed, oldest first.
  function Flight(d: Device): seq<Command> {
    (if d.worker.Busy? then [d.worker.command] else []) + d.queue
  }

  // A device that has been sent Stop or not, and whose queue is closed or not.
  ghost predicate StopState(d: Device, sent: bool, closed: bool) {
    && d.stopped == closed
    && (closed ==> sent)
    && (d.worker.Left? ==> sent && d.worker.byStop && d.queue == [])
    && (sent && !d.worker.Left? ==> Flight(d) != [] && Flight(d)[|Flight(d)| - 1] == STOP)
    && (forall i :: 0 <= i < |Flight(d)| - (if sent then 1 else 0) ==> Flight(d)[i].kind != StopCmd)
  }

  // The commands in flight other than the final Stop.
  function Work(d: Device, sent: bool): seq<Command> {
    if sent && Flight(d) != [] then Flight(d)[..|Flight(d)| - 1] else Flight(d)
  }

  predicate Stopping(s: System) {
    s.state == TaskFinished || s.state == Error
  }

  predicate SentTo(s: System, which: Which) {
    Stopping(s) && s.pc > (match which case PlatformW => 0 case ShutterW => 1 case CameraW => 2)
  }

  predicate ClosedTo(s: System, which: Which) {
    Stopping(s) && s.pc > (match which case PlatformW => 3 case ShutterW => 4 case CameraW => 5)
  }

  ghost predicate StopsInOrder(s: System) {
    && StopState(s.platform, SentTo(s, PlatformW), ClosedTo(s, PlatformW))
    && StopState(s.shutter, SentTo(s, ShutterW), ClosedTo(s, ShutterW))
    && StopState(s.camera, SentTo(s, CameraW), ClosedTo(s, CameraW))
  }

  function WorkOf(s: System, which: Which): seq<Command> {
    Work(DeviceOf(s, which), SentTo(s, which))
  }

  predicate Has(cs: seq<Command>, kind: CommandKind) {
    exists i :: 0 <= i < |cs| && cs[i].kind == kind
  }

  // A move in flight excludes every other device activity and an open shutter.
  ghost predicate Exclusive(s: System) {
    Has(WorkOf(s, PlatformW), MovePlatform) ==> WorkOf(s, ShutterW) == [] && WorkOf(s, CameraW) == [] && !s.shutterOpen
  }

  // ---- The log ------------------------------------------------------------

  // Move, then open and capture in either order, then close: each once.
  ghost predicate Block(seg: Segment, b: seq<Entry>) {
    |b| == 4 && b[0] == Entry(MovePlatform, seg.id) && b[3] == Entry(CloseShutterCmd, seg.id)
    && OpenAndCapture(seg, b[1], b[2])
  }

  ghost predicate OpenAndCapture(seg: Segment, a: Entry, b: Entry) {
    (a == Entry(OpenShutterCmd, seg.id) && b == Entry(CaptureImage, seg.id))
    || (a == Entry(CaptureImage, seg.id) && b == Entry(OpenShutterCmd, seg.id))
  }

  ghost predicate LogCovers(segments: seq<Segment>, log: seq<Entry>, k: nat) {
    k <= |segments| && |log| >= 4 * k
    && forall i :: 0 <= i < k ==> Block(segments[i], log[4 * i..4 * i + 4])
  }

  // ---- The invariant, state by state --------------------------------------

  ghost predicate AllIdle(s: System) {
    Flight(s.platform) == [] && Flight(s.shutter) == [] && Flight(s.camera) == [] && s.events == []
  }

  function MoveCmd(s: System): Command
    requires s.index < |s.segments|
  {
    Command(MovePlatform, s.segments[s.index].id, s.segments[s.index].target)
  }

  function CmdHere(s: System, kind: CommandKind): Command
    requires s.index < |s.segments|
  {
    Command(kind, s.segments[s.index].id, ORIGIN)
  }

  function EventHere(s: System, kind: EventKind): Event
    requires s.index < |s.segments|
  {
    Event(kind, s.segments[s.index].id)
  }

  function EntryHere(s: System, kind: CommandKind): Entry
    requires s.index < |s.segments|
  {
    Entry(kind, s.segments[s.index].id)
  }

  // The segments before the current one are logged whole; this is the rest.
  ghost predicate Logged(s: System, tail: seq<Entry>) {
    LogCovers(s.segments, s.log, s.index) && s.log[4 * s.index..] == tail
  }

  ghost predicate InMove(s: System) {
    s.index < |s.segments| && AllIdle(s) && !s.shutterOpen && Logged(s, [])
  }

  ghost predicate InWaitArrived(s: System) {
    s.index < |s.segments| && Flight(s.shutter) == [] && Flight(s.camera) == [] && !s.shutterOpen
    && ((Flight(s.platform) == [MoveCmd(s)] && s.events == [] && Logged(s, []))
        || (Flight(s.platform) == [] && s.events == [EventHere(s, PlatformArrived)]
            && Logged(s, [EntryHere(s, MovePlatform)])))
  }

  ghost predicate InOpen(s: System) {
    s.index < |s.segments| && Flight(s.platform) == [] && Flight(s.camera) == []
    && (s.pc == 0 ==> Flight(s.shutter) == [] && s.events == [] && !s.shutterOpen
                      && Logged(s, [EntryHere(s, MovePlatform)]))
    && (s.pc != 0 ==>
          (Flight(s.shutter) == [CmdHere(s, OpenShutterCmd)] && s.events == [] && !s.shutterOpen
           && Logged(s, [EntryHere(s, MovePlatform)]))
          || (Flight(s.shutter) == [] && s.events == [EventHere(s, ShutterOpened)] && s.shutterOpen
              && Logged(s, [EntryHere(s, MovePlatform), EntryHere(s, OpenShutterCmd)])))
  }

  // Open and capture race: each is in flight, reported or taken note of.
  ghost predicate InWaitCapture(s: System) {
    s.index < |s.segments| && Flight(s.platform) == []
    && (Flight(s.shutter) == [] || Flight(s.shutter) == [CmdHere(s, OpenShutterCmd)])
    && (Flight(s.camera) == [] || Flight(s.camera) == [CmdHere(s, CaptureImage)])
    && RaceState(s, Flight(s.shutter) == [], Flight(s.camera) == [])
  }

  ghost predicate RaceState(s: System, isOpen: bool, isCaptured: bool)
    requires s.index < |s.segments|
  {
    && s.shutterOpen == isOpen
    && (s.shutterOpened ==> isOpen) && (s.captureDone ==> isCaptured) && !(s.shutterOpened && s.captureDone)
    && RaceEvents(s.segments[s.index].id, s.events, isOpen && !s.shutterOpened, isCaptured && !s.captureDone)
    && RaceLog(s, isOpen, isCaptured)
  }

  ghost predicate RaceEvents(id: int, events: seq<Event>, openPending: bool, capturePending: bool) {
    var o, c := Event(ShutterOpened, id), Event(CaptureDone, id);
    if openPending && capturePending then events == [o, c] || events == [c, o]
    else if openPending then events == [o]
    else if capturePending then events == [c]
    else events == []
  }

  ghost predicate RaceLog(s: System, isOpen: bool, isCaptured: bool)
    requires s.index < |s.segments|
  {
    var m, o, c := EntryHere(s, MovePlatform), EntryHere(s, OpenShutterCmd), EntryHere(s, CaptureImage);
    if isOpen && isCaptured then Logged(s, [m, o, c]) || Logged(s, [m, c, o])
    else if isOpen then Logged(s, [m, o])
    else if isCaptured then Logged(s, [m, c])
    else Logged(s, [m])
  }

  ghost predicate InClose(s: System) {
    s.index < |s.segments| && AllIdle(s) && s.shutterOpen && RaceLog(s, true, true)
  }

  ghost predicate BlockLogged(s: System)
    requires s.index < |s.segments|
  {
    LogCovers(s.segments, s.log, s.index) && Block(s.segments[s.index], s.log[4 * s.index..])
  }

  ghost predicate InSegmentFinished(s: System) {
    s.index < |s.segments| && Flight(s.platform) == [] && Flight(s.camera) == []
    && ((Flight(s.shutter) == [CmdHere(s, CloseShutterCmd)] && s.events == [] && s.shutterOpen && RaceLog(s, true, true))
        || (Flight(s.shutter) == [] && s.events == [EventHere(s, ShutterClosed)] && !s.shutterOpen && BlockLogged(s)))
  }

  ghost predicate InFinished(s: System) {
    s.index == |s.segments| && Logged(s, []) && !s.shutterOpen
    && WorkOf(s, PlatformW) == [] && WorkOf(s, ShutterW) == [] && WorkOf(s, CameraW) == []
  }

  ghost predicate InState(s: System) {
    match s.state
    case Idle => false
    case TaskLoaded => s.index == 0 && AllIdle(s) && !s.shutterOpen && Logged(s, [])
    case MoveToPoint => InMove(s)
    case WaitPlatformArrived => InWaitArrived(s)
    case OpenShutterAndCapture => InOpen(s)
    case WaitCaptureDone => InWaitCapture(s)
    case CloseShutter => InClose(s)
    case SegmentFinished => InSegmentFinished(s)
    case TaskFinished => InFinished(s)
    case Error => true
  }

  // How many iterations the loop has finished when it stands in a state.
  ghost predicate IterationsOk(s: System) {
    match s.state
    case Idle => false
    case TaskLoaded => s.iterations == 0
    case MoveToPoint => s.iterations == 1 + 6 * s.index
    case WaitPlatformArrived => s.iterations == 2 + 6 * s.index
    case OpenShutterAndCapture => s.iterations == 3 + 6 * s.index
    case WaitCaptureDone => s.iterations == 4 + 6 * s.index
    case CloseShutter => s.iterations == 5 + 6 * s.index
    case SegmentFinished => s.iterations == 6 + 6 * s.index
    case _ => s.iterations <= 6 * |s.segments| + (if s.running then 1 else 2)
  }

  ghost predicate Inv(s: System) {
    && IndexOk(s)
    && s.index <= |s.segments|
    && StopsInOrder(s)
    && Exclusive(s)
    && InState(s)
    && IterationsOk(s)
    && (!s.running ==> Stopping(s) && s.pc == 7)
    && (Stopping(s) ==> s.pc <= 7)
    && (s.eventsStopped <==> Stopping(s) && s.pc == 7)
  }
}

// The pooled capture pipeline as one system: the capture thread, a drop-oldest
// queue, the send thread and the thread calling stop(), sharing reference
// counted buffers out of a fixed pool.
module CaptureModel {
  import opened Bytes

  // A frame as queued and sent: its number, and which buffer holds its bytes.
  datatype Frame = Frame(id: nat, buffer: nat, totalBytes: nat)

  // The pool: what each buffer holds, which are free, and how many shared
  // pointers there are to each.
  datatype Pool = Pool(memory: seq<seq<byte>>, free: seq<nat>, refs: seq<nat>)

  // Where the capture thread stands in an iteration of its loop.
  datatype Capture =
    | Reading
    | Wanting(data: seq<byte>)
    | Copying(data: seq<byte>, buffer: nat, done: nat)
    | Pushing(frame: Frame)
    | Resting(frame: Frame)
    | Gone

  datatype Sender = AtHead | Popping | Sending(frame: Frame) | Left

  datatype Delivery = Delivery(id: nat, bytes: seq<byte>)

  datatype Pipe = Pipe(
    size: nat, capacity: nat, pool: Pool,
    queue: seq<Frame>, stopped: bool,
    capture: Capture, cameraRunning: bool, frameId: nat,
    sender: Sender, running: bool, stopPc: nat,
    // history: the bytes captured under each number, and what was sent
    copied: seq<seq<byte>>, sent: seq<Delivery>)

  // ---- The pool -----------------------------------------------------------

  ghost predicate PoolShaped(p: Pool, size: nat) {
    (forall b :: 0 <= b < |p.memory| ==> |p.memory[b]| == size)
    && forall i :: 0 <= i < |p.free| ==> p.free[i] < |p.memory|
  }

  // The buffers hold whatever their memory held before.
  function FreshPool(memory: seq<seq<byte>>): Pool {
    Pool(memory, seq(|memory|, i => i), seq(|memory|, _ => 0))
  }

  // The first shared pointer to the buffer at the front.
  function Acquire(p: Pool): (q: Pool)
    requires p.free != [] && p.free[0] < |p.refs|
    ensures |q.refs| == |p.refs| && q.memory == p.memory
  {
    p.(free := p.free[1..], refs := p.refs[p.free[0] := 1])
  }

  function Retain(p: Pool, b: nat): (q: Pool)
    requires b < |p.refs|
    ensures |q.refs| == |p.refs| && q.memory == p.memory && q.free == p.free
  {
    p.(refs := p.refs[b := p.refs[b] + 1])
  }

  // One shared pointer less; the last one hands the buffer back.
  function Drop(p: Pool, b: nat): (q: Pool)
    requires b < |p.refs|
    ensures |q.refs| == |p.refs| && q.memory == p.memory && p.free <= q.free <= p.free + [b]
  {
    if p.refs[b] <= 1 then p.(refs := p.refs[b := 0], free := p.free + [b])
    else p.(refs := p.refs[b := p.refs[b] - 1])
  }

  function Overwrite(row: seq<byte>, k: nat, x: byte): (r: seq<byte>)
    requires k < |row|
    ensures |r| == |row|
  {
    row[..k] + [x] + row[k + 1..]
  }

  function Write(p: Pool, b: nat, k: nat, x: byte): Pool
    requires b < |p.memory| && k < |p.memory[b]|
  {
    p.(memory := p.memory[b := Overwrite(p.memory[b], k, x)])
  }

  // ---- The whole pipeline -------------------------------------------------

  ghost predicate Uninitialised(memory: seq<seq<byte>>, size: nat, count: nat) {
    |memory| == count && forall b :: 0 <= b < count ==> |memory[b]| == size
  }

  function Initial(size: nat, memory: seq<seq<byte>>, capacity: nat): Pipe {
    Pipe(size, capacity, FreshPool(memory), [], false, Reading, true, 0, AtHead, true, 0, [], [])
  }

  // Every buffer named anywhere is one of the pool's.
  ghost predicate Shaped(s: Pipe) {
    && PoolShaped(s.pool, s.size) && |s.pool.refs| == |s.pool.memory| && s.capacity >= 1
    && (forall i :: 0 <= i < |s.queue| ==> s.queue[i].buffer < |s.pool.memory|)
    && (s.capture.Copying? ==> s.capture.buffer < |s.pool.memory| && s.capture.done <= |s.capture.data| <= s.size)
    && (s.capture.Pushing? || s.capture.Resting? ==> s.capture.frame.buffer < |s.pool.memory|)
    && (s.sender.Sending? ==> s.sender.frame.buffer < |s.pool.memory| && s.sender.frame.totalBytes <= s.size)
  }

  // cap.read: a failed or empty read, or one too large for a buffer, goes round.
  function ReadStep(s: Pipe, data: seq<byte>): Pipe {
    if !s.cameraRunning then s.(capture := Gone)
    else if data == [] || |data| > s.size then s
    else s.(capture := Wanting(data))
  }

  function AcquireStep(s: Pipe): Pipe
    requires Shaped(s) && s.capture.Wanting?
  {
    if s.pool.free == [] then s
    else s.(pool := Acquire(s.pool), capture := Copying(s.capture.data, s.pool.free[0], 0))
  }

  // The copy, a byte at a time, and then the number and the frame object, a
  // second shared pointer of the capture thread.
  function CopyStep(s: Pipe): Pipe
    requires Shaped(s) && s.capture.Copying?
  {
    var Copying(data, b, k) := s.capture;
    if k < |data| then s.(pool := Write(s.pool, b, k, data[k]), capture := Copying(data, b, k + 1))
    else s.(pool := Retain(s.pool, b), frameId := s.frameId + 1, copied := s.copied + [data],
            capture := Pushing(Frame(s.frameId + 1, b, |data|)))
  }

  // A full queue loses its oldest frame.
  function MakeRoom(s: Pipe): (t: Pipe)
    requires Shaped(s)
    ensures Shaped(t)
  {
    if |s.queue| >= s.capacity then s.(pool := Drop(s.pool, s.queue[0].buffer), queue := s.queue[1..]) else s
  }

  // BlockingQueue::push: nothing once stopped; else make room and copy the frame in.
  function PushStep(s: Pipe): Pipe
    requires Shaped(s) && s.capture.Pushing?
  {
    var f := s.capture.frame;
    if s.stopped then s.(capture := Resting(f))
    else
      var t := MakeRoom(s);
      t.(pool := Retain(t.pool, f.buffer), queue := t.queue + [f], capture := Resting(f))
  }

  // The end of the iteration destroys the frame object and the buffer pointer.
  function RestStep(s: Pipe): Pipe
    requires Shaped(s) && s.capture.Resting?
  {
    var b := s.capture.frame.buffer;
    s.(pool := Drop(Drop(s.pool, b), b), capture := Reading)
  }

  function CaptureStep(s: Pipe, data: seq<byte>): Pipe
    requires Shaped(s)
  {
    match s.capture
    case Reading => ReadStep(s, data)
    case Wanting(_) => AcquireStep(s)
    case Copying(_, _, _) => CopyStep(s)
    case Pushing(_) => PushStep(s)
    case Resting(_) => RestStep(s)
    case Gone => s
  }

  // BlockingQueue::pop; the queue's shared pointer passes to the send thread.
  function PopStep(s: Pipe): Pipe {
    if s.queue != [] then s.(queue := s.queue[1..], sender := Sending(s.queue[0]))
    else if s.stopped then s.(sender := Left)
    else s
  }

  // Sent, or the connection is gone; either way the frame object dies.
  function SendStep(s: Pipe, ok: bool): Pipe
    requires Shaped(s) && s.sender.Sending?
  {
    var f := s.sender.frame;
    s.(pool := Drop(s.pool, f.buffer), sender := if ok then AtHead else Left,
       sent := if ok then s.sent + [Delivery(f.id, s.pool.memory[f.buffer][..f.totalBytes])] else s.sent)
  }

  function SenderStep(s: Pipe, ok: bool): Pipe
    requires Shaped(s)
  {
    match s.sender
    case AtHead => s.(sender := if s.running then Popping else Left)
    case Popping => PopStep(s)
    case Sending(_) => SendStep(s, ok)
    case Left => s
  }

  // stop(): clear the flags, wait for the capture thread, stop the queue.
  function StopStep(s: Pipe): Pipe {
    if s.stopPc == 0 then s.(running := false, stopPc := 1)
    else if s.stopPc == 1 then s.(cameraRunning := false, stopPc := 2)
    else if s.stopPc == 2 && s.capture.Gone? then s.(stopped := true, stopPc := 3)
    else s
  }

  // Which thread moves, what the camera gives, whether the send works.
  datatype Choice = CaptureMoves(data: seq<byte>) | SenderMoves(ok: bool) | StopMoves

  function Step(s: Pipe, c: Choice): Pipe
    requires Shaped(s)
  {
    match c
    case CaptureMoves(data) => CaptureStep(s, data)
    case SenderMoves(ok) => SenderStep(s, ok)
    case StopMoves => StopStep(s)
  }

  // ---- The invariant ------------------------------------------------------

  function Buffers(frames: seq<Frame>): (r: seq<nat>)
    ensures |r| == |frames|
  {
    seq(|frames|, i requires 0 <= i < |frames| => frames[i].buffer)
  }

  // One entry per shared pointer of the capture thread.
  function CaptureHolds(c: Capture): multiset<nat> {
    match c
    case Copying(_, b, _) => multiset{b}
    case Pushing(f) => multiset{f.buffer, f.buffer}
    case Resting(f) => multiset{f.buffer, f.buffer}
    case _ => multiset{}
  }

  function SenderHolds(t: Sender): multiset<nat> {
    match t
    case Sending(f) => multiset{f.buffer}
    case _ => multiset{}
  }

  function Holders(c: Capture, queue: seq<Frame>, t: Sender): multiset<nat> {
    CaptureHolds(c) + multiset(Buffers(queue)) + SenderHolds(t)
  }

  ghost predicate Distinct(xs: seq<nat>) {
    forall i, j :: 0 <= i < j < |xs| ==> xs[i] != xs[j]
  }

  // The count of each buffer is the number of its holders, and the free list
  // is exactly the buffers nobody holds.
  ghost predicate Counted(p: Pool, holders: multiset<nat>) {
    && |p.refs| == |p.memory|
    && (forall b :: 0 <= b < |p.refs| ==> p.refs[b] == holders[b])
    && Distinct(p.free)
    && (forall b: nat :: b in p.free <==> b < |p.refs| && holders[b] == 0)
  }

  // Frames on their way: the one being sent, then the queue.
  function InFlight(t: Sender, queue: seq<Frame>): seq<Frame> {
    (if t.Sending? then [t.frame] else []) + queue
  }

  ghost predicate Ordered(frames: seq<Frame>, below: nat) {
    (forall i, j :: 0 <= i < j < |frames| ==> frames[i].id < frames[j].id)
    && forall i :: 0 <= i < |frames| ==> frames[i].id < below
  }

  // The buffer holds the bytes captured under the frame's number.
  ghost predicate Intact(memory: seq<seq<byte>>, copied: seq<seq<byte>>, f: Frame) {
    && 1 <= f.id <= |copied| && f.buffer < |memory|
    && f.totalBytes == |copied[f.id - 1]| <= |memory[f.buffer]|
    && memory[f.buffer][..f.totalBytes] == copied[f.id - 1]
  }

  // Frames in order, in different buffers, each with its own bytes.
  ghost predicate FlightOk(fl: seq<Frame>, memory: seq<seq<byte>>, copied: seq<seq<byte>>) {
    && Ordered(fl, |copied| + 1)
    && Distinct(Buffers(fl))
    && (forall f :: f in fl ==> Intact(memory, copied, f))
  }

  ghost predicate CaptureOk(s: Pipe, fl: seq<Frame>) {
    match s.capture
    case Wanting(data) => data != [] && |data| <= s.size
    case Copying(data, b, k) =>
      k <= |data| <= s.size && b < |s.pool.memory| && b !in Buffers(fl)
      && |s.pool.memory[b]| == s.size && s.pool.memory[b][..k] == data[..k]
    case Pushing(f) =>
      f.id == |s.copied| && Intact(s.pool.memory, s.copied, f) && f.buffer !in Buffers(fl)
      && Ordered(fl, f.id) && SentBelow(s.sent, f.id)
    case Resting(f) =>
      f.id == |s.copied| && Intact(s.pool.memory, s.copied, f)
      && forall g :: g in fl && g.buffer == f.buffer ==> g == f
    case _ => true
  }

  ghost predicate SentBelow(sent: seq<Delivery>, id: nat) {
    forall i :: 0 <= i < |sent| ==> sent[i].id < id
  }

  // The queue holds the newest frames, with no gap.
  ghost predicate NewestQueued(queue: seq<Frame>, newest: int) {
    forall i :: 0 <= i < |queue| ==> queue[i].id == newest - |queue| + 1 + i
  }

  // The newest number whose frame has reached the queue.
  function Newest(s: Pipe): int {
    if s.capture.Pushing? then |s.copied| - 1 else |s.copied|
  }

  // Sent frames are in order, with the captured bytes, and older than any
  // frame still on its way.
  ghost predicate SentOk(sent: seq<Delivery>, copied: seq<seq<byte>>, fl: seq<Frame>) {
    && (forall i, j :: 0 <= i < j < |sent| ==> sent[i].id < sent[j].id)
    && (forall i :: 0 <= i < |sent| ==> 1 <= sent[i].id <= |copied| && sent[i].bytes == copied[sent[i].id - 1])
    && (forall f :: f in fl ==> SentBelow(sent, f.id))
  }

  ghost predicate Inv(s: Pipe) {
    var fl := InFlight(s.sender, s.queue);
    && Shaped(s)
    && Counted(s.pool, Holders(s.capture, s.queue, s.sender))
    && s.frameId == |s.copied|
    && |s.queue| <= s.capacity
    && FlightOk(fl, s.pool.memory, s.copied)
    && CaptureOk(s, fl)
    && NewestQueued(s.queue, Newest(s))
    && SentOk(s.sent, s.copied, fl)
    && (s.stopped ==> s.capture.Gone?)
  }
}

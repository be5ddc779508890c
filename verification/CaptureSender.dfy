// The capture pipeline's own objects: the buffer pool over real arrays, the
// drop-oldest queue, the capture loop and the sender application, each method
// one atomic step of CaptureModel.
module CaptureSender {
  import opened Bytes
  import opened CaptureModel
  import opened CaptureSafety
  import opened CaptureHistory

  class FrameBufferPool {
    const bufferSize: nat
    const storage: seq<array<byte>>
    var freeBuffers: seq<nat>
    // one count per buffer, as its shared pointers' control block keeps it
    var refs: seq<nat>

    ghost predicate Valid() {
      && (forall i :: 0 <= i < |storage| ==> storage[i].Length == bufferSize)
      && (forall i, j :: 0 <= i < j < |storage| ==> storage[i] != storage[j])
    }

    ghost function View(): Pool
      reads this, storage
    {
      Pool(seq(|storage|, i requires 0 <= i < |storage| reads storage => storage[i][..]), freeBuffers, refs)
    }

    constructor (size: nat, count: nat)
      ensures Valid() && bufferSize == size && |storage| == count && View() == FreshPool(View().memory)
      ensures Uninitialised(View().memory, size, count) && fresh(storage)
    {
      var blocks: seq<array<byte>> := [];
      var free: seq<nat> := [];
      for i := 0 to count
        invariant |blocks| == |free| == i && fresh(blocks)
        invariant forall k :: 0 <= k < i ==> blocks[k].Length == size && free[k] == k
        invariant forall k, l :: 0 <= k < l < i ==> blocks[k] != blocks[l]
      {
        var block := new byte[size];
        blocks, free := blocks + [block], free + [i];
      }
      bufferSize, storage, freeBuffers, refs := size, blocks, free, seq(count, _ => 0);
    }

    // acquire; None is the wait for a free buffer.
    method TakeFree() returns (b: Option<nat>)
      requires PoolShaped(View(), bufferSize) && |refs| == |storage|
      modifies this
      ensures old(freeBuffers) == [] ==> b == None && View() == old(View())
      ensures old(freeBuffers) != [] ==> b == Some(old(freeBuffers)[0]) && View() == Acquire(old(View()))
    {
      if freeBuffers == [] { return None; }
      b := Some(freeBuffers[0]);
      refs := refs[freeBuffers[0] := 1];
      freeBuffers := freeBuffers[1..];
    }

    // A copy of a shared pointer.
    method Share(b: nat)
      requires b < |refs|
      modifies this
      ensures View() == Retain(old(View()), b)
    {
      refs := refs[b := refs[b] + 1];
    }

    // The destruction of a shared pointer; the last one releases the buffer.
    method Unshare(b: nat)
      requires b < |refs|
      modifies this
      ensures View() == Drop(old(View()), b)
    {
      if refs[b] <= 1 {
        refs := refs[b := 0];
        Release(b);
      } else {
        refs := refs[b := refs[b] - 1];
      }
    }

    method Release(b: nat)
      modifies this`freeBuffers
      ensures freeBuffers == old(freeBuffers) + [b]
    {
      freeBuffers := freeBuffers + [b];
    }

    // One byte of the memcpy.
    method Put(b: nat, k: nat, x: byte)
      requires Valid() && b < |storage| && k < bufferSize
      modifies storage[b]
      ensures View() == Write(old(View()), b, k, x)
    {
      storage[b][k] := x;
      assert storage[b][..] == Overwrite(old(storage[b][..]), k, x);
      assert forall i :: 0 <= i < |storage| && i != b ==> storage[i][..] == old(storage[i][..]);
    }
  }

  class BlockingQueue<T> {
    const maxSize: nat
    var queue: seq<T>
    var stopped: bool

    constructor (maxSize: nat)
      ensures this.maxSize == maxSize && queue == [] && !stopped
    {
      this.maxSize, queue, stopped := maxSize, [], false;
    }

    // The item lost to make room, if any, comes back to be destroyed.
    method Push(item: T) returns (dropped: Option<T>)
      requires maxSize >= 1
      modifies this
      ensures stopped == old(stopped)
      ensures stopped ==> dropped == None && queue == old(queue)
      ensures !stopped && |old(queue)| >= maxSize ==> dropped == Some(old(queue)[0]) && queue == old(queue)[1..] + [item]
      ensures !stopped && |old(queue)| < maxSize ==> dropped == None && queue == old(queue) + [item]
    {
      dropped := None;
      if stopped { return; }
      if |queue| >= maxSize {
        dropped := Some(queue[0]);
        queue := queue[1..];
      }
      queue := queue + [item];
    }

    // done: the wait is over; got: an item came.
    method Pop() returns (done: bool, got: Option<T>)
      modifies this
      ensures stopped == old(stopped)
      ensures old(queue) != [] ==> done && got == Some(old(queue)[0]) && queue == old(queue)[1..]
      ensures old(queue) == [] ==> done == stopped && got == None && queue == []
    {
      if !stopped && queue == [] { return false, None; }
      if stopped && queue == [] { return true, None; }
      done, got := true, Some(queue[0]);
      queue := queue[1..];
    }

    method Stop()
      modifies this
      ensures stopped && queue == old(queue)
    {
      stopped := true;
    }

    method Clear()
      modifies this
      ensures queue == [] && stopped == old(stopped)
    {
      queue := [];
    }
  }

  class CameraNetworkSender {
    const bufferPool: FrameBufferPool
    const queue: BlockingQueue<Frame>
    // the capture thread
    var capture: Capture
    var cameraRunning: bool
    var frameId: nat
    // the send thread and the caller of stop()
    var sender: Sender
    var running: bool
    var stopPc: nat
    // history
    ghost var copied: seq<seq<byte>>
    ghost var sent: seq<Delivery>

    constructor (bufferSize: nat, bufferCount: nat, queueSize: nat)
      requires queueSize >= 1
      ensures Valid() && View() == Initial(bufferSize, View().pool.memory, queueSize)
      ensures Uninitialised(View().pool.memory, bufferSize, bufferCount) && fresh(Parts())
    {
      queue := new BlockingQueue<Frame>(queueSize);
      bufferPool := new FrameBufferPool(bufferSize, bufferCount);
      capture, cameraRunning, frameId := Reading, true, 0;
      sender, running, stopPc, copied, sent := AtHead, true, 0, [], [];
    }

    ghost function Parts(): set<object> {
      {bufferPool, queue} + set a | a in bufferPool.storage
    }

    ghost predicate Valid() {
      bufferPool.Valid() && queue.maxSize >= 1
    }

    ghost function View(): Pipe
      reads this, Parts()
    {
      Pipe(bufferPool.bufferSize, queue.maxSize, bufferPool.View(), queue.queue, queue.stopped,
           capture, cameraRunning, frameId, sender, running, stopPc, copied, sent)
    }

    method Read(data: seq<byte>)
      requires Valid() && capture == Reading
      modifies this
      ensures View() == ReadStep(old(View()), data)
    {
      if !cameraRunning {
        capture := Gone;
      } else if data != [] && |data| <= bufferPool.bufferSize {
        capture := Wanting(data);
      }
    }

    method AcquireBuffer()
      requires Valid() && Shaped(View()) && capture.Wanting?
      modifies this, bufferPool
      ensures View() == AcquireStep(old(View()))
    {
      var b := bufferPool.TakeFree();
      if b.Some? { capture := Copying(capture.data, b.value, 0); }
    }

    method Copy()
      requires Valid() && Shaped(View()) && capture.Copying?
      modifies this, Parts()
      ensures View() == CopyStep(old(View()))
    {
      var Copying(data, b, k) := capture;
      if k < |data| {
        bufferPool.Put(b, k, data[k]);
        capture := Copying(data, b, k + 1);
      } else {
        frameId := frameId + 1;
        copied := copied + [data];
        bufferPool.Share(b);
        capture := Pushing(Frame(frameId, b, |data|));
      }
    }

    method Push()
      requires Valid() && Shaped(View()) && capture.Pushing?
      modifies this, bufferPool, queue
      ensures View() == PushStep(old(View()))
    {
      var f := capture.frame;
      capture := Resting(f);
      if queue.stopped { return; }
      var dropped := queue.Push(f);
      if dropped.Some? { bufferPool.Unshare(dropped.value.buffer); }
      bufferPool.Share(f.buffer);
    }

    method EndIteration()
      requires Valid() && Shaped(View()) && capture.Resting?
      modifies this, bufferPool
      ensures View() == RestStep(old(View()))
    {
      var b := capture.frame.buffer;
      bufferPool.Unshare(b);
      bufferPool.Unshare(b);
      capture := Reading;
    }

    // One step of captureLoop.
    method CaptureLoop(data: seq<byte>)
      requires Valid() && Shaped(View())
      modifies this, Parts()
      ensures View() == CaptureStep(old(View()), data)
    {
      match capture {
        case Reading => Read(data);
        case Wanting(_) => AcquireBuffer();
        case Copying(_, _, _) => Copy();
        case Pushing(_) => Push();
        case Resting(_) => EndIteration();
        case Gone =>
      }
    }

    // One step of sendLoop.
    method SendLoop(ok: bool)
      requires Valid() && Shaped(View())
      modifies this, bufferPool, queue
      ensures View() == SenderStep(old(View()), ok)
    {
      match sender {
        case AtHead => sender := if running then Popping else Left;
        case Popping =>
          var done, got := queue.Pop();
          if got.Some? {
            sender := Sending(got.value);
          } else if done {
            sender := Left;
          }
        case Sending(f) =>
          if ok { sent := sent + [Delivery(f.id, bufferPool.storage[f.buffer][..f.totalBytes])]; }
          bufferPool.Unshare(f.buffer);
          sender := if ok then AtHead else Left;
        case Left =>
      }
    }

    // One step of stop().
    method Stop()
      requires Valid()
      modifies this, queue
      ensures View() == StopStep(old(View()))
    {
      if stopPc == 0 {
        running, stopPc := false, 1;
      } else if stopPc == 1 {
        cameraRunning, stopPc := false, 2;
      } else if stopPc == 2 && capture.Gone? {
        queue.Stop();
        stopPc := 3;
      }
    }

    method Execute(choices: seq<Choice>)
      requires Valid() && View() == Initial(bufferPool.bufferSize, View().pool.memory, queue.maxSize)
      modifies this, Parts()
      ensures Inv(old(View())) && View() == Run(old(View()), choices)
      ensures Faithful(View(), GivenIn(old(View()), choices), LostIn(old(View()), choices)) && Partitioned(View())
    {
      hide Inv, Shaped, CaptureStep, SenderStep, StopStep, Initial, FlightOk, Partitioned, Faithful, GivenIn, LostIn;
      ghost var s := View();
      InitialInv(s.size, s.pool.memory, s.capacity);
      var i := 0;
      while i < |choices|
        invariant 0 <= i <= |choices|
        invariant View() == Run(s, choices[..i])
      {
        RunSnoc(s, choices[..i], choices[i]);
        assert choices[..i] + [choices[i]] == choices[..i + 1];
        match choices[i] {
          case CaptureMoves(data) => CaptureLoop(data);
          case SenderMoves(ok) => SendLoop(ok);
          case StopMoves => Stop();
        }
        i := i + 1;
      }
      assert choices[..|choices|] == choices;
      EveryRunDelivers(s.size, s.pool.memory, s.capacity, choices);
      EveryRunIsFaithful(s.size, s.pool.memory, s.capacity, choices);
    }
  }
}

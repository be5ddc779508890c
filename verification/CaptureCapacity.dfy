// How large the buffer pool must be for the capture thread never to wait in
// acquire, and what happens when it is smaller.
module CaptureCapacity {
  import opened Bytes
  import opened CaptureModel
  import opened CaptureSafety
  import opened Counting

  // The capture thread waits for a buffer and there is none.
  ghost predicate Blocked(s: Pipe) {
    s.capture.Wanting? && s.pool.free == []
  }

  // Some run over buffers holding anything at first ends there.
  ghost predicate Reachable(size: nat, count: nat, capacity: nat, s: Pipe)
    requires capacity >= 1
  {
    exists memory, choices :: ReachedBy(size, count, capacity, memory, choices, s)
  }

  ghost predicate ReachedBy(size: nat, count: nat, capacity: nat, memory: seq<seq<byte>>, choices: seq<Choice>, s: Pipe)
    requires capacity >= 1
  {
    && Uninitialised(memory, size, count)
    && Inv(Initial(size, memory, capacity))
    && Run(Initial(size, memory, capacity), choices) == s
  }

  lemma ReachableInv(size: nat, count: nat, capacity: nat, s: Pipe)
    requires capacity >= 1 && Reachable(size, count, capacity, s)
    ensures Inv(s) && Shaped(s) && s.size == size && s.capacity == capacity && |s.pool.memory| == count
  {
    hide Inv, Run;
    var memory, choices :| ReachedBy(size, count, capacity, memory, choices, s);
    RunKeepsInv(Initial(size, memory, capacity), choices);
    InvShaped(s);
  }

  lemma ReachStep(size: nat, count: nat, capacity: nat, s: Pipe, c: Choice)
    requires capacity >= 1 && Reachable(size, count, capacity, s)
    ensures Shaped(s) && Reachable(size, count, capacity, Step(s, c))
  {
    hide Inv, Run, Step, Shaped;
    var memory, choices :| ReachedBy(size, count, capacity, memory, choices, s);
    RunSnoc(Initial(size, memory, capacity), choices, c);
    assert ReachedBy(size, count, capacity, memory, choices + [c], Step(s, c));
  }

  lemma InitialReachable(size: nat, capacity: nat, memory: seq<seq<byte>>)
    requires capacity >= 1 && Uninitialised(memory, size, |memory|)
    ensures Reachable(size, |memory|, capacity, Initial(size, memory, capacity))
  {
    hide Inv;
    InitialInv(size, memory, capacity);
    assert Run(Initial(size, memory, capacity), []) == Initial(size, memory, capacity);
    assert ReachedBy(size, |memory|, capacity, memory, [], Initial(size, memory, capacity));
  }

  // A start to build runs from.
  function Blank(size: nat, count: nat): seq<seq<byte>> {
    seq(count, _ => seq(size, _ => 0))
  }

  // ---- Large enough -------------------------------------------------------

  // Without a buffer of its own, the capture thread leaves at most the queue's
  // and the sender's out of the free list.
  lemma FreeBufferWhenWanted(s: Pipe)
    requires Inv(s) && s.capture.Wanting? && |s.pool.memory| >= s.capacity + 2
    ensures s.pool.free != []
  {
    hide FlightOk, CaptureOk, NewestQueued, SentOk, PoolShaped, Counted;
    InvPartitions(s);
    if s.pool.free == [] {
      var named := Buffers(s.queue) + (if s.sender.Sending? then [s.sender.frame.buffer] else []);
      forall b: nat | b < |s.pool.memory| ensures b in named {
        assert b in Holders(s.capture, s.queue, s.sender);
      }
      FewElements(named, |s.pool.memory|);
    }
  }

  // ---- Too small ----------------------------------------------------------

  // Ready for the next read, with this many frames queued and buffers free.
  ghost predicate Ready(s: Pipe, queued: nat, free: nat) {
    s.capture == Reading && s.cameraRunning && !s.stopped && |s.queue| == queued && |s.pool.free| == free
  }

  // One more frame goes through the whole of the capture loop.
  lemma OneCapture(size: nat, count: nat, capacity: nat, s: Pipe, queued: nat, free: nat) returns (t: Pipe)
    requires capacity >= 1 && size >= 1 && Reachable(size, count, capacity, s)
    requires Ready(s, queued, free) && queued < capacity && free > 0
    ensures Reachable(size, count, capacity, t) && Ready(t, queued + 1, free - 1) && t.sender == s.sender && t.running == s.running
  {
    hide Reachable, Inv, Counted, PoolShaped;
    ReachableInv(size, count, capacity, s);
    var go := CaptureMoves([0]);
    ReachStep(size, count, capacity, s, go);
    var s1 := Step(s, go);
    ReachStep(size, count, capacity, s1, go);
    var s2 := Step(s1, go);
    ReachStep(size, count, capacity, s2, go);
    var s3 := Step(s2, go);
    ReachStep(size, count, capacity, s3, go);
    var s4 := Step(s3, go);
    ReachStep(size, count, capacity, s4, go);
    var s5 := Step(s4, go);
    ReachStep(size, count, capacity, s5, go);
    t := Step(s5, go);
  }

  // The queue fills up while the send thread does nothing.
  lemma {:induction false} Fill(size: nat, count: nat, capacity: nat, s: Pipe, queued: nat, free: nat, n: nat)
    returns (t: Pipe)
    requires capacity >= 1 && size >= 1 && Reachable(size, count, capacity, s)
    requires Ready(s, queued, free) && queued + n <= capacity && n <= free
    ensures Reachable(size, count, capacity, t) && Ready(t, queued + n, free - n) && t.sender == s.sender
    decreases n
  {
    hide Reachable, Ready;
    if n == 0 {
      t := s;
    } else {
      var u := OneCapture(size, count, capacity, s, queued, free);
      t := Fill(size, count, capacity, u, queued + 1, free - 1, n - 1);
    }
  }

  // With one frame captured and queued, the send thread takes it in hand.
  lemma TakeOne(size: nat, count: nat, capacity: nat, s: Pipe, free: nat) returns (t: Pipe)
    requires capacity >= 1 && Reachable(size, count, capacity, s) && Ready(s, 1, free)
    requires s.sender == AtHead && s.running
    ensures Reachable(size, count, capacity, t) && Ready(t, 0, free) && t.sender.Sending?
  {
    hide Reachable, Inv, Counted, PoolShaped;
    ReachableInv(size, count, capacity, s);
    ReachStep(size, count, capacity, s, SenderMoves(true));
    var s1 := Step(s, SenderMoves(true));
    ReachStep(size, count, capacity, s1, SenderMoves(true));
    t := Step(s1, SenderMoves(true));
  }

  // Nothing free and a frame read: the capture thread waits.
  lemma WaitsNow(size: nat, count: nat, capacity: nat, s: Pipe, queued: nat) returns (t: Pipe)
    requires capacity >= 1 && size >= 1 && Reachable(size, count, capacity, s) && Ready(s, queued, 0)
    ensures Reachable(size, count, capacity, t) && Blocked(t) && t.sender == s.sender
  {
    hide Reachable, Inv, Counted, PoolShaped;
    ReachableInv(size, count, capacity, s);
    ReachStep(size, count, capacity, s, CaptureMoves([0]));
    t := Step(s, CaptureMoves([0]));
  }

  lemma SmallPoolBlocks(size: nat, count: nat, capacity: nat) returns (t: Pipe)
    requires capacity >= 1 && size >= 1 && count < capacity + 2
    ensures Reachable(size, count, capacity, t) && Blocked(t)
  {
    hide Reachable, Blocked;
    InitialReachable(size, capacity, Blank(size, count));
    var s := Initial(size, Blank(size, count), capacity);
    if count <= capacity {
      s := Fill(size, count, capacity, s, 0, count, count);
      t := WaitsNow(size, count, capacity, s, count);
    } else {
      s := OneCapture(size, count, capacity, s, 0, count);
      s := TakeOne(size, count, capacity, s, count - 1);
      s := Fill(size, count, capacity, s, 0, count - 1, capacity);
      t := WaitsNow(size, count, capacity, s, capacity);
    }
  }

  // Main result: the capture thread never has to wait for a buffer, however
  // slow the sender, exactly when the pool has two buffers more than the queue
  // has places.
  lemma CaptureNeverWaitsIff(size: nat, count: nat, capacity: nat)
    requires capacity >= 1 && size >= 1
    ensures (forall s :: Reachable(size, count, capacity, s) ==> !Blocked(s)) <==> count >= capacity + 2
  {
    hide Inv, Reachable;
    if count >= capacity + 2 {
      forall s | Reachable(size, count, capacity, s) ensures !Blocked(s) {
        ReachableInv(size, count, capacity, s);
        if s.capture.Wanting? { FreeBufferWhenWanted(s); }
      }
    } else {
      var s := SmallPoolBlocks(size, count, capacity);
    }
  }

  // The composition of the program: a queue of 10 over a pool of 16.
  const QUEUE_CAPACITY: nat := 10
  const POOL_COUNT: nat := 16

  lemma ProgramNeverWaits(size: nat, s: Pipe)
    requires size >= 1 && Reachable(size, POOL_COUNT, QUEUE_CAPACITY, s)
    ensures !Blocked(s)
  {
    hide Reachable, Blocked;
    CaptureNeverWaitsIff(size, POOL_COUNT, QUEUE_CAPACITY);
  }

  // ---- For good -----------------------------------------------------------

  // Once the sender has left, a wait never ends: nobody else gives buffers
  // back, and stop() in turn waits for the capture thread.
  lemma {:induction false} WaitsForGood(s: Pipe, choices: seq<Choice>)
    requires Inv(s) && Blocked(s) && s.sender == Left
    ensures Blocked(Run(s, choices)) && !Run(s, choices).stopped
    decreases |choices|
  {
    hide Inv;
    InvShaped(s);
    if choices != [] {
      StepKeepsInv(s, choices[0]);
      WaitsForGood(Step(s, choices[0]), choices[1..]);
    }
  }

  // That can come about exactly when the queue alone can hold the whole pool.
  lemma WaitsForGoodIff(size: nat, count: nat, capacity: nat)
    requires capacity >= 1 && size >= 1
    ensures (exists s :: Reachable(size, count, capacity, s) && Blocked(s) && s.sender == Left) <==> count <= capacity
  {
    hide Inv, Reachable;
    if count <= capacity {
      var s := QueueHoldsAll(size, count, capacity);
    } else {
      forall s | Reachable(size, count, capacity, s) && Blocked(s) ensures s.sender != Left {
        ReachableInv(size, count, capacity, s);
        if s.sender == Left { QueueCannotHoldAll(s); }
      }
    }
  }

  lemma QueueCannotHoldAll(s: Pipe)
    requires Inv(s) && s.capture.Wanting? && |s.pool.memory| > s.capacity && s.sender == Left
    ensures s.pool.free != []
  {
    hide FlightOk, CaptureOk, NewestQueued, SentOk, PoolShaped, Counted;
    InvPartitions(s);
    if s.pool.free == [] {
      forall b: nat | b < |s.pool.memory| ensures b in Buffers(s.queue) {
        assert b in Holders(s.capture, s.queue, s.sender);
      }
      FewElements(Buffers(s.queue), |s.pool.memory|);
    }
  }

  // The connection is lost in the middle of a frame.
  lemma FailSend(size: nat, count: nat, capacity: nat, s: Pipe, free: nat) returns (t: Pipe)
    requires capacity >= 1 && Reachable(size, count, capacity, s) && Ready(s, 0, free) && s.sender.Sending?
    ensures Reachable(size, count, capacity, t) && Ready(t, 0, free + 1) && t.sender == Left
  {
    hide Reachable, PoolShaped, FlightOk, SentOk, NewestQueued, Distinct;
    ReachableInv(size, count, capacity, s);
    ReachStep(size, count, capacity, s, SenderMoves(false));
    t := Step(s, SenderMoves(false));
    assert Buffers(s.queue) == [];
    assert Holders(s.capture, s.queue, s.sender)[s.sender.frame.buffer] == 1;
  }

  // stop() before the send thread has looked at its flag for the first time.
  lemma LeaveAtOnce(size: nat, count: nat, capacity: nat) returns (t: Pipe)
    requires capacity >= 1
    ensures Reachable(size, count, capacity, t) && Ready(t, 0, count) && t.sender == Left
  {
    hide Reachable, Inv, Counted, PoolShaped;
    InitialReachable(size, capacity, Blank(size, count));
    var s := Initial(size, Blank(size, count), capacity);
    ReachStep(size, count, capacity, s, StopMoves);
    var s1 := Step(s, StopMoves);
    ReachStep(size, count, capacity, s1, SenderMoves(true));
    t := Step(s1, SenderMoves(true));
  }

  // The send thread gone, and the queue filled behind it.
  lemma QueueHoldsAll(size: nat, count: nat, capacity: nat) returns (t: Pipe)
    requires capacity >= 1 && size >= 1 && count <= capacity
    ensures Reachable(size, count, capacity, t) && Blocked(t) && t.sender == Left
  {
    hide Reachable, Blocked, Inv, Step;
    InitialReachable(size, capacity, Blank(size, count));
    var s := Initial(size, Blank(size, count), capacity);
    if count == 0 {
      s := LeaveAtOnce(size, count, capacity);
    } else {
      s := OneCapture(size, count, capacity, s, 0, count);
      s := TakeOne(size, count, capacity, s, count - 1);
      s := FailSend(size, count, capacity, s, count - 1);
    }
    s := Fill(size, count, capacity, s, 0, count, count);
    t := WaitsNow(size, count, capacity, s, count);
  }
}

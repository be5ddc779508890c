// The pool, the queue and the two loops as objects, each method one atomic
// step of MemoryPoolModel.
module MemoryPoolDemo {
  import opened Bytes
  import opened Decimal
  import opened MemoryPoolModel
  import opened MemoryPoolSafety

  method MemCpy(target: array<char>, text: string)
    requires |text| <= target.Length
    modifies target
    ensures target[..] == text + old(target[..])[|text|..]
  {
    var i := 0;
    while i < |text|
      invariant 0 <= i <= |text|
      invariant forall k :: 0 <= k < i ==> target[k] == text[k]
      invariant forall k :: i <= k < target.Length ==> target[k] == old(target[k])
    {
      target[i] := text[i];
      i := i + 1;
    }
  }

  class MemoryPool {
    const blockSize: nat
    const storage: seq<array<char>>
    var sizes: seq<nat>
    var freeList: seq<nat>
    var inUseCount: nat
    var highWaterMark: nat
    var acquireFailCount: nat
    var stop: bool

    ghost predicate Valid()
      reads this
    {
      && |sizes| == |storage|
      && (forall i :: 0 <= i < |storage| ==> storage[i].Length == blockSize)
      && (forall i, j :: 0 <= i < j < |storage| ==> storage[i] != storage[j])
      && (forall i :: 0 <= i < |freeList| ==> freeList[i] < |storage|)
    }

    ghost function Blocks(): seq<Block>
      requires Valid()
      reads this, storage
    {
      seq(|storage|, i requires 0 <= i < |storage| reads this, storage requires Valid() => Block(storage[i][..], sizes[i]))
    }

    constructor (blockSize: nat, blockCount: nat)
      ensures Valid() && this.blockSize == blockSize && |storage| == blockCount && fresh(storage)
      ensures Blocks() == Initial(blockSize, blockCount).blocks && freeList == Initial(blockSize, blockCount).free
      ensures inUseCount == highWaterMark == acquireFailCount == 0 && !stop
    {
      var blocks: seq<array<char>> := [];
      for i := 0 to blockCount
        invariant |blocks| == i && fresh(blocks)
        invariant forall k :: 0 <= k < i ==> blocks[k].Length == blockSize && blocks[k][..] == seq(blockSize, _ => '\0')
        invariant forall k, l :: 0 <= k < l < i ==> blocks[k] != blocks[l]
      {
        var block := new char[blockSize](_ => '\0');
        blocks := blocks + [block];
      }
      this.blockSize, storage := blockSize, blocks;
      sizes, freeList := seq(blockCount, _ => 0), seq(blockCount, i => i);
      inUseCount, highWaterMark, acquireFailCount, stop := 0, 0, 0, false;
    }

    // The compare-exchange may fail spuriously; this many times.
    method UpdateHighWaterMark(spurious: nat)
      modifies this`highWaterMark
      ensures highWaterMark == Max(old(highWaterMark), inUseCount)
    {
      var cur, seen, left := inUseCount, highWaterMark, spurious;
      while cur > seen
        invariant seen == highWaterMark
        invariant highWaterMark == old(highWaterMark) || highWaterMark == cur >= old(highWaterMark)
        decreases if cur > highWaterMark then 1 else 0, left
      {
        if left > 0 {
          left := left - 1;
        } else {
          highWaterMark, seen := cur, cur;
        }
      }
    }

    method Take(spurious: nat) returns (b: nat)
      requires Valid() && freeList != []
      modifies this
      ensures Valid() && b == old(freeList)[0] && freeList == old(freeList)[1..]
      ensures Blocks() == old(Blocks())[b := old(Blocks())[b].(size := 0)]
      ensures inUseCount == old(inUseCount) + 1 && highWaterMark == Max(old(highWaterMark), old(inUseCount) + 1)
      ensures stop == old(stop) && acquireFailCount == old(acquireFailCount)
    {
      b := freeList[0];
      freeList := freeList[1..];
      sizes := sizes[b := 0];
      inUseCount := inUseCount + 1;
      UpdateHighWaterMark(spurious);
    }

    // Once the wait is over: null when stopped, else the front buffer.
    method AcquireNow(spurious: nat) returns (b: Option<nat>)
      requires Valid() && (stop || freeList != [])
      modifies this
      ensures Valid() && stop == old(stop) && acquireFailCount == old(acquireFailCount)
      ensures stop ==> b == None && Blocks() == old(Blocks()) && freeList == old(freeList)
                       && inUseCount == old(inUseCount) && highWaterMark == old(highWaterMark)
      ensures !stop ==> b == Some(old(freeList)[0]) && freeList == old(freeList)[1..]
                        && Blocks() == old(Blocks())[b.value := old(Blocks())[b.value].(size := 0)]
                        && inUseCount == old(inUseCount) + 1
                        && highWaterMark == Max(old(highWaterMark), old(inUseCount) + 1)
    {
      if stop { return None; }
      var front := Take(spurious);
      b := Some(front);
    }

    method TryAcquire(spurious: nat) returns (b: Option<nat>)
      requires Valid()
      modifies this
      ensures Valid() && stop == old(stop)
      ensures old(freeList) == [] || stop ==>
                b == None && acquireFailCount == old(acquireFailCount) + 1 && Blocks() == old(Blocks())
                && freeList == old(freeList) && inUseCount == old(inUseCount) && highWaterMark == old(highWaterMark)
      ensures old(freeList) != [] && !stop ==>
                b == Some(old(freeList)[0]) && freeList == old(freeList)[1..]
                && acquireFailCount == old(acquireFailCount)
                && Blocks() == old(Blocks())[b.value := old(Blocks())[b.value].(size := 0)]
                && inUseCount == old(inUseCount) + 1 && highWaterMark == Max(old(highWaterMark), old(inUseCount) + 1)
    {
      if freeList == [] || stop {
        acquireFailCount := acquireFailCount + 1;
        return None;
      }
      var front := Take(spurious);
      b := Some(front);
    }

    method Release(b: nat)
      requires Valid() && b < |storage|
      modifies this
      ensures Valid() && freeList == old(freeList) + [b] && stop == old(stop)
      ensures Blocks() == old(Blocks())[b := old(Blocks())[b].(size := 0)]
      ensures inUseCount == (if old(inUseCount) > 0 then old(inUseCount) - 1 else 0)
      ensures highWaterMark == old(highWaterMark) && acquireFailCount == old(acquireFailCount)
    {
      sizes := sizes[b := 0];
      freeList := freeList + [b];
      if inUseCount > 0 { inUseCount := inUseCount - 1; }
    }

    // memcpy into a buffer, and its size.
    method Write(b: nat, text: string)
      requires Valid() && b < |storage| && |text| <= blockSize
      modifies this`sizes, storage[b]
      ensures Valid() && Blocks() == old(Blocks())[b := Filled(old(Blocks())[b], text)]
    {
      MemCpy(storage[b], text);
      sizes := sizes[b := |text|];
      assert forall k :: 0 <= k < |storage| && k != b ==> storage[k][..] == old(storage[k][..]);
    }

    method Shutdown()
      modifies this`stop
      ensures stop
    {
      if stop { return; }
      stop := true;
    }
  }

  class FrameQueue {
    var queue: seq<nat>
    var stop: bool

    constructor ()
      ensures queue == [] && !stop
    {
      queue, stop := [], false;
    }

    method Push(b: nat)
      modifies this
      ensures queue == old(queue) + [b] && stop == old(stop)
    {
      queue := queue + [b];
    }

    // Once the wait is over: nothing when stopped and empty, else the front.
    method Pop() returns (b: Option<nat>)
      requires stop || queue != []
      modifies this
      ensures stop == old(stop)
      ensures old(queue) == [] ==> b == None && queue == []
      ensures old(queue) != [] ==> b == Some(old(queue)[0]) && queue == old(queue)[1..]
    {
      if stop && queue == [] { return None; }
      b := Some(queue[0]);
      queue := queue[1..];
    }

    method Shutdown()
      modifies this
      ensures stop && queue == old(queue)
    {
      stop := true;
    }
  }

  class PoolDemo {
    const pool: MemoryPool
    const frames: FrameQueue
    var producer: Producer
    var frameNo: nat
    var consumer: Consumer
    var running: bool
    var mainPc: nat
    ghost var pushed: seq<string>
    ghost var shown: seq<string>

    constructor (blockSize: nat, blockCount: nat)
      ensures Valid() && View() == Initial(blockSize, blockCount) && fresh(Parts())
    {
      pool := new MemoryPool(blockSize, blockCount);
      frames := new FrameQueue();
      producer, frameNo, consumer, running, mainPc := AtHead, 0, Popping(None), true, 0;
      pushed, shown := [], [];
    }

    ghost function Parts(): set<object> {
      {pool, frames} + set a | a in pool.storage
    }

    ghost predicate Valid()
      reads pool
    {
      pool.Valid()
    }

    ghost function View(): Demo
      requires Valid()
      reads this, pool, Parts()
    {
      Demo(pool.blockSize, pool.Blocks(), pool.freeList, pool.inUseCount, pool.highWaterMark, pool.stop,
           frames.queue, frames.stop, producer, frameNo, consumer, running, mainPc, pushed, shown)
    }

    method Fill()
      requires Valid() && Shaped(View()) && producer.Filling?
      modifies this, Parts()
      ensures Valid() && View() == FillStep(old(View()))
    {
      var b := producer.b;
      var text := Text(frameNo);
      frameNo := frameNo + 1;
      producer := AtHead;
      if |text| > pool.blockSize {
        pool.Release(b);
        return;
      }
      pool.Write(b, text);
      frames.Push(b);
      pushed := pushed + [text];
    }

    // One step of the producer's thread.
    method Produce(spurious: nat)
      requires Valid() && Shaped(View())
      modifies this, Parts()
      ensures Valid() && View() == ProducerStep(old(View()))
    {
      match producer {
        case AtHead => producer := if running then Wanting else ProducerDone;
        case Wanting =>
          if pool.stop || pool.freeList != [] {
            var b := pool.AcquireNow(spurious);
            producer := if b.Some? then Filling(b.value) else ProducerDone;
          }
        case Filling(_) => Fill();
        case ProducerDone =>
      }
    }

    method GiveBack(held: Option<nat>)
      requires Valid() && (held.Some? ==> held.value < |pool.storage|)
      modifies pool
      ensures Valid() && View() == MemoryPoolModel.Release(old(View()), held)
    {
      if held.Some? { pool.Release(held.value); }
    }

    method PopNext()
      requires Valid() && Shaped(View()) && consumer.Popping?
      modifies this, pool, frames
      ensures Valid() && View() == ConsumerStep(old(View()))
    {
      var held := consumer.held;
      if !frames.stop && frames.queue == [] { return; }
      var b := frames.Pop();
      if b.Some? {
        GiveBack(held);
        consumer := Showing(b.value);
      } else {
        consumer := Exiting(held);
      }
    }

    // One step of the consumer's thread.
    method Consume()
      requires Valid() && Shaped(View())
      modifies this, pool, frames
      ensures Valid() && View() == ConsumerStep(old(View()))
    {
      match consumer {
        case Popping(_) => PopNext();
        case Showing(b) =>
          assert View().blocks[b] == Block(pool.storage[b][..], pool.sizes[b]);
          var payload := pool.storage[b][..pool.sizes[b]];
          shown := shown + [payload];
          consumer := Popping(Some(b));
        case Exiting(held) =>
          GiveBack(held);
          consumer := ConsumerDone;
        case ConsumerDone =>
      }
    }

    // One step of main after the threads have started.
    method ShutDown()
      requires Valid()
      modifies this, pool, frames
      ensures Valid() && View() == MainStep(old(View()))
    {
      match mainPc {
        case 0 => running, mainPc := false, 1;
        case 1 => if producer == ProducerDone { mainPc := 2; }
        case 2 =>
          frames.Shutdown();
          mainPc := 3;
        case 3 => if consumer == ConsumerDone { mainPc := 4; }
        case 4 =>
          pool.Shutdown();
          mainPc := 5;
        case _ =>
      }
    }

    method Execute(threads: seq<Thread>, spurious: nat)
      requires Valid() && View() == Initial(pool.blockSize, |pool.storage|)
      modifies this, Parts()
      ensures Valid() && Inv(old(View())) && View() == Run(old(View()), threads)
      ensures pool.highWaterMark == MostHeld(old(View()), threads)
      ensures mainPc >= 4 ==> shown == pushed == Fitting(pool.blockSize, frameNo) && pool.inUseCount == 0
    {
      hide Inv, Shaped, ProducerStep, ConsumerStep, MainStep, Initial, Fitting;
      ghost var s := View();
      InitialInv(pool.blockSize, |pool.storage|);
      var i := 0;
      while i < |threads|
        invariant 0 <= i <= |threads|
        invariant Valid() && View() == Run(s, threads[..i])
      {
        RunSnoc(s, threads[..i], threads[i]);
        assert threads[..i] + [threads[i]] == threads[..i + 1];
        match threads[i] {
          case ProducerThread => Produce(spurious);
          case ConsumerThread => Consume();
          case MainThread => ShutDown();
        }
        i := i + 1;
      }
      assert threads[..|threads|] == threads;
      HighWaterIsMostHeld(s, threads);
      MarkStartsAtZero(pool.blockSize, |pool.storage|);
      if mainPc >= 4 { AllSentAtTheEnd(pool.blockSize, |pool.storage|, threads); }
    }
  }

  lemma MarkStartsAtZero(blockSize: nat, count: nat)
    ensures Initial(blockSize, count).highWater == 0
  {
  }
}

// What every run of the pool and queue demonstration keeps, when it can never
// get stuck, and that its shutdown ends.
module MemoryPoolSafety {
  import opened Bytes
  import opened MemoryPoolModel

  // ---- Blocks -------------------------------------------------------------

  lemma {:induction false} IndicesOnce(count: nat, b: nat)
    ensures multiset(Indices(count))[b] == (if b < count then 1 else 0)
  {
    if count > 0 {
      IndicesOnce(count - 1, b);
      assert Indices(count) == Indices(count - 1) + [count - 1];
    } else {
      assert Indices(0) == [];
    }
  }

  lemma PayloadsAppend(blocks: seq<Block>, queue: seq<nat>, b: nat)
    ensures Payloads(blocks, queue + [b]) == Payloads(blocks, queue) + [TextIn(blocks, b)]
  {
  }

  lemma PayloadsHead(blocks: seq<Block>, queue: seq<nat>)
    requires queue != []
    ensures Payloads(blocks, queue) == [TextIn(blocks, queue[0])] + Payloads(blocks, queue[1..])
  {
  }

  // A change to a block nobody has in the queue or in hand is not seen.
  lemma UnsentKept(m: seq<Block>, n: seq<Block>, queue: seq<nat>, c: Consumer, b: nat)
    requires |n| == |m| && forall x :: 0 <= x < |m| && x != b ==> n[x] == m[x]
    requires b !in queue && c != Showing(b)
    ensures Unsent(n, queue, c) == Unsent(m, queue, c)
  {
    assert Payloads(n, queue) == Payloads(m, queue);
  }

  lemma PayloadsKept(m: seq<Block>, n: seq<Block>, queue: seq<nat>, b: nat)
    requires |n| == |m| && forall x :: 0 <= x < |m| && x != b ==> n[x] == m[x]
    requires b !in queue
    ensures Payloads(n, queue) == Payloads(m, queue)
  {
  }

  // What is held outside the consumer's hands.
  function Elsewhere(p: Producer, queue: seq<nat>): multiset<nat> {
    ProducerHolds(p) + multiset(queue)
  }

  lemma UseByConsumer(p: Producer, queue: seq<nat>, c: Consumer)
    ensures HeldByConsumer(c) == None ==> InUse(p, queue, c) == Elsewhere(p, queue)
    ensures HeldByConsumer(c).Some? ==>
              HeldByConsumer(c).value in InUse(p, queue, c)
              && InUse(p, queue, c) - multiset{HeldByConsumer(c).value} == Elsewhere(p, queue)
  {
  }

  lemma UseByProducer(p: Producer, queue: seq<nat>, c: Consumer)
    requires p.Filling?
    ensures p.b in InUse(p, queue, c)
    ensures forall q: Producer :: !q.Filling? ==> InUse(q, queue, c) == InUse(p, queue, c) - multiset{p.b}
  {
  }

  lemma UseAfterAcquire(queue: seq<nat>, c: Consumer, b: nat)
    ensures InUse(Filling(b), queue, c) == InUse(Wanting, queue, c) + multiset{b}
  {
  }

  lemma UseAfterPush(queue: seq<nat>, c: Consumer, b: nat)
    ensures InUse(AtHead, queue + [b], c) == InUse(Filling(b), queue, c)
  {
  }

  // Popping moves the front of the queue into the consumer's hands.
  lemma UseAfterPop(p: Producer, queue: seq<nat>)
    requires queue != []
    ensures InUse(p, queue[1..], Showing(queue[0])) == Elsewhere(p, queue)
  {
    assert queue == [queue[0]] + queue[1..];
  }

  // A block that is free, or held by one party, is nowhere else.
  lemma HeldOnce(s: Demo, b: nat)
    requires Counts(|s.blocks|, s.free, InUse(s.producer, s.queue, s.consumer), s.inUse, s.highWater)
    ensures b in s.free ==> b !in s.queue && HeldByConsumer(s.consumer) != Some(b)
    ensures s.producer == Filling(b) ==> b !in s.queue && HeldByConsumer(s.consumer) != Some(b)
    ensures HeldByConsumer(s.consumer) == Some(b) ==> b !in s.queue
  {
    IndicesOnce(|s.blocks|, b);
    var used := InUse(s.producer, s.queue, s.consumer);
    assert (multiset(s.free) + used)[b] <= 1;
    assert used[b] == ProducerHolds(s.producer)[b] + multiset(s.queue)[b] + OptionHolds(HeldByConsumer(s.consumer))[b];
  }

  // ---- The counters -------------------------------------------------------

  lemma AcquireCounts(count: nat, free: seq<nat>, used: multiset<nat>, inUse: nat, highWater: nat)
    requires Counts(count, free, used, inUse, highWater) && free != []
    ensures Counts(count, free[1..], used + multiset{free[0]}, inUse + 1, Max(highWater, inUse + 1))
  {
    assert free == [free[0]] + free[1..];
  }

  lemma ReleaseCounts(count: nat, free: seq<nat>, used: multiset<nat>, inUse: nat, highWater: nat, b: nat)
    requires Counts(count, free, used, inUse, highWater) && b in used
    ensures inUse > 0 && Counts(count, free + [b], used - multiset{b}, inUse - 1, highWater)
  {
    assert used == (used - multiset{b}) + multiset{b};
  }

  // What a release leaves alone.
  lemma ReleaseFrame(s: Demo, held: Option<nat>)
    requires Shaped(s) && (held.Some? ==> held.value < |s.blocks|)
    ensures var t := Release(s, held);
            t == s.(free := t.free, blocks := t.blocks, inUse := t.inUse) && |t.blocks| == |s.blocks|
            && Shaped(t)
            && forall x :: 0 <= x < |s.blocks| && Some(x) != held ==> t.blocks[x] == s.blocks[x]
  {
  }

  // ---- Steps --------------------------------------------------------------

  lemma AcquireKeepsInv(s: Demo)
    requires Inv(s) && s.producer == Wanting && s.free != [] && !s.poolStop
    ensures Inv(ProducerStep(s))
  {
    hide Counts, Unsent, Fitting, Max, Payload, InUse;
    var t, b := ProducerStep(s), s.free[0];
    HeldOnce(s, b);
    AcquireCounts(|s.blocks|, s.free, InUse(s.producer, s.queue, s.consumer), s.inUse, s.highWater);
    UseAfterAcquire(s.queue, s.consumer, b);
    UnsentKept(s.blocks, t.blocks, s.queue, s.consumer, b);
  }

  lemma GiveUpKeepsInv(s: Demo)
    requires Inv(s) && s.producer.Filling? && |Text(s.frameNo)| > s.blockSize
    ensures Inv(FillStep(s))
  {
    hide Counts, Unsent, Text, Payload, Release, InUse;
    var b, u := s.producer.b, s.(frameNo := s.frameNo + 1, producer := AtHead);
    var used := InUse(s.producer, s.queue, s.consumer);
    HeldOnce(s, b);
    ReleaseFrame(u, Some(b));
    UseByProducer(s.producer, s.queue, s.consumer);
    ReleaseCounts(|s.blocks|, s.free, used, s.inUse, s.highWater, b);
    UnsentKept(s.blocks, FillStep(s).blocks, s.queue, s.consumer, b);
    GiveUpCounts(s);
  }

  lemma GiveUpCounts(s: Demo)
    requires Shaped(s) && s.producer.Filling? && |Text(s.frameNo)| > s.blockSize
    ensures var t := FillStep(s);
            t.free == s.free + [s.producer.b] && t.inUse == (if s.inUse > 0 then s.inUse - 1 else 0)
  {
  }

  lemma FilledText(block: Block, text: string)
    requires |text| <= |block.data|
    ensures Payload(Filled(block, text)) == text && |Filled(block, text).data| == |block.data|
  {
  }

  lemma FillKeepsInv(s: Demo)
    requires Inv(s) && s.producer.Filling? && |Text(s.frameNo)| <= s.blockSize
    ensures Inv(FillStep(s))
  {
    hide Counts, Text, Payload, Payloads, Filled, InUse;
    var t, b, text := FillStep(s), s.producer.b, Text(s.frameNo);
    HeldOnce(s, b);
    FilledText(s.blocks[b], text);
    FilledShape(s.blocks[b], text);
    UseAfterPush(s.queue, s.consumer, b);
    UnsentKept(s.blocks, t.blocks, s.queue, s.consumer, b);
    PayloadsAppend(t.blocks, s.queue, b);
    assert Unsent(t.blocks, t.queue, t.consumer) == Unsent(s.blocks, s.queue, s.consumer) + [text];
  }

  lemma FilledShape(block: Block, text: string)
    requires |text| <= |block.data|
    ensures Filled(block, text).size == |text|
  {
  }

  lemma ProducerKeepsInv(s: Demo)
    requires Inv(s)
    ensures Inv(ProducerStep(s))
  {
    hide Counts, Unsent, Fitting, FillStep, Payload;
    match s.producer {
      case Filling(_) =>
        if |Text(s.frameNo)| <= s.blockSize { FillKeepsInv(s); } else { GiveUpKeepsInv(s); }
      case Wanting =>
        if s.free != [] && !s.poolStop {
          AcquireKeepsInv(s);
        } else {
          assert InUse(Wanting, s.queue, s.consumer) == InUse(ProducerDone, s.queue, s.consumer);
        }
      case AtHead =>
        assert forall p :: p == Wanting || p == ProducerDone ==> InUse(p, s.queue, s.consumer) == InUse(AtHead, s.queue, s.consumer);
      case ProducerDone =>
    }
  }

  lemma ReleaseHeld(s: Demo, held: Option<nat>)
    requires Inv(s) && HeldByConsumer(s.consumer) == held
    ensures var t := Release(s, held);
            t == s.(free := t.free, blocks := t.blocks, inUse := t.inUse) && |t.blocks| == |s.blocks| && Shaped(t)
            && Counts(|t.blocks|, t.free, Elsewhere(s.producer, s.queue), t.inUse, t.highWater)
            && Payloads(t.blocks, s.queue) == Payloads(s.blocks, s.queue)
  {
    hide Counts, Unsent, Fitting, Payload, Text, InUse, Elsewhere, Payloads;
    var used := InUse(s.producer, s.queue, s.consumer);
    ReleaseFrame(s, held);
    UseByConsumer(s.producer, s.queue, s.consumer);
    if held.Some? {
      HeldOnce(s, held.value);
      ReleaseCounts(|s.blocks|, s.free, used, s.inUse, s.highWater, held.value);
      PayloadsKept(s.blocks, Release(s, held).blocks, s.queue, held.value);
    }
  }

  lemma PopKeepsInv(s: Demo)
    requires Inv(s) && s.consumer.Popping? && s.queue != []
    ensures Inv(ConsumerStep(s))
  {
    hide Counts, Fitting, Payload, Release, Payloads, Text, InUse, Elsewhere, TextIn;
    ReleaseHeld(s, s.consumer.held);
    PayloadsHead(ConsumerStep(s).blocks, s.queue);
    UseAfterPop(s.producer, s.queue);
  }

  lemma ShowKeepsInv(s: Demo)
    requires Inv(s) && s.consumer.Showing?
    ensures Inv(ConsumerStep(s))
  {
    hide Counts, Fitting, Payload, Payloads, Text, InUse;
    UseByConsumer(s.producer, s.queue, s.consumer);
    SameUse(s.producer, s.queue, s.consumer, ConsumerStep(s).consumer);
  }

  lemma SameUse(p: Producer, queue: seq<nat>, c: Consumer, d: Consumer)
    requires HeldByConsumer(c) == HeldByConsumer(d)
    ensures InUse(p, queue, c) == InUse(p, queue, d)
  {
  }

  lemma ConsumerKeepsInv(s: Demo)
    requires Inv(s)
    ensures Inv(ConsumerStep(s))
  {
    hide Counts, Fitting, Payload, Release, Payloads, Text, InUse, Elsewhere;
    var t := ConsumerStep(s);
    match s.consumer {
      case Popping(held) =>
        if s.queue != [] {
          PopKeepsInv(s);
        } else {
          SameUse(s.producer, s.queue, s.consumer, t.consumer);
        }
      case Showing(b) => ShowKeepsInv(s);
      case Exiting(held) =>
        ReleaseHeld(s, held);
        UseByConsumer(s.producer, s.queue, ConsumerDone);
      case ConsumerDone =>
    }
  }

  lemma MainKeepsInv(s: Demo)
    requires Inv(s)
    ensures Inv(MainStep(s))
  {
    hide Counts, Fitting, Payload, Unsent, InUse;
  }

  lemma StepKeepsInv(s: Demo, t: Thread)
    requires Inv(s)
    ensures Inv(Step(s, t))
  {
    hide Inv, ProducerStep, ConsumerStep, MainStep;
    InvShaped(s);
    match t {
      case ProducerThread => ProducerKeepsInv(s);
      case ConsumerThread => ConsumerKeepsInv(s);
      case MainThread => MainKeepsInv(s);
    }
  }

  lemma InvShaped(s: Demo)
    requires Inv(s)
    ensures Shaped(s)
  {
  }

  lemma InitialInv(blockSize: nat, count: nat)
    ensures Inv(Initial(blockSize, count))
  {
    var s := Initial(blockSize, count);
    assert s.free == Indices(count);
    assert InUse(s.producer, s.queue, s.consumer) == multiset{};
    assert Unsent(s.blocks, s.queue, s.consumer) == [];
  }

  // ---- Runs ---------------------------------------------------------------

  ghost function Run(s: Demo, threads: seq<Thread>): Demo
    requires Inv(s)
    decreases |threads|
  {
    if threads == [] then s
    else
      StepKeepsInv(s, threads[0]);
      Run(Step(s, threads[0]), threads[1..])
  }

  lemma ProducerKeepsSizes(s: Demo)
    requires Shaped(s)
    ensures ProducerStep(s).blockSize == s.blockSize && |ProducerStep(s).blocks| == |s.blocks|
  {
    hide Text, Max, Payload, Filled;
  }

  lemma ConsumerKeepsSizes(s: Demo)
    requires Shaped(s)
    ensures ConsumerStep(s).blockSize == s.blockSize && |ConsumerStep(s).blocks| == |s.blocks|
  {
    hide Payload;
  }

  lemma StepKeepsSizes(s: Demo, t: Thread)
    requires Shaped(s)
    ensures Step(s, t).blockSize == s.blockSize && |Step(s, t).blocks| == |s.blocks|
  {
    hide ProducerStep, ConsumerStep, Shaped;
    ProducerKeepsSizes(s);
    ConsumerKeepsSizes(s);
  }

  lemma {:induction false} RunKeepsInv(s: Demo, threads: seq<Thread>)
    requires Inv(s)
    ensures Inv(Run(s, threads))
    ensures Run(s, threads).blockSize == s.blockSize && |Run(s, threads).blocks| == |s.blocks|
    decreases |threads|
  {
    hide Inv, Step;
    if threads != [] {
      InvShaped(s);
      StepKeepsInv(s, threads[0]);
      StepKeepsSizes(s, threads[0]);
      RunKeepsInv(Step(s, threads[0]), threads[1..]);
    }
  }

  lemma {:induction false} RunSnoc(s: Demo, threads: seq<Thread>, t: Thread)
    requires Inv(s)
    ensures Inv(Run(s, threads)) && Shaped(Run(s, threads))
    ensures Run(s, threads + [t]) == Step(Run(s, threads), t)
    decreases |threads|
  {
    hide Inv, Step, Shaped;
    RunKeepsInv(s, threads);
    InvShaped(Run(s, threads));
    InvShaped(s);
    if threads == [] {
      assert ([] + [t])[1..] == [];
    } else {
      StepKeepsInv(s, threads[0]);
      RunSnoc(Step(s, threads[0]), threads[1..], t);
      assert (threads + [t])[1..] == threads[1..] + [t];
    }
  }

  ghost predicate Reachable(blockSize: nat, count: nat, s: Demo) {
    Inv(Initial(blockSize, count)) && exists threads :: Run(Initial(blockSize, count), threads) == s
  }

  lemma ReachableInv(blockSize: nat, count: nat, s: Demo)
    requires Reachable(blockSize, count, s)
    ensures Inv(s) && s.blockSize == blockSize && |s.blocks| == count
  {
    hide Inv, Run;
    var threads :| Run(Initial(blockSize, count), threads) == s;
    RunKeepsInv(Initial(blockSize, count), threads);
  }

  lemma ReachStep(blockSize: nat, count: nat, s: Demo, t: Thread)
    requires Reachable(blockSize, count, s)
    ensures Shaped(s) && Reachable(blockSize, count, Step(s, t))
  {
    hide Inv, Run, Step, Shaped;
    var threads :| Run(Initial(blockSize, count), threads) == s;
    RunSnoc(Initial(blockSize, count), threads, t);
  }

  lemma InitialReachable(blockSize: nat, count: nat)
    ensures Reachable(blockSize, count, Initial(blockSize, count))
  {
    hide Inv;
    InitialInv(blockSize, count);
    assert Run(Initial(blockSize, count), []) == Initial(blockSize, count);
  }

  // ---- Deadlock -----------------------------------------------------------

  // Each thread waits for something only the other could bring about.
  ghost predicate Deadlocked(s: Demo) {
    s.producer == Wanting && s.free == [] && !s.poolStop
    && s.consumer.Popping? && s.queue == [] && !s.queueStop
  }

  lemma {:induction false} NothingFits(blockSize: nat, n: nat)
    requires blockSize < |Text(0)|
    ensures Fitting(blockSize, n) == []
  {
    if n > 0 { NothingFits(blockSize, n - 1); }
  }

  // Stuck means that the consumer's last buffer is the only one.
  lemma DeadlockNeedsSmallPool(s: Demo)
    requires Inv(s) && Deadlocked(s)
    ensures |s.blocks| <= 1 && (|s.blocks| == 1 ==> |Text(0)| <= s.blockSize)
  {
    hide Text, Fitting, Shaped, Payload;
    var used := InUse(s.producer, s.queue, s.consumer);
    assert |used| <= 1;
    IndicesSize(|s.blocks|);
    assert multiset(s.free) + used == used;
    if |s.blocks| == 1 && s.blockSize < |Text(0)| {
      NothingFits(s.blockSize, s.frameNo);
    }
  }

  lemma IndicesSize(count: nat)
    ensures |multiset(Indices(count))| == count
  {
  }

  lemma NoBlockDeadlocks(blockSize: nat) returns (t: Demo)
    ensures Reachable(blockSize, 0, t) && Deadlocked(t)
  {
    hide Reachable, Inv;
    InitialReachable(blockSize, 0);
    ReachStep(blockSize, 0, Initial(blockSize, 0), ProducerThread);
    t := Step(Initial(blockSize, 0), ProducerThread);
  }

  lemma OneBlockDeadlocks(blockSize: nat) returns (t: Demo)
    requires |Text(0)| <= blockSize
    ensures Reachable(blockSize, 1, t) && Deadlocked(t)
  {
    hide Reachable, Inv, Text;
    InitialReachable(blockSize, 1);
    var s0 := Initial(blockSize, 1);
    ReachStep(blockSize, 1, s0, ProducerThread);
    var s1 := Step(s0, ProducerThread);
    ReachStep(blockSize, 1, s1, ProducerThread);
    var s2 := Step(s1, ProducerThread);
    ReachStep(blockSize, 1, s2, ProducerThread);
    var s3 := Step(s2, ProducerThread);
    ReachStep(blockSize, 1, s3, ConsumerThread);
    var s4 := Step(s3, ConsumerThread);
    ReachStep(blockSize, 1, s4, ConsumerThread);
    var s5 := Step(s4, ConsumerThread);
    ReachStep(blockSize, 1, s5, ProducerThread);
    t := Step(s5, ProducerThread);
  }

  // Main result: the demonstration can never get stuck exactly when the pool
  // has two blocks, or a single block that no frame fits.
  lemma NeverDeadlocksIff(blockSize: nat, count: nat)
    ensures (forall s :: Reachable(blockSize, count, s) ==> !Deadlocked(s))
            <==> count >= 2 || (count == 1 && blockSize < |Text(0)|)
  {
    hide Reachable, Inv, Deadlocked, Text;
    if count == 0 {
      var s := NoBlockDeadlocks(blockSize);
    } else if count == 1 && |Text(0)| <= blockSize {
      var s := OneBlockDeadlocks(blockSize);
    } else {
      forall s | Reachable(blockSize, count, s) ensures !Deadlocked(s) {
        ReachableInv(blockSize, count, s);
        if Deadlocked(s) { DeadlockNeedsSmallPool(s); }
      }
    }
  }

  // ---- Shutdown -----------------------------------------------------------

  // Main result: when main has come through its joins, every frame pushed has
  // been sent, in order, every buffer is back, and none counts as in use.
  lemma AllSentAtTheEnd(blockSize: nat, count: nat, threads: seq<Thread>)
    requires Inv(Initial(blockSize, count)) && Run(Initial(blockSize, count), threads).mainPc >= 4
    ensures var s := Run(Initial(blockSize, count), threads);
            s.shown == s.pushed == Fitting(blockSize, s.frameNo)
            && s.inUse == 0 && multiset(s.free) == multiset(Indices(count))
  {
    var s := Run(Initial(blockSize, count), threads);
    RunKeepsInv(Initial(blockSize, count), threads);
    assert InUse(s.producer, s.queue, s.consumer) == multiset{};
    assert Unsent(s.blocks, s.queue, s.consumer) == [];
  }

  function ProducerLeft(p: Producer): nat {
    match p
    case Wanting => 5
    case Filling(_) => 4
    case AtHead => 1
    case ProducerDone => 0
  }

  function ConsumerLeft(c: Consumer): nat {
    match c
    case Popping(_) => 2
    case Showing(_) => 3
    case Exiting(_) => 1
    case ConsumerDone => 0
  }

  // What is left to do once main has cleared the flag.
  function Left(s: Demo): nat {
    ProducerLeft(s.producer) + 2 * |s.queue| + ConsumerLeft(s.consumer) + (if s.mainPc <= 5 then 5 - s.mainPc else 0)
  }

  lemma StepNeverUndoes(s: Demo, t: Thread)
    requires Inv(s) && !s.running
    ensures Shaped(s) && (Step(s, t) == s || Left(Step(s, t)) < Left(s))
  {
    hide Counts, Unsent, Fitting, Text, Payload, Filled, InUse, Max, HeldByConsumer;
  }

  // Main result: after main clears the flag, no step undoes progress, and
  // until main is through some thread can make some - with two blocks.
  lemma ShutdownEnds(s: Demo)
    requires Inv(s) && !s.running && |s.blocks| >= 2
    ensures Shaped(s)
    ensures forall t :: Step(s, t) == s || Left(Step(s, t)) < Left(s)
    ensures s.mainPc < 5 ==> exists t :: Step(s, t) != s
  {
    hide Left, Counts, Unsent, Fitting, Text, Payload, Filled, InUse;
    forall t ensures Step(s, t) == s || Left(Step(s, t)) < Left(s) {
      StepNeverUndoes(s, t);
    }
    if Deadlocked(s) { DeadlockNeedsSmallPool(s); }
    if s.mainPc == 1 && s.producer != ProducerDone {
      if s.producer == Wanting && s.free == [] {
        assert Step(s, ConsumerThread) != s;
      } else {
        ProducerMoves(s);
        assert Step(s, ProducerThread) != s;
      }
    } else if s.mainPc == 3 && s.consumer != ConsumerDone {
      assert Step(s, ConsumerThread) != s;
    } else if s.mainPc < 5 {
      assert Step(s, MainThread) != s;
    }
  }

  lemma ProducerMoves(s: Demo)
    requires Shaped(s) && s.producer != ProducerDone && !(s.producer == Wanting && s.free == [] && !s.poolStop)
    ensures ProducerStep(s).producer != s.producer
  {
  }

  // ---- The high-water mark ------------------------------------------------

  function Held(s: Demo): nat {
    |InUse(s.producer, s.queue, s.consumer)|
  }

  // The most buffers held at once, over all the states of a run.
  ghost function MostHeld(s: Demo, threads: seq<Thread>): nat
    requires Inv(s)
    decreases |threads|
  {
    if threads == [] then Held(s)
    else
      StepKeepsInv(s, threads[0]);
      Max(Held(s), MostHeld(Step(s, threads[0]), threads[1..]))
  }

  lemma StepMark(s: Demo, t: Thread)
    requires Inv(s)
    ensures Shaped(s) && Inv(Step(s, t)) && Step(s, t).highWater == Max(s.highWater, Held(Step(s, t)))
  {
    hide Unsent, Fitting, Text, Payload, Filled, InUse;
    StepKeepsInv(s, t);
  }

  // Main result: the mark is the maximum of the buffers in use over the run.
  lemma {:induction false} HighWaterIsMostHeld(s: Demo, threads: seq<Thread>)
    requires Inv(s)
    ensures Run(s, threads).highWater == Max(s.highWater, MostHeld(s, threads))
    decreases |threads|
  {
    hide Step, Held;
    if threads == [] {
      HeldCounted(s);
    } else {
      HeldCounted(s);
      StepMark(s, threads[0]);
      HighWaterIsMostHeld(Step(s, threads[0]), threads[1..]);
    }
  }

  lemma HeldCounted(s: Demo)
    requires Inv(s)
    ensures s.inUse == Held(s) <= s.highWater
  {
  }
}

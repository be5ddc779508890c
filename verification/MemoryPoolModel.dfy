// The pool and queue demonstration as one system: a producer filling pooled
// buffers, a consumer that keeps its last buffer until the next pop, and main
// with its shutdown order.
module MemoryPoolModel {
  import opened Bytes
  import opened Decimal

  // A pooled buffer: its bytes, and how many of them are the frame.
  datatype Block = Block(data: seq<char>, size: nat)

  datatype Producer = AtHead | Wanting | Filling(b: nat) | ProducerDone
  datatype Consumer = Popping(held: Option<nat>) | Showing(b: nat) | Exiting(held: Option<nat>) | ConsumerDone

  datatype Demo = Demo(
    blockSize: nat,
    // the pool
    blocks: seq<Block>, free: seq<nat>, inUse: nat, highWater: nat, poolStop: bool,
    // the queue
    queue: seq<nat>, queueStop: bool,
    producer: Producer, frameNo: nat, consumer: Consumer,
    running: bool, mainPc: nat,
    // history: payloads pushed and sent
    pushed: seq<string>, shown: seq<string>)

  function Initial(blockSize: nat, count: nat): Demo {
    Demo(blockSize, seq(count, _ => Block(seq(blockSize, _ => '\0'), 0)), seq(count, i => i), 0, 0, false,
         [], false, AtHead, 0, Popping(None), true, 0, [], [])
  }

  function Text(n: nat): string {
    "frame_" + Print(n)
  }

  function Max(a: nat, b: nat): nat {
    if a > b then a else b
  }

  ghost predicate Shaped(s: Demo) {
    && (forall b :: 0 <= b < |s.blocks| ==> |s.blocks[b].data| == s.blockSize && s.blocks[b].size <= s.blockSize)
    && (forall i :: 0 <= i < |s.free| ==> s.free[i] < |s.blocks|)
    && (forall i :: 0 <= i < |s.queue| ==> s.queue[i] < |s.blocks|)
    && (s.producer.Filling? ==> s.producer.b < |s.blocks|)
    && (s.consumer.Showing? ==> s.consumer.b < |s.blocks|)
    && (forall b :: HeldByConsumer(s.consumer) == Some(b) ==> b < |s.blocks|)
  }

  function HeldByConsumer(c: Consumer): Option<nat> {
    match c
    case Popping(held) => held
    case Showing(b) => Some(b)
    case Exiting(held) => held
    case ConsumerDone => None
  }

  // acquire, once it may go ahead: take the front, count it in, note the mark.
  function Acquire(s: Demo): Demo
    requires s.free != [] && s.free[0] < |s.blocks|
  {
    s.(free := s.free[1..], blocks := s.blocks[s.free[0] := s.blocks[s.free[0]].(size := 0)],
       inUse := s.inUse + 1, highWater := Max(s.highWater, s.inUse + 1))
  }

  // release, run by the last shared pointer's destruction.
  function Release(s: Demo, held: Option<nat>): Demo
    requires held.Some? ==> held.value < |s.blocks|
  {
    match held
    case None => s
    case Some(b) =>
      s.(free := s.free + [b], blocks := s.blocks[b := s.blocks[b].(size := 0)],
         inUse := if s.inUse > 0 then s.inUse - 1 else 0)
  }

  function Payload(block: Block): string
    requires block.size <= |block.data|
  {
    block.data[..block.size]
  }

  function Filled(block: Block, text: string): Block
    requires |text| <= |block.data|
  {
    Block(text + block.data[|text|..], |text|)
  }

  // A frame too long for a block is given up, buffer and all.
  function FillStep(s: Demo): Demo
    requires Shaped(s) && s.producer.Filling?
  {
    var b, text := s.producer.b, Text(s.frameNo);
    var t := s.(frameNo := s.frameNo + 1, producer := AtHead);
    if |text| > s.blockSize then Release(t, Some(b))
    else t.(blocks := s.blocks[b := Filled(s.blocks[b], text)], queue := s.queue + [b], pushed := s.pushed + [text])
  }

  function ProducerStep(s: Demo): Demo
    requires Shaped(s)
  {
    match s.producer
    case AtHead => s.(producer := if s.running then Wanting else ProducerDone)
    case Wanting =>
      if s.poolStop then s.(producer := ProducerDone)
      else if s.free == [] then s
      else Acquire(s).(producer := Filling(s.free[0]))
    case Filling(_) => FillStep(s)
    case ProducerDone => s
  }

  // pop assigns over the buffer still held, and that is when it goes back.
  function ConsumerStep(s: Demo): Demo
    requires Shaped(s)
  {
    match s.consumer
    case Popping(held) =>
      if s.queue != [] then Release(s, held).(queue := s.queue[1..], consumer := Showing(s.queue[0]))
      else if s.queueStop then s.(consumer := Exiting(held))
      else s
    case Showing(b) => s.(shown := s.shown + [Payload(s.blocks[b])], consumer := Popping(Some(b)))
    case Exiting(held) => Release(s, held).(consumer := ConsumerDone)
    case ConsumerDone => s
  }

  function MainStep(s: Demo): Demo {
    if s.mainPc == 0 then s.(running := false, mainPc := 1)
    else if s.mainPc == 1 then (if s.producer == ProducerDone then s.(mainPc := 2) else s)
    else if s.mainPc == 2 then s.(queueStop := true, mainPc := 3)
    else if s.mainPc == 3 then (if s.consumer == ConsumerDone then s.(mainPc := 4) else s)
    else if s.mainPc == 4 then s.(poolStop := true, mainPc := 5)
    else s
  }

  datatype Thread = ProducerThread | ConsumerThread | MainThread

  function Step(s: Demo, t: Thread): Demo
    requires Shaped(s)
  {
    match t
    case ProducerThread => ProducerStep(s)
    case ConsumerThread => ConsumerStep(s)
    case MainThread => MainStep(s)
  }

  // ---- The invariant ------------------------------------------------------

  function Indices(count: nat): seq<nat> {
    seq(count, i => i)
  }

  function ProducerHolds(p: Producer): multiset<nat> {
    if p.Filling? then multiset{p.b} else multiset{}
  }

  function OptionHolds(o: Option<nat>): multiset<nat> {
    if o.Some? then multiset{o.value} else multiset{}
  }

  function InUse(p: Producer, queue: seq<nat>, c: Consumer): multiset<nat> {
    ProducerHolds(p) + multiset(queue) + OptionHolds(HeldByConsumer(c))
  }

  function TextIn(blocks: seq<Block>, b: nat): string {
    if b < |blocks| && blocks[b].size <= |blocks[b].data| then Payload(blocks[b]) else ""
  }

  function Payloads(blocks: seq<Block>, queue: seq<nat>): (r: seq<string>)
    ensures |r| == |queue|
  {
    seq(|queue|, i requires 0 <= i < |queue| => TextIn(blocks, queue[i]))
  }

  // Pushed but not yet sent, oldest first.
  function Unsent(blocks: seq<Block>, queue: seq<nat>, c: Consumer): seq<string> {
    (if c.Showing? then [TextIn(blocks, c.b)] else []) + Payloads(blocks, queue)
  }

  // The frames short enough for a block, of the first n.
  function Fitting(blockSize: nat, n: nat): seq<string> {
    if n == 0 then []
    else Fitting(blockSize, n - 1) + (if |Text(n - 1)| <= blockSize then [Text(n - 1)] else [])
  }

  // Every buffer is free or held, once; the counters say how many are held.
  ghost predicate Counts(count: nat, free: seq<nat>, used: multiset<nat>, inUse: nat, highWater: nat) {
    && multiset(free) + used == multiset(Indices(count))
    && inUse == |used| <= highWater
  }

  // Where main stands says what the threads have left.
  ghost predicate InOrder(s: Demo) {
    && s.mainPc <= 5
    && (s.running <==> s.mainPc == 0)
    && (s.producer == ProducerDone ==> s.mainPc >= 1)
    && (s.mainPc >= 2 ==> s.producer == ProducerDone)
    && (s.queueStop <==> s.mainPc >= 3)
    && (s.consumer.Exiting? || s.consumer.ConsumerDone? ==> s.mainPc >= 3 && s.queue == [])
    && (s.mainPc >= 4 ==> s.consumer == ConsumerDone)
    && (s.poolStop <==> s.mainPc >= 5)
  }

  ghost predicate Inv(s: Demo) {
    && Shaped(s)
    && Counts(|s.blocks|, s.free, InUse(s.producer, s.queue, s.consumer), s.inUse, s.highWater)
    && InOrder(s)
    && s.pushed == s.shown + Unsent(s.blocks, s.queue, s.consumer)
    && s.pushed == Fitting(s.blockSize, s.frameNo)
    && (HeldByConsumer(s.consumer).Some? && !s.consumer.Showing? ==> s.shown != [])
  }
}

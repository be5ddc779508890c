// The reconstruction pipeline as one system: a producer, any number of workers
// and an accumulator between two bounded queues, and main's shutdown order.
module PipelineModel {
  import opened Bytes

  datatype Packet = Packet(frameId: int, stageX: real, stageY: real, image: seq<byte>)
  datatype Spot = Spot(id: int, offsetX: real, offsetY: real)
  datatype Signal = Signal(frameId: int, spotId: int, sampleX: real, sampleY: real, intensity: real)

  // What the pipeline is run with: the spots, and image decoding and the
  // measurement of one spot's intensity, both taken as given functions.
  datatype Setup = Setup(spots: seq<Spot>, decodes: seq<byte> -> bool, measure: (seq<byte>, Spot) -> real)

  // One spot's signal: where the stage was, displaced by the spot's offset.
  function SignalOf(u: Setup, p: Packet, spot: Spot): Signal {
    Signal(p.frameId, spot.id, p.stageX + spot.offsetX, p.stageY + spot.offsetY, u.measure(p.image, spot))
  }

  function FrameSignals(u: Setup, p: Packet): (r: seq<Signal>)
    ensures |r| == |u.spots|
  {
    seq(|u.spots|, i requires 0 <= i < |u.spots| => SignalOf(u, p, u.spots[i]))
  }

  datatype Producer = Receiving | Holding(packet: Packet) | Ending | ProducerDone
  datatype Worker = Popping | Working(packet: Packet) | Pushing(block: seq<Signal>) | WorkerDone
  datatype Accumulator = Waiting | Adding(block: seq<Signal>) | AccumulatorDone

  datatype Line = Line(
    rawSize: nat, signalSize: nat,
    producer: Producer, raw: seq<Packet>, rawFinished: bool,
    workers: seq<Worker>, signals: seq<seq<Signal>>, signalsFinished: bool,
    accumulator: Accumulator, mainPc: nat,
    // what the accumulator has written out, and the blocks it came in
    allSignals: seq<Signal>, blocks: seq<seq<Signal>>,
    // history: the packets taken off the network
    received: seq<Packet>)

  function Initial(rawSize: nat, signalSize: nat, workers: nat): Line {
    Line(rawSize, signalSize, Receiving, [], false, seq(workers, _ => Popping), [], false, Waiting, 0, [], [], [])
  }

  // A packet comes in, or the stream ends; the push waits for room.
  function ProducerStep(s: Line, next: Option<Packet>): Line {
    match s.producer
    case Receiving =>
      if next.Some? then s.(producer := Holding(next.value), received := s.received + [next.value])
      else s.(producer := Ending)
    case Holding(p) =>
      if |s.raw| < s.rawSize then s.(producer := Receiving, raw := s.raw + [p]) else s
    case Ending => s.(producer := ProducerDone, rawFinished := true)
    case ProducerDone => s
  }

  function WorkerStep(s: Line, u: Setup, i: nat): Line
    requires i < |s.workers|
  {
    match s.workers[i]
    case Popping =>
      if s.raw != [] then s.(workers := s.workers[i := Working(s.raw[0])], raw := s.raw[1..])
      else if s.rawFinished then s.(workers := s.workers[i := WorkerDone])
      else s
    case Working(p) =>
      s.(workers := s.workers[i := if u.decodes(p.image) then Pushing(FrameSignals(u, p)) else Popping])
    case Pushing(b) =>
      if |s.signals| < s.signalSize then s.(workers := s.workers[i := Popping], signals := s.signals + [b]) else s
    case WorkerDone => s
  }

  function AccumulatorStep(s: Line): Line {
    match s.accumulator
    case Waiting =>
      if s.signals != [] then s.(accumulator := Adding(s.signals[0]), signals := s.signals[1..])
      else if s.signalsFinished then s.(accumulator := AccumulatorDone)
      else s
    case Adding(b) => s.(accumulator := Waiting, allSignals := s.allSignals + b, blocks := s.blocks + [b])
    case AccumulatorDone => s
  }

  predicate AllWorkersDone(s: Line) {
    forall i :: 0 <= i < |s.workers| ==> s.workers[i] == WorkerDone
  }

  // Join the producer, join the workers, finish the signal queue, join the rest.
  function MainStep(s: Line): Line {
    if s.mainPc == 0 then (if s.producer == ProducerDone then s.(mainPc := 1) else s)
    else if s.mainPc == 1 then (if AllWorkersDone(s) then s.(mainPc := 2) else s)
    else if s.mainPc == 2 then s.(signalsFinished := true, mainPc := 3)
    else if s.mainPc == 3 then (if s.accumulator == AccumulatorDone then s.(mainPc := 4) else s)
    else s
  }

  datatype Choice = ProducerMoves(next: Option<Packet>) | WorkerMoves(i: nat) | AccumulatorMoves | MainMoves

  function Step(s: Line, u: Setup, c: Choice): Line {
    match c
    case ProducerMoves(next) => ProducerStep(s, next)
    case WorkerMoves(i) => if i < |s.workers| then WorkerStep(s, u, i) else s
    case AccumulatorMoves => AccumulatorStep(s)
    case MainMoves => MainStep(s)
  }

  function Run(s: Line, u: Setup, choices: seq<Choice>): Line
    decreases |choices|
  {
    if choices == [] then s else Run(Step(s, u, choices[0]), u, choices[1..])
  }

  // ---- The sequential program ---------------------------------------------

  // One block per decodable packet, in order of arrival.
  function SequentialBlocks(u: Setup, packets: seq<Packet>): seq<seq<Signal>> {
    if packets == [] then []
    else
      var p := packets[|packets| - 1];
      SequentialBlocks(u, packets[..|packets| - 1]) + (if u.decodes(p.image) then [FrameSignals(u, p)] else [])
  }

  function Flatten<T>(blocks: seq<seq<T>>): seq<T> {
    if blocks == [] then [] else Flatten(blocks[..|blocks| - 1]) + blocks[|blocks| - 1]
  }

  // ---- The invariant: no block is lost or made up -------------------------

  // How often a block occurs in a list of blocks.
  function Count(blocks: seq<seq<Signal>>, b: seq<Signal>): nat {
    multiset(blocks)[b]
  }

  // How often these packets yield a block.
  function Yield(u: Setup, packets: seq<Packet>, b: seq<Signal>): nat {
    Count(SequentialBlocks(u, packets), b)
  }

  function HeldBy(u: Setup, w: Worker, b: seq<Signal>): nat {
    match w
    case Working(p) => Yield(u, [p], b)
    case Pushing(block) => Count([block], b)
    case _ => 0
  }

  function HeldByAll(u: Setup, workers: seq<Worker>, b: seq<Signal>): nat {
    if workers == [] then 0
    else HeldByAll(u, workers[..|workers| - 1], b) + HeldBy(u, workers[|workers| - 1], b)
  }

  function HeldByProducer(u: Setup, p: Producer, b: seq<Signal>): nat {
    if p.Holding? then Yield(u, [p.packet], b) else 0
  }

  function HeldByAccumulator(a: Accumulator, b: seq<Signal>): nat {
    if a.Adding? then Count([a.block], b) else 0
  }

  // All the places a block can be.
  function Places(s: Line, u: Setup, b: seq<Signal>): nat {
    HeldByProducer(u, s.producer, b) + Yield(u, s.raw, b) + HeldByAll(u, s.workers, b) + Count(s.signals, b)
    + HeldByAccumulator(s.accumulator, b) + Count(s.blocks, b)
  }

  // Every block of every packet received is in exactly one of them.
  ghost predicate Conserved(s: Line, u: Setup) {
    forall b :: Places(s, u, b) == Yield(u, s.received, b)
  }

  // Who has ended says what the queues still hold.
  ghost predicate InOrder(s: Line) {
    && s.mainPc <= 4
    && (s.rawFinished <==> s.producer == ProducerDone)
    && (s.mainPc >= 1 ==> s.rawFinished)
    && (forall i :: 0 <= i < |s.workers| && s.workers[i] == WorkerDone ==> s.rawFinished && s.raw == [])
    && (s.mainPc >= 2 ==> AllWorkersDone(s))
    && (s.signalsFinished <==> s.mainPc >= 3)
    && (s.accumulator == AccumulatorDone ==> s.signalsFinished && s.signals == [])
    && (s.mainPc >= 4 ==> s.accumulator == AccumulatorDone)
  }

  ghost predicate Inv(s: Line, u: Setup) {
    && Conserved(s, u)
    && InOrder(s)
    && s.allSignals == Flatten(s.blocks)
    && |s.raw| <= s.rawSize && |s.signals| <= s.signalSize
  }
}

// The reconstruction program's own objects: the bounded queue, and the pipeline
// with its two image matrices, each method one atomic step of PipelineModel.
module ReconstructionPipeline {
  import opened Bytes
  import opened Bilinear
  import opened PipelineModel
  import opened PipelineSafety
  import opened PipelineHistory

  class BoundedQueue<T> {
    const maxSize: nat
    var queue: seq<T>
    var finished: bool

    constructor (maxSize: nat)
      ensures this.maxSize == maxSize && queue == [] && !finished
    {
      this.maxSize, queue, finished := maxSize, [], false;
    }

    // Once the wait for room is over.
    method Push(item: T)
      requires |queue| < maxSize
      modifies this
      ensures queue == old(queue) + [item] && finished == old(finished)
    {
      queue := queue + [item];
    }

    // Once the wait is over: nothing when empty and finished, else the front.
    method Pop() returns (item: Option<T>)
      requires queue != [] || finished
      modifies this
      ensures finished == old(finished)
      ensures old(queue) == [] ==> item == None && queue == []
      ensures old(queue) != [] ==> item == Some(old(queue)[0]) && queue == old(queue)[1..]
    {
      if queue == [] && finished { return None; }
      item := Some(queue[0]);
      queue := queue[1..];
    }

    method SetFinished()
      modifies this
      ensures finished && queue == old(queue)
    {
      finished := true;
    }
  }

  // A worker's loop over the spots of one decoded frame.
  method MeasureSpots(u: Setup, p: Packet) returns (frameSignals: seq<Signal>)
    ensures frameSignals == FrameSignals(u, p)
  {
    frameSignals := [];
    for i := 0 to |u.spots|
      invariant frameSignals == FrameSignals(u, p)[..i]
    {
      var spot := u.spots[i];
      frameSignals := frameSignals
        + [Signal(p.frameId, spot.id, p.stageX + spot.offsetX, p.stageY + spot.offsetY, u.measure(p.image, spot))];
    }
  }

  class Pipeline {
    const setup: Setup
    const rawQueue: BoundedQueue<Packet>
    const signalQueue: BoundedQueue<seq<Signal>>
    const accum: array2<real>
    const weight: array2<real>
    const workers: array<Worker>
    var producer: Producer
    var accumulator: Accumulator
    var mainPc: nat
    var allSignals: seq<Signal>
    ghost var blocks: seq<seq<Signal>>
    ghost var received: seq<Packet>

    constructor (setup: Setup, rawSize: nat, signalSize: nat, numWorkers: nat, rows: nat, cols: nat)
      ensures Valid() && View() == Initial(rawSize, signalSize, numWorkers) && this.setup == setup
      ensures accum.Length0 == rows && accum.Length1 == cols
      ensures fresh(Parts())
    {
      this.setup := setup;
      rawQueue := new BoundedQueue<Packet>(rawSize);
      signalQueue := new BoundedQueue<seq<Signal>>(signalSize);
      accum := new real[rows, cols]((_, _) => 0.0);
      weight := new real[rows, cols]((_, _) => 0.0);
      workers := new Worker[numWorkers](_ => Popping);
      producer, accumulator, mainPc, allSignals, blocks, received := Receiving, Waiting, 0, [], [], [];
    }

    ghost function Parts(): set<object> {
      {rawQueue, signalQueue, accum, weight, workers}
    }

    // The matrices hold exactly what the signals listed so far leave there.
    ghost predicate Valid()
      reads this, Parts()
    {
      accum != weight && Holds(accum, weight, Samples(allSignals))
    }

    ghost function View(): Line
      reads this, Parts()
    {
      Line(rawQueue.maxSize, signalQueue.maxSize, producer, rawQueue.queue, rawQueue.finished, workers[..],
           signalQueue.queue, signalQueue.finished, accumulator, mainPc, allSignals, blocks, received)
    }

    // One step of the network thread.
    method Receive(next: Option<Packet>)
      requires Valid()
      modifies this, rawQueue
      ensures Valid() && View() == ProducerStep(old(View()), next)
    {
      match producer {
        case Receiving =>
          if next.Some? {
            producer, received := Holding(next.value), received + [next.value];
          } else {
            producer := Ending;
          }
        case Holding(p) =>
          if |rawQueue.queue| < rawQueue.maxSize {
            rawQueue.Push(p);
            producer := Receiving;
          }
        case Ending =>
          rawQueue.SetFinished();
          producer := ProducerDone;
        case ProducerDone =>
      }
    }

    // One step of worker i.
    method Work(i: nat)
      requires Valid() && i < workers.Length
      modifies this, rawQueue, signalQueue, workers
      ensures Valid() && View() == WorkerStep(old(View()), setup, i)
    {
      match workers[i] {
        case Popping =>
          if rawQueue.queue != [] || rawQueue.finished {
            var p := rawQueue.Pop();
            workers[i] := if p.Some? then Working(p.value) else WorkerDone;
          }
        case Working(p) =>
          if setup.decodes(p.image) {
            var frameSignals := MeasureSpots(setup, p);
            workers[i] := Pushing(frameSignals);
          } else {
            workers[i] := Popping;
          }
        case Pushing(b) =>
          if |signalQueue.queue| < signalQueue.maxSize {
            signalQueue.Push(b);
            workers[i] := Popping;
          }
        case WorkerDone =>
      }
    }

    // One step of the accumulator thread.
    method Accumulate()
      requires Valid()
      modifies this, signalQueue, accum, weight
      ensures Valid() && View() == AccumulatorStep(old(View()))
    {
      match accumulator {
        case Waiting =>
          if signalQueue.queue != [] || signalQueue.finished {
            var b := signalQueue.Pop();
            accumulator := if b.Some? then Adding(b.value) else AccumulatorDone;
          }
        case Adding(b) =>
          AddSignals(accum, weight, Samples(b), Samples(allSignals));
          assert Samples(allSignals + b) == Samples(allSignals) + Samples(b);
          allSignals, blocks := allSignals + b, blocks + [b];
          accumulator := Waiting;
        case AccumulatorDone =>
      }
    }

    method JoinWorkers() returns (done: bool)
      ensures done == AllWorkersDone(View())
    {
      for i := 0 to workers.Length
        invariant forall k :: 0 <= k < i ==> workers[k] == WorkerDone
      {
        if workers[i] != WorkerDone { return false; }
      }
      return true;
    }

    // One step of main after the threads have started.
    method ShutDown()
      requires Valid()
      modifies this, signalQueue
      ensures Valid() && View() == MainStep(old(View()))
    {
      match mainPc {
        case 0 => if producer == ProducerDone { mainPc := 1; }
        case 1 =>
          var done := JoinWorkers();
          if done { mainPc := 2; }
        case 2 =>
          signalQueue.SetFinished();
          mainPc := 3;
        case 3 => if accumulator == AccumulatorDone { mainPc := 4; }
        case _ =>
      }
    }

    // The whole program under any scheduler: once the accumulator has left its
    // loop, the matrices hold what the frames that arrived leave there.
    method Execute(choices: seq<Choice>)
      requires Valid() && View() == Initial(rawQueue.maxSize, signalQueue.maxSize, workers.Length) && workers.Length >= 1
      modifies this, Parts()
      ensures Valid() && View() == Run(old(View()), setup, choices)
      ensures accumulator == AccumulatorDone ==>
                SameBlocks(View(), setup)
                && Shows(accum, weight, setup, ArrivedIn(old(View()), setup, choices))
    {
      hide Shows, ArrivedIn, ProducerStep, WorkerStep, AccumulatorStep, MainStep, Initial, Holds, SameBlocks;
      ghost var s := View();
      var i := 0;
      assert choices[0..] == choices;
      while i < |choices|
        invariant 0 <= i <= |choices|
        invariant Valid() && Run(s, setup, choices) == Run(View(), setup, choices[i..])
      {
        assert choices[i..][1..] == choices[i + 1..];
        match choices[i] {
          case ProducerMoves(next) => Receive(next);
          case WorkerMoves(k) => if k < workers.Length { Work(k); }
          case AccumulatorMoves => Accumulate();
          case MainMoves => ShutDown();
        }
        i := i + 1;
      }
      if accumulator == AccumulatorDone {
        ImageShows(rawQueue.maxSize, signalQueue.maxSize, workers.Length, setup, choices, accum, weight);
      }
    }
  }

  // What main does with the matrices after the last join.
  method Reconstruct(accum: array2<real>, weight: array2<real>, ghost samples: seq<Sample>) returns (recon: array2<real>)
    requires Holds(accum, weight, samples)
    ensures fresh(recon) && recon.Length0 == accum.Length0 && recon.Length1 == accum.Length1
    ensures forall y, x :: 0 <= y < recon.Length0 && 0 <= x < recon.Length1 ==> recon[y, x] == ReconAt(samples, x, y)
  {
    hide Bilinear.Quotient, ValueAt, WeightAt;
    recon := NormalizeByWeight(accum, weight);
  }

  // Every pixel holds what the decodable frames among these packets leave there.
  ghost predicate Shows(accum: array2<real>, weight: array2<real>, u: Setup, packets: seq<Packet>)
    requires weight.Length0 == accum.Length0 && weight.Length1 == accum.Length1
    reads accum, weight
  {
    forall y, x :: 0 <= y < accum.Length0 && 0 <= x < accum.Length1 ==>
      accum[y, x] == ImageValue(u, packets, x, y) && weight[y, x] == ImageWeight(u, packets, x, y)
  }

  // At every pixel at once.
  lemma ImageShows(rawSize: nat, signalSize: nat, workers: nat, u: Setup, choices: seq<Choice>,
                   accum: array2<real>, weight: array2<real>)
    requires workers >= 1 && Run(Initial(rawSize, signalSize, workers), u, choices).accumulator == AccumulatorDone
    requires Holds(accum, weight, Samples(Run(Initial(rawSize, signalSize, workers), u, choices).allSignals))
    ensures SameBlocks(Run(Initial(rawSize, signalSize, workers), u, choices), u)
            && Shows(accum, weight, u, ArrivedIn(Initial(rawSize, signalSize, workers), u, choices))
  {
    hide SameBlocks, Run, Samples, ArrivedIn, ImageValue, ImageWeight, Decodable, AllMeasured, Flatten;
    PipelineIsSequential(rawSize, signalSize, workers, u, choices, 0, 0);
    var s, arrived := Run(Initial(rawSize, signalSize, workers), u, choices),
                      ArrivedIn(Initial(rawSize, signalSize, workers), u, choices);
    forall y, x | 0 <= y < accum.Length0 && 0 <= x < accum.Length1
      ensures accum[y, x] == ImageValue(u, arrived, x, y) && weight[y, x] == ImageWeight(u, arrived, x, y)
    {
      assert accum[y, x] == ValueAt(Samples(s.allSignals), x, y) && weight[y, x] == WeightAt(Samples(s.allSignals), x, y);
      PipelineDelivers(rawSize, signalSize, workers, u, choices, x, y);
    }
  }
}

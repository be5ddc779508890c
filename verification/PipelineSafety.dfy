// The concurrent pipeline computes what the sequential program does: the same
// blocks, whole, in some order, and so the same image.
module PipelineSafety {
  import opened Bytes
  import opened Bilinear
  import opened PipelineModel

  // ---- Small facts --------------------------------------------------------

  lemma CountAppend(xs: seq<seq<Signal>>, ys: seq<seq<Signal>>, b: seq<Signal>)
    ensures Count(xs + ys, b) == Count(xs, b) + Count(ys, b)
  {
  }

  lemma CountNone(b: seq<Signal>)
    ensures Count([], b) == 0
  {
  }

  lemma YieldAppend(u: Setup, packets: seq<Packet>, p: Packet, b: seq<Signal>)
    ensures Yield(u, packets + [p], b) == Yield(u, packets, b) + Yield(u, [p], b)
  {
    hide Count;
    assert (packets + [p])[..|packets|] == packets;
    YieldOne(u, p, b);
    CountAppend(SequentialBlocks(u, packets), if u.decodes(p.image) then [FrameSignals(u, p)] else [], b);
  }

  lemma YieldOne(u: Setup, p: Packet, b: seq<Signal>)
    ensures Yield(u, [p], b) == Count(if u.decodes(p.image) then [FrameSignals(u, p)] else [], b)
    ensures Yield(u, [], b) == 0
  {
    hide Count;
    CountNone(b);
    assert [p][..0] == [];
    assert SequentialBlocks(u, []) == [];
    var own := if u.decodes(p.image) then [FrameSignals(u, p)] else [];
    assert [] + own == own;
  }

  lemma {:induction false} YieldHead(u: Setup, packets: seq<Packet>, b: seq<Signal>)
    requires packets != []
    ensures Yield(u, packets, b) == Yield(u, [packets[0]], b) + Yield(u, packets[1..], b)
  {
    hide Yield;
    if |packets| == 1 {
      assert packets == [packets[0]] && packets[1..] == [];
      YieldOne(u, packets[0], b);
    } else {
      var rest, p := packets[..|packets| - 1], packets[|packets| - 1];
      YieldHead(u, rest, b);
      assert packets == rest + [p] && packets[1..] == rest[1..] + [p];
      YieldAppend(u, rest, p, b);
      YieldAppend(u, rest[1..], p, b);
    }
  }

  // One worker's holding replaced.
  lemma {:induction false} HeldByUpdate(u: Setup, workers: seq<Worker>, i: nat, w: Worker, b: seq<Signal>)
    requires i < |workers|
    ensures HeldByAll(u, workers[i := w], b) + HeldBy(u, workers[i], b) == HeldByAll(u, workers, b) + HeldBy(u, w, b)
  {
    hide HeldBy;
    var n := |workers| - 1;
    var rest := workers[..n];
    if i == n {
      assert workers[i := w][..n] == rest;
    } else {
      HeldByUpdate(u, rest, i, w, b);
      assert workers[i := w][..n] == rest[i := w];
    }
  }

  lemma {:induction false} NobodyHolds(u: Setup, workers: seq<Worker>, b: seq<Signal>)
    requires forall i :: 0 <= i < |workers| ==> workers[i] == WorkerDone || workers[i] == Popping
    ensures HeldByAll(u, workers, b) == 0
  {
    if workers != [] { NobodyHolds(u, workers[..|workers| - 1], b); }
  }

  lemma FlattenAppend<T>(blocks: seq<seq<T>>, b: seq<T>)
    ensures Flatten(blocks + [b]) == Flatten(blocks) + b
  {
    assert (blocks + [b])[..|blocks|] == blocks;
  }

  // ---- Steps --------------------------------------------------------------

  lemma ProducerConserves(s: Line, u: Setup, next: Option<Packet>)
    requires Conserved(s, u)
    ensures Conserved(ProducerStep(s, next), u)
  {
    hide Yield, HeldByAll, Count, HeldByAccumulator;
    var t := ProducerStep(s, next);
    forall b ensures Places(t, u, b) == Yield(u, t.received, b) {
      assert Places(s, u, b) == Yield(u, s.received, b);
      match s.producer {
        case Receiving => if next.Some? { YieldAppend(u, s.received, next.value, b); }
        case Holding(p) => YieldAppend(u, s.raw, p, b);
        case Ending =>
        case ProducerDone =>
      }
    }
  }

  lemma ProducerKeepsInv(s: Line, u: Setup, next: Option<Packet>)
    requires Inv(s, u)
    ensures Inv(ProducerStep(s, next), u)
  {
    hide Conserved, Flatten;
    ProducerConserves(s, u, next);
  }

  lemma WorkerConserves(s: Line, u: Setup, i: nat)
    requires Conserved(s, u) && i < |s.workers|
    ensures Conserved(WorkerStep(s, u, i), u)
  {
    hide Yield, HeldByAll, FrameSignals, HeldByProducer, HeldByAccumulator, Count;
    var t := WorkerStep(s, u, i);
    forall b ensures Places(t, u, b) == Yield(u, t.received, b) {
      assert Places(s, u, b) == Yield(u, s.received, b);
      HeldByUpdate(u, s.workers, i, t.workers[i], b);
      match s.workers[i] {
        case Popping => if s.raw != [] { YieldHead(u, s.raw, b); }
        case Working(p) =>
          YieldOne(u, p, b);
          CountNone(b);
        case Pushing(block) => CountAppend(s.signals, [block], b);
        case WorkerDone =>
      }
    }
  }

  lemma WorkerKeepsInv(s: Line, u: Setup, i: nat)
    requires Inv(s, u) && i < |s.workers|
    ensures Inv(WorkerStep(s, u, i), u)
  {
    hide Conserved, Flatten, FrameSignals;
    WorkerConserves(s, u, i);
  }

  lemma AccumulatorConserves(s: Line, u: Setup)
    requires Conserved(s, u)
    ensures Conserved(AccumulatorStep(s), u)
  {
    hide Yield, HeldByAll, HeldByProducer, Count;
    var t := AccumulatorStep(s);
    forall b ensures Places(t, u, b) == Yield(u, t.received, b) {
      assert Places(s, u, b) == Yield(u, s.received, b);
      match s.accumulator {
        case Waiting =>
          if s.signals != [] {
            assert s.signals == [s.signals[0]] + s.signals[1..];
            CountAppend([s.signals[0]], s.signals[1..], b);
          }
        case Adding(block) => CountAppend(s.blocks, [block], b);
        case AccumulatorDone =>
      }
    }
  }

  lemma AccumulatorKeepsInv(s: Line, u: Setup)
    requires Inv(s, u)
    ensures Inv(AccumulatorStep(s), u)
  {
    hide Conserved, Flatten;
    AccumulatorConserves(s, u);
    if s.accumulator.Adding? { FlattenAppend(s.blocks, s.accumulator.block); }
  }

  lemma MainKeepsInv(s: Line, u: Setup)
    requires Inv(s, u)
    ensures Inv(MainStep(s), u)
  {
    hide Yield, HeldByAll, Flatten, HeldByProducer, HeldByAccumulator, Count;
    assert forall b :: Places(MainStep(s), u, b) == Places(s, u, b);
  }

  lemma StepKeepsInv(s: Line, u: Setup, c: Choice)
    requires Inv(s, u)
    ensures Inv(Step(s, u, c), u)
  {
    hide Conserved, Flatten, ProducerStep, WorkerStep, AccumulatorStep;
    match c {
      case ProducerMoves(next) => ProducerKeepsInv(s, u, next);
      case WorkerMoves(i) => if i < |s.workers| { WorkerKeepsInv(s, u, i); }
      case AccumulatorMoves => AccumulatorKeepsInv(s, u);
      case MainMoves => MainKeepsInv(s, u);
    }
  }

  lemma InitialInv(rawSize: nat, signalSize: nat, workers: nat, u: Setup)
    ensures Inv(Initial(rawSize, signalSize, workers), u)
  {
    var s := Initial(rawSize, signalSize, workers);
    forall b ensures Places(s, u, b) == Yield(u, s.received, b) {
      NobodyHolds(u, s.workers, b);
      CountNone(b);
    }
  }

  lemma {:induction false} RunKeepsInv(s: Line, u: Setup, choices: seq<Choice>)
    requires Inv(s, u)
    ensures Inv(Run(s, u, choices), u) && |Run(s, u, choices).workers| == |s.workers|
    ensures Run(s, u, choices).rawSize == s.rawSize && Run(s, u, choices).signalSize == s.signalSize
    decreases |choices|
  {
    hide Inv, Step;
    if choices != [] {
      StepKeepsInv(s, u, choices[0]);
      StepKeepsSizes(s, u, choices[0]);
      RunKeepsInv(Step(s, u, choices[0]), u, choices[1..]);
    }
  }

  lemma StepKeepsSizes(s: Line, u: Setup, c: Choice)
    ensures var t := Step(s, u, c);
            |t.workers| == |s.workers| && t.rawSize == s.rawSize && t.signalSize == s.signalSize
  {
    hide FrameSignals;
  }

  // ---- Sums over blocks do not depend on their order ----------------------

  function BlocksSum(f: seq<Signal> -> real, blocks: seq<seq<Signal>>): real {
    if blocks == [] then 0.0 else BlocksSum(f, blocks[..|blocks| - 1]) + f(blocks[|blocks| - 1])
  }

  lemma {:induction false} BlocksSumAppend(f: seq<Signal> -> real, a: seq<seq<Signal>>, b: seq<seq<Signal>>)
    ensures BlocksSum(f, a + b) == BlocksSum(f, a) + BlocksSum(f, b)
  {
    if b == [] {
      assert a + b == a;
    } else {
      var rest := b[..|b| - 1];
      BlocksSumAppend(f, a, rest);
      assert (a + b)[..|a + b| - 1] == a + rest;
    }
  }

  lemma Cancel(a: multiset<seq<Signal>>, b: multiset<seq<Signal>>, x: seq<Signal>)
    requires a + multiset{x} == b + multiset{x}
    ensures a == b
  {
    assert a == (a + multiset{x}) - multiset{x};
    assert b == (b + multiset{x}) - multiset{x};
  }

  lemma {:induction false} BlocksSumPermutes(f: seq<Signal> -> real, a: seq<seq<Signal>>, b: seq<seq<Signal>>)
    requires multiset(a) == multiset(b)
    ensures BlocksSum(f, a) == BlocksSum(f, b)
    decreases |a|
  {
    if a == [] {
      assert |multiset(b)| == 0;
      assert b == [];
    } else {
      var rest, x := a[..|a| - 1], a[|a| - 1];
      assert a == rest + [x];
      assert x in multiset(b);
      var i :| 0 <= i < |b| && b[i] == x;
      var before, after := b[..i], b[i + 1..];
      assert b == before + [x] + after;
      assert multiset(b) == multiset(before + after) + multiset{x};
      Cancel(multiset(rest), multiset(before + after), x);
      BlocksSumPermutes(f, rest, before + after);
      BlocksSumAppend(f, before, after);
      BlocksSumAppend(f, before, [x]);
      BlocksSumAppend(f, before + [x], after);
      assert [x][..0] == [];
      assert BlocksSum(f, [x]) == f(x);
    }
  }

  // ---- From signals to pixels ---------------------------------------------

  function Samples(signals: seq<Signal>): (r: seq<Sample>)
    ensures |r| == |signals|
  {
    seq(|signals|, i requires 0 <= i < |signals| =>
      Sample(signals[i].sampleX, signals[i].sampleY, signals[i].intensity))
  }

  lemma {:induction false} PixelAppend(a: seq<Sample>, b: seq<Sample>, px: int, py: int)
    ensures ValueAt(a + b, px, py) == ValueAt(a, px, py) + ValueAt(b, px, py)
    ensures WeightAt(a + b, px, py) == WeightAt(a, px, py) + WeightAt(b, px, py)
  {
    hide Kernel, Product;
    if b == [] {
      assert a + b == a;
    } else {
      PixelAppend(a, b[..|b| - 1], px, py);
      assert (a + b)[..|a + b| - 1] == a + b[..|b| - 1];
    }
  }

  function ValueOf(px: int, py: int): seq<Signal> -> real {
    (signals: seq<Signal>) => ValueAt(Samples(signals), px, py)
  }

  function WeightOf(px: int, py: int): seq<Signal> -> real {
    (signals: seq<Signal>) => WeightAt(Samples(signals), px, py)
  }

  lemma {:induction false} PixelByBlocks(blocks: seq<seq<Signal>>, px: int, py: int)
    ensures ValueAt(Samples(Flatten(blocks)), px, py) == BlocksSum(ValueOf(px, py), blocks)
    ensures WeightAt(Samples(Flatten(blocks)), px, py) == BlocksSum(WeightOf(px, py), blocks)
  {
    hide Kernel, Product;
    if blocks != [] {
      var rest, b := blocks[..|blocks| - 1], blocks[|blocks| - 1];
      PixelByBlocks(rest, px, py);
      assert Samples(Flatten(rest) + b) == Samples(Flatten(rest)) + Samples(b);
      PixelAppend(Samples(Flatten(rest)), Samples(b), px, py);
    }
  }

  // ---- Results ------------------------------------------------------------

  // The signal list is the sequential one, block by block, in some order.
  ghost predicate SameBlocks(s: Line, u: Setup) {
    s.allSignals == Flatten(s.blocks) && multiset(s.blocks) == multiset(SequentialBlocks(u, s.received))
  }

  lemma ExitConserves(s: Line, u: Setup)
    requires Inv(s, u) && |s.workers| >= 1 && s.accumulator == AccumulatorDone
    ensures SameBlocks(s, u)
  {
    hide Flatten, SequentialBlocks;
    assert s.workers[0] == WorkerDone;
    assert AllWorkersDone(s);
    forall b ensures multiset(s.blocks)[b] == multiset(SequentialBlocks(u, s.received))[b] {
      assert Places(s, u, b) == Yield(u, s.received, b);
      NobodyHolds(u, s.workers, b);
      YieldNothing(u, b);
    }
  }

  lemma YieldNothing(u: Setup, b: seq<Signal>)
    ensures Yield(u, [], b) == 0
  {
  }

  // Main result: with at least one worker, in every interleaving, when the
  // accumulator has left its loop the signals are the sequential program's,
  // whole frame by whole frame in some order, and every pixel's value and
  // weight are what folding the decodable frames in order of arrival gives.
  lemma PipelineIsSequential(rawSize: nat, signalSize: nat, workers: nat, u: Setup, choices: seq<Choice>, px: int, py: int)
    requires workers >= 1
    requires Run(Initial(rawSize, signalSize, workers), u, choices).accumulator == AccumulatorDone
    ensures var s := Run(Initial(rawSize, signalSize, workers), u, choices);
            var inOrder := Samples(Flatten(SequentialBlocks(u, s.received)));
            SameBlocks(s, u)
            && ValueAt(Samples(s.allSignals), px, py) == ValueAt(inOrder, px, py)
            && WeightAt(Samples(s.allSignals), px, py) == WeightAt(inOrder, px, py)
  {
    hide Inv, Run, Flatten, BlocksSum, SequentialBlocks;
    var s0 := Initial(rawSize, signalSize, workers);
    var s := Run(s0, u, choices);
    InitialInv(rawSize, signalSize, workers, u);
    RunKeepsInv(s0, u, choices);
    ExitConserves(s, u);
    var plain := SequentialBlocks(u, s.received);
    PixelByBlocks(s.blocks, px, py);
    PixelByBlocks(plain, px, py);
    BlocksSumPermutes(ValueOf(px, py), s.blocks, plain);
    BlocksSumPermutes(WeightOf(px, py), s.blocks, plain);
  }

  // Every exit has the blocks of every decodable packet.
  ghost predicate ExitsComplete(rawSize: nat, signalSize: nat, workers: nat, u: Setup) {
    forall choices: seq<Choice> ::
      Run(Initial(rawSize, signalSize, workers), u, choices).accumulator == AccumulatorDone ==>
        SameBlocks(Run(Initial(rawSize, signalSize, workers), u, choices), u)
  }

  // A run that receives one packet and nobody works on.
  function Unworked(p: Packet): seq<Choice> {
    [ProducerMoves(Some(p)), ProducerMoves(None), ProducerMoves(None), ProducerMoves(None),
     MainMoves, MainMoves, MainMoves, AccumulatorMoves]
  }

  lemma UnworkedLoses(rawSize: nat, signalSize: nat, u: Setup, p: Packet)
    requires rawSize >= 1 && u.decodes(p.image)
    ensures var s := Run(Initial(rawSize, signalSize, 0), u, Unworked(p));
            s.accumulator == AccumulatorDone && !SameBlocks(s, u)
  {
    hide Flatten;
    var s := Run(Initial(rawSize, signalSize, 0), u, Unworked(p));
    RunOf8(Initial(rawSize, signalSize, 0), u, Unworked(p));
    assert s.accumulator == AccumulatorDone && s.received == [p] && s.blocks == [];
    YieldOne(u, p, FrameSignals(u, p));
  }

  lemma {:induction false} NothingDecodes(u: Setup, packets: seq<Packet>)
    requires forall p :: p in packets ==> !u.decodes(p.image)
    ensures SequentialBlocks(u, packets) == []
  {
    if packets != [] { NothingDecodes(u, packets[..|packets| - 1]); }
  }

  // Without workers nothing is lost only if nothing gets as far as the queue.
  lemma IdleExit(s: Line, u: Setup)
    requires Inv(s, u) && s.workers == [] && s.accumulator == AccumulatorDone
    requires s.rawSize == 0 || forall image :: !u.decodes(image)
    ensures SameBlocks(s, u)
  {
    hide Flatten, SequentialBlocks;
    NothingDecodes(u, if s.rawSize == 0 then [] else s.raw);
    forall b ensures multiset(s.blocks)[b] == multiset(SequentialBlocks(u, s.received))[b] {
      assert Places(s, u, b) == Yield(u, s.received, b);
      NobodyHolds(u, s.workers, b);
      CountNone(b);
    }
  }

  // Main result: the program loses no frame in any interleaving exactly when it
  // has a worker - short of a queue that takes nothing or images of which none
  // decodes.
  lemma ExitsCompleteIff(rawSize: nat, signalSize: nat, workers: nat, u: Setup)
    ensures ExitsComplete(rawSize, signalSize, workers, u)
            <==> workers >= 1 || rawSize == 0 || forall image :: !u.decodes(image)
  {
    hide Inv, Run, SameBlocks;
    var s0 := Initial(rawSize, signalSize, workers);
    if workers == 0 && rawSize >= 1 && exists image :: u.decodes(image) {
      var image :| u.decodes(image);
      UnworkedLoses(rawSize, signalSize, u, Packet(0, 0.0, 0.0, image));
    } else {
      forall choices: seq<Choice> | Run(s0, u, choices).accumulator == AccumulatorDone
        ensures SameBlocks(Run(s0, u, choices), u)
      {
        InitialInv(rawSize, signalSize, workers, u);
        RunKeepsInv(s0, u, choices);
        if workers >= 1 {
          ExitConserves(Run(s0, u, choices), u);
        } else {
          IdleExit(Run(s0, u, choices), u);
        }
      }
    }
  }

  lemma RunOne(s: Line, u: Setup, cs: seq<Choice>, k: nat)
    requires k < |cs|
    ensures Run(s, u, cs[k..]) == Run(Step(s, u, cs[k]), u, cs[k + 1..])
  {
    hide Step;
    assert cs[k..][1..] == cs[k + 1..];
  }

  lemma RunOf8(s: Line, u: Setup, cs: seq<Choice>)
    requires |cs| == 8
    ensures Run(s, u, cs) ==
              Step(Step(Step(Step(Step(Step(Step(Step(s, u, cs[0]), u, cs[1]), u, cs[2]), u, cs[3]), u, cs[4]), u, cs[5]), u, cs[6]), u, cs[7])
  {
    hide Step;
    assert cs[0..] == cs;
    RunOne(s, u, cs, 0);
    var s1 := Step(s, u, cs[0]);
    RunOne(s1, u, cs, 1);
    var s2 := Step(s1, u, cs[1]);
    RunOne(s2, u, cs, 2);
    var s3 := Step(s2, u, cs[2]);
    RunOne(s3, u, cs, 3);
    var s4 := Step(s3, u, cs[3]);
    RunOne(s4, u, cs, 4);
    var s5 := Step(s4, u, cs[4]);
    RunOne(s5, u, cs, 5);
    var s6 := Step(s5, u, cs[5]);
    RunOne(s6, u, cs, 6);
    var s7 := Step(s6, u, cs[6]);
    RunOne(s7, u, cs, 7);
  }

  // No reachable state is stuck: until main is through, someone can move.
  lemma NeverStuck(s: Line, u: Setup)
    requires Inv(s, u) && s.mainPc < 4 && s.rawSize >= 1 && s.signalSize >= 1 && |s.workers| >= 1
    ensures exists c :: Step(s, u, c) != s
  {
    hide Conserved, Flatten, FrameSignals;
    assert AllWorkersDone(s) ==> s.workers[0] == WorkerDone;
    if s.accumulator.Adding? || (s.accumulator == Waiting && s.signals != []) {
      assert Step(s, u, AccumulatorMoves).accumulator != s.accumulator;
    } else if !(s.producer.ProducerDone?) && !(s.producer.Holding? && |s.raw| >= s.rawSize) {
      assert Step(s, u, ProducerMoves(None)).producer != s.producer;
    } else if !AllWorkersDone(s) {
      var i :| 0 <= i < |s.workers| && s.workers[i] != WorkerDone;
      assert WorkerStep(s, u, i).workers[i] != s.workers[i];
      assert Step(s, u, WorkerMoves(i)) != s;
    } else if s.mainPc == 3 && s.accumulator == Waiting {
      assert Step(s, u, AccumulatorMoves).accumulator != s.accumulator;
    } else {
      assert Step(s, u, MainMoves).mainPc != s.mainPc;
    }
  }
}

// What the pipeline's image and signal list are, told from the packets that
// arrived, the spots and the measurements.
module PipelineHistory {
  import opened Bytes
  import opened Bilinear
  import opened PipelineModel
  import opened PipelineSafety

  // ---- Packets off the network --------------------------------------------

  // A packet comes in while the network thread receives.
  function Arrived(s: Line, c: Choice): seq<Packet> {
    if c.ProducerMoves? && s.producer.Receiving? && c.next.Some? then [c.next.value] else []
  }

  function ArrivedIn(s: Line, u: Setup, choices: seq<Choice>): seq<Packet>
    decreases |choices|
  {
    if choices == [] then [] else Arrived(s, choices[0]) + ArrivedIn(Step(s, u, choices[0]), u, choices[1..])
  }

  lemma StepReceives(s: Line, u: Setup, c: Choice)
    ensures Step(s, u, c).received == s.received + Arrived(s, c)
  {
    hide FrameSignals;
  }

  lemma {:induction false} RunReceives(s: Line, u: Setup, choices: seq<Choice>)
    ensures Run(s, u, choices).received == s.received + ArrivedIn(s, u, choices)
    decreases |choices|
  {
    hide Step, Arrived;
    if choices != [] {
      StepReceives(s, u, choices[0]);
      RunReceives(Step(s, u, choices[0]), u, choices[1..]);
    }
  }

  // ---- Signals ------------------------------------------------------------

  // The block of a frame: for every spot, in order, its id, the place of the
  // stage displaced by the spot's offset, and what was measured there.
  ghost predicate Measured(u: Setup, p: Packet, b: seq<Signal>) {
    && |b| == |u.spots|
    && forall i :: 0 <= i < |b| ==>
         && b[i].frameId == p.frameId && b[i].spotId == u.spots[i].id
         && b[i].sampleX == p.stageX + u.spots[i].offsetX && b[i].sampleY == p.stageY + u.spots[i].offsetY
         && b[i].intensity == u.measure(p.image, u.spots[i])
  }

  function Decodable(u: Setup, packets: seq<Packet>): seq<Packet> {
    if packets == [] then []
    else
      var p := packets[|packets| - 1];
      Decodable(u, packets[..|packets| - 1]) + if u.decodes(p.image) then [p] else []
  }

  ghost predicate AllMeasured(u: Setup, packets: seq<Packet>, blocks: seq<seq<Signal>>) {
    |blocks| == |packets| && forall i :: 0 <= i < |packets| ==> Measured(u, packets[i], blocks[i])
  }

  lemma {:induction false} SequentialMeasures(u: Setup, packets: seq<Packet>)
    ensures AllMeasured(u, Decodable(u, packets), SequentialBlocks(u, packets))
  {
    hide Measured;
    if packets != [] {
      SequentialMeasures(u, packets[..|packets| - 1]);
      FrameMeasured(u, packets[|packets| - 1]);
    }
  }

  lemma FrameMeasured(u: Setup, p: Packet)
    ensures Measured(u, p, FrameSignals(u, p))
  {
  }

  // ---- The image ----------------------------------------------------------

  // Where spot i of the frame is sampled, and with what intensity.
  function SampleAt(u: Setup, p: Packet, i: nat): Sample
    requires i < |u.spots|
  {
    var spot := u.spots[i];
    Sample(p.stageX + spot.offsetX, p.stageY + spot.offsetY, u.measure(p.image, spot))
  }

  // What the first n spots of a frame leave at a pixel.
  function FrameValue(u: Setup, p: Packet, n: nat, px: int, py: int): real
    requires n <= |u.spots|
  {
    if n == 0 then 0.0
    else FrameValue(u, p, n - 1, px, py) + Product(SampleAt(u, p, n - 1).value, Kernel(SampleAt(u, p, n - 1), px, py))
  }

  function FrameWeight(u: Setup, p: Packet, n: nat, px: int, py: int): real
    requires n <= |u.spots|
  {
    if n == 0 then 0.0 else FrameWeight(u, p, n - 1, px, py) + Kernel(SampleAt(u, p, n - 1), px, py)
  }

  // What all decodable frames leave there.
  function ImageValue(u: Setup, packets: seq<Packet>, px: int, py: int): real {
    if packets == [] then 0.0
    else
      var p := packets[|packets| - 1];
      ImageValue(u, packets[..|packets| - 1], px, py)
      + if u.decodes(p.image) then FrameValue(u, p, |u.spots|, px, py) else 0.0
  }

  function ImageWeight(u: Setup, packets: seq<Packet>, px: int, py: int): real {
    if packets == [] then 0.0
    else
      var p := packets[|packets| - 1];
      ImageWeight(u, packets[..|packets| - 1], px, py)
      + if u.decodes(p.image) then FrameWeight(u, p, |u.spots|, px, py) else 0.0
  }

  lemma {:induction false} FrameAdds(u: Setup, p: Packet, b: seq<Signal>, n: nat, px: int, py: int)
    requires Measured(u, p, b) && n <= |b|
    ensures ValueAt(Samples(b)[..n], px, py) == FrameValue(u, p, n, px, py)
    ensures WeightAt(Samples(b)[..n], px, py) == FrameWeight(u, p, n, px, py)
  {
    hide Kernel, Product;
    if n > 0 {
      FrameAdds(u, p, b, n - 1, px, py);
      var samples := Samples(b)[..n];
      assert samples[..n - 1] == Samples(b)[..n - 1];
      assert samples[n - 1] == SampleAt(u, p, n - 1);
    }
  }

  lemma {:induction false} SequentialAdds(u: Setup, packets: seq<Packet>, px: int, py: int)
    ensures var samples := Samples(Flatten(SequentialBlocks(u, packets)));
            ValueAt(samples, px, py) == ImageValue(u, packets, px, py)
            && WeightAt(samples, px, py) == ImageWeight(u, packets, px, py)
  {
    hide Kernel, Product, Measured, FrameValue, FrameWeight, FrameSignals;
    if packets != [] {
      var rest, p := packets[..|packets| - 1], packets[|packets| - 1];
      SequentialAdds(u, rest, px, py);
      if u.decodes(p.image) {
        var b := FrameSignals(u, p);
        FrameMeasured(u, p);
        FrameAdds(u, p, b, |u.spots|, px, py);
        assert Samples(b)[..|u.spots|] == Samples(b);
        FlattenAppend(SequentialBlocks(u, rest), b);
        SamplesAppend(Flatten(SequentialBlocks(u, rest)), b);
        PixelAppend(Samples(Flatten(SequentialBlocks(u, rest))), Samples(b), px, py);
      } else {
        assert SequentialBlocks(u, rest) + [] == SequentialBlocks(u, rest);
      }
    }
  }

  lemma SamplesAppend(a: seq<Signal>, b: seq<Signal>)
    ensures Samples(a + b) == Samples(a) + Samples(b)
  {
  }

  // Main result: whatever the interleaving, when the accumulator has left its
  // loop the signals written out are one block for every decodable packet that
  // arrived, no more and no fewer, each holding every spot's id, place and
  // measured intensity; and every pixel holds what those samples leave there.
  lemma PipelineDelivers(rawSize: nat, signalSize: nat, workers: nat, u: Setup, choices: seq<Choice>, px: int, py: int)
    requires workers >= 1
    requires Run(Initial(rawSize, signalSize, workers), u, choices).accumulator == AccumulatorDone
    ensures var s := Run(Initial(rawSize, signalSize, workers), u, choices);
            var arrived := ArrivedIn(Initial(rawSize, signalSize, workers), u, choices);
            && ValueAt(Samples(s.allSignals), px, py) == ImageValue(u, arrived, px, py)
            && WeightAt(Samples(s.allSignals), px, py) == ImageWeight(u, arrived, px, py)
            && s.allSignals == Flatten(s.blocks)
            && exists inOrder :: AllMeasured(u, Decodable(u, arrived), inOrder) && multiset(s.blocks) == multiset(inOrder)
  {
    hide Run, ArrivedIn, Flatten, SequentialBlocks, Decodable, ImageValue, ImageWeight, Samples, AllMeasured;
    var s0 := Initial(rawSize, signalSize, workers);
    var s := Run(s0, u, choices);
    RunReceives(s0, u, choices);
    assert s.received == ArrivedIn(s0, u, choices);
    PipelineIsSequential(rawSize, signalSize, workers, u, choices, px, py);
    SequentialAdds(u, s.received, px, py);
    SequentialMeasures(u, s.received);
  }
}

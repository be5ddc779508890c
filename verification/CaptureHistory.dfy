// What a run of the capture pipeline has made of what the camera gave, told from
// the schedule alone, and how stop() ends.
module CaptureHistory {
  import opened Bytes
  import opened CaptureModel
  import opened CaptureSafety
  import opened CaptureCapacity

  // ---- From the camera ----------------------------------------------------

  // A read that finds the camera running and fits a buffer.
  function Given(s: Pipe, c: Choice): seq<seq<byte>> {
    if c.CaptureMoves? && s.capture.Reading? && s.cameraRunning && 0 < |c.data| <= s.size then [c.data] else []
  }

  // All such reads of a run, in order.
  ghost function GivenIn(s: Pipe, choices: seq<Choice>): seq<seq<byte>>
    requires Inv(s)
    decreases |choices|
  {
    if choices == [] then []
    else
      InvShaped(s);
      StepKeepsInv(s, choices[0]);
      Given(s, choices[0]) + GivenIn(Step(s, choices[0]), choices[1..])
  }

  // The read not yet numbered, if any.
  function InHand(c: Capture): seq<seq<byte>> {
    match c
    case Wanting(data) => [data]
    case Copying(data, _, _) => [data]
    case _ => []
  }

  ghost predicate SameFlags(s: Pipe, t: Pipe) {
    && t.running == s.running && t.cameraRunning == s.cameraRunning && t.stopped == s.stopped && t.stopPc == s.stopPc
  }

  // How many steps the capture thread and the send thread still have once they
  // are told to leave.
  function CaptureLeft(c: Capture): int {
    match c
    case Gone => 0
    case Reading => 1
    case Resting(_) => 2
    case Pushing(_) => 3
    case Copying(data, _, k) => 4 + |data| - k
    case Wanting(data) => 5 + |data|
  }

  function SenderLeft(t: Sender): nat {
    match t
    case Left => 0
    case AtHead => 1
    case Sending(_) => 2
    case Popping => 3
  }

  // What the capture thread does to the frames on their way.
  ghost predicate SameFlight(s: Pipe, t: Pipe) {
    t.sent == s.sent && t.sender == s.sender && t.queue == s.queue && Newest(t) == Newest(s)
  }

  ghost predicate Nearer(s: Pipe, t: Pipe) {
    0 <= CaptureLeft(t.capture) < CaptureLeft(s.capture)
  }

  lemma ReadEffect(s: Pipe, data: seq<byte>)
    requires s.capture.Reading?
    ensures var t := ReadStep(s, data);
            SameFlight(s, t) && t.copied == s.copied && InHand(t.capture) == Given(s, CaptureMoves(data))
            && SameFlags(s, t) && t.sender == s.sender && t.capture.Gone? == !s.cameraRunning
  {
  }

  lemma AcquireEffect(s: Pipe)
    requires Shaped(s) && s.capture.Wanting?
    ensures var t := AcquireStep(s); SameFlight(s, t) && t.copied == s.copied && InHand(t.capture) == InHand(s.capture)
    ensures var t := AcquireStep(s);
            SameFlags(s, t) && if s.pool.free == [] then t == s else t.capture.Copying? && Nearer(s, t)
  {
    hide PoolShaped, Acquire;
  }

  lemma CopyEffect(s: Pipe)
    requires Shaped(s) && s.capture.Copying?
    ensures var t := CopyStep(s);
            SameFlight(s, t) && t.copied + InHand(t.capture) == s.copied + InHand(s.capture)
            && SameFlags(s, t) && !t.capture.Gone? && Nearer(s, t)
  {
    hide PoolShaped, Write, Retain;
  }

  lemma PushEffect(s: Pipe)
    requires Shaped(s) && s.capture.Pushing?
    ensures var t := PushStep(s);
            t.sent == s.sent && t.sender == s.sender && t.copied == s.copied && t.capture.Resting? && SameFlags(s, t)
            && (!s.stopped ==> t.queue == (if |s.queue| >= s.capacity then s.queue[1..] else s.queue) + [s.capture.frame])
  {
    hide PoolShaped, Drop, Retain;
  }

  lemma RestEffect(s: Pipe)
    requires Shaped(s) && s.capture.Resting?
    ensures var t := RestStep(s); SameFlight(s, t) && t.copied == s.copied && t.capture.Reading? && SameFlags(s, t)
  {
    hide PoolShaped, Drop;
  }

  lemma SenderEffect(s: Pipe, ok: bool)
    requires Shaped(s)
    ensures var t := SenderStep(s, ok); t.copied == s.copied && t.capture == s.capture && SameFlags(s, t)
    ensures var t := SenderStep(s, ok);
            !s.running ==> t == s || SenderLeft(t.sender) < SenderLeft(s.sender)
    ensures SenderStep(s, ok) == s ==> s.sender.Left? || (s.sender.Popping? && !s.stopped)
  {
    hide PoolShaped, Drop;
  }

  lemma CaptureTakes(s: Pipe, data: seq<byte>)
    requires Shaped(s)
    ensures var t := CaptureStep(s, data);
            t.copied + InHand(t.capture) == s.copied + InHand(s.capture) + Given(s, CaptureMoves(data))
    ensures !s.capture.Pushing? ==> SameFlight(s, CaptureStep(s, data))
    ensures var t := CaptureStep(s, data);
            SameFlags(s, t) && t.sender == s.sender && (t.capture.Gone? ==> s.capture.Gone? || !s.cameraRunning)
            && (!s.cameraRunning ==> t == s || Nearer(s, t))
            && (t == s && !s.cameraRunning ==> s.capture.Gone? || (s.capture.Wanting? && s.pool.free == []))
  {
    hide Shaped, ReadStep, AcquireStep, CopyStep, PushStep, RestStep;
    match s.capture {
      case Reading => ReadEffect(s, data);
      case Wanting(_) => AcquireEffect(s);
      case Copying(_, _, _) => CopyEffect(s);
      case Pushing(_) => PushEffect(s);
      case Resting(_) => RestEffect(s);
      case Gone =>
    }
  }

  lemma StepTakes(s: Pipe, c: Choice)
    requires Shaped(s)
    ensures var t := Step(s, c); t.copied + InHand(t.capture) == s.copied + InHand(s.capture) + Given(s, c)
  {
    hide Shaped, CaptureStep, SenderStep, InHand;
    match c {
      case CaptureMoves(data) => CaptureTakes(s, data);
      case SenderMoves(ok) => SenderEffect(s, ok);
      case StopMoves =>
    }
  }

  lemma {:induction false} RunTakes(s: Pipe, choices: seq<Choice>)
    requires Inv(s)
    ensures var t := Run(s, choices);
            t.copied + InHand(t.capture) == s.copied + InHand(s.capture) + GivenIn(s, choices)
    decreases |choices|
  {
    hide Inv, Step, Given, InHand, Shaped;
    InvShaped(s);
    if choices == [] {
      assert GivenIn(s, choices) == [];
    } else {
      StepTakes(s, choices[0]);
      StepKeepsInv(s, choices[0]);
      RunTakes(Step(s, choices[0]), choices[1..]);
    }
  }

  // ---- Numbers and their fates --------------------------------------------

  // 1..n.
  function Numbers(n: nat): multiset<nat> {
    if n == 0 then multiset{} else Numbers(n - 1) + multiset{n}
  }

  function Ids(frames: seq<Frame>): multiset<nat> {
    if frames == [] then multiset{} else multiset{frames[0].id} + Ids(frames[1..])
  }

  function SentIds(sent: seq<Delivery>): multiset<nat> {
    if sent == [] then multiset{} else SentIds(sent[..|sent| - 1]) + multiset{sent[|sent| - 1].id}
  }

  // The oldest frame of a full queue when another is pushed, or the frame whose
  // send fails.
  function Lost(s: Pipe, c: Choice): multiset<nat> {
    if c.CaptureMoves? && s.capture.Pushing? && s.queue != [] && |s.queue| == s.capacity then multiset{s.queue[0].id}
    else if c.SenderMoves? && s.sender.Sending? && !c.ok then multiset{s.sender.frame.id}
    else multiset{}
  }

  ghost function LostIn(s: Pipe, choices: seq<Choice>): multiset<nat>
    requires Inv(s)
    decreases |choices|
  {
    if choices == [] then multiset{}
    else
      InvShaped(s);
      StepKeepsInv(s, choices[0]);
      Lost(s, choices[0]) + LostIn(Step(s, choices[0]), choices[1..])
  }

  // Sent or still on its way.
  function Live(s: Pipe): multiset<nat> {
    SentIds(s.sent) + Ids(InFlight(s.sender, s.queue))
  }

  lemma {:induction false} IdsAppend(a: seq<Frame>, f: Frame)
    ensures Ids(a + [f]) == Ids(a) + multiset{f.id}
  {
    if a == [] {
      assert [f][1..] == [];
      assert [] + [f] == [f];
    } else {
      IdsAppend(a[1..], f);
      assert (a + [f])[1..] == a[1..] + [f];
    }
  }

  lemma IdsOfFlight(t: Sender, queue: seq<Frame>)
    ensures Ids(InFlight(t, queue)) == (if t.Sending? then multiset{t.frame.id} else multiset{}) + Ids(queue)
  {
    if t.Sending? {
      assert InFlight(t, queue)[1..] == queue;
    } else {
      assert InFlight(t, queue) == queue;
    }
  }

  lemma SentAppend(sent: seq<Delivery>, d: Delivery)
    ensures SentIds(sent + [d]) == SentIds(sent) + multiset{d.id}
  {
    assert (sent + [d])[..|sent|] == sent;
  }

  // One set of numbers handed on, told apart from the rest of the pipeline.
  ghost predicate Conserved(s: Pipe, t: Pipe, lost: multiset<nat>) {
    && Newest(t) >= 0 && Newest(s) >= 0
    && Numbers(Newest(t)) + Live(s) == Numbers(Newest(s)) + Live(t) + lost
  }

  lemma QueueFates(queue: seq<Frame>, capacity: nat, f: Frame)
    requires capacity >= 1 && |queue| <= capacity
    ensures Ids((if |queue| >= capacity then queue[1..] else queue) + [f])
              + (if |queue| == capacity then multiset{queue[0].id} else multiset{}) == Ids(queue) + multiset{f.id}
  {
    IdsAppend(queue, f);
    if |queue| == capacity { IdsAppend(queue[1..], f); }
  }

  lemma PushFacts(s: Pipe)
    requires Inv(s) && s.capture.Pushing?
    ensures Shaped(s) && !s.stopped && s.capture.frame.id == |s.copied| >= 1 && 1 <= s.capacity && |s.queue| <= s.capacity
  {
    hide Counted, FlightOk, NewestQueued, SentOk, PoolShaped, InFlight, Buffers;
  }

  lemma AddNumbers(before: multiset<nat>, sent: multiset<nat>, hand: multiset<nat>, was: multiset<nat>,
                   now: multiset<nat>, gone: multiset<nat>, n: multiset<nat>)
    requires now + gone == was + n
    ensures before + n + (sent + (hand + was)) == before + (sent + (hand + now)) + gone
  {
    forall x: nat ensures (before + n + (sent + (hand + was)))[x] == (before + (sent + (hand + now)) + gone)[x] {
      assert (now + gone)[x] == (was + n)[x];
    }
  }

  lemma PushFates(s: Pipe, data: seq<byte>)
    requires Inv(s) && s.capture.Pushing?
    ensures Shaped(s) && Conserved(s, PushStep(s), Lost(s, CaptureMoves(data)))
  {
    hide Inv, PushStep, Ids, SentIds, Shaped, InFlight, SameFlags;
    PushFacts(s);
    PushEffect(s);
    var t := PushStep(s);
    QueueFates(s.queue, s.capacity, s.capture.frame);
    IdsOfFlight(s.sender, s.queue);
    IdsOfFlight(s.sender, t.queue);
    AddNumbers(Numbers(Newest(s)), SentIds(s.sent), if s.sender.Sending? then multiset{s.sender.frame.id} else multiset{},
               Ids(s.queue), Ids(t.queue), Lost(s, CaptureMoves(data)), multiset{Newest(t)});
  }

  lemma SameFates(s: Pipe, t: Pipe)
    requires SameFlight(s, t) && Newest(s) >= 0
    ensures Conserved(s, t, multiset{})
  {
    hide InFlight, Ids, SentIds, Numbers;
  }

  lemma NewestIsNatural(s: Pipe)
    requires Inv(s)
    ensures Newest(s) >= 0
  {
    hide Counted, FlightOk, NewestQueued, SentOk, PoolShaped, InFlight, Buffers;
  }

  lemma PopFates(s: Pipe)
    ensures var t := PopStep(s);
            t.sent == s.sent && t.copied == s.copied && t.capture == s.capture
            && (s.sender.Popping? ==> InFlight(t.sender, t.queue) == InFlight(s.sender, s.queue))
  {
  }

  lemma SendFates(s: Pipe, ok: bool)
    requires Shaped(s) && s.sender.Sending?
    ensures var t, f := SendStep(s, ok), s.sender.frame;
            t.queue == s.queue && !t.sender.Sending? && t.copied == s.copied && t.capture == s.capture
            && SentIds(t.sent) == SentIds(s.sent) + if ok then multiset{f.id} else multiset{}
  {
    hide PoolShaped, Drop;
    if ok { SentAppend(s.sent, SendStep(s, ok).sent[|s.sent|]); }
  }

  lemma SenderFates(s: Pipe, ok: bool)
    requires Shaped(s) && Newest(s) >= 0
    ensures Conserved(s, SenderStep(s, ok), Lost(s, SenderMoves(ok)))
  {
    hide Shaped, PopStep, SendStep, SentIds, Ids, Numbers, InFlight;
    var t := SenderStep(s, ok);
    match s.sender {
      case AtHead => IdleFlight(s.sender, t.sender, s.queue);
      case Popping => PopFates(s);
      case Sending(_) =>
        SendFates(s, ok);
        IdsOfFlight(s.sender, s.queue);
        IdsOfFlight(t.sender, t.queue);
      case Left =>
    }
  }

  lemma IdleFlight(t: Sender, u: Sender, queue: seq<Frame>)
    requires !t.Sending? && !u.Sending?
    ensures InFlight(t, queue) == InFlight(u, queue)
  {
  }

  lemma StepFates(s: Pipe, c: Choice)
    requires Inv(s)
    ensures Shaped(s) && Conserved(s, Step(s, c), Lost(s, c))
  {
    hide Inv, CaptureStep, SenderStep, Conserved, Shaped;
    InvShaped(s);
    NewestIsNatural(s);
    match c {
      case CaptureMoves(data) =>
        if s.capture.Pushing? {
          PushFates(s, data);
          assert CaptureStep(s, data) == PushStep(s) by { Pushes(s, data); }
        } else {
          CaptureTakes(s, data);
          SameFates(s, CaptureStep(s, data));
        }
      case SenderMoves(ok) => SenderFates(s, ok);
      case StopMoves => SameFates(s, StopStep(s));
    }
  }

  lemma Pushes(s: Pipe, data: seq<byte>)
    requires Shaped(s) && s.capture.Pushing?
    ensures CaptureStep(s, data) == PushStep(s)
  {
    hide PushStep, Shaped;
  }

  lemma ConservedOn(s: Pipe, t: Pipe, u: Pipe, a: multiset<nat>, b: multiset<nat>)
    requires Conserved(s, t, a) && Conserved(t, u, b)
    ensures Conserved(s, u, a + b)
  {
    hide Newest, Numbers, Live;
    var ns, nt, nu := Numbers(Newest(s)), Numbers(Newest(t)), Numbers(Newest(u));
    var ls, lt, lu := Live(s), Live(t), Live(u);
    Chain(ns, nt, nu, ls, lt, lu, a, b);
  }

  lemma Chain(ns: multiset<nat>, nt: multiset<nat>, nu: multiset<nat>, ls: multiset<nat>, lt: multiset<nat>,
              lu: multiset<nat>, a: multiset<nat>, b: multiset<nat>)
    requires nt + ls == ns + lt + a && nu + lt == nt + lu + b
    ensures nu + ls == ns + lu + (a + b)
  {
    forall x: nat ensures (nu + ls)[x] == (ns + lu + (a + b))[x] {
      assert (nt + ls)[x] == (ns + lt + a)[x] && (nu + lt)[x] == (nt + lu + b)[x];
    }
  }

  lemma {:induction false} RunFates(s: Pipe, choices: seq<Choice>)
    requires Inv(s)
    ensures Conserved(s, Run(s, choices), LostIn(s, choices))
    decreases |choices|
  {
    hide Inv, Step, Lost, Live, Newest, Numbers, Shaped, Conserved;
    InvShaped(s);
    NewestIsNatural(s);
    if choices == [] {
      SameFates(s, s) by { assert SameFlight(s, s); }
      assert LostIn(s, choices) == multiset{};
    } else {
      StepFates(s, choices[0]);
      StepKeepsInv(s, choices[0]);
      RunFates(Step(s, choices[0]), choices[1..]);
      ConservedOn(s, Step(s, choices[0]), Run(s, choices), Lost(s, choices[0]), LostIn(Step(s, choices[0]), choices[1..]));
    }
  }

  // ---- The main result ----------------------------------------------------

  // The reads given so far, and what became of each.
  ghost predicate Faithful(s: Pipe, given: seq<seq<byte>>, lost: multiset<nat>) {
    && |s.copied| <= |given| <= |s.copied| + 1
    && (forall d :: d in s.sent ==> 1 <= d.id <= |given| && d.bytes == given[d.id - 1])
    && (forall f :: f in InFlight(s.sender, s.queue) ==> Intact(s.pool.memory, given, f))
    && (forall i, j :: 0 <= i < j < |s.sent| ==> s.sent[i].id < s.sent[j].id)
    && 0 <= Newest(s) && |s.copied| <= Newest(s) + 1
    && Numbers(Newest(s)) == SentIds(s.sent) + Ids(InFlight(s.sender, s.queue)) + lost
  }

  // Main result: in every interleaving the reads that find the camera running
  // and fit a buffer are numbered 1, 2, 3, ... without a gap; each frame sent
  // and each frame on its way holds exactly the bytes the camera gave under its
  // number; and every number handed to the queue is sent, on its way, pushed out
  // of a full queue or lost with a failed send, and only one of these, once.
  lemma EveryRunIsFaithful(size: nat, memory: seq<seq<byte>>, capacity: nat, choices: seq<Choice>)
    requires capacity >= 1 && Uninitialised(memory, size, |memory|)
    ensures Inv(Initial(size, memory, capacity))
    ensures var s := Initial(size, memory, capacity);
            Faithful(Run(s, choices), GivenIn(s, choices), LostIn(s, choices))
  {
    hide Inv, Ids, SentIds, Numbers, Partitioned, NewestQueued, Distinct, GivenIn, LostIn, Run, InFlight;
    var s := Initial(size, memory, capacity);
    EveryRunDelivers(size, memory, capacity, choices);
    InitialInv(size, memory, capacity);
    RunTakes(s, choices);
    RunFates(s, choices);
    var t, given := Run(s, choices), GivenIn(s, choices);
    NothingYet(s);
    assert t.copied + InHand(t.capture) == given;
    forall f | f in InFlight(t.sender, t.queue) ensures Intact(t.pool.memory, given, f) {
      IntactKept(t.pool.memory, t.pool.memory, t.copied, InHand(t.capture), f);
    }
    FatesFrom(s, t, LostIn(s, choices));
  }

  lemma FatesFrom(s: Pipe, t: Pipe, lost: multiset<nat>)
    requires Conserved(s, t, lost) && Newest(s) == 0 && Live(s) == multiset{}
    ensures Newest(t) >= 0 && Numbers(Newest(t)) == SentIds(t.sent) + Ids(InFlight(t.sender, t.queue)) + lost
  {
    hide Newest, SentIds, Ids, InFlight, Live;
    assert Numbers(Newest(s)) == multiset{};
    assert Live(t) == SentIds(t.sent) + Ids(InFlight(t.sender, t.queue)) by { LiveIs(t); }
    assert Numbers(Newest(t)) + multiset{} == multiset{} + Live(t) + lost;
    NothingAdded(Numbers(Newest(t)), Live(t), lost);
  }

  lemma NothingAdded(a: multiset<nat>, b: multiset<nat>, c: multiset<nat>)
    requires a + multiset{} == multiset{} + b + c
    ensures a == b + c
  {
    forall x: nat ensures a[x] == (b + c)[x] {
      assert (a + multiset{})[x] == (multiset{} + b + c)[x];
    }
  }

  lemma LiveIs(s: Pipe)
    ensures Live(s) == SentIds(s.sent) + Ids(InFlight(s.sender, s.queue))
  {
  }

  lemma NothingYet(s: Pipe)
    requires s.copied == [] && s.sent == [] && s.queue == [] && s.sender == AtHead && s.capture == Reading
    ensures Newest(s) == 0 && Numbers(0) == multiset{} && Live(s) == multiset{} && s.copied + InHand(s.capture) == []
  {
  }

  // ---- stop() -------------------------------------------------------------

  // The flags say how far stop() has come, and the capture thread leaves its
  // loop only when told to.
  predicate FlagsFollow(s: Pipe) {
    && (s.running <==> s.stopPc == 0) && (s.cameraRunning <==> s.stopPc <= 1)
    && (s.stopped <==> s.stopPc == 3) && s.stopPc <= 3
    && (s.capture.Gone? ==> !s.cameraRunning)
  }

  lemma StepKeepsFlags(s: Pipe, c: Choice)
    requires Shaped(s) && FlagsFollow(s)
    ensures FlagsFollow(Step(s, c))
    ensures Step(s, c).stopPc == s.stopPc || (c.StopMoves? && Step(s, c).stopPc == s.stopPc + 1)
    ensures c.StopMoves? && s.stopPc < 2 ==> Step(s, c).stopPc == s.stopPc + 1
  {
    hide Shaped, CaptureStep, SenderStep, InHand, Given, SameFlight, Nearer;
    match c {
      case CaptureMoves(data) => CaptureTakes(s, data);
      case SenderMoves(ok) => SenderEffect(s, ok);
      case StopMoves =>
    }
  }

  // Over every run of the pipeline from its start.
  lemma RunsFollowFlags(size: nat, memory: seq<seq<byte>>, capacity: nat, choices: seq<Choice>)
    requires capacity >= 1 && Uninitialised(memory, size, |memory|)
    ensures Inv(Initial(size, memory, capacity)) && FlagsFollow(Run(Initial(size, memory, capacity), choices))
  {
    hide Inv;
    InitialInv(size, memory, capacity);
    RunKeepsFlags(Initial(size, memory, capacity), choices);
  }

  lemma {:induction false} RunKeepsFlags(s: Pipe, choices: seq<Choice>)
    requires Inv(s) && FlagsFollow(s)
    ensures FlagsFollow(Run(s, choices))
    decreases |choices|
  {
    hide Inv, Step, FlagsFollow, Shaped;
    InvShaped(s);
    if choices != [] {
      StepKeepsFlags(s, choices[0]);
      StepKeepsInv(s, choices[0]);
      RunKeepsFlags(Step(s, choices[0]), choices[1..]);
    }
  }

  function StepsLeft(s: Pipe): int {
    3 - s.stopPc + CaptureLeft(s.capture) + SenderLeft(s.sender)
  }

  ghost predicate Ended(s: Pipe) {
    s.stopPc == 3 && s.capture.Gone? && s.sender.Left?
  }

  ghost predicate Useful(s: Pipe, c: Choice)
    requires Shaped(s)
  {
    0 <= StepsLeft(Step(s, c)) < StepsLeft(s)
  }

  // Main result: once stop() has cleared both flags, whatever the threads are
  // in the middle of, every step of any of them either changes nothing or brings
  // the end nearer, and with a pool large enough some thread can always take
  // such a step until all three are through. So stop() returns under every
  // schedule that does not starve a thread for ever.
  lemma StopEnds(s: Pipe)
    requires Inv(s) && FlagsFollow(s) && s.stopPc >= 2
    ensures Shaped(s) && forall c :: Useful(s, c) || Step(s, c) == s
    ensures Ended(s) <==> StepsLeft(s) == 0
    ensures |s.pool.memory| >= s.capacity + 2 && !Ended(s) ==> exists c :: Useful(s, c)
  {
    hide Inv, Shaped, Step, FlagsFollow, Ended, StepsLeft;
    InvShaped(s);
    forall c ensures Useful(s, c) || Step(s, c) == s { StopStepCounts(s, c); }
    LeftAtEnd(s);
    if |s.pool.memory| >= s.capacity + 2 && !Ended(s) {
      StopStepCounts(s, CaptureMoves([]));
      StopStepCounts(s, SenderMoves(true));
      StopStepCounts(s, StopMoves);
      if s.capture.Wanting? { FreeBufferWhenWanted(s); }
      assert Useful(s, CaptureMoves([])) || Useful(s, StopMoves) || Useful(s, SenderMoves(true)) by {
        NotAllStand(s);
      }
    }
  }

  lemma NotAllStand(s: Pipe)
    requires FlagsFollow(s) && s.stopPc >= 2 && !Ended(s)
    ensures s.capture.Gone? ==> s.stopPc == 2 || (s.stopped && !s.sender.Left?)
  {
  }

  lemma LeftAtEnd(s: Pipe)
    requires Shaped(s) && FlagsFollow(s)
    ensures StepsLeft(s) >= 0 && (Ended(s) <==> StepsLeft(s) == 0)
  {
    hide PoolShaped;
  }

  lemma StopStepCounts(s: Pipe, c: Choice)
    requires Shaped(s) && FlagsFollow(s) && s.stopPc >= 2
    ensures 0 <= StepsLeft(Step(s, c)) < StepsLeft(s) || Step(s, c) == s
    ensures c.StopMoves? && s.stopPc == 2 && s.capture.Gone? ==> Step(s, c) != s
    ensures c.CaptureMoves? && Step(s, c) == s ==> s.capture.Gone? || (s.capture.Wanting? && s.pool.free == [])
    ensures c.SenderMoves? && Step(s, c) == s ==> s.sender.Left? || (s.sender.Popping? && !s.stopped)
  {
    hide Shaped, CaptureStep, SenderStep, InHand, Given, SameFlight;
    CaptureCounts(s);
    match c {
      case CaptureMoves(data) => CaptureTakes(s, data);
      case SenderMoves(ok) => SenderEffect(s, ok);
      case StopMoves =>
    }
  }

  lemma CaptureCounts(s: Pipe)
    requires Shaped(s)
    ensures CaptureLeft(s.capture) >= 0
  {
    hide PoolShaped;
  }
}

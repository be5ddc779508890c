// What every run of the capture pipeline keeps, and how large the pool must be
// for the capture thread never to wait.
module CaptureSafety {
  import opened Bytes
  import opened CaptureModel

  // ---- Small facts --------------------------------------------------------

  lemma BuffersAppend(a: seq<Frame>, f: Frame)
    ensures Buffers(a + [f]) == Buffers(a) + [f.buffer]
  {
  }

  lemma BuffersHead(a: seq<Frame>)
    requires a != []
    ensures Buffers(a) == [a[0].buffer] + Buffers(a[1..])
    ensures multiset(Buffers(a)) == multiset{a[0].buffer} + multiset(Buffers(a[1..]))
  {
  }

  lemma BuffersHas(a: seq<Frame>, b: nat)
    ensures b in Buffers(a) <==> exists i :: 0 <= i < |a| && a[i].buffer == b
  {
    if exists i :: 0 <= i < |a| && a[i].buffer == b {
      var i :| 0 <= i < |a| && a[i].buffer == b;
      assert Buffers(a)[i] == b;
    }
  }

  // ---- The pool -----------------------------------------------------------

  lemma AcquireCounted(p: Pool, holders: multiset<nat>)
    requires Counted(p, holders) && p.free != []
    ensures p.free[0] < |p.refs|
    ensures Counted(Acquire(p), holders + multiset{p.free[0]}) && holders[p.free[0]] == 0
  {
    var b := p.free[0];
    assert b in p.free;
    assert forall x: nat :: x in p.free <==> x == b || x in p.free[1..];
  }

  lemma RetainCounted(p: Pool, holders: multiset<nat>, b: nat)
    requires Counted(p, holders) && b < |p.refs| && holders[b] > 0
    ensures Counted(Retain(p, b), holders + multiset{b})
  {
  }

  lemma DropCounted(p: Pool, holders: multiset<nat>, b: nat)
    requires Counted(p, holders) && b in holders && b < |p.refs|
    ensures Counted(Drop(p, b), holders - multiset{b})
  {
    var q, rest := Drop(p, b), holders - multiset{b};
    assert holders[b] == p.refs[b];
    forall x: nat ensures x in q.free <==> x < |q.refs| && rest[x] == 0 {
      assert x in p.free <==> x < |p.refs| && holders[x] == 0;
    }
  }

  lemma WriteCounted(p: Pool, holders: multiset<nat>, b: nat, k: nat, x: byte)
    requires Counted(p, holders) && b < |p.memory| && k < |p.memory[b]|
    ensures Counted(Write(p, b, k, x), holders)
  {
  }

  // ---- What frames on their way keep --------------------------------------

  lemma FlightHeld(c: Capture, queue: seq<Frame>, t: Sender, b: nat)
    requires b in Buffers(InFlight(t, queue))
    ensures Holders(c, queue, t)[b] > 0
  {
    BuffersHas(InFlight(t, queue), b);
    var i :| 0 <= i < |InFlight(t, queue)| && InFlight(t, queue)[i].buffer == b;
    if InFlight(t, queue)[i] in queue {
      BuffersHas(queue, b);
      assert b in multiset(Buffers(queue));
    }
  }

  // Later captures and writes to other buffers leave a frame intact.
  lemma IntactKept(m: seq<seq<byte>>, n: seq<seq<byte>>, copied: seq<seq<byte>>, more: seq<seq<byte>>, f: Frame)
    requires Intact(m, copied, f) && |n| == |m| && n[f.buffer] == m[f.buffer]
    ensures Intact(n, copied + more, f)
  {
  }

  lemma FlightKept(fl: seq<Frame>, m: seq<seq<byte>>, n: seq<seq<byte>>, copied: seq<seq<byte>>, more: seq<seq<byte>>)
    requires FlightOk(fl, m, copied) && |n| == |m|
    requires forall b :: 0 <= b < |m| && b in Buffers(fl) ==> n[b] == m[b]
    ensures FlightOk(fl, n, copied + more)
  {
    hide Distinct;
    forall f | f in fl ensures Intact(n, copied + more, f) {
      BuffersHas(fl, f.buffer);
      IntactKept(m, n, copied, more, f);
    }
  }

  lemma FlightAppend(fl: seq<Frame>, f: Frame, m: seq<seq<byte>>, copied: seq<seq<byte>>)
    requires FlightOk(fl, m, copied) && Ordered(fl, f.id) && f.buffer !in Buffers(fl) && Intact(m, copied, f)
    ensures FlightOk(fl + [f], m, copied)
  {
    BuffersAppend(fl, f);
    forall i, j | 0 <= i < j < |fl + [f]| ensures Buffers(fl + [f])[i] != Buffers(fl + [f])[j] {
      assert Buffers(fl)[i] in Buffers(fl);
    }
  }

  function Without(fl: seq<Frame>, p: nat): seq<Frame>
    requires p < |fl|
  {
    fl[..p] + fl[p + 1..]
  }

  // Losing one frame keeps the order, the distinctness and what is absent.
  lemma FlightWithout(fl: seq<Frame>, p: nat, m: seq<seq<byte>>, copied: seq<seq<byte>>)
    requires p < |fl| && FlightOk(fl, m, copied)
    ensures FlightOk(Without(fl, p), m, copied)
    ensures forall f :: f in Without(fl, p) ==> f in fl
    ensures forall b :: b in Buffers(Without(fl, p)) ==> b in Buffers(fl) && b != fl[p].buffer
    ensures forall below :: Ordered(fl, below) ==> Ordered(Without(fl, p), below)
  {
    hide Intact;
    var r := Without(fl, p);
    assert forall i :: 0 <= i < |r| ==> r[i] == fl[if i < p then i else i + 1];
    assert forall i :: 0 <= i < |r| ==> Buffers(r)[i] == Buffers(fl)[if i < p then i else i + 1];
    forall b | b in Buffers(r) ensures b in Buffers(fl) && b != fl[p].buffer {
      var i :| 0 <= i < |r| && Buffers(r)[i] == b;
      assert Buffers(fl)[p] == fl[p].buffer;
    }
  }

  // ---- The capture thread -------------------------------------------------

  lemma ReadKeepsInv(s: Pipe, data: seq<byte>)
    requires Inv(s) && s.capture == Reading
    ensures Inv(ReadStep(s, data))
  {
    hide Counted, FlightOk, NewestQueued, SentOk, PoolShaped, InFlight, Buffers;
    assert CaptureHolds(ReadStep(s, data).capture) == multiset{};
  }

  lemma AcquireKeepsInv(s: Pipe)
    requires Inv(s) && s.capture.Wanting?
    ensures Inv(AcquireStep(s))
  {
    hide Counted, FlightOk, NewestQueued, SentOk, InFlight, Buffers;
    if s.pool.free != [] {
      var t, b := AcquireStep(s), s.pool.free[0];
      var held := Holders(s.capture, s.queue, s.sender);
      AcquireCounted(s.pool, held);
      if b in Buffers(InFlight(s.sender, s.queue)) { FlightHeld(s.capture, s.queue, s.sender, b); }
      assert Holders(t.capture, t.queue, t.sender) == held + multiset{b};
    }
  }

  lemma OverwriteExtends(row: seq<byte>, data: seq<byte>, k: nat)
    requires k < |row| && k < |data| && row[..k] == data[..k]
    ensures Overwrite(row, k, data[k])[..k + 1] == data[..k + 1]
  {
    assert data[..k + 1] == data[..k] + [data[k]];
  }

  lemma WriteShape(p: Pool, size: nat, b: nat, data: seq<byte>, k: nat)
    requires PoolShaped(p, size) && b < |p.memory| && k < |data| <= size && p.memory[b][..k] == data[..k]
    ensures var q := Write(p, b, k, data[k]);
            PoolShaped(q, size) && |q.memory| == |p.memory| && q.refs == p.refs
            && q.memory[b][..k + 1] == data[..k + 1]
            && forall x :: 0 <= x < |p.memory| && x != b ==> q.memory[x] == p.memory[x]
  {
    OverwriteExtends(p.memory[b], data, k);
  }

  lemma SameHolds(c: Capture, d: Capture, queue: seq<Frame>, t: Sender)
    requires CaptureHolds(c) == CaptureHolds(d)
    ensures Holders(c, queue, t) == Holders(d, queue, t)
  {
  }

  lemma CopyByteKeepsInv(s: Pipe)
    requires Inv(s) && s.capture.Copying? && s.capture.done < |s.capture.data|
    ensures Inv(CopyStep(s))
  {
    hide Counted, FlightOk, NewestQueued, SentOk, InFlight, Buffers, Write, PoolShaped, Holders;
    var Copying(data, b, k) := s.capture;
    SameHolds(s.capture, Copying(data, b, k + 1), s.queue, s.sender);
    var t, fl := CopyStep(s), InFlight(s.sender, s.queue);
    WriteCounted(s.pool, Holders(s.capture, s.queue, s.sender), b, k, data[k]);
    WriteShape(s.pool, s.size, b, data, k);
    FlightKept(fl, s.pool.memory, t.pool.memory, s.copied, []);
    assert s.copied + [] == s.copied;
  }

  lemma SentKept(sent: seq<Delivery>, copied: seq<seq<byte>>, more: seq<seq<byte>>, fl: seq<Frame>)
    requires SentOk(sent, copied, fl)
    ensures SentOk(sent, copied + more, fl) && SentBelow(sent, |copied| + 1)
  {
  }

  lemma CopyDoneKeepsInv(s: Pipe)
    requires Inv(s) && s.capture.Copying? && s.capture.done == |s.capture.data|
    ensures Inv(CopyStep(s))
  {
    hide Counted, NewestQueued, SentOk, InFlight, Buffers, PoolShaped, Retain, Distinct;
    var t, b, fl := CopyStep(s), s.capture.buffer, InFlight(s.sender, s.queue);
    var held := Holders(s.capture, s.queue, s.sender);
    RetainCounted(s.pool, held, b);
    RetainShaped(s.pool, s.size, b);
    assert Holders(t.capture, t.queue, t.sender) == held + multiset{b};
    FlightKept(fl, s.pool.memory, s.pool.memory, s.copied, [s.capture.data]);
    SentKept(s.sent, s.copied, [s.capture.data], fl);
    assert s.capture.data[..s.capture.done] == s.capture.data;
  }

  lemma RetainShaped(p: Pool, size: nat, b: nat)
    requires PoolShaped(p, size) && b < |p.refs|
    ensures PoolShaped(Retain(p, b), size)
  {
  }

  lemma DropShaped(p: Pool, size: nat, b: nat)
    requires PoolShaped(p, size) && b < |p.refs| == |p.memory|
    ensures PoolShaped(Drop(p, b), size)
  {
  }

  lemma RoomCounted(s: Pipe)
    requires Shaped(s) && Counted(s.pool, Holders(s.capture, s.queue, s.sender))
    ensures Counted(MakeRoom(s).pool, Holders(s.capture, MakeRoom(s).queue, s.sender))
  {
    hide Counted, Drop, PoolShaped;
    if |s.queue| >= s.capacity {
      var oldest, held := s.queue[0].buffer, Holders(s.capture, s.queue, s.sender);
      BuffersHead(s.queue);
      DropCounted(s.pool, held, oldest);
      assert Holders(s.capture, s.queue[1..], s.sender) == held - multiset{oldest};
    }
  }

  lemma RoomFlight(s: Pipe, f: Frame)
    requires Shaped(s) && |s.queue| <= s.capacity && NewestQueued(s.queue, Newest(s))
    requires FlightOk(InFlight(s.sender, s.queue), s.pool.memory, s.copied)
    requires SentOk(s.sent, s.copied, InFlight(s.sender, s.queue))
    requires f.buffer !in Buffers(InFlight(s.sender, s.queue)) && Ordered(InFlight(s.sender, s.queue), f.id)
    ensures var t := MakeRoom(s); var fl := InFlight(s.sender, t.queue);
            t == s.(pool := t.pool, queue := t.queue) && |t.queue| < t.capacity && t.pool.memory == s.pool.memory
            && FlightOk(fl, s.pool.memory, s.copied) && SentOk(s.sent, s.copied, fl) && NewestQueued(t.queue, Newest(s))
            && f.buffer !in Buffers(fl) && Ordered(fl, f.id)
  {
    hide PoolShaped, FlightOk, Buffers, Ordered;
    if |s.queue| >= s.capacity {
      var p, fl := if s.sender.Sending? then 1 else 0, InFlight(s.sender, s.queue);
      assert InFlight(s.sender, s.queue[1..]) == Without(fl, p);
      FlightWithout(fl, p, s.pool.memory, s.copied);
    }
  }

  lemma JoinCounted(s: Pipe, f: Frame)
    requires Shaped(s) && Counted(s.pool, Holders(s.capture, s.queue, s.sender)) && s.capture == Pushing(f)
    ensures Counted(Retain(s.pool, f.buffer), Holders(Resting(f), s.queue + [f], s.sender))
  {
    hide Counted, Retain, PoolShaped;
    var held := Holders(s.capture, s.queue, s.sender);
    RetainCounted(s.pool, held, f.buffer);
    BuffersAppend(s.queue, f);
    assert Holders(Resting(f), s.queue + [f], s.sender) == held + multiset{f.buffer};
  }

  lemma PushKeepsInv(s: Pipe)
    requires Inv(s) && s.capture.Pushing?
    ensures Inv(PushStep(s))
  {
    hide Counted, Intact, Ordered, Distinct, MakeRoom, Buffers, Holders, PoolShaped, Retain;
    var t, f := MakeRoom(s), s.capture.frame;
    RoomCounted(s);
    RoomFlight(s, f);
    JoinCounted(t, f);
    RetainShaped(t.pool, s.size, f.buffer);
    var fl := InFlight(s.sender, t.queue);
    assert InFlight(s.sender, t.queue + [f]) == fl + [f];
    FlightAppend(fl, f, s.pool.memory, s.copied);
    BuffersHas(fl, f.buffer);
  }

  lemma RestKeepsInv(s: Pipe)
    requires Inv(s) && s.capture.Resting?
    ensures Inv(RestStep(s))
  {
    hide Counted, FlightOk, NewestQueued, SentOk, InFlight, Buffers, PoolShaped, Drop, Holders;
    var b, held := s.capture.frame.buffer, Holders(s.capture, s.queue, s.sender);
    RestHolders(s.capture, s.queue, s.sender);
    DropCounted(s.pool, held, b);
    DropCounted(Drop(s.pool, b), held - multiset{b}, b);
    DropShaped(s.pool, s.size, b);
    DropShaped(Drop(s.pool, b), s.size, b);
  }

  lemma RestHolders(c: Capture, queue: seq<Frame>, t: Sender)
    requires c.Resting?
    ensures var b, held := c.frame.buffer, Holders(c, queue, t);
            b in held && b in held - multiset{b} && Holders(Reading, queue, t) == held - multiset{b} - multiset{b}
  {
    hide Buffers, SenderHolds;
    var b, rest := c.frame.buffer, multiset(Buffers(queue)) + SenderHolds(t);
    assert Holders(c, queue, t) == multiset{b, b} + rest && Holders(Reading, queue, t) == rest;
  }

  // ---- The send thread ----------------------------------------------------

  lemma PopKeepsInv(s: Pipe)
    requires Inv(s) && s.sender == Popping
    ensures Inv(PopStep(s))
  {
    hide Counted, FlightOk, SentOk, Buffers, PoolShaped, Holders;
    if s.queue != [] {
      var t := PopStep(s);
      PopHolders(s.capture, s.queue, s.sender);
      assert InFlight(t.sender, t.queue) == InFlight(s.sender, s.queue);
      FrontIntact(InFlight(s.sender, s.queue), s.pool.memory, s.copied);
      RowSize(s.pool, s.size, s.queue[0].buffer);
    } else {
      assert Holders(s.capture, s.queue, Left) == Holders(s.capture, s.queue, s.sender) by { SenderIdle(s); }
      assert InFlight(PopStep(s).sender, s.queue) == InFlight(s.sender, s.queue);
    }
  }

  lemma PopHolders(c: Capture, queue: seq<Frame>, t: Sender)
    requires queue != [] && t == Popping
    ensures Holders(c, queue[1..], Sending(queue[0])) == Holders(c, queue, t)
  {
    BuffersHead(queue);
  }

  lemma SenderIdle(s: Pipe)
    requires !s.sender.Sending?
    ensures forall t: Sender :: !t.Sending? ==> Holders(s.capture, s.queue, t) == Holders(s.capture, s.queue, s.sender)
  {
  }

  lemma SendHolders(c: Capture, queue: seq<Frame>, t: Sender)
    requires t.Sending?
    ensures t.frame.buffer in Holders(c, queue, t)
    ensures forall u: Sender :: !u.Sending? ==> Holders(c, queue, u) == Holders(c, queue, t) - multiset{t.frame.buffer}
  {
  }

  lemma RowSize(p: Pool, size: nat, b: nat)
    requires PoolShaped(p, size) && b < |p.memory|
    ensures |p.memory[b]| == size
  {
  }

  lemma FrontIntact(fl: seq<Frame>, m: seq<seq<byte>>, copied: seq<seq<byte>>)
    requires FlightOk(fl, m, copied) && fl != []
    ensures Intact(m, copied, fl[0])
  {
  }

  // Delivering the front of the flight keeps the deliveries in order.
  lemma SentNext(fl: seq<Frame>, sent: seq<Delivery>, m: seq<seq<byte>>, copied: seq<seq<byte>>)
    requires fl != [] && FlightOk(fl, m, copied) && SentOk(sent, copied, fl)
    ensures fl[0].buffer < |m| && fl[0].totalBytes <= |m[fl[0].buffer]|
    ensures SentOk(sent + [Delivery(fl[0].id, m[fl[0].buffer][..fl[0].totalBytes])], copied, Without(fl, 0))
    ensures SentOk(sent, copied, Without(fl, 0))
    ensures forall id :: SentBelow(sent, id) && Ordered(fl, id) ==>
              SentBelow(sent + [Delivery(fl[0].id, m[fl[0].buffer][..fl[0].totalBytes])], id)
  {
    hide Distinct;
  }

  lemma CaptureKept(s: Pipe, t: Pipe, fl: seq<Frame>, rest: seq<Frame>)
    requires CaptureOk(s, fl) && t.capture == s.capture && t.size == s.size && t.pool.memory == s.pool.memory
    requires t.copied == s.copied
    requires forall f :: f in rest ==> f in fl
    requires forall b :: b in Buffers(rest) ==> b in Buffers(fl)
    requires forall id :: Ordered(fl, id) ==> Ordered(rest, id)
    requires forall id :: SentBelow(s.sent, id) && Ordered(fl, id) ==> SentBelow(t.sent, id)
    ensures CaptureOk(t, rest)
  {
    hide Ordered, Buffers, SentBelow, Intact;
  }

  lemma SendKeepsInv(s: Pipe, ok: bool)
    requires Inv(s) && s.sender.Sending?
    ensures Inv(SendStep(s, ok))
  {
    hide Counted, Buffers, PoolShaped, Drop, Distinct, Holders, Ordered;
    var f, held := s.sender.frame, Holders(s.capture, s.queue, s.sender);
    var t, fl := SendStep(s, ok), InFlight(s.sender, s.queue);
    FrontIntact(fl, s.pool.memory, s.copied);
    SendHolders(s.capture, s.queue, s.sender);
    DropCounted(s.pool, held, f.buffer);
    DropShaped(s.pool, s.size, f.buffer);
    assert InFlight(t.sender, t.queue) == Without(fl, 0);
    FlightWithout(fl, 0, s.pool.memory, s.copied);
    SentNext(fl, s.sent, s.pool.memory, s.copied);
    CaptureKept(s, t, fl, Without(fl, 0));
  }

  lemma SenderKeepsInv(s: Pipe, ok: bool)
    requires Inv(s)
    ensures Inv(SenderStep(s, ok))
  {
    hide Counted, FlightOk, SentOk, Buffers, PoolShaped, NewestQueued, PopStep, SendStep, Ordered, Holders;
    match s.sender {
      case AtHead =>
        SenderIdle(s);
        assert InFlight(SenderStep(s, ok).sender, s.queue) == InFlight(s.sender, s.queue);
      case Popping => PopKeepsInv(s);
      case Sending(_) => SendKeepsInv(s, ok);
      case Left =>
    }
  }

  lemma CaptureKeepsInv(s: Pipe, data: seq<byte>)
    requires Inv(s)
    ensures Inv(CaptureStep(s, data))
  {
    hide Inv, ReadStep, AcquireStep, CopyStep, PushStep, RestStep;
    InvShaped(s);
    match s.capture {
      case Reading => ReadKeepsInv(s, data);
      case Wanting(_) => AcquireKeepsInv(s);
      case Copying(_, _, _) =>
        if s.capture.done < |s.capture.data| { CopyByteKeepsInv(s); } else { CopyDoneKeepsInv(s); }
      case Pushing(_) => PushKeepsInv(s);
      case Resting(_) => RestKeepsInv(s);
      case Gone =>
    }
  }

  lemma InvShaped(s: Pipe)
    requires Inv(s)
    ensures Shaped(s) && (s.stopped ==> s.capture.Gone?)
  {
  }

  lemma StopKeepsInv(s: Pipe)
    requires Inv(s)
    ensures Inv(StopStep(s))
  {
    hide Counted, FlightOk, SentOk, Buffers, PoolShaped, NewestQueued, InFlight, Holders;
  }

  lemma StepKeepsInv(s: Pipe, c: Choice)
    requires Inv(s)
    ensures Inv(Step(s, c))
  {
    hide Inv, CaptureStep, SenderStep, StopStep;
    InvShaped(s);
    match c {
      case CaptureMoves(data) => CaptureKeepsInv(s, data);
      case SenderMoves(ok) => SenderKeepsInv(s, ok);
      case StopMoves => StopKeepsInv(s);
    }
  }

  lemma FreshCounted(memory: seq<seq<byte>>)
    ensures Counted(FreshPool(memory), multiset{})
  {
    var p := FreshPool(memory);
    forall b: nat ensures b in p.free <==> b < |p.refs| && multiset{}[b] == 0 {
      if b < |memory| { assert p.free[b] == b; }
    }
  }

  lemma InitialInv(size: nat, memory: seq<seq<byte>>, capacity: nat)
    requires capacity >= 1 && Uninitialised(memory, size, |memory|)
    ensures Inv(Initial(size, memory, capacity))
  {
    FreshCounted(memory);
    assert Holders(Reading, [], AtHead) == multiset{};
    assert InFlight(AtHead, []) == [];
  }

  // ---- Runs ---------------------------------------------------------------

  // What no step touches.
  ghost predicate SameSizes(s: Pipe, t: Pipe) {
    t.size == s.size && t.capacity == s.capacity && |t.pool.memory| == |s.pool.memory|
  }

  lemma StepKeepsSizes(s: Pipe, c: Choice)
    requires Shaped(s)
    ensures SameSizes(s, Step(s, c))
  {
    hide PoolShaped;
  }

  ghost function Run(s: Pipe, choices: seq<Choice>): Pipe
    requires Inv(s)
    decreases |choices|
  {
    if choices == [] then s
    else
      StepKeepsInv(s, choices[0]);
      Run(Step(s, choices[0]), choices[1..])
  }

  lemma {:induction false} RunKeepsInv(s: Pipe, choices: seq<Choice>)
    requires Inv(s)
    ensures Inv(Run(s, choices)) && SameSizes(s, Run(s, choices))
    decreases |choices|
  {
    hide Inv, Step;
    if choices != [] {
      InvShaped(s);
      StepKeepsInv(s, choices[0]);
      StepKeepsSizes(s, choices[0]);
      RunKeepsInv(Step(s, choices[0]), choices[1..]);
    }
  }

  lemma {:induction false} RunSnoc(s: Pipe, choices: seq<Choice>, c: Choice)
    requires Inv(s)
    ensures Inv(Run(s, choices)) && Shaped(Run(s, choices))
    ensures Run(s, choices + [c]) == Step(Run(s, choices), c)
    decreases |choices|
  {
    hide Inv, Step, Shaped;
    RunKeepsInv(s, choices);
    InvShaped(Run(s, choices));
    InvShaped(s);
    if choices == [] {
      assert ([] + [c])[1..] == [];
    } else {
      StepKeepsInv(s, choices[0]);
      RunSnoc(Step(s, choices[0]), choices[1..], c);
      assert (choices + [c])[1..] == choices[1..] + [c];
    }
  }

  // Free buffers and referenced buffers make up the pool, none twice.
  ghost predicate Partitioned(s: Pipe) {
    var held := Holders(s.capture, s.queue, s.sender);
    && Distinct(s.pool.free)
    && (forall b :: b in s.pool.free ==> b !in held)
    && (forall b: nat :: b in s.pool.free || b in held <==> b < |s.pool.memory|)
  }

  lemma HoldersInRange(s: Pipe, b: nat)
    requires Shaped(s) && b in Holders(s.capture, s.queue, s.sender)
    ensures b < |s.pool.memory|
  {
    if b in multiset(Buffers(s.queue)) {
      assert b in Buffers(s.queue);
      BuffersHas(s.queue, b);
    }
  }

  lemma InvPartitions(s: Pipe)
    requires Inv(s)
    ensures Partitioned(s)
  {
    hide Holders, FlightOk, CaptureOk, NewestQueued, SentOk, PoolShaped;
    forall b: nat | b in Holders(s.capture, s.queue, s.sender) ensures b < |s.pool.memory| {
      HoldersInRange(s, b);
    }
  }

  // Main result: in every interleaving, whatever the camera gives and however
  // the sends go, each frame sent carries exactly the bytes captured under its
  // number, numbers in order; every frame queued or being sent still holds its
  // own bytes; and free and referenced buffers partition the pool.
  lemma EveryRunDelivers(size: nat, memory: seq<seq<byte>>, capacity: nat, choices: seq<Choice>)
    requires capacity >= 1 && Uninitialised(memory, size, |memory|)
    ensures Inv(Initial(size, memory, capacity))
    ensures var s := Run(Initial(size, memory, capacity), choices);
            SentOk(s.sent, s.copied, InFlight(s.sender, s.queue))
            && (forall f :: f in InFlight(s.sender, s.queue) ==> Intact(s.pool.memory, s.copied, f))
            && NewestQueued(s.queue, Newest(s)) && |s.queue| <= capacity
            && Partitioned(s) && |s.pool.memory| == |memory|
  {
    InitialInv(size, memory, capacity);
    var s := Run(Initial(size, memory, capacity), choices);
    RunKeepsInv(Initial(size, memory, capacity), choices);
    InvPartitions(s);
  }
}

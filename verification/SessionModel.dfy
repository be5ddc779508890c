// Reliable sending: persist, send, remove; and after a break reconnect, shake
// hands, purge what the server reports durable and replay the rest.
//
// Every operation is specified by the trail of worlds it passes through, so
// that statements can be made about a process killed at any point inside it.
module SessionModel {
  import opened Bytes
  import opened Tcp
  import opened FrameSending
  import opened SenderSpool
  import opened ProtocolMessages

  const FRAGMENT_SIZE: FragmentSize := 64 * 1024

  datatype SessionState = Disconnected | Connecting | Handshaking | Recovering | Ready | Failed

  datatype Message = Hello | ResumeRequest | Frame(frame: RawFrame)

  ghost function MessageBytes(taskId: u64, m: Message): seq<byte> {
    match m
    case Hello => HelloBytes(taskId)
    case ResumeRequest => ResumeRequestBytes(taskId)
    case Frame(f) => FrameBytes(f, FRAGMENT_SIZE)
  }

  // What one connection carried: whole messages, then at most one cut short.
  datatype Cut = Cut(message: Message, bytes: nat)
  datatype Transcript = Transcript(done: seq<Message>, cut: Option<Cut>)

  ghost function RenderAll(taskId: u64, done: seq<Message>): seq<byte> {
    if done == [] then []
    else RenderAll(taskId, done[..|done| - 1]) + MessageBytes(taskId, done[|done| - 1])
  }

  ghost predicate CutFits(taskId: u64, t: Transcript) {
    t.cut.Some? ==> t.cut.value.bytes < |MessageBytes(taskId, t.cut.value.message)|
  }

  ghost function Render(taskId: u64, t: Transcript): seq<byte>
    requires CutFits(taskId, t)
  {
    RenderAll(taskId, t.done)
    + if t.cut.None? then [] else MessageBytes(taskId, t.cut.value.message)[..t.cut.value.bytes]
  }

  // The session, its disk and its connections, with the history that the
  // guarantees speak of: log (the messages behind the wire bytes), marks (every
  // highestDurableFrameSeq received) and persisted (every frame whose persist
  // returned true, in any process).
  datatype RawWorld = World(
    taskId: u64, conn: Conn, spool: Spool, state: SessionState, highest: u64,
    log: seq<Transcript>, marks: set<u64>, persisted: set<RawFrame>)

  ghost predicate Wired(w: RawWorld) {
    ValidConn(w.conn) && |w.log| == |w.conn.wires|
  }

  type World = w: RawWorld | Wired(w)
    ghost witness World(0, Conn(false, NO_LINK, []), Spool(map[], 0, 0), Disconnected, 0, [], {}, {})

  // ---- The operations -----------------------------------------------------

  // The worlds an operation passes through, the last one being its result.
  datatype Trail = Trail(worlds: seq<World>, ok: bool)

  ghost function End(w: World, worlds: seq<World>): World {
    if worlds == [] then w else worlds[|worlds| - 1]
  }

  ghost predicate Passes(w: World, m: Message) {
    Carries(w.conn, MessageBytes(w.taskId, m))
  }

  ghost function Transmitted(w: World, m: Message): World {
    if !w.conn.connected then w
    else
      var last := |w.log| - 1;
      var t := w.log[last];
      w.(conn := Sent(w.conn, MessageBytes(w.taskId, m)),
         log := w.log[last := if Passes(w, m) then t.(done := t.done + [m])
                              else t.(cut := Some(Cut(m, w.conn.link.budget)))])
  }

  ghost function Connected(w: World, offer: Option<Link>): World {
    w.(conn := Connect(w.conn, offer), state := Connecting,
       log := if w.conn.connected || offer.None? then w.log else w.log + [Transcript([], None)])
  }

  // closeConnection, then Failed.
  ghost function Shut(w: World): World {
    w.(conn := Close(w.conn), state := Failed)
  }

  ghost function PurgedOne(w: World, f: RawFrame): World {
    if f.frameId <= w.highest then w.(spool := Removed(w.spool, f.frameId)) else w
  }

  ghost function Purge(w: World, frames: seq<RawFrame>): seq<World>
    decreases |frames|
  {
    if frames == [] then []
    else [PurgedOne(w, frames[0])] + Purge(PurgedOne(w, frames[0]), frames[1..])
  }

  // An empty frame stops the replay without touching the connection.
  ghost function Replay(w: World, frames: seq<RawFrame>): Trail
    decreases |frames|
  {
    if frames == [] then Trail([], true)
    else if frames[0].Empty() then Trail([], false)
    else
      var v := Transmitted(w, Frame(frames[0]));
      if !Passes(w, Frame(frames[0])) then Trail([v], false)
      else
        var rest := Replay(v, frames[1..]);
        Trail([v] + rest.worlds, rest.ok)
  }

  ghost function Marked(w: World, mark: u64): World {
    w.(highest := mark, marks := w.marks + {mark})
  }

  ghost function MarkAndPurge(w: World, mark: u64): seq<World> {
    [Marked(w, mark)] + Purge(Marked(w, mark), Pending(w.spool.files))
  }

  // Receiving and obeying the reply to a request that went out whole.
  ghost function Answer(asked: World): Trail {
    var answered := asked.(conn := Drained(asked.conn, 28));
    if !Delivers(asked.conn, 28) then Trail([answered], false)
    else
      match ResumeReplyOf(asked.conn.link.incoming[..28])
      case None => Trail([answered], false)
      case Some(reply) => Trail([answered] + MarkAndPurge(answered, reply.highestDurableFrameSeq), true)
  }

  ghost function RequestResume(w: World): Trail {
    var asked := Transmitted(w, ResumeRequest);
    if !Passes(w, ResumeRequest) then Trail([asked], false)
    else Trail([asked] + Answer(asked).worlds, Answer(asked).ok)
  }

  // From the moment the client is connected.
  ghost function Handshake(c: World): Trail {
    var greeting := c.(state := Handshaking);
    var greeted := Transmitted(greeting, Hello);
    if !Passes(greeting, Hello) then Trail([greeted, Shut(greeted)], false)
    else
      var r := RequestResume(greeted);
      if !r.ok then Trail([greeted] + r.worlds + [Shut(End(greeted, r.worlds))], false)
      else Trail([greeted] + r.worlds, true)
  }

  ghost function Recover(w: World): Trail {
    var recovering := w.(state := Recovering);
    var p := Replay(recovering, Pending(recovering.spool.files));
    Trail(p.worlds + [End(recovering, p.worlds).(state := if p.ok then Ready else Failed)], p.ok)
  }

  ghost function Reconnect(w: World, offer: Option<Link>): Trail {
    var c := Connected(w, offer);
    if !c.conn.connected then Trail([c.(state := Disconnected)], false)
    else
      var h := Handshake(c);
      if !h.ok then Trail([c] + h.worlds, false)
      else
        var r := Recover(End(c, h.worlds));
        Trail([c] + h.worlds + r.worlds, r.ok)
  }

  ghost function Stored(w: World, f: RawFrame, write: WriteOutcome): World {
    w.(spool := Persisted(w.spool, f, write),
       persisted := if Persists(w.spool, f, write) then w.persisted + {f} else w.persisted)
  }

  ghost function Deliver(w: World, f: RawFrame): Trail {
    var s := Transmitted(w, Frame(f));
    if !Passes(w, Frame(f)) then Trail([s, Shut(s)], false)
    else Trail([s, s.(spool := Removed(s.spool, f.frameId))], true)
  }

  ghost function EnsureConnected(w: World, offer: Option<Link>): Trail {
    if w.conn.connected then Trail([], true) else Reconnect(w, offer)
  }

  ghost function Send(w: World, f: RawFrame, write: WriteOutcome, offer: Option<Link>): Trail {
    var stored := Stored(w, f, write);
    if !Persists(w.spool, f, write) then Trail([stored], false)
    else
      var r := EnsureConnected(stored, offer);
      if !r.ok then Trail([stored] + r.worlds, false)
      else
        var d := Deliver(End(stored, r.worlds), f);
        Trail([stored] + r.worlds + d.worlds, d.ok)
  }

  // Memory gone, disk and history kept.
  ghost function Rebooted(w: World): World {
    w.(conn := Close(w.conn), spool := Reopened(w.spool.files), state := Disconnected, highest := 0)
  }

  datatype Call =
    | ReconnectCall(offer: Option<Link>)
    | SendCall(frame: RawFrame, write: WriteOutcome, offer: Option<Link>)

  ghost function Run(w: World, call: Call): Trail {
    match call
    case ReconnectCall(offer) => Reconnect(w, offer)
    case SendCall(f, write, offer) => Send(w, f, write, offer)
  }

  // A call runs to its end, or the process is killed after some world of its
  // trail (or before the first) and started again.
  datatype Event = Completed(call: Call) | Killed(call: Call, point: nat)

  ghost function After(w: World, e: Event): World {
    var worlds := Run(w, e.call).worlds;
    if e.Completed? then End(w, worlds)
    else Rebooted(if e.point < |worlds| then worlds[e.point] else w)
  }

  // ---- Order on the wire --------------------------------------------------

  datatype Phase = Fresh | Greeted | Enabled | Broken

  // Hello, ResumeRequest, frames; a further handshake may interrupt the frames.
  function Advance(p: Phase, m: Message): Phase {
    match (p, m)
    case (Fresh, Hello) => Greeted
    case (Greeted, ResumeRequest) => Enabled
    case (Enabled, Frame(_)) => Enabled
    case (Enabled, Hello) => Greeted
    case _ => Broken
  }

  function PhaseOf(done: seq<Message>): Phase {
    if done == [] then Fresh else Advance(PhaseOf(done[..|done| - 1]), done[|done| - 1])
  }

  ghost predicate Proper(taskId: u64, t: Transcript) {
    CutFits(taskId, t) && PhaseOf(t.done) != Broken
    && (t.cut.Some? ==> Advance(PhaseOf(t.done), t.cut.value.message) != Broken)
  }

  // The wires carry what the log says, properly ordered, and only a closed
  // connection ends in a cut message.
  ghost predicate WiresTellLog(w: World) {
    (forall i :: 0 <= i < |w.log| ==>
       Proper(w.taskId, w.log[i]) && w.conn.wires[i] == Render(w.taskId, w.log[i]))
    && (w.conn.connected ==> w.log[|w.log| - 1].cut.None?)
  }

  ghost predicate InPhase(w: World, p: Phase) {
    w.conn.connected ==> PhaseOf(w.log[|w.log| - 1].done) == p
  }

  lemma RenderGrows(taskId: u64, t: Transcript, m: Message)
    requires t.cut.None?
    ensures Render(taskId, t.(done := t.done + [m])) == Render(taskId, t) + MessageBytes(taskId, m)
  {
    assert (t.done + [m])[..|t.done|] == t.done;
    assert RenderAll(taskId, t.done) + [] == RenderAll(taskId, t.done);
  }

  lemma RenderCut(taskId: u64, t: Transcript, m: Message, k: nat)
    requires t.cut.None? && k < |MessageBytes(taskId, m)|
    ensures Render(taskId, t.(cut := Some(Cut(m, k)))) == Render(taskId, t) + MessageBytes(taskId, m)[..k]
  {
    assert RenderAll(taskId, t.done) + [] == RenderAll(taskId, t.done);
  }

  lemma PhaseGrows(done: seq<Message>, m: Message)
    ensures PhaseOf(done + [m]) == Advance(PhaseOf(done), m)
  {
    assert (done + [m])[..|done|] == done;
  }

  lemma TransmitKeepsWires(w: World, m: Message, p: Phase)
    requires WiresTellLog(w) && InPhase(w, p) && Advance(p, m) != Broken
    ensures WiresTellLog(Transmitted(w, m)) && InPhase(Transmitted(w, m), Advance(p, m))
    ensures Passes(w, m) <==> Transmitted(w, m).conn.connected
  {
    hide RenderAll, Render, PhaseOf, Advance, MessageBytes;
    if w.conn.connected {
      var last := |w.log| - 1;
      var t := w.log[last];
      if Passes(w, m) {
        RenderGrows(w.taskId, t, m);
        PhaseGrows(t.done, m);
      } else {
        RenderCut(w.taskId, t, m, w.conn.link.budget);
      }
    }
  }

  // ---- No silent loss -----------------------------------------------------

  ghost predicate WhollyWritten(w: World, f: RawFrame) {
    exists i :: 0 <= i < |w.log| && Frame(f) in w.log[i].done
  }

  ghost predicate ReportedDurable(w: World, f: RawFrame) {
    exists mark :: mark in w.marks && f.frameId <= mark
  }

  ghost predicate Kept(w: World, f: RawFrame) {
    Loadable(w.spool.files, f) || WhollyWritten(w, f) || ReportedDurable(w, f)
  }

  ghost predicate NoLoss(w: World) {
    forall f :: f in w.persisted ==> Kept(w, f)
  }

  // What holds in every world of every trail.
  ghost predicate Sound(w: World) {
    WiresTellLog(w) && NoLoss(w) && OwnFiles(w.spool.files)
  }

  ghost predicate AllSound(worlds: seq<World>) {
    forall i :: 0 <= i < |worlds| ==> Sound(worlds[i])
  }

  lemma EndSound(w: World, worlds: seq<World>)
    requires Sound(w) && AllSound(worlds)
    ensures Sound(End(w, worlds))
  {
  }

  lemma SoundConcat(a: seq<World>, b: seq<World>)
    requires AllSound(a) && AllSound(b)
    ensures AllSound(a + b)
  {
  }

  lemma EndConcat(w: World, a: seq<World>, b: seq<World>)
    ensures End(w, a + b) == End(End(w, a), b)
  {
  }

  // Nothing already known to be written or durable is forgotten.
  ghost predicate Grows(w: World, v: World) {
    v.marks >= w.marks && v.persisted == w.persisted && |v.log| >= |w.log|
    && forall i, m :: 0 <= i < |w.log| && m in w.log[i].done ==> m in v.log[i].done
  }

  // Nor is any file touched.
  ghost predicate Remembers(w: World, v: World) {
    Grows(w, v) && v.spool.files == w.spool.files
  }

  lemma RememberingKeepsAll(w: World, v: World)
    requires NoLoss(w) && Remembers(w, v)
    ensures NoLoss(v)
  {
    forall f | f in v.persisted ensures Kept(v, f) {
      assert Kept(w, f);
      if WhollyWritten(w, f) {
        var i :| 0 <= i < |w.log| && Frame(f) in w.log[i].done;
        assert Frame(f) in v.log[i].done;
      }
    }
  }

  lemma TransmitRemembers(w: World, m: Message)
    ensures Remembers(w, Transmitted(w, m))
  {
  }

  lemma TransmitWrites(w: World, f: RawFrame)
    requires Passes(w, Frame(f))
    ensures WhollyWritten(Transmitted(w, Frame(f)), f)
  {
    var v := Transmitted(w, Frame(f));
    assert Frame(f) in v.log[|v.log| - 1].done;
  }

  lemma TransmitSound(w: World, m: Message, p: Phase)
    requires Sound(w) && InPhase(w, p) && Advance(p, m) != Broken
    ensures Sound(Transmitted(w, m)) && InPhase(Transmitted(w, m), Advance(p, m))
    ensures Passes(w, m) <==> Transmitted(w, m).conn.connected
    ensures Transmitted(w, m).spool == w.spool && Transmitted(w, m).highest == w.highest
  {
    TransmitKeepsWires(w, m, p);
    TransmitRemembers(w, m);
    RememberingKeepsAll(w, Transmitted(w, m));
  }

  // Removing a file is safe exactly when its frame is kept some other way.
  lemma RemoveSound(w: World, id: u64)
    requires Sound(w)
    requires forall f :: f in w.persisted && f.frameId == id ==> WhollyWritten(w, f) || ReportedDurable(w, f)
    ensures Sound(w.(spool := Removed(w.spool, id)))
  {
    var v := w.(spool := Removed(w.spool, id));
    forall f | f in v.persisted ensures Kept(v, f) {
      assert Kept(w, f);
      if WhollyWritten(w, f) {
        assert WhollyWritten(v, f);
      } else if Loadable(w.spool.files, f) && f.frameId != id && !ReportedDurable(w, f) {
        FileNameRoundTrip(f.frameId);
        FileNameRoundTrip(id);
        assert FileName(f.frameId) != FileName(id);
      }
    }
  }

  ghost predicate SameConnection(w: World, v: World) {
    v.conn == w.conn && v.log == w.log
  }

  lemma {:induction false} PurgeSound(w: World, frames: seq<RawFrame>)
    requires Sound(w) && w.highest in w.marks
    ensures AllSound(Purge(w, frames)) && SameConnection(w, End(w, Purge(w, frames)))
    ensures End(w, Purge(w, frames)).highest == w.highest && End(w, Purge(w, frames)).marks == w.marks
    decreases |frames|
  {
    if frames != [] {
      RemoveSound'(w, frames[0]);
      PurgeSound(PurgedOne(w, frames[0]), frames[1..]);
    }
  }

  lemma RemoveSound'(w: World, f: RawFrame)
    requires Sound(w) && w.highest in w.marks
    ensures Sound(PurgedOne(w, f))
  {
    if f.frameId <= w.highest {
      RemoveSound(w, f.frameId);
    }
  }

  lemma ReplayFirst(w: World, frames: seq<RawFrame>)
    requires frames != [] && !frames[0].Empty() && Passes(w, Frame(frames[0]))
    ensures var v := Transmitted(w, Frame(frames[0]));
            var rest := Replay(v, frames[1..]);
            Replay(w, frames) == Trail([v] + rest.worlds, rest.ok)
            && End(w, Replay(w, frames).worlds) == End(v, rest.worlds)
  {
  }

  lemma {:induction false} ReplaySound(w: World, frames: seq<RawFrame>)
    requires Sound(w) && w.conn.connected && InPhase(w, Enabled)
    requires forall f :: f in frames ==> !f.Empty()
    ensures AllSound(Replay(w, frames).worlds)
    ensures var v := End(w, Replay(w, frames).worlds);
            InPhase(v, Enabled) && (v.conn.connected <==> Replay(w, frames).ok)
    decreases |frames|
  {
    hide Transmitted, Passes, Sound, PhaseOf;
    if frames != [] {
      assert frames[0] in frames;
      var v := Transmitted(w, Frame(frames[0]));
      TransmitSound(w, Frame(frames[0]), Enabled);
      if Passes(w, Frame(frames[0])) {
        ReplayFirst(w, frames);
        ReplaySound(v, frames[1..]);
        SoundConcat([v], Replay(v, frames[1..]).worlds);
      }
    }
  }

  lemma MarkSound(w: World, mark: u64)
    requires Sound(w)
    ensures Sound(Marked(w, mark))
  {
    RememberingKeepsAll(w, Marked(w, mark));
  }

  lemma CloseSound(w: World)
    requires Sound(w)
    ensures Sound(Shut(w)) && Sound(w.(conn := Close(w.conn)))
  {
    RememberingKeepsAll(w, Shut(w));
    RememberingKeepsAll(w, w.(conn := Close(w.conn)));
  }

  lemma StateSound(w: World, s: SessionState)
    requires Sound(w)
    ensures Sound(w.(state := s))
  {
    RememberingKeepsAll(w, w.(state := s));
  }

  lemma DrainSound(w: World, n: nat)
    requires Sound(w)
    ensures Sound(w.(conn := Drained(w.conn, n)))
  {
    RememberingKeepsAll(w, w.(conn := Drained(w.conn, n)));
  }

  lemma ConnectSound(w: World, offer: Option<Link>)
    requires Sound(w) && InPhase(w, Enabled)
    ensures Sound(Connected(w, offer))
    ensures Connected(w, offer).conn.connected ==> InPhase(Connected(w, offer), Enabled) || InPhase(Connected(w, offer), Fresh)
  {
    ConnectRemembers(w, offer);
    RememberingKeepsAll(w, Connected(w, offer));
    ConnectKeepsWires(w, offer);
  }

  lemma ConnectRemembers(w: World, offer: Option<Link>)
    ensures Remembers(w, Connected(w, offer))
  {
  }

  lemma ConnectKeepsWires(w: World, offer: Option<Link>)
    requires WiresTellLog(w)
    ensures WiresTellLog(Connected(w, offer))
  {
    if !w.conn.connected && offer.Some? {
      assert Render(w.taskId, Transcript([], None)) == [];
    }
  }

  lemma MarkAndPurgeSound(w: World, mark: u64)
    requires Sound(w)
    ensures var worlds := MarkAndPurge(w, mark);
            AllSound(worlds) && SameConnection(w, End(w, worlds))
            && End(w, worlds).highest == mark && mark in End(w, worlds).marks
  {
    var marked := Marked(w, mark);
    MarkSound(w, mark);
    PurgeSound(marked, Pending(marked.spool.files));
    EndConcat(w, [marked], Purge(marked, Pending(marked.spool.files)));
    SoundConcat([marked], Purge(marked, Pending(marked.spool.files)));
  }

  lemma AnswerSound(asked: World)
    requires Sound(asked)
    ensures AllSound(Answer(asked).worlds)
    ensures Answer(asked).ok ==>
              var v := End(asked, Answer(asked).worlds);
              v.conn.connected == asked.conn.connected && v.log == asked.log && v.highest in v.marks
  {
    DrainSound(asked, 28);
    if Answer(asked).ok {
      var answered := asked.(conn := Drained(asked.conn, 28));
      var mark := ResumeReplyOf(asked.conn.link.incoming[..28]).value.highestDurableFrameSeq;
      MarkAndPurgeSound(answered, mark);
      EndConcat(asked, [answered], MarkAndPurge(answered, mark));
      SoundConcat([answered], MarkAndPurge(answered, mark));
    }
  }

  lemma RequestResumeSound(w: World)
    requires Sound(w) && w.conn.connected && InPhase(w, Greeted)
    ensures AllSound(RequestResume(w).worlds)
    ensures RequestResume(w).ok ==>
              var v := End(w, RequestResume(w).worlds);
              v.conn.connected && InPhase(v, Enabled) && v.highest in v.marks
  {
    hide Transmitted, Answer, Sound, Passes, PhaseOf;
    var asked := Transmitted(w, ResumeRequest);
    TransmitSound(w, ResumeRequest, Greeted);
    if Passes(w, ResumeRequest) {
      AnswerSound(asked);
      EndConcat(w, [asked], Answer(asked).worlds);
      SoundConcat([asked], Answer(asked).worlds);
    }
  }

  lemma HandshakeSound(c: World)
    requires Sound(c) && c.conn.connected && (InPhase(c, Enabled) || InPhase(c, Fresh))
    ensures AllSound(Handshake(c).worlds)
    ensures var v := End(c, Handshake(c).worlds);
            (Handshake(c).ok ==> v.conn.connected && InPhase(v, Enabled) && v.highest in v.marks)
            && (!Handshake(c).ok ==> !v.conn.connected && v.state == Failed)
  {
    hide Transmitted, RequestResume, Sound, WiresTellLog, Passes, PhaseOf;
    var greeting := c.(state := Handshaking);
    StateSound(c, Handshaking);
    TransmitSound(greeting, Hello, if InPhase(c, Enabled) then Enabled else Fresh);
    var greeted := Transmitted(greeting, Hello);
    CloseSound(greeted);
    if Passes(greeting, Hello) {
      RequestResumeSound(greeted);
      var r := RequestResume(greeted);
      EndSound(greeted, r.worlds);
      CloseSound(End(greeted, r.worlds));
      assert r.ok ==> End(c, Handshake(c).worlds) == End(greeted, r.worlds);
    }
  }

  lemma RecoverSound(w: World)
    requires Sound(w) && w.conn.connected && InPhase(w, Enabled)
    ensures AllSound(Recover(w).worlds)
    ensures var v := End(w, Recover(w).worlds);
            InPhase(v, Enabled) && (v.conn.connected <==> v.state == Ready) && (v.state == Ready <==> Recover(w).ok)
  {
    hide Replay, Pending, Sound, PhaseOf;
    var recovering := w.(state := Recovering);
    StateSound(w, Recovering);
    var frames := Pending(recovering.spool.files);
    PendingIsWholeFrames(recovering.spool.files);
    ReplaySound(recovering, frames);
    var p := Replay(recovering, frames);
    EndSound(recovering, p.worlds);
    StateSound(End(recovering, p.worlds), if p.ok then Ready else Failed);
  }

  // At the boundary of every call: handshake done on a live connection, and
  // Ready exactly while connected.
  ghost predicate AtRest(w: World) {
    InPhase(w, Enabled) && (w.state == Ready <==> w.conn.connected)
  }

  lemma ReconnectSound(w: World, offer: Option<Link>)
    requires Sound(w) && AtRest(w)
    ensures AllSound(Reconnect(w, offer).worlds)
    ensures AtRest(End(w, Reconnect(w, offer).worlds))
    ensures Reconnect(w, offer).ok ==> End(w, Reconnect(w, offer).worlds).conn.connected
  {
    hide Handshake, Recover, Sound, PhaseOf, Connected;
    var c := Connected(w, offer);
    ConnectSound(w, offer);
    StateSound(c, Disconnected);
    if c.conn.connected {
      HandshakeSound(c);
      var h := Handshake(c);
      EndSound(c, h.worlds);
      EndConcat(w, [c], h.worlds);
      SoundConcat([c], h.worlds);
      if h.ok {
        var u := End(c, h.worlds);
        RecoverSound(u);
        EndConcat(w, [c] + h.worlds, Recover(u).worlds);
        SoundConcat([c] + h.worlds, Recover(u).worlds);
      }
    }
  }

  // ---- Persisting ---------------------------------------------------------

  // The file of f is replaced, for better or worse.
  ghost predicate Overwrites(s: Spool, f: RawFrame, write: WriteOutcome) {
    Admits(s, f) && !write.OpenFailed?
  }

  ghost predicate WritesWhole(f: RawFrame, write: WriteOutcome) {
    write.Written? || (write.Torn? && write.bytes >= |FileBytes(f)|)
  }

  // An older frame of the same id whose only protection is its file.
  ghost predicate AtRisk(w: World, f: RawFrame, g: RawFrame) {
    g in w.persisted && g.frameId == f.frameId && !WhollyWritten(w, g) && !ReportedDurable(w, g)
  }

  // Exactly when persist keeps every promise made so far.
  lemma PersistSafeIff(w: World, f: RawFrame, write: WriteOutcome)
    requires NoLoss(w) && OwnFiles(w.spool.files)
    ensures NoLoss(Stored(w, f, write)) <==>
              (Overwrites(w.spool, f, write) ==>
                 forall g :: AtRisk(w, f, g) ==> g == f && WritesWhole(f, write))
  {
    var v := Stored(w, f, write);
    var all := FileBytes(f);
    FileRoundTrip(f, |all|);
    assert all[..|all|] == all;
    if write.Torn? {
      FileRoundTrip(f, if write.bytes < |all| then write.bytes else |all|);
    }
    forall g | g in w.persisted
      ensures WhollyWritten(v, g) == WhollyWritten(w, g) && ReportedDurable(v, g) == ReportedDurable(w, g)
      ensures g.frameId != f.frameId ==> Loadable(v.spool.files, g) == Loadable(w.spool.files, g)
    {
      FileNameRoundTrip(g.frameId);
      FileNameRoundTrip(f.frameId);
    }
    if Overwrites(w.spool, f, write) && NoLoss(v) {
      forall g | AtRisk(w, f, g) ensures g == f && WritesWhole(f, write) {
        assert Kept(v, g);
      }
    }
    if Overwrites(w.spool, f, write) ==> forall g :: AtRisk(w, f, g) ==> g == f && WritesWhole(f, write) {
      forall g | g in v.persisted ensures Kept(v, g) {
        if g in w.persisted {
          assert Kept(w, g);
          assert AtRisk(w, f, g) || WhollyWritten(w, g) || ReportedDurable(w, g) || g.frameId != f.frameId;
        }
      }
    }
  }

  // What a caller must respect: no write may put at risk a frame whose file is
  // all that keeps it.
  ghost predicate Respected(w: World, call: Call) {
    call.SendCall? && Overwrites(w.spool, call.frame, call.write) ==>
      forall g :: AtRisk(w, call.frame, g) ==> g == call.frame && WritesWhole(call.frame, call.write)
  }

  // Under its id, no frame but f itself depends on its file.
  ghost predicate SoleAtRisk(w: World, f: RawFrame) {
    forall g :: AtRisk(w, f, g) ==> g == f
  }

  lemma StoreSound(w: World, f: RawFrame, write: WriteOutcome, offer: Option<Link>)
    requires Sound(w)
    ensures Sound(Stored(w, f, write)) <==> Respected(w, SendCall(f, write, offer))
    ensures AtRest(w) ==> AtRest(Stored(w, f, write))
    ensures Respected(w, SendCall(f, write, offer)) && Persists(w.spool, f, write) ==> SoleAtRisk(Stored(w, f, write), f)
  {
    PersistSafeIff(w, f, write);
    PersistKeepsOwnFiles(w.spool, f, write);
    if Respected(w, SendCall(f, write, offer)) && Persists(w.spool, f, write) {
      var v := Stored(w, f, write);
      forall g | AtRisk(v, f, g) ensures g == f {
        if g != f { assert AtRisk(w, f, g); }
      }
    }
  }

  lemma WrittenStays(w: World, v: World, g: RawFrame)
    requires Grows(w, v)
    ensures WhollyWritten(w, g) ==> WhollyWritten(v, g)
    ensures ReportedDurable(w, g) ==> ReportedDurable(v, g)
  {
    if WhollyWritten(w, g) {
      var i :| 0 <= i < |w.log| && Frame(g) in w.log[i].done;
      assert Frame(g) in v.log[i].done;
    }
  }

  lemma RiskShrinks(w: World, v: World, f: RawFrame)
    requires Grows(w, v) && SoleAtRisk(w, f)
    ensures SoleAtRisk(v, f)
  {
    hide WhollyWritten, ReportedDurable;
    forall g | AtRisk(v, f, g) ensures AtRisk(w, f, g) {
      WrittenStays(w, v, g);
    }
  }

  lemma NoneAtRisk(s: World, f: RawFrame)
    requires SoleAtRisk(s, f) && WhollyWritten(s, f)
    ensures forall g :: g in s.persisted && g.frameId == f.frameId ==> WhollyWritten(s, g) || ReportedDurable(s, g)
  {
    hide WhollyWritten, ReportedDurable;
    forall g | g in s.persisted && g.frameId == f.frameId ensures WhollyWritten(s, g) || ReportedDurable(s, g) {
      assert AtRisk(s, f, g) ==> g == f;
    }
  }

  lemma DeliverSound(w: World, f: RawFrame)
    requires Sound(w) && w.conn.connected && AtRest(w) && SoleAtRisk(w, f)
    ensures AllSound(Deliver(w, f).worlds) && AtRest(End(w, Deliver(w, f).worlds))
  {
    hide WiresTellLog, NoLoss, OwnFiles, WhollyWritten, PhaseOf, Sent, Carries, MessageBytes, ReportedDurable, Grows;
    var s := Transmitted(w, Frame(f));
    TransmitSound(w, Frame(f), Enabled);
    CloseSound(s);
    if Passes(w, Frame(f)) {
      TransmitWrites(w, f);
      TransmitRemembers(w, Frame(f));
      RiskShrinks(w, s, f);
      NoneAtRisk(s, f);
      RemoveSound(s, f.frameId);
    }
  }

  ghost predicate AllGrown(w: World, worlds: seq<World>) {
    forall i :: 0 <= i < |worlds| ==> Grows(w, worlds[i])
  }

  lemma GrowsOn(w: World, v: World, u: World)
    requires Grows(w, v) && Grows(v, u)
    ensures Grows(w, u)
  {
  }

  lemma AllGrownConcat(w: World, a: seq<World>, b: seq<World>)
    requires AllGrown(w, a) && AllGrown(End(w, a), b)
    ensures AllGrown(w, a + b)
  {
    hide Grows;
    GrowsSelf(w);
    forall i | 0 <= i < |b| ensures Grows(w, b[i]) {
      GrowsOn(w, End(w, a), b[i]);
    }
  }

  lemma GrowsSelf(w: World)
    ensures Grows(w, w)
  {
  }

  lemma {:induction false} PurgeGrown(w: World, frames: seq<RawFrame>)
    ensures AllGrown(w, Purge(w, frames))
    decreases |frames|
  {
    if frames != [] {
      var one := PurgedOne(w, frames[0]);
      PurgeGrown(one, frames[1..]);
      AllGrownConcat(w, [one], Purge(one, frames[1..]));
    }
  }

  lemma {:induction false} ReplayGrown(w: World, frames: seq<RawFrame>)
    ensures AllGrown(w, Replay(w, frames).worlds)
    decreases |frames|
  {
    hide Transmitted, Passes, Grows;
    if frames != [] {
      var v := Transmitted(w, Frame(frames[0]));
      TransmitGrows(w, Frame(frames[0]));
      ReplayGrown(v, frames[1..]);
      AllGrownConcat(w, [v], Replay(v, frames[1..]).worlds);
    }
  }

  lemma TransmitGrows(w: World, m: Message)
    ensures Grows(w, Transmitted(w, m))
  {
    TransmitRemembers(w, m);
  }

  lemma MarkGrows(w: World, mark: u64)
    ensures Grows(w, Marked(w, mark))
  {
  }

  lemma LinkGrows(w: World, n: nat, state: SessionState)
    ensures Grows(w, w.(conn := Drained(w.conn, n))) && Grows(w, w.(state := state)) && Grows(w, Shut(w))
    ensures Grows(w.(state := state), w) && forall v :: Grows(w.(state := state), v) == Grows(w, v)
  {
  }

  lemma AnswerGrown(asked: World)
    ensures AllGrown(asked, Answer(asked).worlds)
  {
    hide Grows, Purge, Pending, ResumeReplyOf;
    LinkGrows(asked, 28, asked.state);
    if Answer(asked).ok {
      var answered := asked.(conn := Drained(asked.conn, 28));
      var mark := ResumeReplyOf(asked.conn.link.incoming[..28]).value.highestDurableFrameSeq;
      var marked := Marked(answered, mark);
      MarkGrows(answered, mark);
      PurgeGrown(marked, Pending(marked.spool.files));
      AllGrownConcat(answered, [marked], Purge(marked, Pending(marked.spool.files)));
      AllGrownConcat(asked, [answered], MarkAndPurge(answered, mark));
    }
  }

  lemma RequestResumeGrown(w: World)
    ensures AllGrown(w, RequestResume(w).worlds)
  {
    hide Grows, Transmitted, Answer;
    var asked := Transmitted(w, ResumeRequest);
    TransmitGrows(w, ResumeRequest);
    AnswerGrown(asked);
    AllGrownConcat(w, [asked], Answer(asked).worlds);
  }

  lemma HandshakeGrown(c: World)
    ensures AllGrown(c, Handshake(c).worlds)
  {
    hide Grows, Transmitted, RequestResume, Passes, Shut;
    var greeting := c.(state := Handshaking);
    var greeted := Transmitted(greeting, Hello);
    LinkGrows(c, 0, Handshaking);
    TransmitGrows(greeting, Hello);
    LinkGrows(greeted, 0, greeted.state);
    RequestResumeGrown(greeted);
    var r := RequestResume(greeted);
    AllGrownConcat(c, [greeted], [Shut(greeted)]);
    assert [greeted, Shut(greeted)] == [greeted] + [Shut(greeted)];
    AllGrownConcat(c, [greeted], r.worlds);
    EndConcat(c, [greeted], r.worlds);
    LinkGrows(End(greeted, r.worlds), 0, c.state);
    AllGrownConcat(c, [greeted] + r.worlds, [Shut(End(greeted, r.worlds))]);
  }

  lemma RecoverGrown(u: World)
    ensures AllGrown(u, Recover(u).worlds)
  {
    hide Grows, Replay, Pending;
    var recovering := u.(state := Recovering);
    var p := Replay(recovering, Pending(recovering.spool.files));
    LinkGrows(u, 0, Recovering);
    ReplayGrown(recovering, Pending(recovering.spool.files));
    var last := End(recovering, p.worlds);
    GrowsSelf(recovering);
    LinkGrows(last, 0, if p.ok then Ready else Failed);
    GrowsOn(u, last, last.(state := if p.ok then Ready else Failed));
  }

  lemma ReconnectGrown(w: World, offer: Option<Link>)
    ensures AllGrown(w, Reconnect(w, offer).worlds)
  {
    hide Grows, Handshake, Recover, Connected;
    var c := Connected(w, offer);
    ConnectRemembers(w, offer);
    RememberingGrows(w, c);
    LinkGrows(c, 0, Disconnected);
    GrowsOn(w, c, c.(state := Disconnected));
    if c.conn.connected {
      var h := Handshake(c);
      HandshakeGrown(c);
      AllGrownConcat(w, [c], h.worlds);
      if h.ok {
        var u := End(c, h.worlds);
        RecoverGrown(u);
        EndConcat(w, [c], h.worlds);
        AllGrownConcat(w, [c] + h.worlds, Recover(u).worlds);
      }
    }
  }

  lemma RememberingGrows(w: World, v: World)
    requires Remembers(w, v)
    ensures Grows(w, v)
  {
  }

  lemma EndGrows(w: World, worlds: seq<World>)
    requires AllGrown(w, worlds)
    ensures Grows(w, End(w, worlds))
  {
  }

  lemma EnsureConnectedSound(w: World, offer: Option<Link>)
    requires Sound(w) && AtRest(w)
    ensures var r := EnsureConnected(w, offer);
            AllSound(r.worlds) && Sound(End(w, r.worlds)) && AtRest(End(w, r.worlds)) && Grows(w, End(w, r.worlds))
            && (r.ok ==> End(w, r.worlds).conn.connected)
  {
    if !w.conn.connected {
      ReconnectSound(w, offer);
      ReconnectGrown(w, offer);
      EndGrows(w, Reconnect(w, offer).worlds);
      EndSound(w, Reconnect(w, offer).worlds);
    }
  }

  // Every world of the call is sound exactly when the write respects what is
  // at risk.
  lemma SendSound(w: World, f: RawFrame, write: WriteOutcome, offer: Option<Link>)
    requires Sound(w) && AtRest(w)
    ensures var worlds := Send(w, f, write, offer).worlds;
            worlds != [] && (Sound(worlds[0]) <==> Respected(w, SendCall(f, write, offer)))
    ensures Respected(w, SendCall(f, write, offer)) ==>
              AllSound(Send(w, f, write, offer).worlds) && AtRest(End(w, Send(w, f, write, offer).worlds))
  {
    hide Stored, Sound, Deliver, EnsureConnected, Persists, Respected, AtRest, Grows, SoleAtRisk;
    var stored := Stored(w, f, write);
    StoreSound(w, f, write, offer);
    if Respected(w, SendCall(f, write, offer)) && Persists(w.spool, f, write) {
      var r := EnsureConnected(stored, offer);
      EnsureConnectedSound(stored, offer);
      var mid := End(stored, r.worlds);
      RiskShrinks(stored, mid, f);
      EndConcat(w, [stored], r.worlds);
      SoundConcat([stored], r.worlds);
      if r.ok {
        DeliverSound(mid, f);
        EndConcat(w, [stored] + r.worlds, Deliver(mid, f).worlds);
        SoundConcat([stored] + r.worlds, Deliver(mid, f).worlds);
      }
    }
  }

  // ---- Whole runs ---------------------------------------------------------

  ghost function RunEvents(w: World, events: seq<Event>): World
    decreases |events|
  {
    if events == [] then w else RunEvents(After(w, events[0]), events[1..])
  }

  // The worlds an event passes through before any restart.
  ghost function Visited(w: World, e: Event): seq<World> {
    var worlds := Run(w, e.call).worlds;
    if e.Completed? then worlds else if e.point < |worlds| then worlds[..e.point + 1] else []
  }

  ghost predicate AllRespected(w: World, events: seq<Event>)
    decreases |events|
  {
    events == []
    || ((Visited(w, events[0]) != [] ==> Respected(w, events[0].call)) && AllRespected(After(w, events[0]), events[1..]))
  }

  // Every world of the run, those inside calls included, is sound.
  ghost predicate AlwaysSound(w: World, events: seq<Event>)
    decreases |events|
  {
    Sound(w)
    && (events == [] || (AllSound(Visited(w, events[0])) && AlwaysSound(After(w, events[0]), events[1..])))
  }

  lemma EventSound(w: World, e: Event)
    requires Sound(w) && AtRest(w)
    ensures AllSound(Visited(w, e)) <==> (Visited(w, e) != [] ==> Respected(w, e.call))
    ensures AllSound(Visited(w, e)) ==> Sound(After(w, e)) && AtRest(After(w, e))
  {
    hide Sound, Reconnect, Send, Respected;
    var worlds := Run(w, e.call).worlds;
    CallSound(w, e.call);
    if Visited(w, e) != [] {
      assert Visited(w, e)[0] == worlds[0];
    }
    if Visited(w, e) == [] || Respected(w, e.call) {
      if e.Killed? {
        RebootSound(if e.point < |worlds| then worlds[e.point] else w);
      } else {
        EndSound(w, worlds);
      }
    }
  }

  lemma CallSound(w: World, call: Call)
    requires Sound(w) && AtRest(w)
    ensures var worlds := Run(w, call).worlds;
            worlds != [] && (Sound(worlds[0]) ==> Respected(w, call))
            && (Respected(w, call) ==> AllSound(worlds) && AtRest(End(w, worlds)))
  {
    hide Sound, Reconnect, Send, AtRest;
    match call {
      case ReconnectCall(offer) =>
        ReconnectSound(w, offer);
        ReconnectMoves(w, offer);
      case SendCall(f, write, offer) => SendSound(w, f, write, offer);
    }
  }

  lemma ReconnectMoves(w: World, offer: Option<Link>)
    ensures Reconnect(w, offer).worlds != []
  {
    hide Handshake, Recover, Connected;
  }

  lemma RebootSound(v: World)
    requires Sound(v)
    ensures Sound(Rebooted(v)) && AtRest(Rebooted(v))
  {
    CloseSound(v);
    RememberingKeepsAll(v, Rebooted(v));
  }

  // Main result: over every run of calls, connections cut after any byte, torn
  // writes and kills at any point, it holds at every moment that every frame
  // whose persist returned true is still loadable intact, or was wholly written
  // to some connection, or has an id at or below a mark the server reported,
  // and every wire is whole messages in handshake order with at most one cut
  // message at its end - exactly when no write puts at risk a frame that only
  // its file protects. And after every call the session is Ready exactly while
  // it is connected.
  lemma {:induction false} NoSilentLoss(w: World, events: seq<Event>)
    requires Sound(w) && AtRest(w)
    ensures AlwaysSound(w, events) <==> AllRespected(w, events)
    ensures AllRespected(w, events) ==> Sound(RunEvents(w, events)) && AtRest(RunEvents(w, events))
    decreases |events|
  {
    hide Sound, AllSound, AtRest, Respected, After, Visited;
    if events != [] {
      EventSound(w, events[0]);
      if AllSound(Visited(w, events[0])) {
        NoSilentLoss(After(w, events[0]), events[1..]);
      }
    }
  }

  // A simple way to respect it: ids used once, or the same frame again with a
  // write that is not torn.
  lemma FreshIdsRespect(w: World, f: RawFrame, write: WriteOutcome, offer: Option<Link>)
    requires (forall g :: g in w.persisted ==> g.frameId != f.frameId)
          || (!write.Torn? && forall g :: g in w.persisted && g.frameId == f.frameId ==> g == f)
    ensures Respected(w, SendCall(f, write, offer))
  {
  }

  ghost function FirstWorld(taskId: u64, directory: Directory): World {
    World(taskId, Conn(false, NO_LINK, []), Reopened(directory), Disconnected, 0, [], {}, {})
  }

  // A new process over any directory of its own files, whatever tore them.
  lemma FreshProcessSound(taskId: u64, directory: Directory)
    requires OwnFiles(directory)
    ensures Sound(FirstWorld(taskId, directory)) && AtRest(FirstWorld(taskId, directory))
  {
  }

  // Two calls for the same frame with the server out of reach, the second
  // write torn after one byte.
  function TornRetry(f: RawFrame): seq<Event> {
    [Completed(SendCall(f, Written, None)), Completed(SendCall(f, Torn(1), None))]
  }

  lemma RunTwo(w: World, events: seq<Event>)
    requires |events| == 2
    ensures RunEvents(w, events) == After(After(w, events[0]), events[1])
  {
    hide After;
    assert events[1..][0] == events[1] && events[1..][1..] == [];
    assert RunEvents(After(After(w, events[0]), events[1]), []) == After(After(w, events[0]), events[1]);
  }

  lemma SendOffline(w: World, f: RawFrame, write: WriteOutcome)
    requires !w.conn.connected && w.state == Disconnected
    ensures After(w, Completed(SendCall(f, write, None))) == Stored(w, f, write)
  {
    hide Stored, Persists;
    var stored := Stored(w, f, write);
    StoredKeepsLink(w, f, write);
    if Persists(w.spool, f, write) {
      var r := Reconnect(stored, None);
      assert r == Trail([stored.(state := Disconnected)], false);
      assert Send(w, f, write, None).worlds == [stored, stored.(state := Disconnected)];
    }
  }

  lemma StoredKeepsLink(w: World, f: RawFrame, write: WriteOutcome)
    ensures var v := Stored(w, f, write);
            v.conn == w.conn && v.state == w.state && v.log == w.log && v.marks == w.marks
  {
  }

  // For every frame: sending it again from an empty spool with a write torn
  // after one byte destroys the only copy.
  lemma TornRetryLosesFrame(taskId: u64, f: RawFrame)
    requires !f.Empty()
    ensures var w := FirstWorld(taskId, map[]);
            Sound(w) && AtRest(w) && !NoLoss(RunEvents(w, TornRetry(f)))
  {
    hide Sound, AtRest, RunEvents, NoLoss, FileBytes, FileName, AtRisk, WhollyWritten, ReportedDurable;
    var w := FirstWorld(taskId, map[]);
    FreshProcessSound(taskId, map[]);
    RunTwo(w, TornRetry(f));
    SendOffline(w, f, Written);
    var v := Stored(w, f, Written);
    StoredKeepsLink(w, f, Written);
    SendOffline(v, f, Torn(1));
    FreshIdsRespect(w, f, Written, None);
    StoreSound(w, f, Written, None);
    SoundKeeps(v);
    OnlyCopy(w, f);
    PersistSafeIff(v, f, Torn(1));
    assert AtRisk(v, f, f);
  }

  lemma SoundKeeps(v: World)
    requires Sound(v)
    ensures NoLoss(v) && OwnFiles(v.spool.files)
  {
  }

  lemma OnlyCopy(w: World, f: RawFrame)
    requires w.log == [] && w.marks == {} && Persists(w.spool, f, Written)
    ensures AtRisk(Stored(w, f, Written), f, f)
  {
  }

  // ---- What a successful reconnect leaves and sends -----------------------

  ghost function WithoutDurable(files: Directory, mark: u64): Directory {
    map name | name in files
               && !(exists f: RawFrame :: name == FileName(f.frameId) && Loadable(files, f) && f.frameId <= mark)
             :: files[name]
  }

  ghost predicate Gone(frames: seq<RawFrame>, mark: u64, name: string) {
    exists f :: f in frames && f.frameId <= mark && name == FileName(f.frameId)
  }

  lemma {:induction false} PurgeFiles(w: World, frames: seq<RawFrame>)
    ensures var v := End(w, Purge(w, frames));
            forall name :: (name in v.spool.files <==> name in w.spool.files && !Gone(frames, w.highest, name))
                           && (name in v.spool.files ==> v.spool.files[name] == w.spool.files[name])
    decreases |frames|
  {
    if frames != [] {
      var one := PurgedOne(w, frames[0]);
      PurgeFiles(one, frames[1..]);
      var v := End(w, Purge(w, frames));
      assert v == End(one, Purge(one, frames[1..]));
      forall name ensures Gone(frames, w.highest, name) <==>
          Gone(frames[1..], w.highest, name) || (frames[0].frameId <= w.highest && name == FileName(frames[0].frameId))
      {
        if Gone(frames, w.highest, name) {
          var f :| f in frames && f.frameId <= w.highest && name == FileName(f.frameId);
          assert f == frames[0] || f in frames[1..];
        }
        if Gone(frames[1..], w.highest, name) {
          var f :| f in frames[1..] && f.frameId <= w.highest && name == FileName(f.frameId);
          assert f in frames;
        }
        assert frames[0] in frames;
      }
    }
  }

  lemma PurgeLeavesRest(w: World)
    requires OwnFiles(w.spool.files)
    ensures End(w, Purge(w, Pending(w.spool.files))).spool.files == WithoutDurable(w.spool.files, w.highest)
  {
    hide Pending, Loadable, OwnFiles, FileName, PurgedOne;
    var files := w.spool.files;
    var frames := Pending(files);
    PurgeFiles(w, frames);
    PendingIsWholeFrames(files);
    var v := End(w, Purge(w, frames));
    forall name | name in files
      ensures Gone(frames, w.highest, name)
          <==> exists f: RawFrame :: name == FileName(f.frameId) && Loadable(files, f) && f.frameId <= w.highest
    {
      if Gone(frames, w.highest, name) {
        var f :| f in frames && f.frameId <= w.highest && name == FileName(f.frameId);
        assert Loadable(files, f);
      }
      if exists f: RawFrame :: name == FileName(f.frameId) && Loadable(files, f) && f.frameId <= w.highest {
        var f: RawFrame :| name == FileName(f.frameId) && Loadable(files, f) && f.frameId <= w.highest;
        assert f in frames;
      }
    }
  }

  function FrameMessages(frames: seq<RawFrame>): seq<Message> {
    if frames == [] then [] else [Frame(frames[0])] + FrameMessages(frames[1..])
  }

  ghost function LastDone(w: World): seq<Message> {
    if w.log == [] then [] else w.log[|w.log| - 1].done
  }

  lemma TransmitAppends(w: World, m: Message)
    requires Passes(w, m)
    ensures var v := Transmitted(w, m);
            LastDone(v) == LastDone(w) + [m] && v.spool == w.spool && v.highest == w.highest
  {
  }

  lemma AppendAssociates(a: seq<Message>, m: Message, b: seq<Message>)
    ensures a + [m] + b == a + ([m] + b)
  {
  }

  lemma AppendTwo(a: seq<Message>, m: Message, n: Message)
    ensures a + [m] + [n] == a + [m, n]
  {
  }

  lemma {:induction false} ReplaySendsAll(w: World, frames: seq<RawFrame>)
    requires w.conn.connected && Replay(w, frames).ok
    ensures var v := End(w, Replay(w, frames).worlds);
            v.spool == w.spool && v.highest == w.highest
            && LastDone(v) == LastDone(w) + FrameMessages(frames)
    decreases |frames|
  {
    if frames != [] {
      var v := Transmitted(w, Frame(frames[0]));
      TransmitAppends(w, Frame(frames[0]));
      ReplaySendsAll(v, frames[1..]);
      EndConcat(w, [v], Replay(v, frames[1..]).worlds);
      AppendAssociates(LastDone(w), Frame(frames[0]), FrameMessages(frames[1..]));
    } else {
      assert LastDone(w) + [] == LastDone(w);
    }
  }

  // After a successful reconnect the directory has lost exactly the readable
  // files at or below the reported mark, and the connection has carried exactly
  // Hello, ResumeRequest and then every frame still loadable, each once, intact
  // and in strictly increasing id order.
  lemma ReconnectReplaysExactly(w: World, offer: Option<Link>)
    requires Sound(w) && AtRest(w) && Reconnect(w, offer).ok
    ensures var v := End(w, Reconnect(w, offer).worlds);
            var before := LastDone(Connected(w, offer));
            v.spool.files == WithoutDurable(w.spool.files, v.highest)
            && LastDone(v) == before + [Hello, ResumeRequest] + FrameMessages(Pending(v.spool.files))
            && (forall f :: f in Pending(v.spool.files) <==> Loadable(w.spool.files, f) && f.frameId > v.highest)
            && (forall i, j :: 0 <= i < j < |Pending(v.spool.files)| ==>
                  Pending(v.spool.files)[i].frameId < Pending(v.spool.files)[j].frameId)
  {
    hide Handshake, Recover, WiresTellLog, NoLoss, Pending, WithoutDurable, FrameMessages, Loadable;
    var c := Connected(w, offer);
    ConnectSound(w, offer);
    var h := Handshake(c);
    HandshakeEffect(c);
    var u := End(c, h.worlds);
    RecoverEffect(u);
    EndConcat(w, [c], h.worlds);
    EndConcat(w, [c] + h.worlds, Recover(u).worlds);
    var v := End(w, Reconnect(w, offer).worlds);
    ReconnectSound(w, offer);
    EndSound(w, Reconnect(w, offer).worlds);
    PendingIsWholeFrames(v.spool.files);
    forall f ensures f in Pending(v.spool.files) <==> Loadable(w.spool.files, f) && f.frameId > v.highest {
      SurvivorsLoad(w.spool.files, v.highest, f);
    }
  }

  lemma RecoverEffect(u: World)
    requires u.conn.connected && Recover(u).ok
    ensures var v := End(u, Recover(u).worlds);
            v.spool == u.spool && v.highest == u.highest
            && LastDone(v) == LastDone(u) + FrameMessages(Pending(u.spool.files))
  {
    hide Replay, Pending, FrameMessages;
    var recovering := u.(state := Recovering);
    ReplaySendsAll(recovering, Pending(recovering.spool.files));
  }

  lemma SurvivorsLoad(files: Directory, mark: u64, f: RawFrame)
    ensures Loadable(WithoutDurable(files, mark), f) <==> Loadable(files, f) && f.frameId > mark
  {
    FileNameRoundTrip(f.frameId);
    forall g: RawFrame | FileName(f.frameId) == FileName(g.frameId) ensures g.frameId == f.frameId {
      FileNameRoundTrip(g.frameId);
    }
  }

  lemma AnswerEffect(asked: World)
    requires Sound(asked) && Answer(asked).ok
    ensures var u := End(asked, Answer(asked).worlds);
            u.spool.files == WithoutDurable(asked.spool.files, u.highest) && LastDone(u) == LastDone(asked)
  {
    hide WiresTellLog, NoLoss, OwnFiles, Purge, Pending, WithoutDurable, ResumeReplyOf;
    DrainSound(asked, 28);
    var answered := asked.(conn := Drained(asked.conn, 28));
    var mark := ResumeReplyOf(asked.conn.link.incoming[..28]).value.highestDurableFrameSeq;
    var marked := Marked(answered, mark);
    MarkSound(answered, mark);
    PurgeLeavesRest(marked);
    PurgeSound(marked, Pending(marked.spool.files));
    EndConcat(answered, [marked], Purge(marked, Pending(marked.spool.files)));
    EndConcat(asked, [answered], MarkAndPurge(answered, mark));
  }

  lemma RequestResumeEffect(w: World)
    requires Sound(w) && w.conn.connected && InPhase(w, Greeted) && RequestResume(w).ok
    ensures var u := End(w, RequestResume(w).worlds);
            u.spool.files == WithoutDurable(w.spool.files, u.highest)
            && LastDone(u) == LastDone(w) + [ResumeRequest]
  {
    var asked := Transmitted(w, ResumeRequest);
    TransmitAppends(w, ResumeRequest);
    TransmitSound(w, ResumeRequest, Greeted);
    AnswerEffect(asked);
    EndConcat(w, [asked], Answer(asked).worlds);
  }

  lemma HandshakeEffect(c: World)
    requires Sound(c) && c.conn.connected && (InPhase(c, Enabled) || InPhase(c, Fresh)) && Handshake(c).ok
    ensures var u := End(c, Handshake(c).worlds);
            u.spool.files == WithoutDurable(c.spool.files, u.highest)
            && LastDone(u) == LastDone(c) + [Hello, ResumeRequest] && u.conn.connected
  {
    hide Transmitted, RequestResume, Sound, Passes, PhaseOf, WithoutDurable;
    HandshakeSound(c);
    var greeting := c.(state := Handshaking);
    StateSound(c, Handshaking);
    TransmitSound(greeting, Hello, if InPhase(c, Enabled) then Enabled else Fresh);
    TransmitAppends(greeting, Hello);
    var greeted := Transmitted(greeting, Hello);
    RequestResumeEffect(greeted);
    EndConcat(c, [greeted], RequestResume(greeted).worlds);
    AppendTwo(LastDone(c), Hello, ResumeRequest);
  }
}

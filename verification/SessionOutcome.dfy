// What a call of the session has done when it returns, told from the bytes the
// server delivered and the bytes the network would carry.
module SessionOutcome {
  import opened Bytes
  import opened Tcp
  import opened FrameSending
  import opened SenderSpool
  import opened ProtocolMessages
  import opened SessionModel

  // The next 28 bytes from the server are this reply.
  ghost predicate Says(incoming: seq<byte>, reply: ResumeReply) {
    |incoming| >= 28 && incoming[..28] == ResumeReplyBytes(reply)
  }

  lemma SaysIff(incoming: seq<byte>, reply: ResumeReply)
    ensures Says(incoming, reply) <==> |incoming| >= 28 && ResumeReplyOf(incoming[..28]) == Some(reply)
  {
    if |incoming| >= 28 {
      if incoming[..28] == ResumeReplyBytes(reply) {
        ResumeReplyRoundTrip(reply, []);
        assert ResumeReplyBytes(reply) + [] == incoming[..28];
      }
      if ResumeReplyOf(incoming[..28]) == Some(reply) {
        ResumeReplyOnlyBuilt(incoming[..28]);
      }
    }
  }

  // ---- The resume exchange ------------------------------------------------

  // The spool, the mark and the record of marks after obeying the reply.
  ghost predicate Obeyed(w: World, v: World, mark: u64) {
    v.highest == mark && v.marks == w.marks + {mark} && v.spool.files == WithoutDurable(w.spool.files, mark)
  }

  lemma AnswerTells(asked: World, reply: ResumeReply)
    requires Sound(asked) && asked.conn.connected && Says(asked.conn.link.incoming, reply)
    ensures var u := End(asked, Answer(asked).worlds);
            Answer(asked).ok && Obeyed(asked, u, reply.highestDurableFrameSeq)
            && u.log == asked.log && u.conn == Drained(asked.conn, 28) && u.conn.connected
  {
    hide WiresTellLog, NoLoss, OwnFiles, Purge, Pending, WithoutDurable, ResumeReplyOf, ResumeReplyBytes;
    SaysIff(asked.conn.link.incoming, reply);
    DrainSound(asked, 28);
    var answered := asked.(conn := Drained(asked.conn, 28));
    var mark := reply.highestDurableFrameSeq;
    var marked := Marked(answered, mark);
    MarkSound(answered, mark);
    PurgeLeavesRest(marked);
    PurgeSound(marked, Pending(marked.spool.files));
    EndConcat(answered, [marked], Purge(marked, Pending(marked.spool.files)));
    EndConcat(asked, [answered], MarkAndPurge(answered, mark));
  }

  // No whole reply: nothing is obeyed.
  lemma AnswerRefuses(asked: World)
    requires forall reply :: !Says(asked.conn.link.incoming, reply)
    ensures var u := End(asked, Answer(asked).worlds);
            !Answer(asked).ok && u.spool == asked.spool && u.marks == asked.marks && u.highest == asked.highest
  {
    hide ResumeReplyOf;
    forall reply ensures |asked.conn.link.incoming| < 28 || ResumeReplyOf(asked.conn.link.incoming[..28]) != Some(reply) {
      SaysIff(asked.conn.link.incoming, reply);
    }
  }

  // ---- A handshake --------------------------------------------------------

  // The same connection, carrying and delivering that much less.
  ghost predicate Used(w: World, v: World, written: nat, read: nat) {
    && w.conn.connected && v.conn.connected && |v.log| == |w.log|
    && written <= w.conn.link.budget && read <= |w.conn.link.incoming|
    && v.conn.link == Link(w.conn.link.budget - written, w.conn.link.incoming[read..])
  }

  lemma TransmitUses(w: World, m: Message)
    requires Passes(w, m)
    ensures var v := Transmitted(w, m);
            Used(w, v, |MessageBytes(w.taskId, m)|, 0) && LastDone(v) == LastDone(w) + [m]
            && v.spool == w.spool && v.highest == w.highest && v.marks == w.marks
  {
    hide MessageBytes;
    TransmitAppends(w, m);
  }

  lemma TransmitKeepsSpool(w: World, m: Message)
    ensures var v := Transmitted(w, m);
            v.spool == w.spool && v.highest == w.highest && v.marks == w.marks && v.persisted == w.persisted
  {
    hide MessageBytes;
  }

  lemma RequestTells(w: World, reply: ResumeReply)
    requires Sound(w) && w.conn.connected && InPhase(w, Greeted) && Says(w.conn.link.incoming, reply)
    ensures RequestResume(w).ok <==> 20 <= w.conn.link.budget
    ensures var u := End(w, RequestResume(w).worlds);
            (RequestResume(w).ok ==> Obeyed(w, u, reply.highestDurableFrameSeq) && Used(w, u, 20, 28)
                                     && LastDone(u) == LastDone(w) + [ResumeRequest])
            && (!RequestResume(w).ok ==> u.spool == w.spool && u.marks == w.marks && u.highest == w.highest)
  {
    hide Answer, Transmitted, Says, Sound, PhaseOf, WithoutDurable;
    var asked := Transmitted(w, ResumeRequest);
    assert |MessageBytes(w.taskId, ResumeRequest)| == 20;
    TransmitKeepsSpool(w, ResumeRequest);
    if Passes(w, ResumeRequest) {
      TransmitUses(w, ResumeRequest);
      TransmitSound(w, ResumeRequest, Greeted);
      AnswerTells(asked, reply);
      EndConcat(w, [asked], Answer(asked).worlds);
      DrainUses(asked);
      assert w.conn.link.incoming[0..] == w.conn.link.incoming;
    }
  }

  lemma DrainUses(asked: World)
    requires asked.conn.connected && |asked.conn.link.incoming| >= 28
    ensures Drained(asked.conn, 28).link == Link(asked.conn.link.budget, asked.conn.link.incoming[28..])
  {
  }

  lemma RequestRefuses(w: World)
    requires forall reply :: !Says(w.conn.link.incoming, reply)
    ensures var u := End(w, RequestResume(w).worlds);
            !RequestResume(w).ok && u.spool == w.spool && u.marks == w.marks && u.highest == w.highest
  {
    hide Answer, Transmitted, Says;
    var asked := Transmitted(w, ResumeRequest);
    TransmitKeepsSpool(w, ResumeRequest);
    if Passes(w, ResumeRequest) {
      TransmitUses(w, ResumeRequest);
      assert w.conn.link.incoming[0..] == w.conn.link.incoming;
      AnswerRefuses(asked);
      EndConcat(w, [asked], Answer(asked).worlds);
    }
  }

  ghost predicate SomeReply(incoming: seq<byte>) {
    exists reply :: Says(incoming, reply)
  }

  // The handshake succeeds exactly when its 40 bytes are carried and a whole
  // reply is delivered; then the reply is obeyed, and otherwise nothing is.
  lemma HandshakeTells(c: World)
    requires Sound(c) && c.conn.connected && (InPhase(c, Enabled) || InPhase(c, Fresh))
    ensures Handshake(c).ok <==> 40 <= c.conn.link.budget && SomeReply(c.conn.link.incoming)
    ensures var u := End(c, Handshake(c).worlds);
            (Handshake(c).ok ==>
               Used(c, u, 40, 28) && LastDone(u) == LastDone(c) + [Hello, ResumeRequest]
               && forall reply :: Says(c.conn.link.incoming, reply) ==> Obeyed(c, u, reply.highestDurableFrameSeq))
            && (!Handshake(c).ok ==> u.spool == c.spool && u.marks == c.marks && u.highest == c.highest)
  {
    hide Transmitted, RequestResume, Sound, Passes, PhaseOf, WithoutDurable, Says, Obeyed;
    var greeting := c.(state := Handshaking);
    StateSound(c, Handshaking);
    TransmitSound(greeting, Hello, if InPhase(c, Enabled) then Enabled else Fresh);
    TransmitKeepsSpool(greeting, Hello);
    PassesIff(greeting, Hello);
    var greeted := Transmitted(greeting, Hello);
    if Passes(greeting, Hello) {
      TransmitUses(greeting, Hello);
      assert c.conn.link.incoming[0..] == c.conn.link.incoming;
      var r := RequestResume(greeted);
      EndConcat(c, [greeted], r.worlds);
      if SomeReply(c.conn.link.incoming) {
        forall reply | Says(c.conn.link.incoming, reply)
          ensures r.ok <==> 40 <= c.conn.link.budget
          ensures r.ok ==> Obeyed(c, End(greeted, r.worlds), reply.highestDurableFrameSeq)
          ensures r.ok ==> Used(c, End(greeted, r.worlds), 40, 28)
          ensures r.ok ==> LastDone(End(greeted, r.worlds)) == LastDone(greeted) + [ResumeRequest]
          ensures !r.ok ==> End(greeted, r.worlds).spool == c.spool && End(greeted, r.worlds).marks == c.marks
                            && End(greeted, r.worlds).highest == c.highest
        {
          RequestTells(greeted, reply);
          if r.ok { ObeyedFrom(c, greeted, End(greeted, r.worlds), reply.highestDurableFrameSeq); }
        }
      } else {
        RequestRefuses(greeted);
      }
      AppendTwo(LastDone(c), Hello, ResumeRequest);
    }
  }

  lemma PassesIff(w: World, m: Message)
    ensures Passes(w, m) <==> w.conn.connected && |MessageBytes(w.taskId, m)| <= w.conn.link.budget
    ensures m == Hello || m == ResumeRequest ==> |MessageBytes(w.taskId, m)| == 20
  {
  }

  lemma ObeyedFrom(c: World, w: World, u: World, mark: u64)
    requires Obeyed(w, u, mark) && w.spool == c.spool && w.marks == c.marks
    ensures Obeyed(c, u, mark)
  {
  }

  // ---- A replay -----------------------------------------------------------

  // The bytes these frames take on the wire.
  ghost function WireLength(frames: seq<RawFrame>): nat {
    if frames == [] then 0 else |FrameBytes(frames[0], FRAGMENT_SIZE)| + WireLength(frames[1..])
  }

  lemma {:induction false} ReplayTells(w: World, frames: seq<RawFrame>)
    requires w.conn.connected && forall f :: f in frames ==> !f.Empty()
    ensures Replay(w, frames).ok <==> WireLength(frames) <= w.conn.link.budget
    ensures var v := End(w, Replay(w, frames).worlds);
            v.spool == w.spool && v.marks == w.marks && v.highest == w.highest
            && (Replay(w, frames).ok ==>
                  Used(w, v, WireLength(frames), 0) && LastDone(v) == LastDone(w) + FrameMessages(frames))
    decreases |frames|
  {
    hide Transmitted, Passes, FrameBytes;
    if frames == [] {
      assert LastDone(w) + [] == LastDone(w) && w.conn.link.incoming[0..] == w.conn.link.incoming;
    } else {
      assert frames[0] in frames;
      var m := Frame(frames[0]);
      var v := Transmitted(w, m);
      PassesIff(w, m);
      TransmitKeepsSpool(w, m);
      if Passes(w, m) {
        TransmitUses(w, m);
        ReplayFirst(w, frames);
        ReplayTells(v, frames[1..]);
        AppendAssociates(LastDone(w), m, FrameMessages(frames[1..]));
        assert w.conn.link.incoming[0..] == w.conn.link.incoming;
      }
    }
  }

  lemma RecoverTells(u: World)
    requires u.conn.connected && OwnFiles(u.spool.files)
    ensures var frames := Pending(u.spool.files);
            Recover(u).ok <==> WireLength(frames) <= u.conn.link.budget
    ensures var v, frames := End(u, Recover(u).worlds), Pending(u.spool.files);
            v.spool == u.spool && v.marks == u.marks && v.highest == u.highest
            && v.state == (if Recover(u).ok then Ready else Failed)
            && (Recover(u).ok ==>
                  Used(u, v, WireLength(frames), 0) && LastDone(v) == LastDone(u) + FrameMessages(frames))
  {
    hide Replay, Pending, FrameMessages, WireLength;
    var recovering := u.(state := Recovering);
    PendingIsWholeFrames(u.spool.files);
    ReplayTells(recovering, Pending(u.spool.files));
  }

  // ---- A reconnect --------------------------------------------------------

  // The connection a call can use: the live one, or what the network offers.
  ghost predicate Linked(w: World, offer: Option<Link>, link: Link) {
    if w.conn.connected then link == w.conn.link else offer == Some(link)
  }

  // The messages a handshake and replay put on it, and what they take.
  ghost function Session(files: Directory): seq<Message> {
    [Hello, ResumeRequest] + FrameMessages(Pending(files))
  }

  // The reply is delivered, and handshake and replay of what it leaves fit.
  ghost predicate Resumable(w: World, link: Link, reply: ResumeReply) {
    && Says(link.incoming, reply)
    && 40 + WireLength(Pending(WithoutDurable(w.spool.files, reply.highestDurableFrameSeq))) <= link.budget
  }

  lemma ConnectTells(w: World, offer: Option<Link>)
    ensures var c := Connected(w, offer);
            c.spool == w.spool && c.marks == w.marks && c.highest == w.highest
            && (c.conn.connected <==> exists link :: Linked(w, offer, link))
            && (c.conn.connected ==> Linked(w, offer, c.conn.link))
            && LastDone(c) == (if w.conn.connected || offer.None? then LastDone(w) else [])
            && |c.log| == |w.log| + (if w.conn.connected || offer.None? then 0 else 1)
  {
    if w.conn.connected {
      assert Linked(w, offer, w.conn.link);
    } else if offer.Some? {
      assert Linked(w, offer, offer.value);
    }
  }

  // What a call that connects, or a live session, starts its transcript from.
  ghost function Before(w: World): seq<Message> {
    if w.conn.connected then LastDone(w) else []
  }

  // Main result: a reconnect succeeds exactly when there is a connection, it
  // delivers a whole reply, and it carries the handshake and the replay of what
  // the reply leaves. Then the session is Ready, the mark is the one in the
  // reply, the spool has lost exactly the readable frames at or below it, and
  // the connection has carried exactly handshake and replay.
  lemma ReconnectTells(w: World, offer: Option<Link>, link: Link, reply: ResumeReply)
    requires Sound(w) && AtRest(w) && Linked(w, offer, link) && Says(link.incoming, reply)
    ensures Reconnect(w, offer).ok <==> Resumable(w, link, reply)
    ensures var v := End(w, Reconnect(w, offer).worlds);
            Reconnect(w, offer).ok ==>
              v.state == Ready && v.conn.connected && Obeyed(w, v, reply.highestDurableFrameSeq)
              && LastDone(v) == Before(w) + Session(v.spool.files)
              && |v.log| == |w.log| + (if w.conn.connected then 0 else 1)
              && v.conn.link == Link(link.budget - 40 - WireLength(Pending(v.spool.files)), link.incoming[28..])
  {
    hide Handshake, Recover, Pending, WithoutDurable, FrameMessages, Says, Sound, WireLength, LastDone, PhaseOf, Connected;
    var c := Connected(w, offer);
    ConnectTells(w, offer);
    ConnectSound(w, offer);
    HandshakeTells(c);
    var h := Handshake(c);
    var u := End(c, h.worlds);
    EndConcat(w, [c], h.worlds);
    if h.ok {
      HandshakeSound(c);
      EndSound(c, h.worlds);
      OwnFilesOf(u);
      ObeyedFrom(w, c, u, reply.highestDurableFrameSeq);
      RecoverTells(u);
      EndConcat(w, [c] + h.worlds, Recover(u).worlds);
      ThreeParts(Before(w), [Hello, ResumeRequest], FrameMessages(Pending(u.spool.files)));
      if Recover(u).ok {
        RecoverKeepsConnection(u);
        assert link.incoming[28..][0..] == link.incoming[28..];
      }
    }
  }

  lemma OwnFilesOf(w: World)
    requires Sound(w)
    ensures OwnFiles(w.spool.files)
  {
  }

  lemma ThreeParts(a: seq<Message>, b: seq<Message>, c: seq<Message>)
    ensures a + b + c == a + (b + c)
  {
  }

  lemma RecoverKeepsConnection(u: World)
    requires u.conn.connected && OwnFiles(u.spool.files) && Recover(u).ok
    ensures End(u, Recover(u).worlds).conn.connected
  {
    RecoverTells(u);
  }

  // Without a connection, or without a whole reply, it fails, and the spool and
  // the marks are as they were; with neither part missing it can still fail,
  // having obeyed the reply or not. It ends Disconnected when it could not
  // connect and Failed otherwise.
  lemma ReconnectFails(w: World, offer: Option<Link>)
    requires Sound(w) && AtRest(w) && !Reconnect(w, offer).ok
    ensures var v := End(w, Reconnect(w, offer).worlds);
            !v.conn.connected
            && v.state == (if exists link :: Linked(w, offer, link) then Failed else Disconnected)
            && ((v.spool == w.spool && v.marks == w.marks && v.highest == w.highest)
                || exists link, reply :: Linked(w, offer, link) && Says(link.incoming, reply)
                                         && Obeyed(w, v, reply.highestDurableFrameSeq))
  {
    hide Handshake, Recover, Pending, WithoutDurable, Says, Sound, WireLength, LastDone, PhaseOf, Connected;
    var c := Connected(w, offer);
    ConnectTells(w, offer);
    ConnectSound(w, offer);
    ReconnectSound(w, offer);
    if c.conn.connected {
      HandshakeTells(c);
      HandshakeSound(c);
      var h := Handshake(c);
      var u := End(c, h.worlds);
      EndConcat(w, [c], h.worlds);
      if h.ok {
        EndSound(c, h.worlds);
        OwnFilesOf(u);
        RecoverTells(u);
        EndConcat(w, [c] + h.worlds, Recover(u).worlds);
        var reply :| Says(c.conn.link.incoming, reply);
        ObeyedFrom(w, c, u, reply.highestDurableFrameSeq);
      }
    }
  }

  lemma NoReplyFails(w: World, offer: Option<Link>)
    requires Sound(w) && AtRest(w)
    requires forall link :: Linked(w, offer, link) ==> !SomeReply(link.incoming)
    ensures !Reconnect(w, offer).ok
  {
    hide Handshake, Recover, Sound, PhaseOf, Connected, SomeReply;
    var c := Connected(w, offer);
    ConnectTells(w, offer);
    ConnectSound(w, offer);
    if c.conn.connected { HandshakeTells(c); }
  }

  // ---- sendFrame ----------------------------------------------------------

  // The file a whole write leaves.
  ghost function WithFile(files: Directory, f: RawFrame): Directory {
    files[FileName(f.frameId) := FileBytes(f)]
  }

  lemma StoredTells(w: World, f: RawFrame, write: WriteOutcome)
    requires Persists(w.spool, f, write)
    ensures var v := Stored(w, f, write);
            v.spool.files == WithFile(w.spool.files, f) && v.conn == w.conn && v.log == w.log && v.marks == w.marks
            && v.highest == w.highest && v.state == w.state && Loadable(v.spool.files, f)
  {
    FileRoundTrip(f, |FileBytes(f)|);
    assert FileBytes(f)[..|FileBytes(f)|] == FileBytes(f);
  }

  // Not persisted: false, and nothing on any wire.
  lemma SendRefused(w: World, f: RawFrame, write: WriteOutcome, offer: Option<Link>)
    requires !Persists(w.spool, f, write)
    ensures var v := End(w, Send(w, f, write, offer).worlds);
            !Send(w, f, write, offer).ok && v.conn == w.conn && v.log == w.log && v.state == w.state && v.marks == w.marks
  {
    StoredKeepsLink(w, f, write);
  }

  lemma DeliverTells(w: World, f: RawFrame)
    requires w.conn.connected
    ensures Deliver(w, f).ok <==> |FrameBytes(f, FRAGMENT_SIZE)| <= w.conn.link.budget
    ensures var v := End(w, Deliver(w, f).worlds);
            v.marks == w.marks && v.highest == w.highest
            && (Deliver(w, f).ok ==>
                  Used(w, v, |FrameBytes(f, FRAGMENT_SIZE)|, 0) && LastDone(v) == LastDone(w) + [Frame(f)]
                  && v.spool.files == w.spool.files - {FileName(f.frameId)} && v.state == w.state)
            && (!Deliver(w, f).ok ==> v.spool == w.spool && !v.conn.connected && v.state == Failed)
  {
    hide Transmitted, Passes, FrameBytes, FileName;
    var m := Frame(f);
    var s := Transmitted(w, m);
    PassesIff(w, m);
    TransmitKeepsSpool(w, m);
    if Passes(w, m) {
      TransmitUses(w, m);
      TransmitKeepsState(w, m);
      RemovedTells(s.spool, f.frameId);
    }
  }

  lemma TransmitKeepsState(w: World, m: Message)
    ensures Transmitted(w, m).state == w.state
  {
    hide MessageBytes;
  }

  lemma RemovedTells(s: Spool, id: u64)
    ensures Removed(s, id).files == s.files - {FileName(id)}
  {
  }

  // Main result: sendFrame on a live session returns true exactly when the frame
  // was persisted and the connection carries it. Then exactly this frame has
  // gone out, whole, behind what had gone out before, its file is gone and no
  // other file is touched. If it was persisted but not carried, it is still in
  // the spool and the session is closed.
  lemma SendOnLiveSession(w: World, f: RawFrame, write: WriteOutcome, offer: Option<Link>)
    requires w.conn.connected && Persists(w.spool, f, write)
    ensures Send(w, f, write, offer).ok <==> |FrameBytes(f, FRAGMENT_SIZE)| <= w.conn.link.budget
    ensures var v := End(w, Send(w, f, write, offer).worlds);
            if Send(w, f, write, offer).ok then
              v.conn.connected && LastDone(v) == LastDone(w) + [Frame(f)] && |v.log| == |w.log|
              && v.conn.link.budget == w.conn.link.budget - |FrameBytes(f, FRAGMENT_SIZE)|
              && v.spool.files == w.spool.files - {FileName(f.frameId)} && v.state == w.state && v.marks == w.marks
            else
              !v.conn.connected && v.state == Failed && Loadable(v.spool.files, f) && v.marks == w.marks
              && v.spool.files == WithFile(w.spool.files, f)
  {
    hide Stored, Persists, Deliver, FrameBytes, Loadable, FileName, FileBytes;
    var stored := Stored(w, f, write);
    StoredTells(w, f, write);
    DeliverTells(stored, f);
    EndConcat(w, [stored], Deliver(stored, f).worlds);
    assert [stored] + [] == [stored];
    WithFileGone(w.spool.files, f);
  }

  lemma WithFileGone(files: Directory, f: RawFrame)
    ensures WithFile(files, f) - {FileName(f.frameId)} == files - {FileName(f.frameId)}
  {
  }

  // What is left of the spool, with this frame put in, once the reply is obeyed.
  ghost function Remaining(w: World, f: RawFrame, reply: ResumeReply): Directory {
    WithoutDurable(WithFile(w.spool.files, f), reply.highestDurableFrameSeq)
  }

  // Main result: sendFrame without a live connection returns true exactly when
  // the frame was persisted and the new connection delivers a whole reply and
  // carries handshake, replay and frame. Then the connection has carried exactly
  // these, the spool holds exactly what was replayed less this frame, and the
  // frame has gone out twice unless the reply covers it: once in the replay.
  lemma SendReconnecting(w: World, f: RawFrame, write: WriteOutcome, link: Link, reply: ResumeReply)
    requires Sound(w) && AtRest(w) && Respected(w, SendCall(f, write, Some(link)))
    requires !w.conn.connected && Persists(w.spool, f, write) && Says(link.incoming, reply)
    ensures Send(w, f, write, Some(link)).ok <==>
              40 + WireLength(Pending(Remaining(w, f, reply))) + |FrameBytes(f, FRAGMENT_SIZE)| <= link.budget
    ensures var v := End(w, Send(w, f, write, Some(link)).worlds);
            Send(w, f, write, Some(link)).ok ==>
              v.conn.connected && v.state == Ready && |v.log| == |w.log| + 1
              && LastDone(v) == Session(Remaining(w, f, reply)) + [Frame(f)]
              && v.spool.files == Remaining(w, f, reply) - {FileName(f.frameId)}
              && v.highest == reply.highestDurableFrameSeq && v.marks == w.marks + {reply.highestDurableFrameSeq}
    ensures f in Pending(Remaining(w, f, reply)) <==> f.frameId > reply.highestDurableFrameSeq
  {
    hide Stored, Persists, Deliver, FrameBytes, FileName, FileBytes, Reconnect, Sound, AtRest, Respected, Says, Pending,
         WithoutDurable, WireLength, FrameMessages, LastDone, Loadable;
    var offer := Some(link);
    var stored := Stored(w, f, write);
    StoredTells(w, f, write);
    StoreSound(w, f, write, offer);
    ReconnectTells(stored, offer, link, reply);
    var r := Reconnect(stored, offer);
    var mid := End(stored, r.worlds);
    EndConcat(w, [stored], r.worlds);
    OwnFilesOf(stored);
    PendingOf(stored, f, reply.highestDurableFrameSeq);
    if r.ok {
      DeliverTells(mid, f);
      EndConcat(w, [stored] + r.worlds, Deliver(mid, f).worlds);
    }
  }

  lemma PendingOf(stored: World, f: RawFrame, mark: u64)
    requires OwnFiles(stored.spool.files) && Loadable(stored.spool.files, f)
    ensures f in Pending(WithoutDurable(stored.spool.files, mark)) <==> f.frameId > mark
  {
    hide Pending, WithoutDurable, Loadable;
    WithoutDurableOwn(stored.spool.files, mark);
    PendingIsWholeFrames(WithoutDurable(stored.spool.files, mark));
    SurvivorsLoad(stored.spool.files, mark, f);
  }

  lemma WithoutDurableOwn(files: Directory, mark: u64)
    requires OwnFiles(files)
    ensures OwnFiles(WithoutDurable(files, mark))
  {
    hide OwnFile, Loadable, FileName;
  }

  // A persisted frame whose sendFrame returns false is still in the spool, or
  // lies at or below the mark of a reply just delivered, and the session is not
  // connected.
  lemma SendFails(w: World, f: RawFrame, write: WriteOutcome, offer: Option<Link>)
    requires Sound(w) && AtRest(w) && Respected(w, SendCall(f, write, offer))
    requires Persists(w.spool, f, write) && !Send(w, f, write, offer).ok
    ensures var v := End(w, Send(w, f, write, offer).worlds);
            !v.conn.connected && v.state != Ready
            && (Loadable(v.spool.files, f)
                || exists link, reply :: Linked(w, offer, link) && Says(link.incoming, reply)
                                         && f.frameId <= reply.highestDurableFrameSeq)
  {
    hide Stored, Persists, Deliver, FrameBytes, FileName, FileBytes, Reconnect, Sound, AtRest, Respected, Says, Pending,
         WithoutDurable, WireLength, FrameMessages, LastDone, Loadable;
    if w.conn.connected {
      SendOnLiveSession(w, f, write, offer);
    } else {
      var stored := Stored(w, f, write);
      StoredTells(w, f, write);
      StoreSound(w, f, write, offer);
      var r := Reconnect(stored, offer);
      var mid := End(stored, r.worlds);
      EndConcat(w, [stored], r.worlds);
      if r.ok {
        ReconnectWorked(stored, offer);
        var link, reply :| Linked(stored, offer, link) && Says(link.incoming, reply)
                           && Obeyed(stored, mid, reply.highestDurableFrameSeq);
        DeliverTells(mid, f);
        EndConcat(w, [stored] + r.worlds, Deliver(mid, f).worlds);
        SurvivorsLoad(stored.spool.files, reply.highestDurableFrameSeq, f);
        assert Linked(w, offer, link);
      } else {
        ReconnectFails(stored, offer);
        if mid.spool != stored.spool {
          var link, reply :| Linked(stored, offer, link) && Says(link.incoming, reply)
                             && Obeyed(stored, mid, reply.highestDurableFrameSeq);
          SurvivorsLoad(stored.spool.files, reply.highestDurableFrameSeq, f);
          assert Linked(w, offer, link);
        }
      }
    }
  }

  lemma ReconnectWorked(w: World, offer: Option<Link>)
    requires Sound(w) && AtRest(w) && Reconnect(w, offer).ok
    ensures End(w, Reconnect(w, offer).worlds).conn.connected
    ensures exists link, reply :: Linked(w, offer, link) && Says(link.incoming, reply)
              && Obeyed(w, End(w, Reconnect(w, offer).worlds), reply.highestDurableFrameSeq)
  {
    hide Reconnect, Sound, AtRest, Says, Obeyed, Resumable, Session;
    if forall link :: Linked(w, offer, link) ==> !SomeReply(link.incoming) {
      NoReplyFails(w, offer);
    } else {
      var link :| Linked(w, offer, link) && SomeReply(link.incoming);
      var reply :| Says(link.incoming, reply);
      ReconnectTells(w, offer, link, reply);
    }
  }
}

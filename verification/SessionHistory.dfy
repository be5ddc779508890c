// What the history of a run is made of: which replies the marks come from, and
// which calls the persisted frames come from.
module SessionHistory {
  import opened Bytes
  import opened Tcp
  import opened FrameSending
  import opened SenderSpool
  import opened ProtocolMessages
  import opened SessionModel
  import opened SessionOutcome

  // Replies are 28 bytes each, and a session reads nothing else.
  ghost predicate Told(links: set<Link>, mark: u64) {
    exists link, k: nat, reply ::
      link in links && 28 * k <= |link.incoming| && Says(link.incoming[28 * k..], reply)
      && reply.highestDurableFrameSeq == mark
  }

  // A live connection has still to deliver what one of these links has, some
  // number of replies on.
  ghost predicate Reading(links: set<Link>, incoming: seq<byte>) {
    exists link, k: nat :: link in links && 28 * k <= |link.incoming| && incoming == link.incoming[28 * k..]
  }

  ghost predicate FromLinks(links: set<Link>, conn: Conn, marks: set<u64>) {
    (conn.connected ==> Reading(links, conn.link.incoming)) && forall mark :: mark in marks ==> Told(links, mark)
  }

  // The spool is uncapped and exactly these frames were reported persisted.
  ghost predicate Accounted(links: set<Link>, frames: set<RawFrame>, w: World) {
    FromLinks(links, w.conn, w.marks) && w.persisted == frames && w.spool.maxBytes == 0
  }

  ghost predicate AllAccounted(links: set<Link>, frames: set<RawFrame>, worlds: seq<World>) {
    forall i :: 0 <= i < |worlds| ==> Accounted(links, frames, worlds[i])
  }

  lemma AccountedConcat(links: set<Link>, frames: set<RawFrame>, a: seq<World>, b: seq<World>)
    requires AllAccounted(links, frames, a) && AllAccounted(links, frames, b)
    ensures AllAccounted(links, frames, a + b)
  {
    hide Accounted;
  }

  lemma EndAccounted(links: set<Link>, frames: set<RawFrame>, w: World, worlds: seq<World>)
    requires Accounted(links, frames, w) && AllAccounted(links, frames, worlds)
    ensures Accounted(links, frames, End(w, worlds))
  {
    hide Accounted;
  }

  // ---- Steps --------------------------------------------------------------

  // Nothing is received, recorded or promised.
  ghost predicate Quiet(w: World, v: World) {
    && (v.conn.connected ==> w.conn.connected && v.conn.link.incoming == w.conn.link.incoming)
    && v.marks == w.marks && v.persisted == w.persisted && v.spool.maxBytes == w.spool.maxBytes
  }

  lemma QuietAccounted(links: set<Link>, frames: set<RawFrame>, w: World, v: World)
    requires Accounted(links, frames, w) && Quiet(w, v)
    ensures Accounted(links, frames, v)
  {
  }

  lemma TransmitQuiet(w: World, m: Message)
    ensures Quiet(w, Transmitted(w, m))
  {
    hide MessageBytes;
  }

  lemma StateQuiet(w: World, state: SessionState)
    ensures Quiet(w, w.(state := state)) && Quiet(w, Shut(w))
  {
  }

  lemma PurgedQuiet(w: World, f: RawFrame)
    ensures Quiet(w, PurgedOne(w, f)) && Quiet(w, w.(spool := Removed(w.spool, f.frameId)))
  {
    hide FileName;
  }

  lemma {:induction false} PurgeAccounted(links: set<Link>, frames: set<RawFrame>, w: World, purged: seq<RawFrame>)
    requires Accounted(links, frames, w)
    ensures AllAccounted(links, frames, Purge(w, purged))
    decreases |purged|
  {
    hide Accounted, PurgedOne;
    if purged != [] {
      PurgedQuiet(w, purged[0]);
      QuietAccounted(links, frames, w, PurgedOne(w, purged[0]));
      PurgeAccounted(links, frames, PurgedOne(w, purged[0]), purged[1..]);
    }
  }

  lemma {:induction false} ReplayAccounted(links: set<Link>, frames: set<RawFrame>, w: World, replayed: seq<RawFrame>)
    requires Accounted(links, frames, w)
    ensures AllAccounted(links, frames, Replay(w, replayed).worlds)
    decreases |replayed|
  {
    hide Accounted, Transmitted, Passes;
    if replayed != [] && !replayed[0].Empty() {
      var v := Transmitted(w, Frame(replayed[0]));
      TransmitQuiet(w, Frame(replayed[0]));
      QuietAccounted(links, frames, w, v);
      ReplayAccounted(links, frames, v, replayed[1..]);
    }
  }

  // Reading the 28 bytes of a reply leaves the connection reading, and its mark
  // is one the server told.
  lemma DrainAccounted(links: set<Link>, frames: set<RawFrame>, w: World)
    requires Accounted(links, frames, w)
    ensures Accounted(links, frames, w.(conn := Drained(w.conn, 28)))
    ensures forall reply :: w.conn.connected && Says(w.conn.link.incoming, reply)
              ==> Told(links, reply.highestDurableFrameSeq)
  {
    hide Says;
    if w.conn.connected {
      var incoming := w.conn.link.incoming;
      var link, k: nat :| link in links && 28 * k <= |link.incoming| && incoming == link.incoming[28 * k..];
      if 28 <= |incoming| {
        assert incoming[28..] == link.incoming[28 * (k + 1)..];
        assert Reading(links, incoming[28..]);
      }
    }
  }

  lemma MarkAccounted(links: set<Link>, frames: set<RawFrame>, w: World, mark: u64)
    requires Accounted(links, frames, w) && Told(links, mark)
    ensures Accounted(links, frames, Marked(w, mark))
  {
    hide Told, Reading;
  }

  lemma AnswerAccounted(links: set<Link>, frames: set<RawFrame>, asked: World)
    requires Accounted(links, frames, asked)
    ensures AllAccounted(links, frames, Answer(asked).worlds)
  {
    hide Accounted, Purge, Pending, ResumeReplyOf, Told, Says;
    DrainAccounted(links, frames, asked);
    if Answer(asked).ok {
      var answered := asked.(conn := Drained(asked.conn, 28));
      var reply := ResumeReplyOf(asked.conn.link.incoming[..28]).value;
      SaysIff(asked.conn.link.incoming, reply);
      var marked := Marked(answered, reply.highestDurableFrameSeq);
      MarkAccounted(links, frames, answered, reply.highestDurableFrameSeq);
      PurgeAccounted(links, frames, marked, Pending(answered.spool.files));
      AccountedConcat(links, frames, [marked], Purge(marked, Pending(answered.spool.files)));
    }
  }

  lemma RequestResumeAccounted(links: set<Link>, frames: set<RawFrame>, w: World)
    requires Accounted(links, frames, w)
    ensures AllAccounted(links, frames, RequestResume(w).worlds)
  {
    hide Accounted, Transmitted, Answer;
    var asked := Transmitted(w, ResumeRequest);
    TransmitQuiet(w, ResumeRequest);
    QuietAccounted(links, frames, w, asked);
    AnswerAccounted(links, frames, asked);
    AccountedConcat(links, frames, [asked], Answer(asked).worlds);
  }

  lemma HandshakeAccounted(links: set<Link>, frames: set<RawFrame>, c: World)
    requires Accounted(links, frames, c)
    ensures AllAccounted(links, frames, Handshake(c).worlds)
  {
    hide Accounted, Transmitted, RequestResume, Passes, Shut, Quiet;
    var greeting := c.(state := Handshaking);
    var greeted := Transmitted(greeting, Hello);
    StateQuiet(c, Handshaking);
    QuietAccounted(links, frames, c, greeting);
    TransmitQuiet(greeting, Hello);
    QuietAccounted(links, frames, greeting, greeted);
    RequestResumeAccounted(links, frames, greeted);
    var r := RequestResume(greeted);
    EndAccounted(links, frames, greeted, r.worlds);
    ShutAccounted(links, frames, greeted);
    ShutAccounted(links, frames, End(greeted, r.worlds));
  }

  lemma ShutAccounted(links: set<Link>, frames: set<RawFrame>, w: World)
    requires Accounted(links, frames, w)
    ensures Accounted(links, frames, Shut(w))
  {
    StateQuiet(w, Failed);
    QuietAccounted(links, frames, w, Shut(w));
  }

  lemma StateAccounted(links: set<Link>, frames: set<RawFrame>, w: World, state: SessionState)
    requires Accounted(links, frames, w)
    ensures Accounted(links, frames, w.(state := state))
  {
    StateQuiet(w, state);
    QuietAccounted(links, frames, w, w.(state := state));
  }

  lemma RecoverAccounted(links: set<Link>, frames: set<RawFrame>, u: World)
    requires Accounted(links, frames, u)
    ensures AllAccounted(links, frames, Recover(u).worlds)
  {
    hide Accounted, Replay, Pending;
    var recovering := u.(state := Recovering);
    StateAccounted(links, frames, u, Recovering);
    var p := Replay(recovering, Pending(recovering.spool.files));
    ReplayAccounted(links, frames, recovering, Pending(recovering.spool.files));
    EndAccounted(links, frames, recovering, p.worlds);
    StateAccounted(links, frames, End(recovering, p.worlds), if p.ok then Ready else Failed);
  }

  function Offered(offer: Option<Link>): set<Link> {
    if offer.None? then {} else {offer.value}
  }

  lemma ConnectAccounted(links: set<Link>, frames: set<RawFrame>, w: World, offer: Option<Link>)
    requires Accounted(links, frames, w) && Offered(offer) <= links
    ensures Accounted(links, frames, Connected(w, offer))
  {
    hide Told;
    if !w.conn.connected && offer.Some? {
      assert offer.value in links;
      assert offer.value.incoming == offer.value.incoming[28 * 0..];
      assert Reading(links, offer.value.incoming);
    }
  }

  lemma ReconnectAccounted(links: set<Link>, frames: set<RawFrame>, w: World, offer: Option<Link>)
    requires Accounted(links, frames, w) && Offered(offer) <= links
    ensures AllAccounted(links, frames, Reconnect(w, offer).worlds)
  {
    hide Accounted, Handshake, Recover, Connected, Offered;
    var c := Connected(w, offer);
    ConnectAccounted(links, frames, w, offer);
    StateAccounted(links, frames, c, Disconnected);
    if c.conn.connected {
      var h := Handshake(c);
      HandshakeAccounted(links, frames, c);
      EndAccounted(links, frames, c, h.worlds);
      AccountedConcat(links, frames, [c], h.worlds);
      if h.ok {
        var r := Recover(End(c, h.worlds));
        RecoverAccounted(links, frames, End(c, h.worlds));
        AccountedConcat(links, frames, [c] + h.worlds, r.worlds);
      }
    }
  }

  lemma DeliverAccounted(links: set<Link>, frames: set<RawFrame>, w: World, f: RawFrame)
    requires Accounted(links, frames, w)
    ensures AllAccounted(links, frames, Deliver(w, f).worlds)
  {
    hide Accounted, Transmitted, Passes, Shut, Quiet, Removed;
    var s := Transmitted(w, Frame(f));
    TransmitQuiet(w, Frame(f));
    QuietAccounted(links, frames, w, s);
    ShutAccounted(links, frames, s);
    PurgedQuiet(s, f);
    QuietAccounted(links, frames, s, s.(spool := Removed(s.spool, f.frameId)));
  }

  // persist with no cap on the spool returns true exactly for a non-empty frame
  // whose write succeeds.
  function Promises(call: Call): set<RawFrame> {
    if call.SendCall? && call.write.Written? && !call.frame.Empty() then {call.frame} else {}
  }

  lemma StoreAccounted(links: set<Link>, frames: set<RawFrame>, w: World, f: RawFrame, write: WriteOutcome,
                       offer: Option<Link>)
    requires Accounted(links, frames, w)
    ensures Accounted(links, frames + Promises(SendCall(f, write, offer)), Stored(w, f, write))
  {
    hide FromLinks, FileBytes, FileName;
  }

  lemma SendAccounted(links: set<Link>, frames: set<RawFrame>, w: World, f: RawFrame, write: WriteOutcome,
                      offer: Option<Link>)
    requires Accounted(links, frames, w) && Offered(offer) <= links
    ensures AllAccounted(links, frames + Promises(SendCall(f, write, offer)), Send(w, f, write, offer).worlds)
  {
    hide Accounted, Stored, Persists, Reconnect, Deliver, Offered, Promises;
    var all := frames + Promises(SendCall(f, write, offer));
    var stored := Stored(w, f, write);
    StoreAccounted(links, frames, w, f, write, offer);
    if Persists(w.spool, f, write) {
      var r := EnsureConnected(stored, offer);
      ReconnectAccounted(links, all, stored, offer);
      EndAccounted(links, all, stored, r.worlds);
      AccountedConcat(links, all, [stored], r.worlds);
      if r.ok {
        var mid := End(stored, r.worlds);
        DeliverAccounted(links, all, mid, f);
        AccountedConcat(links, all, [stored] + r.worlds, Deliver(mid, f).worlds);
      }
    }
  }

  // ---- Runs ---------------------------------------------------------------

  // What the network offered in a run.
  function Offers(events: seq<Event>): set<Link> {
    if events == [] then {} else Offered(events[0].call.offer) + Offers(events[1..])
  }

  // The frames of the calls that got as far as a successful write.
  ghost function Promised(w: World, events: seq<Event>): set<RawFrame>
    decreases |events|
  {
    if events == [] then {}
    else (if Visited(w, events[0]) != [] then Promises(events[0].call) else {}) + Promised(After(w, events[0]), events[1..])
  }

  lemma RunAccounted(links: set<Link>, frames: set<RawFrame>, w: World, call: Call)
    requires Accounted(links, frames, w) && Offered(call.offer) <= links
    ensures AllAccounted(links, frames + Promises(call), Run(w, call).worlds) && Run(w, call).worlds != []
  {
    hide Accounted, Reconnect, Send, Offered;
    match call {
      case ReconnectCall(offer) =>
        ReconnectAccounted(links, frames, w, offer);
        ReconnectMoves(w, offer);
        assert frames + Promises(call) == frames;
      case SendCall(f, write, offer) =>
        SendAccounted(links, frames, w, f, write, offer);
        SendMoves(w, f, write, offer);
    }
  }

  lemma SendMoves(w: World, f: RawFrame, write: WriteOutcome, offer: Option<Link>)
    ensures Send(w, f, write, offer).worlds != []
  {
    hide Stored, Persists, Reconnect, Deliver;
  }

  lemma RebootAccounted(links: set<Link>, frames: set<RawFrame>, v: World)
    requires Accounted(links, frames, v)
    ensures Accounted(links, frames, Rebooted(v))
  {
  }

  lemma EventAccounted(links: set<Link>, frames: set<RawFrame>, w: World, e: Event)
    requires Accounted(links, frames, w) && Offered(e.call.offer) <= links
    ensures Accounted(links, frames + (if Visited(w, e) != [] then Promises(e.call) else {}), After(w, e))
  {
    hide Accounted, Run, Offered, Promises, Rebooted;
    var worlds := Run(w, e.call).worlds;
    var all := frames + Promises(e.call);
    RunAccounted(links, frames, w, e.call);
    assert frames + {} == frames;
    if e.Killed? {
      if e.point < |worlds| { RebootAccounted(links, all, worlds[e.point]); } else { RebootAccounted(links, frames, w); }
    }
  }

  lemma {:induction false} EventsAccounted(links: set<Link>, frames: set<RawFrame>, w: World, events: seq<Event>)
    requires Accounted(links, frames, w) && Offers(events) <= links
    ensures Accounted(links, frames + Promised(w, events), RunEvents(w, events))
    decreases |events|
  {
    hide Accounted, After, Visited, Promises, Offered;
    if events == [] {
      assert frames + {} == frames;
    } else {
      var e := events[0];
      var now := if Visited(w, e) != [] then Promises(e.call) else {};
      EventAccounted(links, frames, w, e);
      EventsAccounted(links, frames + now, After(w, e), events[1..]);
      assert frames + now + Promised(After(w, e), events[1..]) == frames + Promised(w, events);
    }
  }

  // The history of a run that starts with a fresh process tells only what
  // happened: every mark in it is the number in a reply the server sent on one of
  // the connections, and the frames in it are those of the calls whose write
  // succeeded.
  lemma HistoryIsTrue(taskId: u64, directory: Directory, events: seq<Event>)
    ensures var v := RunEvents(FirstWorld(taskId, directory), events);
            v.persisted == Promised(FirstWorld(taskId, directory), events)
            && forall mark :: mark in v.marks ==> Told(Offers(events), mark)
  {
    hide RunEvents, Told, Promised;
    var w := FirstWorld(taskId, directory);
    EventsAccounted(Offers(events), {}, w, events);
    assert {} + Promised(w, events) == Promised(w, events);
  }

  // Main result: from any directory of its own files, over every run of calls,
  // cut connections, torn writes and kills that respects what is at risk, every
  // frame whose write succeeded is still loadable intact, or was wholly written
  // to a connection, or has an id at or below a mark the server itself sent; and
  // the wires carry what the log says.
  lemma EveryPromiseKept(taskId: u64, directory: Directory, events: seq<Event>, f: RawFrame)
    requires OwnFiles(directory) && AllRespected(FirstWorld(taskId, directory), events)
    requires f in Promised(FirstWorld(taskId, directory), events)
    ensures var v := RunEvents(FirstWorld(taskId, directory), events);
            WiresTellLog(v)
            && (Loadable(v.spool.files, f) || WhollyWritten(v, f)
                || exists mark :: f.frameId <= mark && Told(Offers(events), mark))
  {
    hide RunEvents, Told, Promised, AllRespected, OwnFiles, AtRest, Loadable, WhollyWritten, WiresTellLog, FirstWorld,
         Offers;
    var w := FirstWorld(taskId, directory);
    FreshProcessSound(taskId, directory);
    NoSilentLoss(w, events);
    HistoryIsTrue(taskId, directory, events);
    var v := RunEvents(w, events);
    assert f in v.persisted;
    assert Kept(v, f);
    if ReportedDurable(v, f) {
      var mark :| mark in v.marks && f.frameId <= mark;
      assert Told(Offers(events), mark);
    }
  }
}

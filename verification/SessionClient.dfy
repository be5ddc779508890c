// The session object over its socket, frame sender and spool. Each method
// ends in the world that the specification's trail ends in.
module SessionClient {
  import opened Bytes
  import opened Tcp
  import opened FrameSending
  import opened SenderSpool
  import opened ProtocolMessages
  import opened SessionModel

  lemma RemovalKeepsOwnFiles(s: Spool, id: u64)
    requires OwnFiles(s.files)
    ensures OwnFiles(Removed(s, id).files)
  {
  }

  lemma PurgeStep(w: World, frames: seq<RawFrame>, k: nat)
    requires k < |frames|
    ensures var v := PurgedOne(w, frames[k]);
            End(w, Purge(w, frames[k..])) == End(v, Purge(v, frames[k + 1..]))
  {
    assert frames[k..][1..] == frames[k + 1..];
    EndConcat(w, [PurgedOne(w, frames[k])], Purge(PurgedOne(w, frames[k]), frames[k + 1..]));
  }

  // Where a replay of the remaining frames would end.
  ghost predicate SameReplay(w: World, frames: seq<RawFrame>, v: World, rest: seq<RawFrame>) {
    Replay(w, frames).ok == Replay(v, rest).ok
    && End(w, Replay(w, frames).worlds) == End(v, Replay(v, rest).worlds)
  }

  lemma ReplayStep(w: World, frames: seq<RawFrame>, k: nat)
    requires k < |frames|
    ensures var m := Frame(frames[k]);
            if frames[k].Empty() then SameReplay(w, frames[k..], w, frames[k..]) && !Replay(w, frames[k..]).ok
                                      && End(w, Replay(w, frames[k..]).worlds) == w
            else if !Passes(w, m) then !Replay(w, frames[k..]).ok
                                       && End(w, Replay(w, frames[k..]).worlds) == Transmitted(w, m)
            else SameReplay(w, frames[k..], Transmitted(w, m), frames[k + 1..])
  {
    assert frames[k..][1..] == frames[k + 1..];
    if !frames[k].Empty() && Passes(w, Frame(frames[k])) {
      ReplayFirst(w, frames[k..]);
    }
  }

  class ResumeSession {
    const taskId: u64
    const client: TcpClient
    const sender: RawFrameSender
    const store: SenderSpoolStore
    var state: SessionState
    var highestDurableFrameSeq: u64
    ghost var log: seq<Transcript>
    ghost var marks: set<u64>
    ghost var persisted: set<RawFrame>

    ghost predicate Valid()
      reads this, client, sender, store
    {
      client.Valid() && |log| == |client.wires|
      && sender.client == client && sender.fragmentSize == FRAGMENT_SIZE && OwnFiles(store.files)
    }

    ghost function View(): World
      requires Valid()
      reads this, client, sender, store
    {
      World(taskId, client.View(), store.View(), state, highestDurableFrameSeq, log, marks, persisted)
    }

    constructor (taskId: u64, directory: Directory)
      requires OwnFiles(directory)
      ensures Valid() && fresh(client) && fresh(sender) && fresh(store)
      ensures View() == World(taskId, Conn(false, NO_LINK, []), Reopened(directory), Disconnected, 0, [], {}, {})
    {
      this.taskId := taskId;
      var tcp := new TcpClient();
      client := tcp;
      sender := new RawFrameSender(tcp);
      store := new SenderSpoolStore(directory);
      state := Disconnected;
      highestDurableFrameSeq := 0;
      log, marks, persisted := [], {}, {};
    }

    method TransmitBytes(ghost m: Message, bytes: seq<byte>) returns (ok: bool)
      requires Valid() && bytes == MessageBytes(taskId, m)
      modifies this, client
      ensures Valid() && View() == Transmitted(old(View()), m) && ok == Passes(old(View()), m)
    {
      ghost var w := View();
      ok := client.SendAll(bytes);
      log := Transmitted(w, m).log;
    }

    method TransmitFrame(frame: RawFrame) returns (ok: bool)
      requires Valid()
      modifies this, client
      ensures Valid()
      ensures frame.Empty() ==> !ok && View() == old(View())
      ensures !frame.Empty() ==>
                View() == Transmitted(old(View()), Frame(frame)) && ok == Passes(old(View()), Frame(frame))
    {
      ghost var w := View();
      ok := sender.SendFrame(frame);
      if !frame.Empty() {
        log := Transmitted(w, Frame(frame)).log;
      }
    }

    method ReplayPendingFrames() returns (ok: bool)
      requires Valid()
      modifies this, client
      ensures Valid() && ok == Replay(old(View()), Pending(old(View()).spool.files)).ok
      ensures View() == End(old(View()), Replay(old(View()), Pending(old(View()).spool.files)).worlds)
    {
      ghost var w := View();
      var frames := store.LoadPendingFrames();
      assert frames[0..] == frames;
      for k := 0 to |frames|
        invariant Valid() && SameReplay(w, frames, View(), frames[k..])
      {
        ReplayStep(View(), frames, k);
        ok := TransmitFrame(frames[k]);
        if !ok {
          return false;
        }
      }
      return true;
    }

    method PurgeDurable()
      requires Valid()
      modifies store
      ensures Valid() && View() == End(old(View()), Purge(old(View()), Pending(old(View()).spool.files)))
    {
      ghost var w := View();
      var frames := store.LoadPendingFrames();
      assert frames[0..] == frames;
      for k := 0 to |frames|
        invariant Valid() && End(w, Purge(w, frames)) == End(View(), Purge(View(), frames[k..]))
      {
        PurgeStep(View(), frames, k);
        RemovalKeepsOwnFiles(store.View(), frames[k].frameId);
        if frames[k].frameId <= highestDurableFrameSeq {
          store.RemoveFrame(frames[k].frameId);
        }
      }
    }

    method RequestResume() returns (ok: bool)
      requires Valid()
      modifies this, client, store
      ensures Valid() && ok == SessionModel.RequestResume(old(View())).ok
      ensures View() == End(old(View()), SessionModel.RequestResume(old(View())).worlds)
    {
      ghost var w := View();
      var request := MakeResumeRequestMessage(taskId);
      ok := TransmitBytes(ResumeRequest, request);
      if !ok {
        return false;
      }
      ghost var asked := View();
      EndConcat(w, [asked], Answer(asked).worlds);
      var replyBuffer := client.RecvAll(12 + 16);
      if replyBuffer.None? {
        return false;
      }
      var reply := ParseResumeReply(replyBuffer.value);
      assert replyBuffer.value == asked.conn.link.incoming[..28];
      if reply.None? {
        return false;
      }
      ghost var answered := View();
      highestDurableFrameSeq := reply.value.highestDurableFrameSeq;
      marks := marks + {highestDurableFrameSeq};
      EndConcat(answered, [View()], Purge(View(), Pending(View().spool.files)));
      EndConcat(asked, [answered], MarkAndPurge(answered, highestDurableFrameSeq));
      PurgeDurable();
      return true;
    }

    method ReconnectAndResume(offer: Option<Link>) returns (ok: bool)
      requires Valid()
      modifies this, client, store
      ensures Valid() && ok == Reconnect(old(View()), offer).ok
      ensures View() == End(old(View()), Reconnect(old(View()), offer).worlds)
    {
      hide Handshake, Replay, Pending;
      ghost var w := View();
      state := Connecting;
      ok := client.ConnectToServer(offer);
      log := Connected(w, offer).log;
      ghost var c := View();
      assert c == Connected(w, offer);
      if !ok {
        state := Disconnected;
        return false;
      }
      ok := Greet();
      EndConcat(w, [c], Handshake(c).worlds);
      if !ok {
        return false;
      }
      ghost var u := View();
      EndConcat(w, [c] + Handshake(c).worlds, Recover(u).worlds);
      state := Recovering;
      ok := ReplayPendingFrames();
      EndConcat(u, Replay(u.(state := Recovering), Pending(u.spool.files)).worlds, [View().(state := if ok then Ready else Failed)]);
      if !ok {
        state := Failed;
        return false;
      }
      state := Ready;
      return true;
    }

    // Hello and the resume exchange, on a connected client.
    method Greet() returns (ok: bool)
      requires Valid() && client.connected
      modifies this, client, store
      ensures Valid() && ok == Handshake(old(View())).ok
      ensures View() == End(old(View()), Handshake(old(View())).worlds)
    {
      hide SessionModel.RequestResume, Transmitted, Passes;
      ghost var c := View();
      state := Handshaking;
      var hello := MakeHelloMessage(taskId);
      ok := TransmitBytes(Hello, hello);
      if !ok {
        client.CloseConnection();
        state := Failed;
        return false;
      }
      ghost var greeted := View();
      ok := RequestResume();
      EndConcat(c, [greeted], SessionModel.RequestResume(greeted).worlds);
      if !ok {
        client.CloseConnection();
        state := Failed;
        return false;
      }
      return true;
    }

    method Start(offer: Option<Link>) returns (ok: bool)
      requires Valid()
      modifies this, client, store
      ensures Valid() && ok == Run(old(View()), ReconnectCall(offer)).ok
      ensures View() == End(old(View()), Run(old(View()), ReconnectCall(offer)).worlds)
    {
      ok := ReconnectAndResume(offer);
    }

    method SendFrame(frame: RawFrame, write: WriteOutcome, offer: Option<Link>) returns (ok: bool)
      requires Valid()
      modifies this, client, store
      ensures Valid() && ok == Run(old(View()), SendCall(frame, write, offer)).ok
      ensures View() == End(old(View()), Run(old(View()), SendCall(frame, write, offer)).worlds)
    {
      hide Reconnect, Transmitted, Passes, Persisted, CanPersist, MessageBytes, Removed;
      ghost var w := View();
      PersistKeepsOwnFiles(store.View(), frame, write);
      ok := store.Persist(frame, write);
      if ok {
        persisted := persisted + {frame};
      }
      ghost var stored := View();
      assert stored == Stored(w, frame, write);
      if !ok {
        return false;
      }
      ghost var r := EnsureConnected(stored, offer);
      if !client.connected {
        ok := ReconnectAndResume(offer);
        EndConcat(w, [stored], r.worlds);
        if !ok {
          return false;
        }
      }
      ghost var mid := View();
      EndConcat(w, [stored] + r.worlds, Deliver(mid, frame).worlds);
      ok := TransmitFrame(frame);
      if !ok {
        client.CloseConnection();
        state := Failed;
        return false;
      }
      RemovalKeepsOwnFiles(store.View(), frame.frameId);
      store.RemoveFrame(frame.frameId);
      return true;
    }

    // A whole run of calls, none of them killed half way.
    method Execute(calls: seq<Call>)
      requires Valid() && Sound(View()) && AtRest(View()) && AllRespected(View(), AllCompleted(calls))
      modifies this, client, store
      ensures Valid() && View() == RunEvents(old(View()), AllCompleted(calls))
      ensures Sound(View()) && AtRest(View())
    {
      hide Run, Sound, AtRest, AllRespected;
      ghost var w := View();
      NoSilentLoss(w, AllCompleted(calls));
      var i := 0;
      assert calls[0..] == calls;
      while i < |calls|
        invariant 0 <= i <= |calls| && Valid()
        invariant RunEvents(w, AllCompleted(calls)) == RunEvents(View(), AllCompleted(calls[i..]))
      {
        CompletedNext(calls[i..]);
        assert calls[i..][1..] == calls[i + 1..];
        match calls[i] {
          case ReconnectCall(offer) => var _ := Start(offer);
          case SendCall(frame, write, offer) => var _ := SendFrame(frame, write, offer);
        }
        i := i + 1;
      }
    }
  }

  function AllCompleted(calls: seq<Call>): (events: seq<Event>)
    ensures |events| == |calls|
  {
    seq(|calls|, i requires 0 <= i < |calls| => Completed(calls[i]))
  }

  lemma CompletedNext(calls: seq<Call>)
    requires calls != []
    ensures AllCompleted(calls)[0] == Completed(calls[0]) && AllCompleted(calls)[1..] == AllCompleted(calls[1..])
  {
  }
}

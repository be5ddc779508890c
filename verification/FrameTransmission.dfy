// Sender, network and server put together: what the server rebuilds from the
// wire that the frame sender wrote, wherever the network broke off.
module FrameTransmission {
  import opened Bytes
  import opened RawFrameProtocol
  import opened Tcp
  import opened FrameSending
  import opened FrameServer

  // ---- Any frames, any cut ------------------------------------------------

  lemma RefusedCut(sent: seq<Sending>, k: nat)
    requires sent != [] && !sent[0].Legal() && !sent[0].frame.Empty() && k <= |Stream(sent)|
    ensures Serve(Stream(sent)[..k]).frames == []
  {
    hide Stream;
    var first, tail := sent[0], Stream(sent[1..]);
    StreamSplits(sent);
    HeaderParsed(first, tail);
    var cut := Stream(sent)[..k];
    if k >= 48 {
      assert cut[..48] == Stream(sent)[..48];
    }
  }

  lemma StreamSplits(sent: seq<Sending>)
    requires sent != []
    ensures Stream(sent) == sent[0].Bytes() + Stream(sent[1..])
  {
  }

  // However far the bytes of the frames get, the server rebuilds exactly those
  // frames that arrived whole before the first one its size limit refuses.
  lemma {:induction false} CutStreamServes(sent: seq<Sending>, k: nat)
    requires (forall s :: s in sent ==> !s.frame.Empty()) && k <= |Stream(sent)|
    ensures Serve(Stream(sent)[..k]).frames == RebuiltAll(LegalPrefix(sent)[..WholeFrames(LegalPrefix(sent), k)])
    decreases |sent|
  {
    hide Serve, Stream;
    if sent == [] {
      NothingServed();
    } else if !sent[0].Legal() {
      RefusedCut(sent, k);
    } else {
      var first, legal := |sent[0].Bytes()|, LegalPrefix(sent);
      assert legal[0] == sent[0] && legal[1..] == LegalPrefix(sent[1..]);
      if k < first {
        CutInFirstFrame(sent, k);
        CutFrameIsLost(sent[0], k);
      } else {
        CutServesFirst(sent, k);
        CutStreamServes(sent[1..], k - first);
        RebuiltPrefix(legal, WholeFrames(legal[1..], k - first));
      }
    }
  }

  // However far the bytes get, the server has every frame whole in them before
  // the first one it refuses, each with its own numbers and pixels.
  lemma CutStreamDelivers(sent: seq<Sending>, k: nat)
    requires (forall s :: s in sent ==> !s.frame.Empty()) && k <= |Stream(sent)|
    ensures Delivered(Serve(Stream(sent)[..k]).frames, sent, k)
  {
    hide Serve, Stream, LegalPrefix, WholeFrames, RebuiltAll, Delivered;
    CutStreamServes(sent, k);
    RebuiltIsDelivered(sent, k);
  }

  // ---- The sender over a list of frames -----------------------------------

  function Sendings(frames: seq<RawFrame>, fragmentSize: FragmentSize): (r: seq<Sending>)
    ensures |r| == |frames|
  {
    seq(|frames|, i requires 0 <= i < |frames| => Sending(frames[i], fragmentSize))
  }

  lemma AppendAssociates(a: seq<byte>, b: seq<byte>, c: seq<byte>)
    ensures a + (b + c) == a + b + c
  {
  }

  lemma {:induction false} StreamConcat(a: seq<Sending>, b: seq<Sending>)
    ensures Stream(a + b) == Stream(a) + Stream(b)
    decreases |a|
  {
    hide FrameBytes;
    if a == [] {
      assert a + b == b;
    } else {
      StreamConcat(a[1..], b);
      assert (a + b)[1..] == a[1..] + b;
      AppendAssociates(a[0].Bytes(), Stream(a[1..]), Stream(b));
    }
  }

  lemma StreamOfOne(s: Sending)
    ensures Stream([s]) == s.Bytes()
  {
    assert [s][1..] == [];
    assert s.Bytes() + [] == s.Bytes();
  }

  lemma SendingsNext(frames: seq<RawFrame>, fragmentSize: FragmentSize, i: nat)
    requires i < |frames|
    ensures Stream(Sendings(frames, fragmentSize)) ==
              Stream(Sendings(frames[..i], fragmentSize)) + FrameBytes(frames[i], fragmentSize)
              + Stream(Sendings(frames[i + 1..], fragmentSize))
    ensures Stream(Sendings(frames[..i + 1], fragmentSize)) ==
              Stream(Sendings(frames[..i], fragmentSize)) + FrameBytes(frames[i], fragmentSize)
  {
    hide Stream, FrameBytes;
    var all := Sendings(frames, fragmentSize);
    var before, one, after :=
      Sendings(frames[..i], fragmentSize), [Sending(frames[i], fragmentSize)], Sendings(frames[i + 1..], fragmentSize);
    assert all == before + one + after && Sendings(frames[..i + 1], fragmentSize) == before + one;
    StreamConcat(before + one, after);
    StreamConcat(before, one);
    StreamOfOne(one[0]);
  }

  // Frame after frame until one cannot be sent.
  method TransmitFrames(sender: RawFrameSender, frames: seq<RawFrame>) returns (ok: bool)
    requires sender.client.Valid() && sender.client.connected && forall f :: f in frames ==> !f.Empty()
    modifies sender.client
    ensures sender.client.Valid()
    ensures var bytes := Stream(Sendings(frames, sender.fragmentSize));
            sender.client.View() == Sent(old(sender.client.View()), bytes)
            && ok == Carries(old(sender.client.View()), bytes)
  {
    hide Sent, Carries, Stream, FrameBytes;
    ghost var c := sender.client.View();
    var i := 0;
    NothingStreamed(c);
    assert Sendings(frames[..0], sender.fragmentSize) == [];
    while i < |frames|
      invariant 0 <= i <= |frames| && sender.client.Valid()
      invariant Streamed(c, sender.client.View(), Stream(Sendings(frames[..i], sender.fragmentSize)))
    {
      assert frames[i] in frames;
      SendingsNext(frames, sender.fragmentSize, i);
      StreamMore(c, sender.client.View(), Stream(Sendings(frames[..i], sender.fragmentSize)),
                 FrameBytes(frames[i], sender.fragmentSize), Stream(Sendings(frames[i + 1..], sender.fragmentSize)));
      ok := sender.SendFrame(frames[i]);
      if !ok {
        return false;
      }
      i := i + 1;
    }
    assert frames[..|frames|] == frames;
    return true;
  }

  lemma NothingStreamed(c: Conn)
    requires ValidConn(c) && c.connected
    ensures Streamed(c, c, Stream([]))
  {
    var last := |c.wires| - 1;
    assert c.wires[last] + [] == c.wires[last];
  }

  // ---- End to end ---------------------------------------------------------

  function Smaller(a: nat, b: nat): nat {
    if a < b then a else b
  }

  lemma WireAfter(c: Conn, bytes: seq<byte>)
    requires ValidConn(c) && c.connected && c.wires[|c.wires| - 1] == []
    ensures Sent(c, bytes).wires != []
    ensures Sent(c, bytes).wires[|Sent(c, bytes).wires| - 1] == bytes[..Smaller(c.link.budget, |bytes|)]
  {
    assert [] + bytes[..Smaller(c.link.budget, |bytes|)] == bytes[..Smaller(c.link.budget, |bytes|)];
    assert bytes[..|bytes|] == bytes;
  }

  lemma {:induction false} LegalPrefixWhole(sent: seq<Sending>)
    ensures |RebuiltAll(LegalPrefix(sent))| == |LegalPrefix(sent)| <= |sent|
    ensures LegalPrefix(sent) == sent <==> |LegalPrefix(sent)| == |sent|
  {
    hide Sending.Rebuilt, Sending.Legal;
    if sent != [] && sent[0].Legal() {
      LegalPrefixWhole(sent[1..]);
      assert LegalPrefix(sent)[1..] == LegalPrefix(sent[1..]);
    }
  }

  // Main result: any frames sent by the sender object over a new connection
  // that breaks after any byte or not at all, and what came through read by the
  // server loop under any pattern of short receives, give exactly the frames
  // that crossed whole before the first one above the size limit, each with its
  // own id, shape, pixel type and pixels; with a connection that holds, all.
  method SendAndServe(sender: RawFrameSender, frames: seq<RawFrame>) returns (ok: bool, received: seq<Received>, end: End)
    requires sender.client.Valid() && sender.client.connected && sender.client.wires[|sender.client.wires| - 1] == []
    requires forall f :: f in frames ==> !f.Empty()
    modifies sender.client
    ensures var sent := Sendings(frames, sender.fragmentSize);
            var k := Smaller(old(sender.client.budget), |Stream(sent)|);
            && ok == (|Stream(sent)| <= old(sender.client.budget))
            && Delivered(received, sent, k)
            && (ok ==> received == RebuiltAll(LegalPrefix(sent))
                       && end == if |received| == |sent| then PeerClosed(0) else IllegalSize)
  {
    hide Serve, Stream, LegalPrefix, RebuiltAll, WholeFrames, Sent, Delivered;
    ghost var c, sent := sender.client.View(), Sendings(frames, sender.fragmentSize);
    ok := TransmitFrames(sender, frames);
    WireAfter(c, Stream(sent));
    var wire := sender.client.wires[|sender.client.wires| - 1];
    var socket := new Socket(wire);
    received, end := ServeConnection(socket);
    CutStreamDelivers(sent, Smaller(c.link.budget, |Stream(sent)|));
    if ok {
      assert Stream(sent)[..|Stream(sent)|] == Stream(sent);
      StreamRoundTrip(sent);
      LegalPrefixWhole(sent);
    }
  }
}

// The receiving loop of the frame server: reassembly of chunked frames from a
// byte stream that arrives in arbitrary pieces and may end anywhere.
module FrameServer {
  import opened Bytes
  import opened RawFrameProtocol
  import opened FrameSending

  const MAX_FRAME_BYTES: nat := 200 * 1024 * 1024

  datatype Received = Received(header: RawFrameHeader, buffer: seq<byte>)

  // Why the server stopped reading. PeerClosed counts the bytes of a frame
  // header that had arrived when the stream ended.
  datatype End =
    | PeerClosed(leftover: nat)
    | BadFrameHeader
    | IllegalSize
    | ChunkHeaderLost
    | BadChunkHeader
    | PayloadLost

  datatype Assembly = Assembled(buffer: seq<byte>, stream: seq<byte>) | Lost(end: End)

  datatype Outcome = Outcome(frames: seq<Received>, end: End)

  function Place(buffer: seq<byte>, offset: nat, data: seq<byte>): (r: seq<byte>)
    requires offset + |data| <= |buffer|
    ensures |r| == |buffer|
  {
    buffer[..offset] + data + buffer[offset + |data|..]
  }

  // The chunk loop from iteration i on. A chunk of another frame, or one that
  // does not fit, ends the loop but not the frame.
  function ReceiveChunks(stream: seq<byte>, header: RawFrameHeader, buffer: seq<byte>, i: nat): (r: Assembly)
    requires |buffer| == header.totalBytes && i <= header.fragmentCount
    ensures r.Assembled? ==> |r.buffer| == |buffer| && |r.stream| <= |stream|
    decreases header.fragmentCount - i
  {
    if i == header.fragmentCount then Assembled(buffer, stream)
    else if |stream| < 28 then Lost(ChunkHeaderLost)
    else
      match ChunkHeaderOf(stream[..28])
      case None => Lost(BadChunkHeader)
      case Some(chunk) =>
        var rest := stream[28..];
        if chunk.frameId != header.frameId || chunk.offset + chunk.payloadSize > header.totalBytes then
          Assembled(buffer, rest)
        else if |rest| < chunk.payloadSize then Lost(PayloadLost)
        else ReceiveChunks(rest[chunk.payloadSize..], header,
                           Place(buffer, chunk.offset, rest[..chunk.payloadSize]), i + 1)
  }

  function Zeros(n: nat): (z: seq<byte>)
    ensures |z| == n && forall k :: 0 <= k < n ==> z[k] == 0
  {
    seq(n, _ => 0)
  }

  // Everything the server makes of a stream.
  function Serve(stream: seq<byte>): Outcome
    decreases |stream|
  {
    if |stream| < 48 then Outcome([], PeerClosed(|stream|))
    else
      match FrameHeaderOf(stream[..48])
      case None => Outcome([], BadFrameHeader)
      case Some(header) =>
        if header.totalBytes == 0 || header.totalBytes > MAX_FRAME_BYTES then Outcome([], IllegalSize)
        else
          match ReceiveChunks(stream[48..], header, Zeros(header.totalBytes), 0)
          case Lost(end) => Outcome([], end)
          case Assembled(buffer, rest) =>
            var later := Serve(rest);
            Outcome([Received(header, buffer)] + later.frames, later.end)
  }

  // ---- The stream theorem -------------------------------------------------

  // A frame together with the fragment size in force when it is sent.
  datatype Sending = Sending(frame: RawFrame, fragmentSize: FragmentSize)
  {
    ghost function Bytes(): seq<byte> {
      FrameBytes(frame, fragmentSize)
    }

    predicate Legal() {
      0 < |frame.payload| <= MAX_FRAME_BYTES
    }

    function Rebuilt(): Received {
      Received(FrameHeaderFor(frame, fragmentSize), frame.payload)
    }
  }

  ghost function Stream(sent: seq<Sending>): seq<byte> {
    if sent == [] then [] else sent[0].Bytes() + Stream(sent[1..])
  }

  function RebuiltAll(sent: seq<Sending>): seq<Received> {
    if sent == [] then [] else [sent[0].Rebuilt()] + RebuiltAll(sent[1..])
  }

  // The frames before the first one the server's size check refuses.
  function LegalPrefix(sent: seq<Sending>): seq<Sending> {
    if sent == [] || !sent[0].Legal() then [] else [sent[0]] + LegalPrefix(sent[1..])
  }

  ghost predicate Filled(f: RawFrame, fragmentSize: FragmentSize, buffer: seq<byte>, i: nat) {
    |buffer| == |f.payload|
    && forall k :: 0 <= k < |buffer| && k < Times(i, fragmentSize) ==> buffer[k] == f.payload[k]
  }

  lemma ChunkParsed(f: RawFrame, fragmentSize: FragmentSize, i: nat, rest: seq<byte>)
    requires i < FragmentCount(|f.payload|, fragmentSize)
    ensures var s := ChunkBytes(f, fragmentSize, i) + rest;
            var h := ChunkHeaderFor(f, fragmentSize, i);
            |s| >= 28 + h.payloadSize && ChunkHeaderOf(s[..28]) == Some(h)
            && s[28..][..h.payloadSize] == ChunkPayload(f, fragmentSize, i)
            && s[28..][h.payloadSize..] == rest
  {
    var h := ChunkHeaderFor(f, fragmentSize, i);
    var hb, p := ChunkHeaderBytes(h), ChunkPayload(f, fragmentSize, i);
    var s := ChunkBytes(f, fragmentSize, i) + rest;
    assert s == hb + (p + rest);
    assert s[..28] == hb + [];
    ChunkHeaderRoundTrip(h, []);
    assert s[28..] == p + rest;
  }

  lemma PlacedChunkFills(f: RawFrame, fragmentSize: FragmentSize, buffer: seq<byte>, i: nat)
    requires i < FragmentCount(|f.payload|, fragmentSize) && Filled(f, fragmentSize, buffer, i)
    ensures Filled(f, fragmentSize,
                   Place(buffer, ChunkStart(f, fragmentSize, i), ChunkPayload(f, fragmentSize, i)), i + 1)
  {
    hide Times;
    TimesSuccessor(i, fragmentSize);
  }

  lemma ChunkReceived(f: RawFrame, fragmentSize: FragmentSize, i: nat, buffer: seq<byte>, rest: seq<byte>)
    requires i < FragmentCount(|f.payload|, fragmentSize) && |buffer| == |f.payload|
    ensures var next := Place(buffer, ChunkStart(f, fragmentSize, i), ChunkPayload(f, fragmentSize, i));
            var h := FrameHeaderFor(f, fragmentSize);
            ReceiveChunks(ChunkBytes(f, fragmentSize, i) + rest, h, buffer, i) == ReceiveChunks(rest, h, next, i + 1)
  {
    ChunkParsed(f, fragmentSize, i, rest);
  }

  lemma NoChunkLeft(header: RawFrameHeader, buffer: seq<byte>, stream: seq<byte>)
    requires |buffer| == header.totalBytes
    ensures ReceiveChunks(stream, header, buffer, header.fragmentCount) == Assembled(buffer, stream)
  {
  }

  lemma {:induction false} ChunksReassemble(f: RawFrame, fragmentSize: FragmentSize, i: nat,
                                            buffer: seq<byte>, tail: seq<byte>)
    requires 0 < |f.payload| <= MAX_FRAME_BYTES
    requires i <= FragmentCount(|f.payload|, fragmentSize) && Filled(f, fragmentSize, buffer, i)
    ensures ReceiveChunks(ChunksFrom(f, fragmentSize, i) + tail, FrameHeaderFor(f, fragmentSize), buffer, i)
            == Assembled(f.payload, tail)
    decreases FragmentCount(|f.payload|, fragmentSize) - i
  {
    hide Times, ReceiveChunks, FragmentCount, ChunkBytes;
    var stream := ChunksFrom(f, fragmentSize, i) + tail;
    if i == FragmentCount(|f.payload|, fragmentSize) {
      ChunksReachEnd(|f.payload|, fragmentSize);
      assert buffer == f.payload;
      assert stream == tail;
      NoChunkLeft(FrameHeaderFor(f, fragmentSize), buffer, tail);
    } else {
      var rest := ChunksFrom(f, fragmentSize, i + 1) + tail;
      assert stream == ChunkBytes(f, fragmentSize, i) + rest;
      ChunkReceived(f, fragmentSize, i, buffer, rest);
      PlacedChunkFills(f, fragmentSize, buffer, i);
      var next := Place(buffer, ChunkStart(f, fragmentSize, i), ChunkPayload(f, fragmentSize, i));
      ChunksReassemble(f, fragmentSize, i + 1, next, tail);
    }
  }

  lemma HeaderParsed(s: Sending, tail: seq<byte>)
    ensures var stream := s.Bytes() + tail;
            |stream| >= 48 && FrameHeaderOf(stream[..48]) == Some(FrameHeaderFor(s.frame, s.fragmentSize))
            && stream[48..] == ChunksFrom(s.frame, s.fragmentSize, 0) + tail
  {
    hide ChunksFrom, Times, FragmentCount;
    var h := FrameHeaderFor(s.frame, s.fragmentSize);
    var stream := s.Bytes() + tail;
    assert stream[..48] == FrameHeaderBytes(h) + [];
    FrameHeaderRoundTrip(h, []);
  }

  // One legal frame at the front of a stream comes out first, intact, and the
  // server goes on with exactly the bytes behind it.
  lemma FrontFrame(s: Sending, tail: seq<byte>)
    requires s.Legal()
    ensures Serve(s.Bytes() + tail) == Outcome([s.Rebuilt()] + Serve(tail).frames, Serve(tail).end)
  {
    HeaderParsed(s, tail);
    ChunksReassemble(s.frame, s.fragmentSize, 0, Zeros(|s.frame.payload|), tail);
  }

  lemma NothingServed()
    ensures Stream([]) == [] && Serve([]) == Outcome([], PeerClosed(0))
  {
  }

  lemma RefusedFrameStops(s: Sending, tail: seq<byte>)
    requires !s.Legal() && !s.frame.Empty()
    ensures Serve(s.Bytes() + tail) == Outcome([], IllegalSize)
  {
    HeaderParsed(s, tail);
  }

  // Main result: for any frames and fragment sizes, the server rebuilds exactly
  // the frames before the first one its size limit refuses; if it refuses none
  // it consumes the stream to the last byte.
  lemma {:induction false} StreamRoundTrip(sent: seq<Sending>)
    requires forall s :: s in sent ==> !s.frame.Empty()
    ensures Serve(Stream(sent)).frames == RebuiltAll(LegalPrefix(sent))
    ensures Serve(Stream(sent)).end == if LegalPrefix(sent) == sent then PeerClosed(0) else IllegalSize
  {
    hide Serve;
    if sent != [] {
      var tail := Stream(sent[1..]);
      if sent[0].Legal() {
        FrontFrame(sent[0], tail);
        StreamRoundTrip(sent[1..]);
        assert LegalPrefix(sent)[1..] == LegalPrefix(sent[1..]);
        assert sent == [sent[0]] + sent[1..];
      } else {
        RefusedFrameStops(sent[0], tail);
      }
    } else {
      NothingServed();
    }
  }

  // Behind any frames below the limit the server goes on with whatever follows,
  // and stops there as it would have stopped at the start of a stream: fewer
  // than 48 bytes are a peer gone, and 48 that are no header are refused.
  lemma {:induction false} TailDecides(sent: seq<Sending>, tail: seq<byte>)
    requires forall s :: s in sent ==> s.Legal()
    ensures Serve(Stream(sent) + tail) == Outcome(RebuiltAll(sent) + Serve(tail).frames, Serve(tail).end)
    ensures |tail| < 48 ==> Serve(tail) == Outcome([], PeerClosed(|tail|))
    ensures |tail| >= 48 && (forall h :: tail[..48] != FrameHeaderBytes(h)) ==> Serve(tail) == Outcome([], BadFrameHeader)
    decreases |sent|
  {
    hide Serve, FrameHeaderBytes, Sending.Rebuilt;
    TailAlone(tail);
    if sent == [] {
      assert Stream(sent) + tail == tail;
    } else {
      TailDecides(sent[1..], tail);
      FrontThenTail(sent, tail);
      OutcomeJoins(sent[0].Rebuilt(), RebuiltAll(sent[1..]), Serve(tail).frames);
    }
  }

  lemma FrontThenTail(sent: seq<Sending>, tail: seq<byte>)
    requires sent != [] && sent[0].Legal()
    ensures var later := Serve(Stream(sent[1..]) + tail);
            Serve(Stream(sent) + tail) == Outcome([sent[0].Rebuilt()] + later.frames, later.end)
  {
    hide Serve, Sending.Bytes;
    FrontFrame(sent[0], Stream(sent[1..]) + tail);
    assert Stream(sent) + tail == sent[0].Bytes() + (Stream(sent[1..]) + tail);
  }

  lemma OutcomeJoins(first: Received, frames: seq<Received>, rest: seq<Received>)
    ensures [first] + (frames + rest) == [first] + frames + rest
  {
  }

  lemma TailAlone(tail: seq<byte>)
    ensures |tail| < 48 ==> Serve(tail) == Outcome([], PeerClosed(|tail|))
    ensures |tail| >= 48 && (forall h :: tail[..48] != FrameHeaderBytes(h)) ==> Serve(tail) == Outcome([], BadFrameHeader)
  {
    hide FrameHeaderBytes, ReceiveChunks;
    if |tail| >= 48 && FrameHeaderOf(tail[..48]).Some? {
      FrameHeaderOnlyBuilt(tail[..48]);
      assert tail[..48][..48] == tail[..48];
    }
  }

  // ---- A stream cut after any byte ----------------------------------------

  lemma CutInsideChunk(f: RawFrame, fragmentSize: FragmentSize, i: nat, buffer: seq<byte>, k: nat)
    requires |buffer| == |f.payload| && i < FragmentCount(|f.payload|, fragmentSize)
    requires k < |ChunkBytes(f, fragmentSize, i)|
    ensures ReceiveChunks(ChunkBytes(f, fragmentSize, i)[..k], FrameHeaderFor(f, fragmentSize), buffer, i).Lost?
  {
    hide Times, FragmentCount;
    var chunk := ChunkBytes(f, fragmentSize, i);
    ChunkParsed(f, fragmentSize, i, []);
    assert chunk + [] == chunk;
    if k >= 28 {
      assert chunk[..k][..28] == chunk[..28];
    }
  }

  lemma {:induction false} CutChunksAreLost(f: RawFrame, fragmentSize: FragmentSize, i: nat,
                                            buffer: seq<byte>, k: nat)
    requires |buffer| == |f.payload|
    requires i <= FragmentCount(|f.payload|, fragmentSize) && k < |ChunksFrom(f, fragmentSize, i)|
    ensures ReceiveChunks(ChunksFrom(f, fragmentSize, i)[..k], FrameHeaderFor(f, fragmentSize), buffer, i).Lost?
    decreases FragmentCount(|f.payload|, fragmentSize) - i
  {
    hide Times, FragmentCount, ReceiveChunks, ChunkBytes;
    var all := ChunksFrom(f, fragmentSize, i);
    var chunk, rest := ChunkBytes(f, fragmentSize, i), ChunksFrom(f, fragmentSize, i + 1);
    if k < |chunk| {
      assert all[..k] == chunk[..k];
      CutInsideChunk(f, fragmentSize, i, buffer, k);
    } else {
      assert all[..k] == chunk + rest[..k - |chunk|];
      ChunkReceived(f, fragmentSize, i, buffer, rest[..k - |chunk|]);
      var next := Place(buffer, ChunkStart(f, fragmentSize, i), ChunkPayload(f, fragmentSize, i));
      CutChunksAreLost(f, fragmentSize, i + 1, next, k - |chunk|);
    }
  }

  lemma CutFrameIsLost(s: Sending, k: nat)
    requires s.Legal() && k < |s.Bytes()|
    ensures Serve(s.Bytes()[..k]).frames == []
  {
    HeaderParsed(s, []);
    assert s.Bytes() + [] == s.Bytes();
    var cut := s.Bytes()[..k];
    if k >= 48 {
      assert cut[..48] == s.Bytes()[..48];
      assert cut[48..] == ChunksFrom(s.frame, s.fragmentSize, 0)[..k - 48];
      CutChunksAreLost(s.frame, s.fragmentSize, 0, Zeros(|s.frame.payload|), k - 48);
    }
  }

  // How many frames lie wholly inside the first k bytes.
  ghost function WholeFrames(sent: seq<Sending>, k: nat): (n: nat)
    ensures n <= |sent|
  {
    if sent == [] || k < |sent[0].Bytes()| then 0
    else 1 + WholeFrames(sent[1..], k - |sent[0].Bytes()|)
  }

  lemma CutInFirstFrame(sent: seq<Sending>, k: nat)
    requires sent != [] && k < |sent[0].Bytes()|
    ensures Stream(sent)[..k] == sent[0].Bytes()[..k]
  {
  }

  lemma CutBehindFirstFrame(sent: seq<Sending>, k: nat)
    requires sent != [] && |sent[0].Bytes()| <= k <= |Stream(sent)|
    ensures k - |sent[0].Bytes()| <= |Stream(sent[1..])|
    ensures Stream(sent)[..k] == sent[0].Bytes() + Stream(sent[1..])[..k - |sent[0].Bytes()|]
  {
  }

  lemma RebuiltPrefix(sent: seq<Sending>, n: nat)
    requires n < |sent|
    ensures RebuiltAll(sent[..n + 1]) == [sent[0].Rebuilt()] + RebuiltAll(sent[1..][..n])
  {
    assert sent[..n + 1][1..] == sent[1..][..n];
  }

  lemma CutServesFirst(sent: seq<Sending>, k: nat)
    requires sent != [] && sent[0].Legal() && |sent[0].Bytes()| <= k <= |Stream(sent)|
    ensures k - |sent[0].Bytes()| <= |Stream(sent[1..])|
    ensures Serve(Stream(sent)[..k]).frames
            == [sent[0].Rebuilt()] + Serve(Stream(sent[1..])[..k - |sent[0].Bytes()|]).frames
  {
    CutBehindFirstFrame(sent, k);
    FrontFrame(sent[0], Stream(sent[1..])[..k - |sent[0].Bytes()|]);
  }

  // Whatever byte the stream stops at, the server delivers precisely the frames
  // that had arrived whole: never a partial one, never one less.
  lemma {:induction false} CutStreamKeepsWholeFrames(sent: seq<Sending>, k: nat)
    requires forall s :: s in sent ==> s.Legal()
    requires k <= |Stream(sent)|
    ensures Serve(Stream(sent)[..k]).frames == RebuiltAll(sent[..WholeFrames(sent, k)])
  {
    hide Serve, Stream;
    if sent == [] {
      NothingServed();
    } else {
      var first := |sent[0].Bytes()|;
      if k < first {
        CutInFirstFrame(sent, k);
        CutFrameIsLost(sent[0], k);
      } else {
        CutServesFirst(sent, k);
        CutStreamKeepsWholeFrames(sent[1..], k - first);
        RebuiltPrefix(sent, WholeFrames(sent[1..], k - first));
      }
    }
  }

  // ---- What a rebuilt frame tells of the frame sent ------------------------

  // The server has this frame: every pixel and every number that gives the
  // pixels their meaning, cut into the fewest fragments that hold the payload.
  predicate Describes(r: Received, s: Sending) {
    var f, h := s.frame, r.header;
    && r.buffer == f.payload
    && h.frameId == f.frameId && h.rows == f.rows && h.cols == f.cols
    && h.pixelType == f.pixelType && h.elemSize == f.elemSize
    && h.totalBytes == |f.payload| && h.fragmentSize == s.fragmentSize
    && Times(h.fragmentCount, s.fragmentSize) >= |f.payload|
    && forall n: nat :: n < h.fragmentCount ==> Times(n, s.fragmentSize) < |f.payload|
  }

  lemma LegalIsDescribed(s: Sending)
    requires s.Legal()
    ensures Describes(s.Rebuilt(), s)
  {
    hide Times, FragmentCount;
    ChunksReachEnd(|s.frame.payload|, s.fragmentSize);
    forall n: nat | n < FragmentCount(|s.frame.payload|, s.fragmentSize)
      ensures Times(n, s.fragmentSize) < |s.frame.payload|
    {
      ChunkStartsInside(|s.frame.payload|, s.fragmentSize, n);
    }
  }

  // Chunk i on the wire: the frame's id, its own place among the chunks, and the
  // bytes of that place.
  lemma ChunkOnWire(f: RawFrame, fragmentSize: FragmentSize, i: nat)
    requires i < FragmentCount(|f.payload|, fragmentSize)
    ensures var wire := ChunksFrom(f, fragmentSize, i);
            |wire| >= 28 && ChunkHeaderOf(wire[..28]).Some?
            && var c := ChunkHeaderOf(wire[..28]).value;
               c.frameId == f.frameId && c.fragmentIndex == i
               && c.offset == Times(i, fragmentSize) && c.offset + c.payloadSize <= |f.payload|
               && (c.payloadSize == fragmentSize || (c.payloadSize < fragmentSize && c.offset + c.payloadSize == |f.payload|))
               && wire[28..] == f.payload[c.offset..c.offset + c.payloadSize] + ChunksFrom(f, fragmentSize, i + 1)
  {
    hide Times, FragmentCount, ChunkBytes;
    var rest := ChunksFrom(f, fragmentSize, i + 1);
    var wire := ChunksFrom(f, fragmentSize, i);
    assert wire == ChunkBytes(f, fragmentSize, i) + rest;
    ChunkParsed(f, fragmentSize, i, rest);
    var n: nat := ChunkLength(f, fragmentSize, i);
    assert wire[28..] == wire[28..][..n] + wire[28..][n..];
  }

  // From k bytes of the stream the server has, in order, every frame that is
  // whole in them and comes before the first one above the size limit.
  ghost predicate Delivered(got: seq<Received>, sent: seq<Sending>, k: nat) {
    && |got| <= |sent|
    && (forall i :: 0 <= i < |got| ==> sent[i].Legal() && Describes(got[i], sent[i]))
    && |Stream(sent[..|got|])| <= k
    && (|got| < |sent| && sent[|got|].Legal() ==> k < |Stream(sent[..|got| + 1])|)
  }

  lemma DeliveredMore(r: Received, later: seq<Received>, sent: seq<Sending>, k: nat)
    requires sent != [] && sent[0].Legal() && Describes(r, sent[0]) && |sent[0].Bytes()| <= k
    requires Delivered(later, sent[1..], k - |sent[0].Bytes()|)
    ensures Delivered([r] + later, sent, k)
  {
    hide Describes, Sending.Bytes, Sending.Legal, Stream;
    StreamLength(sent, |later|);
    if |later| < |sent[1..]| { StreamLength(sent, |later| + 1); }
  }

  lemma NoneDelivered(sent: seq<Sending>, k: nat)
    requires sent == [] || !sent[0].Legal() || k < |sent[0].Bytes()|
    ensures Delivered([], sent, k)
  {
    hide Describes, Sending.Bytes, Sending.Legal;
    if sent != [] { StreamLength(sent, 0); }
  }

  lemma {:induction false} RebuiltIsDelivered(sent: seq<Sending>, k: nat)
    ensures Delivered(RebuiltAll(LegalPrefix(sent)[..WholeFrames(LegalPrefix(sent), k)]), sent, k)
    decreases |sent|
  {
    hide Describes, Sending.Bytes, Sending.Rebuilt, Sending.Legal, Delivered;
    var legal := LegalPrefix(sent);
    if sent != [] && sent[0].Legal() && |sent[0].Bytes()| <= k {
      assert legal[0] == sent[0] && legal[1..] == LegalPrefix(sent[1..]);
      var n := WholeFrames(legal[1..], k - |sent[0].Bytes()|);
      RebuiltIsDelivered(sent[1..], k - |sent[0].Bytes()|);
      RebuiltPrefix(legal, n);
      LegalIsDescribed(sent[0]);
      DeliveredMore(sent[0].Rebuilt(), RebuiltAll(legal[1..][..n]), sent, k);
    } else {
      NoneDelivered(sent, k);
      assert RebuiltAll([]) == [];
      assert legal[..WholeFrames(legal, k)] == [];
    }
  }

  lemma StreamLength(sent: seq<Sending>, m: nat)
    requires sent != [] && m < |sent|
    ensures |Stream(sent[..m + 1])| == |sent[0].Bytes()| + |Stream(sent[1..][..m])|
  {
    assert sent[..m + 1][1..] == sent[1..][..m];
  }

  // A frame takes its payload, one frame header and one header for each chunk.
  lemma {:induction false} ChunksLength(f: RawFrame, fragmentSize: FragmentSize, i: nat)
    requires i <= FragmentCount(|f.payload|, fragmentSize) && |f.payload| <= MAX_FRAME_BYTES
    ensures |ChunksFrom(f, fragmentSize, i)|
            == 28 * (FragmentCount(|f.payload|, fragmentSize) - i)
               + (if Times(i, fragmentSize) < |f.payload| then |f.payload| - Times(i, fragmentSize) else 0)
    decreases FragmentCount(|f.payload|, fragmentSize) - i
  {
    hide Times, FragmentCount;
    if i == FragmentCount(|f.payload|, fragmentSize) {
      ChunksReachEnd(|f.payload|, fragmentSize);
    } else {
      ChunkStartsInside(|f.payload|, fragmentSize, i);
      TimesSuccessor(i, fragmentSize);
      ChunkOnWire(f, fragmentSize, i);
      ChunksLength(f, fragmentSize, i + 1);
    }
  }

  lemma FrameBytesLength(s: Sending)
    requires s.Legal()
    ensures |s.Bytes()| == 48 + 28 * s.Rebuilt().header.fragmentCount + |s.frame.payload|
  {
    hide FragmentCount, ChunksFrom;
    HeaderParsed(s, []);
    ChunksLength(s.frame, s.fragmentSize, 0);
    TimesSuccessor(0, s.fragmentSize);
    assert s.Bytes() + [] == s.Bytes();
  }

  // ---- A foreign chunk ----------------------------------------------------

  // Chunks i to n - 1.
  ghost function ChunksTo(f: RawFrame, fragmentSize: FragmentSize, i: nat, n: nat): seq<byte>
    requires i <= n <= FragmentCount(|f.payload|, fragmentSize)
    decreases n - i
  {
    if i == n then [] else ChunkBytes(f, fragmentSize, i) + ChunksTo(f, fragmentSize, i + 1, n)
  }

  // The payload as far as its first n chunks go, and zeros.
  function FirstPart(f: RawFrame, fragmentSize: FragmentSize, n: nat): seq<byte>
    requires Times(n, fragmentSize) <= |f.payload|
  {
    f.payload[..Times(n, fragmentSize)] + Zeros(|f.payload| - Times(n, fragmentSize))
  }

  // Of another frame, or pointing outside this one.
  predicate Foreign(c: RawChunkHeader, f: RawFrame) {
    c.frameId != f.frameId || c.offset + c.payloadSize > |f.payload|
  }

  lemma PartGrows(f: RawFrame, fragmentSize: FragmentSize, i: nat)
    requires i + 1 < FragmentCount(|f.payload|, fragmentSize)
    ensures Times(i, fragmentSize) <= Times(i + 1, fragmentSize) <= |f.payload|
    ensures Place(FirstPart(f, fragmentSize, i), ChunkStart(f, fragmentSize, i), ChunkPayload(f, fragmentSize, i))
            == FirstPart(f, fragmentSize, i + 1)
  {
    hide Times, FragmentCount;
    ChunkStartsInside(|f.payload|, fragmentSize, i + 1);
    TimesSuccessor(i, fragmentSize);
    var t, u := Times(i, fragmentSize), Times(i + 1, fragmentSize);
    assert ChunkPayload(f, fragmentSize, i) == f.payload[t..u];
    assert f.payload[..u] == f.payload[..t] + f.payload[t..u];
    assert FirstPart(f, fragmentSize, i)[u..] == Zeros(|f.payload| - u);
  }

  lemma ForeignChunkStops(header: RawFrameHeader, buffer: seq<byte>, i: nat, c: RawChunkHeader, rest: seq<byte>)
    requires |buffer| == header.totalBytes && i < header.fragmentCount
    requires c.frameId != header.frameId || c.offset + c.payloadSize > header.totalBytes
    ensures ReceiveChunks(ChunkHeaderBytes(c) + rest, header, buffer, i) == Assembled(buffer, rest)
  {
    var stream := ChunkHeaderBytes(c) + rest;
    assert stream[..28] == ChunkHeaderBytes(c) + [];
    ChunkHeaderRoundTrip(c, []);
    assert stream[28..] == rest;
  }

  lemma {:induction false} ForeignAfterChunks(f: RawFrame, fragmentSize: FragmentSize, i: nat, n: nat,
                                              c: RawChunkHeader, rest: seq<byte>)
    requires i <= n < FragmentCount(|f.payload|, fragmentSize) && Foreign(c, f)
    ensures Times(i, fragmentSize) <= |f.payload| && Times(n, fragmentSize) <= |f.payload|
    ensures ReceiveChunks(ChunksTo(f, fragmentSize, i, n) + (ChunkHeaderBytes(c) + rest),
                          FrameHeaderFor(f, fragmentSize), FirstPart(f, fragmentSize, i), i)
            == Assembled(FirstPart(f, fragmentSize, n), rest)
    decreases n - i
  {
    hide Times, FragmentCount, ReceiveChunks, ChunkBytes, Place, FirstPart;
    ChunkStartsInside(|f.payload|, fragmentSize, i);
    ChunkStartsInside(|f.payload|, fragmentSize, n);
    PartLength(f, fragmentSize, i);
    var tail := ChunkHeaderBytes(c) + rest;
    if i == n {
      assert [] + tail == tail;
      ForeignChunkStops(FrameHeaderFor(f, fragmentSize), FirstPart(f, fragmentSize, i), i, c, rest);
    } else {
      var later := ChunksTo(f, fragmentSize, i + 1, n);
      assert ChunksTo(f, fragmentSize, i, n) + tail == ChunkBytes(f, fragmentSize, i) + (later + tail);
      ChunkReceived(f, fragmentSize, i, FirstPart(f, fragmentSize, i), later + tail);
      PartGrows(f, fragmentSize, i);
      ForeignAfterChunks(f, fragmentSize, i + 1, n, c, rest);
    }
  }

  lemma PartLength(f: RawFrame, fragmentSize: FragmentSize, n: nat)
    requires Times(n, fragmentSize) <= |f.payload|
    ensures |FirstPart(f, fragmentSize, n)| == |f.payload|
    ensures Times(0, fragmentSize) == 0 && FirstPart(f, fragmentSize, 0) == Zeros(|f.payload|)
  {
    TimesSuccessor(0, fragmentSize);
  }

  // A chunk of another frame, or one that points outside this one, ends the
  // frame early: the server delivers it under its full header with what came
  // before and zeros behind, drops the chunk's header, and reads on right behind
  // that, taking the chunk's payload for a frame header.
  lemma ForeignChunkEndsFrame(s: Sending, n: nat, c: RawChunkHeader, rest: seq<byte>)
    requires s.Legal() && n < FragmentCount(|s.frame.payload|, s.fragmentSize) && Foreign(c, s.frame)
    ensures Times(n, s.fragmentSize) < |s.frame.payload|
    ensures var stream := FrameHeaderBytes(s.Rebuilt().header) + ChunksTo(s.frame, s.fragmentSize, 0, n)
                          + (ChunkHeaderBytes(c) + rest);
            Serve(stream) == Outcome([Received(s.Rebuilt().header, FirstPart(s.frame, s.fragmentSize, n))]
                                     + Serve(rest).frames, Serve(rest).end)
  {
    hide Times, FragmentCount, ReceiveChunks, ChunksTo, FirstPart;
    ChunkStartsInside(|s.frame.payload|, s.fragmentSize, n);
    var h := s.Rebuilt().header;
    var body := ChunksTo(s.frame, s.fragmentSize, 0, n) + (ChunkHeaderBytes(c) + rest);
    var stream := FrameHeaderBytes(h) + ChunksTo(s.frame, s.fragmentSize, 0, n) + (ChunkHeaderBytes(c) + rest);
    assert stream == FrameHeaderBytes(h) + body;
    assert stream[..48] == FrameHeaderBytes(h) + [];
    FrameHeaderRoundTrip(h, []);
    assert stream[48..] == body;
    ForeignAfterChunks(s.frame, s.fragmentSize, 0, n, c, rest);
    PartLength(s.frame, s.fragmentSize, 0);
  }

  // ---- The loops themselves -----------------------------------------------

  lemma PlaceMore(base: seq<byte>, at: nat, data: seq<byte>, got: nat, n: nat)
    requires got + n <= |data| && at + got + n <= |base|
    ensures Place(Place(base, at, data[..got]), at + got, data[got..][..n]) == Place(base, at, data[..got + n])
    ensures data[got..][n..] == data[got + n..]
  {
    assert data[got..][..n] == data[got..got + n];
    assert data[..got + n] == data[..got] + data[got..got + n];
  }

  lemma PlaceNothing(base: seq<byte>, at: nat, data: seq<byte>)
    requires at <= |base|
    ensures Place(base, at, data[..0]) == base
  {
  }

  class Socket {
    var incoming: seq<byte>

    constructor (stream: seq<byte>)
      ensures incoming == stream
    {
      incoming := stream;
    }

    // One recv(2) into memory: some non-empty prefix, or nothing when the peer is gone.
    method Recv(buffer: array<byte>, at: nat, size: nat) returns (n: int)
      requires size > 0 && at + size <= buffer.Length
      modifies this, buffer
      ensures 0 <= n <= size && n <= |old(incoming)| && (n == 0 <==> old(incoming) == [])
      ensures incoming == old(incoming)[n..]
      ensures buffer[..] == Place(old(buffer[..]), at, old(incoming)[..n])
    {
      n := 0;
      if incoming != [] {
        n :| 1 <= n <= size && n <= |incoming|;
      }
      for k := 0 to n
        invariant incoming == old(incoming)
        invariant forall j :: 0 <= j < buffer.Length ==>
                    buffer[j] == if at <= j < at + k then incoming[j - at] else old(buffer[j])
      {
        buffer[at + k] := incoming[k];
      }
      incoming := incoming[n..];
    }

    // Fills buffer[at..at + size]; short means the peer closed after got bytes.
    method RecvAll(buffer: array<byte>, at: nat, size: nat) returns (ok: bool, got: nat)
      requires at + size <= buffer.Length
      modifies this, buffer
      ensures ok == (size <= |old(incoming)|) && got == (if ok then size else |old(incoming)|)
      ensures incoming == old(incoming)[got..]
      ensures buffer[..] == Place(old(buffer[..]), at, old(incoming)[..got])
    {
      hide Place;
      ghost var base, data := buffer[..], incoming;
      got := 0;
      PlaceNothing(base, at, data);
      while got < size
        invariant 0 <= got <= size && got <= |data|
        invariant incoming == data[got..]
        invariant buffer[..] == Place(base, at, data[..got])
        decreases size - got
      {
        PlaceNothing(buffer[..], at + got, incoming);
        var n := Recv(buffer, at + got, size - got);
        if n == 0 {
          return false, got;
        }
        PlaceMore(base, at, data, got, n);
        got := got + n;
      }
      return true, got;
    }

    // recvAll into a fresh vector.
    method RecvVector(size: nat) returns (ok: bool, bytes: seq<byte>)
      modifies this
      ensures ok == (size <= |old(incoming)|)
      ensures bytes == old(incoming)[..if ok then size else |old(incoming)|] && incoming == old(incoming)[|bytes|..]
    {
      var vector := new byte[size](_ => 0);
      var got;
      ok, got := RecvAll(vector, 0, size);
      bytes := vector[..got];
    }
  }

  method ReceiveFrame(socket: Socket, header: RawFrameHeader) returns (r: Assembly)
    requires 0 < header.totalBytes <= MAX_FRAME_BYTES
    modifies socket
    ensures r == ReceiveChunks(old(socket.incoming), header, Zeros(header.totalBytes), 0)
    ensures r.Assembled? ==> socket.incoming == r.stream
  {
    hide ChunkHeaderOf;
    var rawBuffer := new byte[header.totalBytes](_ => 0);
    assert rawBuffer[..] == Zeros(header.totalBytes);
    var i := 0;
    while i < header.fragmentCount
      invariant 0 <= i <= header.fragmentCount && fresh(rawBuffer) && rawBuffer.Length == header.totalBytes
      invariant ReceiveChunks(old(socket.incoming), header, Zeros(header.totalBytes), 0)
                == ReceiveChunks(socket.incoming, header, rawBuffer[..], i)
      decreases header.fragmentCount - i
    {
      var ok, chunkHeaderBytes := socket.RecvVector(CHUNK_HEADER_SIZE);
      if !ok {
        return Lost(ChunkHeaderLost);
      }
      var parsed := ParseChunkHeader(chunkHeaderBytes);
      if parsed.None? {
        return Lost(BadChunkHeader);
      }
      var chunk := parsed.value;
      if chunk.frameId != header.frameId {
        return Assembled(rawBuffer[..], socket.incoming);
      }
      if chunk.offset + chunk.payloadSize > header.totalBytes {
        return Assembled(rawBuffer[..], socket.incoming);
      }
      var got;
      ok, got := socket.RecvAll(rawBuffer, chunk.offset, chunk.payloadSize);
      if !ok {
        return Lost(PayloadLost);
      }
      i := i + 1;
    }
    return Assembled(rawBuffer[..], socket.incoming);
  }

  method ServeConnection(socket: Socket) returns (frames: seq<Received>, end: End)
    modifies socket
    ensures Outcome(frames, end) == Serve(old(socket.incoming))
  {
    hide ReceiveChunks, FrameHeaderOf, Zeros, Place;
    frames := [];
    while true
      invariant Serve(old(socket.incoming))
                == Outcome(frames + Serve(socket.incoming).frames, Serve(socket.incoming).end)
      decreases |socket.incoming|
    {
      var ok, frameHeaderBytes := socket.RecvVector(FRAME_HEADER_SIZE);
      if !ok {
        return frames, PeerClosed(|frameHeaderBytes|);
      }
      var parsed := ParseFrameHeader(frameHeaderBytes);
      if parsed.None? {
        return frames, BadFrameHeader;
      }
      var header := parsed.value;
      if header.totalBytes == 0 || header.totalBytes > MAX_FRAME_BYTES {
        return frames, IllegalSize;
      }
      var assembly := ReceiveFrame(socket, header);
      if assembly.Lost? {
        return frames, assembly.end;
      }
      frames := frames + [Received(header, assembly.buffer)];
    }
  }
}

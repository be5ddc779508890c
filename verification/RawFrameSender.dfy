// A captured frame and its transmission as one header followed by chunks.
module FrameSending {
  import opened Bytes
  import opened RawFrameProtocol
  import opened Tcp

  type Payload = p: seq<byte> | |p| < 0x1_0000_0000_0000_0000 witness []

  // totalBytes is the length of payload; a null buffer is an empty payload.
  datatype RawFrame = RawFrame(
    frameId: u64, rows: u32, cols: u32, pixelType: u32, elemSize: u32, payload: Payload)
  {
    predicate Empty() {
      payload == []
    }
  }

  type FragmentSize = x: u32 | x >= 1024 witness 1024

  // Ceiling division in 64-bit arithmetic, cut to 32 bits.
  function FragmentCount(totalBytes: u64, fragmentSize: FragmentSize): u32 {
    Cut32(Quotient(Cut64(totalBytes + fragmentSize - 1), fragmentSize))
  }

  // Whatever wraps, every chunk the loop visits starts inside the payload.
  lemma ChunkStartsInside(totalBytes: u64, fragmentSize: FragmentSize, i: nat)
    requires i < FragmentCount(totalBytes, fragmentSize)
    ensures Times(i, fragmentSize) < totalBytes
  {
    hide Cut32, Cut64, Quotient, Times;
    var q := Quotient(Cut64(totalBytes + fragmentSize - 1), fragmentSize);
    TimesMonotone(i + 1, q, fragmentSize);
    TimesSuccessor(i, fragmentSize);
  }

  // Below the wrap the chunks cover the payload: the last one ends at its end.
  lemma ChunksReachEnd(totalBytes: u64, fragmentSize: FragmentSize)
    requires totalBytes <= 200 * 1024 * 1024
    ensures Times(FragmentCount(totalBytes, fragmentSize), fragmentSize) >= totalBytes
  {
    hide Cut32, Cut64, Quotient, Times;
    var n := totalBytes + fragmentSize - 1;
    assert Cut64(n) == n;
    TimesAtLeastDouble(Quotient(n, fragmentSize), fragmentSize);
    assert FragmentCount(totalBytes, fragmentSize) == Quotient(n, fragmentSize);
  }

  function FrameHeaderFor(f: RawFrame, fragmentSize: FragmentSize): RawFrameHeader {
    RawFrameHeader(f.frameId, f.rows, f.cols, f.pixelType, f.elemSize,
                   |f.payload|, fragmentSize, FragmentCount(|f.payload|, fragmentSize))
  }

  function ChunkStart(f: RawFrame, fragmentSize: FragmentSize, i: nat): (start: u64)
    requires i < FragmentCount(|f.payload|, fragmentSize)
    ensures start == Times(i, fragmentSize) < |f.payload|
  {
    ChunkStartsInside(|f.payload|, fragmentSize, i);
    Times(i, fragmentSize)
  }

  function ChunkLength(f: RawFrame, fragmentSize: FragmentSize, i: nat): (n: u32)
    requires i < FragmentCount(|f.payload|, fragmentSize)
    ensures 0 < n <= fragmentSize && ChunkStart(f, fragmentSize, i) + n <= |f.payload|
  {
    var remain := |f.payload| - ChunkStart(f, fragmentSize, i);
    if fragmentSize < remain then fragmentSize else remain
  }

  function ChunkHeaderFor(f: RawFrame, fragmentSize: FragmentSize, i: nat): RawChunkHeader
    requires i < FragmentCount(|f.payload|, fragmentSize)
  {
    RawChunkHeader(f.frameId, i, ChunkLength(f, fragmentSize, i), ChunkStart(f, fragmentSize, i))
  }

  function ChunkPayload(f: RawFrame, fragmentSize: FragmentSize, i: nat): (bs: seq<byte>)
    requires i < FragmentCount(|f.payload|, fragmentSize)
    ensures |bs| == ChunkLength(f, fragmentSize, i)
  {
    var start := ChunkStart(f, fragmentSize, i);
    f.payload[start..start + ChunkLength(f, fragmentSize, i)]
  }

  ghost function ChunkBytes(f: RawFrame, fragmentSize: FragmentSize, i: nat): seq<byte>
    requires i < FragmentCount(|f.payload|, fragmentSize)
  {
    ChunkHeaderBytes(ChunkHeaderFor(f, fragmentSize, i)) + ChunkPayload(f, fragmentSize, i)
  }

  // The bytes of chunk i and of every later one.
  ghost function ChunksFrom(f: RawFrame, fragmentSize: FragmentSize, i: nat): seq<byte>
    requires i <= FragmentCount(|f.payload|, fragmentSize)
    decreases FragmentCount(|f.payload|, fragmentSize) - i
  {
    if i == FragmentCount(|f.payload|, fragmentSize) then []
    else ChunkBytes(f, fragmentSize, i) + ChunksFrom(f, fragmentSize, i + 1)
  }

  ghost function FrameBytes(f: RawFrame, fragmentSize: FragmentSize): seq<byte> {
    FrameHeaderBytes(FrameHeaderFor(f, fragmentSize)) + ChunksFrom(f, fragmentSize, 0)
  }

  // The sending client c after it has put a whole prefix of bytes on the wire.
  ghost predicate Streamed(c: Conn, now: Conn, done: seq<byte>) {
    ValidConn(c) && Carries(c, done) && now == Sent(c, done)
  }

  // One more sendAll: either the prefix grows, or the whole message is as dead
  // as if it had been sent in one piece.
  lemma StreamMore(c: Conn, now: Conn, done: seq<byte>, part: seq<byte>, rest: seq<byte>)
    requires Streamed(c, now, done)
    ensures ValidConn(now)
    ensures Carries(now, part) ==> Streamed(c, Sent(now, part), done + part)
    ensures !Carries(now, part) ==>
              !Carries(c, done + part + rest) && Sent(c, done + part + rest) == Sent(now, part)
  {
    SentKeepsValid(c, done);
    SentConcat(c, done, part);
    SentConcat(c, done + part, rest);
  }

  class RawFrameSender {
    const client: TcpClient
    var fragmentSize: FragmentSize

    constructor (client: TcpClient)
      ensures this.client == client && fragmentSize == 64 * 1024
    {
      this.client := client;
      fragmentSize := 64 * 1024;
    }

    method SetFragmentSize(size: u32)
      modifies this
      ensures fragmentSize as int == if size < 1024 then 1024 else size
    {
      var s := size;
      if s < 1024 {
        s := 1024;
      }
      fragmentSize := s;
    }

    method SendChunk(frame: RawFrame, index: nat) returns (ok: bool)
      requires client.Valid() && index < FragmentCount(|frame.payload|, fragmentSize)
      modifies client
      ensures client.Valid()
      ensures client.View() == Sent(old(client.View()), ChunkBytes(frame, fragmentSize, index))
      ensures ok == Carries(old(client.View()), ChunkBytes(frame, fragmentSize, index))
    {
      var chunkHeaderBytes := BuildChunkHeader(ChunkHeaderFor(frame, fragmentSize, index));
      var payload := ChunkPayload(frame, fragmentSize, index);
      SentConcat(client.View(), chunkHeaderBytes, payload);
      ok := client.SendAll(chunkHeaderBytes);
      if ok {
        ok := client.SendAll(payload);
      }
    }

    // However the socket splits the sends, the wire gains exactly FrameBytes or
    // the prefix of it that the connection carried before it broke.
    method SendFrame(frame: RawFrame) returns (ok: bool)
      requires client.Valid()
      modifies client
      ensures client.Valid()
      ensures frame.Empty() ==> !ok && client.View() == old(client.View())
      ensures !frame.Empty() ==>
                client.View() == Sent(old(client.View()), FrameBytes(frame, fragmentSize))
                && ok == Carries(old(client.View()), FrameBytes(frame, fragmentSize))
    {
      hide Sent, Carries, ValidConn, ChunkBytes, FragmentCount;
      if frame.Empty() {
        return false;
      }
      ghost var c := client.View();
      var fragmentCount := FragmentCount(|frame.payload|, fragmentSize);
      var headerBytes := BuildFrameHeader(FrameHeaderFor(frame, fragmentSize));
      SentConcat(c, headerBytes, ChunksFrom(frame, fragmentSize, 0));
      ok := client.SendAll(headerBytes);
      if !ok {
        return false;
      }
      ghost var done := headerBytes;
      var index := 0;
      while index < fragmentCount
        invariant 0 <= index <= fragmentCount && client.Valid()
        invariant Streamed(c, client.View(), done)
        invariant done + ChunksFrom(frame, fragmentSize, index) == FrameBytes(frame, fragmentSize)
        decreases fragmentCount - index
      {
        ghost var chunk, rest := ChunkBytes(frame, fragmentSize, index), ChunksFrom(frame, fragmentSize, index + 1);
        assert done + (chunk + rest) == done + chunk + rest;
        StreamMore(c, client.View(), done, chunk, rest);
        ok := SendChunk(frame, index);
        if !ok {
          return false;
        }
        done := done + chunk;
        index := index + 1;
      }
      assert done + [] == done;
      return true;
    }
  }
}

// The frame and chunk headers that RawFrameSender writes and the servers parse.
module RawFrameProtocol {
  import opened Bytes

  const FRAME_MAGIC: u32 := 0x52465731
  const CHUNK_MAGIC: u32 := 0x43484B31
  const VERSION: u16 := 1
  const FRAME_HEADER_SIZE: u16 := 48
  const CHUNK_HEADER_SIZE: u16 := 28

  datatype RawFrameHeader = RawFrameHeader(
    frameId: u64, rows: u32, cols: u32, pixelType: u32, elemSize: u32,
    totalBytes: u64, fragmentSize: u32, fragmentCount: u32)

  datatype RawChunkHeader = RawChunkHeader(
    frameId: u64, fragmentIndex: u32, payloadSize: u32, offset: u64)

  // The header in three parts: signature, image description, sizes.
  ghost function Signature(): (bs: seq<byte>)
    ensures |bs| == 8
  {
    Put32(FRAME_MAGIC) + Put16(VERSION) + Put16(FRAME_HEADER_SIZE)
  }

  ghost function ImageFields(h: RawFrameHeader): (bs: seq<byte>)
    ensures |bs| == 24
  {
    Put64(h.frameId) + Put32(h.rows) + Put32(h.cols) + Put32(h.pixelType) + Put32(h.elemSize)
  }

  ghost function SizeFields(h: RawFrameHeader): (bs: seq<byte>)
    ensures |bs| == 16
  {
    Put64(h.totalBytes) + Put32(h.fragmentSize) + Put32(h.fragmentCount)
  }

  ghost function FrameHeaderBytes(h: RawFrameHeader): (bs: seq<byte>)
    ensures |bs| == 48
  {
    Signature() + ImageFields(h) + SizeFields(h)
  }

  ghost function ChunkHeaderBytes(h: RawChunkHeader): (bs: seq<byte>)
    ensures |bs| == 28
  {
    Put32(CHUNK_MAGIC) + Put64(h.frameId) + Put32(h.fragmentIndex) + Put32(h.payloadSize) + Put64(h.offset)
  }

  predicate SignatureOk(s: seq<byte>)
    requires |s| == 8
  {
    Read32(s[0..4]) == FRAME_MAGIC && Read16(s[4..6]) == VERSION && Read16(s[6..8]) == FRAME_HEADER_SIZE
  }

  function HeaderOfParts(m: seq<byte>, z: seq<byte>): RawFrameHeader
    requires |m| == 24 && |z| == 16
  {
    RawFrameHeader(
      Read64(m[0..8]), Read32(m[8..12]), Read32(m[12..16]), Read32(m[16..20]), Read32(m[20..24]),
      Read64(z[0..8]), Read32(z[8..12]), Read32(z[12..16]))
  }

  // What a parser makes of the first 48 bytes of its input.
  function FrameHeaderOf(data: seq<byte>): Option<RawFrameHeader> {
    if |data| < 48 || !SignatureOk(data[0..8]) then None
    else Some(HeaderOfParts(data[8..32], data[32..48]))
  }

  function ChunkHeaderOf(data: seq<byte>): Option<RawChunkHeader> {
    if |data| < 28 then None
    else if Read32(data[0..4]) != CHUNK_MAGIC then None
    else Some(RawChunkHeader(Read64(data[4..12]), Read32(data[12..16]), Read32(data[16..20]), Read64(data[20..28])))
  }

  lemma SignatureAccepted()
    ensures SignatureOk(Signature())
  {
    ReadPut(VERSION, FRAME_MAGIC, 0); ReadPut(FRAME_HEADER_SIZE, 0, 0);
    var s := Signature();
    assert s[0..4] == Put32(FRAME_MAGIC);
    assert s[4..6] == Put16(VERSION);
    assert s[6..8] == Put16(FRAME_HEADER_SIZE);
  }

  lemma PartsRoundTrip(h: RawFrameHeader)
    ensures HeaderOfParts(ImageFields(h), SizeFields(h)) == h
  {
    var m, z := ImageFields(h), SizeFields(h);
    ReadPut(0, h.rows, h.frameId); ReadPut(0, h.cols, h.totalBytes); ReadPut(0, h.pixelType, 0);
    ReadPut(0, h.elemSize, 0); ReadPut(0, h.fragmentSize, 0); ReadPut(0, h.fragmentCount, 0);
    assert m[0..8] == Put64(h.frameId);
    assert m[8..12] == Put32(h.rows);
    assert m[12..16] == Put32(h.cols);
    assert m[16..20] == Put32(h.pixelType);
    assert m[20..24] == Put32(h.elemSize);
    assert z[0..8] == Put64(h.totalBytes);
    assert z[8..12] == Put32(h.fragmentSize);
    assert z[12..16] == Put32(h.fragmentCount);
  }

  // Parsing undoes building, whatever follows the header on the stream, and a
  // header is accepted only when it is byte for byte one that the builder writes.
  lemma FrameHeaderRoundTrip(h: RawFrameHeader, rest: seq<byte>)
    ensures FrameHeaderOf(FrameHeaderBytes(h) + rest) == Some(h)
  {
    var d := FrameHeaderBytes(h) + rest;
    var s, m, z := Signature(), ImageFields(h), SizeFields(h);
    assert d == s + m + z + rest;
    assert d[0..8] == s;
    assert d[8..32] == m;
    assert d[32..48] == z;
    SignatureAccepted();
    PartsRoundTrip(h);
  }

  lemma ChunkHeaderRoundTrip(h: RawChunkHeader, rest: seq<byte>)
    ensures ChunkHeaderOf(ChunkHeaderBytes(h) + rest) == Some(h)
  {
    var d := ChunkHeaderBytes(h) + rest;
    ReadPut(0, CHUNK_MAGIC, h.frameId); ReadPut(0, h.fragmentIndex, h.offset); ReadPut(0, h.payloadSize, 0);
    assert d[0..4] == Put32(CHUNK_MAGIC);
    assert d[4..12] == Put64(h.frameId);
    assert d[12..16] == Put32(h.fragmentIndex);
    assert d[16..20] == Put32(h.payloadSize);
    assert d[20..28] == Put64(h.offset);
  }

  lemma SignatureOnlyBuilt(s: seq<byte>)
    requires |s| == 8 && SignatureOk(s)
    ensures s == Signature()
  {
    PutRead32(s[0..4]); PutRead16(s[4..6]); PutRead16(s[6..8]);
    assert s == s[0..4] + s[4..6] + s[6..8];
  }

  lemma PartsOnlyBuilt(m: seq<byte>, z: seq<byte>)
    requires |m| == 24 && |z| == 16
    ensures m == ImageFields(HeaderOfParts(m, z)) && z == SizeFields(HeaderOfParts(m, z))
  {
    PutRead64(m[0..8]); PutRead32(m[8..12]); PutRead32(m[12..16]); PutRead32(m[16..20]); PutRead32(m[20..24]);
    PutRead64(z[0..8]); PutRead32(z[8..12]); PutRead32(z[12..16]);
    assert m == m[0..8] + m[8..12] + m[12..16] + m[16..20] + m[20..24];
    assert z == z[0..8] + z[8..12] + z[12..16];
  }

  // Where a reader in any language finds each number, most significant byte
  // first.
  lemma FrameHeaderLayout(h: RawFrameHeader)
    ensures var d := FrameHeaderBytes(h);
            FromBE(d[0..4]) == 0x52465731 && FromBE(d[4..6]) == 1 && FromBE(d[6..8]) == 48
            && FromBE(d[8..16]) == h.frameId && FromBE(d[16..20]) == h.rows && FromBE(d[20..24]) == h.cols
            && FromBE(d[24..28]) == h.pixelType && FromBE(d[28..32]) == h.elemSize && FromBE(d[32..40]) == h.totalBytes
            && FromBE(d[40..44]) == h.fragmentSize && FromBE(d[44..48]) == h.fragmentCount
  {
    hide FromBE, FrameHeaderBytes;
    var d := FrameHeaderBytes(h);
    FrameHeaderRoundTrip(h, []);
    assert d + [] == d;
    SliceOfSlice(d, 0, 8, 0, 4); SliceOfSlice(d, 0, 8, 4, 6); SliceOfSlice(d, 0, 8, 6, 8);
    SliceOfSlice(d, 8, 32, 0, 8); SliceOfSlice(d, 8, 32, 8, 12); SliceOfSlice(d, 8, 32, 12, 16);
    SliceOfSlice(d, 8, 32, 16, 20); SliceOfSlice(d, 8, 32, 20, 24);
    SliceOfSlice(d, 32, 48, 0, 8); SliceOfSlice(d, 32, 48, 8, 12); SliceOfSlice(d, 32, 48, 12, 16);
  }

  lemma ChunkHeaderLayout(h: RawChunkHeader)
    ensures var d := ChunkHeaderBytes(h);
            FromBE(d[0..4]) == 0x43484B31 && FromBE(d[4..12]) == h.frameId && FromBE(d[12..16]) == h.fragmentIndex
            && FromBE(d[16..20]) == h.payloadSize && FromBE(d[20..28]) == h.offset
  {
    hide FromBE, ChunkHeaderBytes;
    ChunkHeaderRoundTrip(h, []);
    assert ChunkHeaderBytes(h) + [] == ChunkHeaderBytes(h);
  }

  lemma FrameHeaderOnlyBuilt(data: seq<byte>)
    requires FrameHeaderOf(data).Some?
    ensures data[..48] == FrameHeaderBytes(FrameHeaderOf(data).value)
  {
    SignatureOnlyBuilt(data[0..8]);
    PartsOnlyBuilt(data[8..32], data[32..48]);
    assert data[..48] == data[0..8] + data[8..32] + data[32..48];
  }

  lemma ChunkHeaderOnlyBuilt(data: seq<byte>)
    requires ChunkHeaderOf(data).Some?
    ensures data[..28] == ChunkHeaderBytes(ChunkHeaderOf(data).value)
  {
    PutRead32(data[0..4]); PutRead64(data[4..12]); PutRead32(data[12..16]); PutRead32(data[16..20]);
    PutRead64(data[20..28]);
    assert data[..28] == data[0..4] + data[4..12] + data[12..16] + data[16..20] + data[20..28];
  }

  // The builders push field after field onto a growing vector.
  method BuildFrameHeader(header: RawFrameHeader) returns (buffer: seq<byte>)
    ensures buffer == FrameHeaderBytes(header)
  {
    buffer := [];
    buffer := AppendUint32(buffer, FRAME_MAGIC);
    buffer := AppendUint16(buffer, VERSION);
    buffer := AppendUint16(buffer, FRAME_HEADER_SIZE);
    assert buffer == Signature();
    ghost var start := buffer;
    buffer := AppendUint64(buffer, header.frameId);
    buffer := AppendUint32(buffer, header.rows);
    buffer := AppendUint32(buffer, header.cols);
    buffer := AppendUint32(buffer, header.pixelType);
    buffer := AppendUint32(buffer, header.elemSize);
    assert buffer == start + ImageFields(header);
    start := buffer;
    buffer := AppendUint64(buffer, header.totalBytes);
    buffer := AppendUint32(buffer, header.fragmentSize);
    buffer := AppendUint32(buffer, header.fragmentCount);
    assert buffer == start + SizeFields(header);
  }

  method BuildChunkHeader(header: RawChunkHeader) returns (buffer: seq<byte>)
    ensures buffer == ChunkHeaderBytes(header)
  {
    buffer := [];
    buffer := AppendUint32(buffer, CHUNK_MAGIC);
    buffer := AppendUint64(buffer, header.frameId);
    buffer := AppendUint32(buffer, header.fragmentIndex);
    buffer := AppendUint32(buffer, header.payloadSize);
    buffer := AppendUint64(buffer, header.offset);
  }

  // The bounds-checked readers: each advances the offset past the field it reads.
  method ReadUint16(data: seq<byte>, offset: nat) returns (value: Option<u16>, next: nat)
    ensures value == if offset + 2 > |data| then None else Some(Read16(data[offset..offset + 2]))
    ensures next == if value.Some? then offset + 2 else offset
  {
    if offset + 2 > |data| { return None, offset; }
    return Some(Read16(data[offset..offset + 2])), offset + 2;
  }

  method ReadUint32(data: seq<byte>, offset: nat) returns (value: Option<u32>, next: nat)
    ensures value == if offset + 4 > |data| then None else Some(Read32(data[offset..offset + 4]))
    ensures next == if value.Some? then offset + 4 else offset
  {
    if offset + 4 > |data| { return None, offset; }
    return Some(Read32(data[offset..offset + 4])), offset + 4;
  }

  method ReadUint64(data: seq<byte>, offset: nat) returns (value: Option<u64>, next: nat)
    ensures value == if offset + 8 > |data| then None else Some(Read64(data[offset..offset + 8]))
    ensures next == if value.Some? then offset + 8 else offset
  {
    if offset + 8 > |data| { return None, offset; }
    return Some(Read64(data[offset..offset + 8])), offset + 8;
  }

  lemma FieldsOfSlices(data: seq<byte>)
    requires |data| >= 48
    ensures data[0..8][0..4] == data[0..4] && data[0..8][4..6] == data[4..6] && data[0..8][6..8] == data[6..8]
    ensures data[8..32][0..8] == data[8..16] && data[8..32][8..12] == data[16..20]
    ensures data[8..32][12..16] == data[20..24] && data[8..32][16..20] == data[24..28]
    ensures data[8..32][20..24] == data[28..32] && data[32..48][0..8] == data[32..40]
    ensures data[32..48][8..12] == data[40..44] && data[32..48][12..16] == data[44..48]
  {
    SliceOfSlice(data, 8, 32, 0, 8);
    SliceOfSlice(data, 8, 32, 8, 12);
    SliceOfSlice(data, 8, 32, 12, 16);
    SliceOfSlice(data, 8, 32, 16, 20);
    SliceOfSlice(data, 8, 32, 20, 24);
  }

  method ParseFrameHeader(data: seq<byte>) returns (header: Option<RawFrameHeader>)
    ensures header == FrameHeaderOf(data)
  {
    if |data| < FRAME_HEADER_SIZE { return None; }
    FieldsOfSlices(data);
    var offset := 0;
    var magic, version, headerSize;
    magic, offset := ReadUint32(data, offset);
    version, offset := ReadUint16(data, offset);
    headerSize, offset := ReadUint16(data, offset);
    if magic != Some(FRAME_MAGIC) { return None; }
    if version != Some(VERSION) { return None; }
    if headerSize != Some(FRAME_HEADER_SIZE) { return None; }
    var frameId, rows, cols, pixelType, elemSize, totalBytes, fragmentSize, fragmentCount;
    frameId, offset := ReadUint64(data, offset);
    rows, offset := ReadUint32(data, offset);
    cols, offset := ReadUint32(data, offset);
    pixelType, offset := ReadUint32(data, offset);
    elemSize, offset := ReadUint32(data, offset);
    totalBytes, offset := ReadUint64(data, offset);
    fragmentSize, offset := ReadUint32(data, offset);
    fragmentCount, offset := ReadUint32(data, offset);
    return Some(RawFrameHeader(frameId.value, rows.value, cols.value, pixelType.value, elemSize.value,
                               totalBytes.value, fragmentSize.value, fragmentCount.value));
  }

  method ParseChunkHeader(data: seq<byte>) returns (header: Option<RawChunkHeader>)
    ensures header == ChunkHeaderOf(data)
  {
    if |data| < CHUNK_HEADER_SIZE { return None; }
    var offset := 0;
    var magic, frameId, fragmentIndex, payloadSize, chunkOffset;
    magic, offset := ReadUint32(data, offset);
    if magic != Some(CHUNK_MAGIC) { return None; }
    frameId, offset := ReadUint64(data, offset);
    fragmentIndex, offset := ReadUint32(data, offset);
    payloadSize, offset := ReadUint32(data, offset);
    chunkOffset, offset := ReadUint64(data, offset);
    return Some(RawChunkHeader(frameId.value, fragmentIndex.value, payloadSize.value, chunkOffset.value));
  }
}

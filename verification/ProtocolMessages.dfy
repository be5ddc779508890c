// The session messages of protocol version 2: builders and the two parsers.
module ProtocolMessages {
  import opened Bytes

  const MAGIC: u32 := 0x50525632
  const VERSION: u16 := 2
  const HELLO: u16 := 1
  const RESUME_REQUEST: u16 := 2
  const RESUME_REPLY: u16 := 3
  const TASK_CHECKPOINT: u16 := 41

  datatype ResumeReply = ResumeReply(taskId: u64, highestDurableFrameSeq: u64)

  datatype TaskCheckpoint = TaskCheckpoint(
    taskId: u64, lineId: u32, attemptId: u32, lastFrameSeq: u64, lastAckedFrameSeq: u64, finalized: bool)

  ghost function MessageHeader(kind: u16, bodyLength: u32): (bs: seq<byte>)
    ensures |bs| == 12
  {
    Put32(MAGIC) + Put16(VERSION) + Put16(kind) + Put32(bodyLength)
  }

  ghost function HelloBytes(taskId: u64): (bs: seq<byte>)
    ensures |bs| == 20
  {
    MessageHeader(HELLO, 8) + Put64(taskId)
  }

  ghost function ResumeRequestBytes(taskId: u64): (bs: seq<byte>)
    ensures |bs| == 20
  {
    MessageHeader(RESUME_REQUEST, 8) + Put64(taskId)
  }

  ghost function ResumeReplyBytes(r: ResumeReply): (bs: seq<byte>)
    ensures |bs| == 28
  {
    MessageHeader(RESUME_REPLY, 16) + (Put64(r.taskId) + Put64(r.highestDurableFrameSeq))
  }

  ghost function CheckpointBody(c: TaskCheckpoint): (bs: seq<byte>)
    ensures |bs| == 36
  {
    Put64(c.taskId) + Put32(c.lineId) + Put32(c.attemptId) + Put64(c.lastFrameSeq) + Put64(c.lastAckedFrameSeq)
    + Put32(if c.finalized then 1 else 0)
  }

  ghost function TaskCheckpointBytes(c: TaskCheckpoint): (bs: seq<byte>)
    ensures |bs| == 48
  {
    MessageHeader(TASK_CHECKPOINT, 36) + CheckpointBody(c)
  }

  predicate HeaderOk(h: seq<byte>, kind: u16, bodyLength: u32)
    requires |h| == 12
  {
    Read32(h[0..4]) == MAGIC && Read16(h[4..6]) == VERSION && Read16(h[6..8]) == kind && Read32(h[8..12]) == bodyLength
  }

  function ResumeReplyOf(data: seq<byte>): Option<ResumeReply> {
    if |data| < 28 || !HeaderOk(data[0..12], RESUME_REPLY, 16) then None
    else Some(ResumeReply(Read64(data[12..20]), Read64(data[20..28])))
  }

  function TaskCheckpointOf(data: seq<byte>): Option<TaskCheckpoint> {
    if |data| < 48 || !HeaderOk(data[0..12], TASK_CHECKPOINT, 36) then None
    else Some(TaskCheckpoint(Read64(data[12..20]), Read32(data[20..24]), Read32(data[24..28]),
                             Read64(data[28..36]), Read64(data[36..44]), Read32(data[44..48]) != 0))
  }

  lemma HeaderReadsBack(kind: u16, bodyLength: u32, other: u16, otherLength: u32)
    ensures HeaderOk(MessageHeader(kind, bodyLength), other, otherLength) <==> kind == other && bodyLength == otherLength
  {
    var h := MessageHeader(kind, bodyLength);
    assert h[0..4] == Put32(MAGIC);
    assert h[4..6] == Put16(VERSION);
    assert h[6..8] == Put16(kind);
    assert h[8..12] == Put32(bodyLength);
    ReadPut(VERSION, MAGIC, 0);
    ReadPut(kind, bodyLength, 0);
  }

  // A resume reply is read back exactly, whatever follows it in the buffer.
  lemma ResumeReplyRoundTrip(r: ResumeReply, rest: seq<byte>)
    ensures ResumeReplyOf(ResumeReplyBytes(r) + rest) == Some(r)
  {
    var d := ResumeReplyBytes(r) + rest;
    assert d[0..12] == MessageHeader(RESUME_REPLY, 16);
    HeaderReadsBack(RESUME_REPLY, 16, RESUME_REPLY, 16);
    assert d[12..20] == Put64(r.taskId);
    assert d[20..28] == Put64(r.highestDurableFrameSeq);
    ReadPut(0, 0, r.taskId);
    ReadPut(0, 0, r.highestDurableFrameSeq);
  }

  // Nothing else parses as a reply: the first 28 bytes are its image.
  lemma ResumeReplyOnlyBuilt(data: seq<byte>)
    requires ResumeReplyOf(data).Some?
    ensures |data| >= 28 && data[..28] == ResumeReplyBytes(ResumeReplyOf(data).value)
  {
    hide Read16, Read32, Read64, Put16, Put32, Put64;
    var h := data[0..12];
    PutRead32(h[0..4]);
    PutRead16(h[4..6]);
    PutRead16(h[6..8]);
    PutRead32(h[8..12]);
    PutRead64(data[12..20]);
    PutRead64(data[20..28]);
    assert h == h[0..4] + h[4..6] + h[6..8] + h[8..12];
    assert data[..28] == h + (data[12..20] + data[20..28]);
  }

  // What a server makes of the two requests: its own kind and no other, and the
  // task id behind the header.
  lemma RequestsReadBack(taskId: u64, kind: u16, bodyLength: u32)
    ensures HeaderOk(HelloBytes(taskId)[0..12], kind, bodyLength) <==> kind == 1 && bodyLength == 8
    ensures HeaderOk(ResumeRequestBytes(taskId)[0..12], kind, bodyLength) <==> kind == 2 && bodyLength == 8
    ensures Read64(HelloBytes(taskId)[12..20]) == taskId && Read64(ResumeRequestBytes(taskId)[12..20]) == taskId
  {
    hide HeaderOk, MessageHeader, Put64, Read64;
    assert HelloBytes(taskId)[0..12] == MessageHeader(HELLO, 8);
    assert ResumeRequestBytes(taskId)[0..12] == MessageHeader(RESUME_REQUEST, 8);
    HeaderReadsBack(HELLO, 8, kind, bodyLength);
    HeaderReadsBack(RESUME_REQUEST, 8, kind, bodyLength);
    assert HelloBytes(taskId)[12..20] == Put64(taskId) && ResumeRequestBytes(taskId)[12..20] == Put64(taskId);
    ReadPut(0, 0, taskId);
  }

  lemma CheckpointBodySlices(c: TaskCheckpoint)
    ensures var b := CheckpointBody(c);
            Read64(b[0..8]) == c.taskId && Read32(b[8..12]) == c.lineId && Read32(b[12..16]) == c.attemptId
            && Read64(b[16..24]) == c.lastFrameSeq && Read64(b[24..32]) == c.lastAckedFrameSeq
            && Read32(b[32..36]) == (if c.finalized then 1 else 0)
  {
    var b := CheckpointBody(c);
    assert b[0..8] == Put64(c.taskId);
    assert b[8..12] == Put32(c.lineId);
    assert b[12..16] == Put32(c.attemptId);
    assert b[16..24] == Put64(c.lastFrameSeq);
    assert b[24..32] == Put64(c.lastAckedFrameSeq);
    assert b[32..36] == Put32(if c.finalized then 1 else 0);
    ReadPut(0, c.lineId, c.taskId); ReadPut(0, c.attemptId, c.lastFrameSeq);
    ReadPut(0, if c.finalized then 1 else 0, c.lastAckedFrameSeq);
  }

  lemma TaskCheckpointRoundTrip(c: TaskCheckpoint, rest: seq<byte>)
    ensures TaskCheckpointOf(TaskCheckpointBytes(c) + rest) == Some(c)
  {
    var b := CheckpointBody(c);
    var d := TaskCheckpointBytes(c) + rest;
    assert d[0..12] == MessageHeader(TASK_CHECKPOINT, 36);
    HeaderReadsBack(TASK_CHECKPOINT, 36, TASK_CHECKPOINT, 36);
    CheckpointBodySlices(c);
    assert d[12..20] == b[0..8];
    assert d[20..24] == b[8..12];
    assert d[24..28] == b[12..16];
    assert d[28..36] == b[16..24];
    assert d[36..44] == b[24..32];
    assert d[44..48] == b[32..36];
  }

  // Where a reader in any language finds each number, most significant byte
  // first.
  lemma MessageLayouts(r: ResumeReply, c: TaskCheckpoint)
    ensures var d := ResumeReplyBytes(r);
            FromBE(d[0..4]) == 0x50525632 && FromBE(d[4..6]) == 2 && FromBE(d[6..8]) == 3 && FromBE(d[8..12]) == 16
            && FromBE(d[12..20]) == r.taskId && FromBE(d[20..28]) == r.highestDurableFrameSeq
    ensures var d := TaskCheckpointBytes(c);
            FromBE(d[0..4]) == 0x50525632 && FromBE(d[4..6]) == 2 && FromBE(d[6..8]) == 41 && FromBE(d[8..12]) == 36
            && FromBE(d[12..20]) == c.taskId && FromBE(d[20..24]) == c.lineId && FromBE(d[24..28]) == c.attemptId
            && FromBE(d[28..36]) == c.lastFrameSeq && FromBE(d[36..44]) == c.lastAckedFrameSeq
            && FromBE(d[44..48]) == (if c.finalized then 1 else 0)
  {
    hide FromBE, ResumeReplyBytes, TaskCheckpointBytes;
    var a, b := ResumeReplyBytes(r), TaskCheckpointBytes(c);
    ResumeReplyRoundTrip(r, []);
    TaskCheckpointRoundTrip(c, []);
    assert a + [] == a && b + [] == b;
    SliceOfSlice(a, 0, 12, 0, 4); SliceOfSlice(a, 0, 12, 4, 6); SliceOfSlice(a, 0, 12, 6, 8); SliceOfSlice(a, 0, 12, 8, 12);
    SliceOfSlice(b, 0, 12, 0, 4); SliceOfSlice(b, 0, 12, 4, 6); SliceOfSlice(b, 0, 12, 6, 8); SliceOfSlice(b, 0, 12, 8, 12);
    LastField(c);
  }

  lemma LastField(c: TaskCheckpoint)
    ensures FromBE(TaskCheckpointBytes(c)[44..48]) == if c.finalized then 1 else 0
  {
    CheckpointBodySlices(c);
    assert TaskCheckpointBytes(c)[44..48] == CheckpointBody(c)[32..36];
  }

  // ---- The code that builds and parses ------------------------------------

  method MakeMessageHeader(kind: u16, bodyLength: u32) returns (buffer: seq<byte>)
    ensures buffer == MessageHeader(kind, bodyLength)
  {
    buffer := [];
    buffer := AppendUint32(buffer, MAGIC);
    buffer := AppendUint16(buffer, VERSION);
    buffer := AppendUint16(buffer, kind);
    buffer := AppendUint32(buffer, bodyLength);
  }

  method MakeHelloMessage(taskId: u64) returns (msg: seq<byte>)
    ensures msg == HelloBytes(taskId)
  {
    var body: seq<byte> := [];
    body := AppendUint64(body, taskId);
    msg := MakeMessageHeader(HELLO, 8);
    msg := msg + body;
  }

  method MakeResumeRequestMessage(taskId: u64) returns (msg: seq<byte>)
    ensures msg == ResumeRequestBytes(taskId)
  {
    var body: seq<byte> := [];
    body := AppendUint64(body, taskId);
    msg := MakeMessageHeader(RESUME_REQUEST, 8);
    msg := msg + body;
  }

  method MakeTaskCheckpointMessage(c: TaskCheckpoint) returns (msg: seq<byte>)
    ensures msg == TaskCheckpointBytes(c)
  {
    var body: seq<byte> := [];
    body := AppendUint64(body, c.taskId);
    body := AppendUint32(body, c.lineId);
    body := AppendUint32(body, c.attemptId);
    body := AppendUint64(body, c.lastFrameSeq);
    body := AppendUint64(body, c.lastAckedFrameSeq);
    body := AppendUint32(body, if c.finalized then 1 else 0);
    assert body == CheckpointBody(c);
    msg := MakeMessageHeader(TASK_CHECKPOINT, 36);
    msg := msg + body;
  }

  lemma PrefixDigit(bs: seq<byte>, i: nat)
    requires i < |bs|
    ensures FromBE(bs[..i + 1]) == FromBE(bs[..i]) * 256 + bs[i]
  {
    AppendDigit(bs[..i], bs[i]);
    assert bs[..i] + [bs[i]] == bs[..i + 1];
  }

  // value = (value << 8) | data[i], for all eight bytes.
  method ShiftIn64(data: seq<byte>) returns (value: u64)
    requires |data| == 8
    ensures value == Read64(data)
  {
    var v: nat := 0;
    for i := 0 to 8
      invariant v == FromBE(data[..i])
    {
      PrefixDigit(data, i);
      v := v * 256 + data[i];
    }
    assert data[..8] == data;
    assert v == Read64(data);
    value := v;
  }

  method HeaderMatches(data: seq<byte>, kind: u16, bodyLength: u32) returns (ok: bool)
    requires |data| >= 12
    ensures ok == HeaderOk(data[0..12], kind, bodyLength)
  {
    SliceOfSlice(data, 0, 12, 0, 4); SliceOfSlice(data, 0, 12, 4, 6);
    SliceOfSlice(data, 0, 12, 6, 8); SliceOfSlice(data, 0, 12, 8, 12);
    ok := Read32(data[0..4]) == MAGIC && Read16(data[4..6]) == VERSION
          && Read16(data[6..8]) == kind && Read32(data[8..12]) == bodyLength;
  }

  method ParseResumeReply(data: seq<byte>) returns (reply: Option<ResumeReply>)
    ensures reply == ResumeReplyOf(data)
  {
    if |data| < 12 + 16 { return None; }
    var ok := HeaderMatches(data, RESUME_REPLY, 16);
    if !ok { return None; }
    var taskId := ShiftIn64(data[12..20]);
    var highest := ShiftIn64(data[20..28]);
    return Some(ResumeReply(taskId, highest));
  }

  method ParseTaskCheckpoint(data: seq<byte>) returns (checkpoint: Option<TaskCheckpoint>)
    ensures checkpoint == TaskCheckpointOf(data)
  {
    if |data| < 12 + 36 { return None; }
    var ok := HeaderMatches(data, TASK_CHECKPOINT, 36);
    if !ok { return None; }
    var taskId := ShiftIn64(data[12..20]);
    var lastFrameSeq := ShiftIn64(data[28..36]);
    var lastAckedFrameSeq := ShiftIn64(data[36..44]);
    return Some(TaskCheckpoint(taskId, Read32(data[20..24]), Read32(data[24..28]),
                               lastFrameSeq, lastAckedFrameSeq, Read32(data[44..48]) != 0));
  }
}

# Verification of the capture, transmission and reconstruction system

A Dafny model of the repository's stateful parts and proofs about whole runs of
them. `dafny verify dfyconfig.toml` checks everything.

What is modelled, and in which files:

- **Reliable send with resume.** A frame is persisted to a spool, sent and
  removed; a broken connection leads to reconnect, handshake, purge and replay.
  `TcpClient`, `ProtocolMessages`, `SenderSpool`, `Decimal`, `SessionModel`
  (operations as trails of intermediate states, so that a process may be killed
  anywhere inside one), `SessionOutcome` (what a call has done when it returns),
  `SessionHistory` (what a whole run adds up to), `SessionClient` (the object).
- **Fragmentation and reassembly.** `Bytes`, `RawFrameProtocol`,
  `RawFrameSender`, `FrameServer`, `FrameTransmission` (sender, network and
  server together).
- **Attempt state on disk.** `ProcessingState` (the text format),
  `ProcessingMachine` (the object and its runs), `ProcessingHistory` (what the
  file tells, read off the operations).
- **Exposure controller.** `ExposureModel` (controller and three workers as
  interleaved atomic steps, and the invariant), `ExposureSafety`,
  `ExposureProgress`, `ExposureShutter`, `ExposureOutcome`, `ExposureController`
  (the objects).
- **Capture pipeline.** `CaptureModel` (reference counted buffers, drop-oldest
  queue, two threads and `stop()`), `CaptureSafety`, `CaptureCapacity`,
  `CaptureHistory`, `CaptureSender` (the objects), `Counting`.
- **Pool demonstration.** `MemoryPoolModel`, `MemoryPoolSafety`,
  `MemoryPoolDemo`.
- **Reconstruction.** `Bilinear`, `BilinearConservation`, `PipelineModel`,
  `PipelineSafety`, `PipelineHistory`, `ReconstructionPipeline`.
- **Laser path.** `RegionOrder`, `LaserPath`.

Each concurrent part is a value-level transition system whose steps are the
operations done under one lock, or one device action; theorems quantify over
every list of scheduler choices. Beside it stand classes with the program's own
fields and arrays, whose methods are proved to do exactly one such step, and an
`Execute` method that runs any schedule on the objects.

## What the proofs found

- A frame leaves the spool once it is fully written to the socket; nothing
  waits for an acknowledgement. `plan.md` describes an acknowledged design; the
  guarantee proved is the one the code gives (`SessionModel.NoSilentLoss`).
- A frame sent while the connection is down goes out twice on the new one, in
  the replay and by itself, unless the reply covers it
  (`SessionOutcome.SendReconnecting`).
- A resume reply is obeyed whatever task id it carries
  (`SessionOutcome.ReconnectTells`).
- Sending a frame again under an id still in the spool, with a write that is
  cut short, can destroy the only copy (`SessionModel.TornRetryLosesFrame`);
  `SessionModel.PersistSafeIff` and `NoSilentLoss` say exactly when persisting is
  safe, for one call and over whole runs.
- The spool's byte account counts a file that is overwritten while present
  twice, and by exactly that much (`SenderSpool.AccountExact`). The `max` with
  zero in `removeFrame` never matters.
- The server refuses frames above 200 MiB and stops there, although the sender
  sends them (`FrameServer.StreamRoundTrip`).
- A chunk of another frame, or one outside the frame, does not fail the frame:
  it is delivered incomplete under its full header
  (`FrameServer.ForeignChunkEndsFrame`).
- Resuming or marking a finalized attempt sets its phase to Running and leaves it
  committed (`ProcessingHistory.DisciplinedRunsTellAll`).
- A process that marks, checkpoints, aborts or commits after a restart, before
  it has begun an attempt or loaded the file, replaces the attempt on disk
  (`ProcessingMachine.WriteAfterRestartIff`). `DiskTellsIff` gives the exact
  condition over whole runs: memory must be at the point the disk is at.
- A missed deadline in `WaitCaptureDone`, with the shutter open or its open
  command still under way, leaves the shutter open at the end of the run, and
  nothing else does (`ExposureShutter.OpenAtTheEndIff`).
- Two spare buffers are needed and enough for the capture thread never to wait;
  with a queue as large as the pool, a lost connection would hang `stop()`
  (`CaptureCapacity.CaptureNeverWaitsIff`, `WaitsForGoodIff`).
- One block would deadlock the pool demonstration, because the consumer keeps
  its last buffer until the next pop (`MemoryPoolSafety.NeverDeadlocksIff`).
- With no worker the reconstruction would lose frames
  (`PipelineSafety.ExitsCompleteIff`).
- The region planner indexes out of range when all remaining centroids are 1e18
  or more away (`RegionOrder.PlanRegionOrder`).
- Where the bounding boxes of two regions overlap, a foreground pixel is
  exposed twice (`LaserPath.ExposedPerBox`).

## Model

| member | source | states |
|---|---|---|
| SessionHistory.EveryPromiseKept | capture_and_network/src/network/ResumeSession.cpp:49-143 | From any directory of its own files, over every run of start, sendFrame and reconnect with connections cut after any byte, torn writes and kills at any point, in which no write overwrites a file that is all that keeps some frame: every frame of a call whose write succeeded is still loadable intact, or was wholly written to a connection, or has an id at or below the durable mark in a reply the server itself sent; and every wire carries exactly the messages recorded for it |
| SessionHistory.HistoryIsTrue | capture_and_network/src/network/ResumeSession.cpp:120-132 | In every such run, whatever it overwrites, every mark recorded is the highestDurableFrameSeq of some 28-byte reply among those a connection of the run had to deliver, and the frames counted as persisted are exactly the non-empty ones of the calls whose write succeeded |
| SessionModel.NoSilentLoss | capture_and_network/src/network/ResumeSession.cpp:49-143 | Over every run of start, sendFrame and reconnect, with connections cut after any byte, torn spool writes and the process killed between any two effects, this holds at every moment, inside calls too, exactly when no write overwrites a file that is all that keeps some frame (other than by the same frame whole): each frame whose persist succeeded is still loadable intact, or was wholly written to some connection, or lies at or below a recorded durable mark (HistoryIsTrue says where marks come from); and every wire is whole messages in handshake order with at most one cut message, at its end. After each call of such a run the session is Ready exactly while it is connected |
| SessionModel.FreshIdsRespect | capture_and_network/src/network/ResumeSession.cpp:53-57 | Using each id once, or sending the same frame again with a write that is not torn, meets that condition |
| SessionOutcome.ReconnectTells | capture_and_network/src/network/ResumeSession.cpp:79-143 | When the connection delivers the bytes of a reply, reconnecting succeeds exactly when it also carries the 40 bytes of hello and request and the replay of what that reply leaves; then the state is Ready, the mark is the number in the reply, the spool has lost exactly the readable frames at or below it, and the connection has carried exactly hello, request and the remaining frames in order |
| SessionOutcome.ReconnectFails | capture_and_network/src/network/ResumeSession.cpp:82-107 | A failed reconnect ends closed, in Disconnected when it could not connect and in Failed otherwise, with spool and mark as they were or having obeyed a reply that was delivered |
| SessionOutcome.NoReplyFails | capture_and_network/src/network/ResumeSession.cpp:120-130 | Without the bytes of a reply it fails |
| SessionOutcome.HandshakeTells | capture_and_network/src/network/ResumeSession.cpp:87-143 | The handshake succeeds exactly when 40 bytes can be carried and a whole reply is delivered; then the reply is obeyed and 28 bytes are consumed, otherwise spool and marks stay as they were |
| SessionOutcome.SendOnLiveSession | capture_and_network/src/network/ResumeSession.cpp:53-77 | On a live session, for a frame whose persist succeeds: sendFrame returns true exactly when the connection carries the frame; then exactly this frame has gone out behind what went before, its file is gone and no other file is touched; otherwise the session is closed in Failed and the frame is still loadable |
| SessionOutcome.SendReconnecting | capture_and_network/src/network/ResumeSession.cpp:53-77 | Without a live connection it returns true exactly when the new one delivers a reply and carries handshake, replay and frame; then the connection has carried exactly these, the spool holds what was replayed less this frame, and the frame has gone out twice unless the reply covers it |
| SessionOutcome.SendFails | capture_and_network/src/network/ResumeSession.cpp:53-77 | A persisted frame whose sendFrame returns false is still loadable, or lies at or below the mark of a reply just delivered, and the session is not connected |
| SessionOutcome.SendRefused | capture_and_network/src/network/ResumeSession.cpp:54-57 | A frame that is not persisted leaves connection, wires, state and marks as they were, and the answer is false |
| SessionOutcome.RequestTells | capture_and_network/src/network/ResumeSession.cpp:113-143 | With a reply delivered, requesting to resume succeeds exactly when its 20 bytes are carried, and then the number in the reply is the mark, the readable files at or below it are gone and all others kept; otherwise spool and mark are as they were |
| SessionOutcome.SaysIff | capture_and_network/include/protocol/ProtocolV2.h:531-581 | The next 28 bytes are read as a reply exactly when they are its image |
| SessionModel.ReconnectReplaysExactly | capture_and_network/src/network/ResumeSession.cpp:79-143 | After a successful reconnect the spool has lost exactly the readable frames at or below the recorded mark, which ReconnectTells shows to be the number in the reply, and this connection has carried exactly Hello, ResumeRequest and then every remaining loadable frame once, intact, in strictly increasing id order |
| SessionModel.PersistSafeIff | capture_and_network/src/network/ResumeSession.cpp:53-57 | Persisting keeps every earlier promise if and only if it overwrites no file that is the only protection of a different frame, nor of the same frame with a write that is cut short |
| SessionModel.TornRetryLosesFrame | capture_and_network/src/network/ResumeSession.cpp:53-63 | For every frame: from an empty spool and an unreachable server, sending it and sending it again with a write torn after one byte destroys the only copy |
| SessionModel.SendSound | capture_and_network/src/network/ResumeSession.cpp:53-77 | Every intermediate state of sendFrame, successful or not, keeps the promises of NoSilentLoss exactly when its write puts no such frame at risk; what it sends and removes is SendOnLiveSession and SendReconnecting |
| SessionModel.ReconnectSound | capture_and_network/src/network/ResumeSession.cpp:79-111 | Every intermediate state of reconnectAndResume keeps them too, and the call ends Ready exactly when it ends connected |
| SessionModel.HandshakeSound | capture_and_network/src/network/ResumeSession.cpp:87-101 | The handshake either leaves a live connection on which frames may follow, with the reported mark recorded, or a closed one in state Failed |
| SessionModel.ReplaySound | capture_and_network/src/network/ResumeSession.cpp:31-47 | Replay writes whole frames in a legal order and is connected at its end exactly when it reports success |
| SessionModel.PurgeSound | capture_and_network/src/network/ResumeSession.cpp:136-140 | Purging removes only frames at or below a mark the server has reported |
| SessionModel.PurgeLeavesRest | capture_and_network/src/network/ResumeSession.cpp:132-140 | Purging leaves every other file, readable or not, as it was |
| SessionModel.TransmitKeepsWires | capture_and_network/src/network/ResumeSession.cpp:65-70 | A message sent whole extends the transcript by that message, a broken send ends it in a proper prefix of it, and the connection survives exactly in the first case |
| SessionModel.EventSound | capture_and_network/src/network/ResumeSession.cpp:49-143 | The same for one call, completed or killed at any point and followed by a restart |
| SessionModel.FreshProcessSound | capture_and_network/src/network/ResumeSession.cpp:8-21 | A new process over any directory of its own files, torn or whole, starts with the promises kept |
| SessionClient.ResumeSession.constructor | capture_and_network/src/network/ResumeSession.cpp:8-21 | The session object starts disconnected over the recounted spool |
| SessionClient.ResumeSession.ReplayPendingFrames | capture_and_network/src/network/ResumeSession.cpp:27-47 | The loop ends in the world that the specification of replay ends in, with its answer |
| SessionClient.ResumeSession.PurgeDurable | capture_and_network/src/network/ResumeSession.cpp:136-140 | The loop removes what the specification of purge removes |
| SessionClient.ResumeSession.RequestResume | capture_and_network/src/network/ResumeSession.cpp:113-143 | Request, reply, mark and purge, with every failure branch, as the model does: see RequestTells |
| SessionClient.ResumeSession.Greet | capture_and_network/src/network/ResumeSession.cpp:87-101 | Hello and the resume exchange; a failure closes the connection and sets Failed |
| SessionClient.ResumeSession.ReconnectAndResume | capture_and_network/src/network/ResumeSession.cpp:79-111 | Connects, shakes hands, recovers; state and answer on every path |
| SessionClient.ResumeSession.Start | capture_and_network/src/network/ResumeSession.cpp:49-51 | start is reconnectAndResume |
| SessionClient.ResumeSession.SendFrame | capture_and_network/src/network/ResumeSession.cpp:53-77 | The object does what the model call does on every path: see SendOnLiveSession, SendReconnecting, SendFails and SendRefused |
| SessionClient.ResumeSession.Execute | capture_and_network/src/network/ResumeSession.cpp:49-143 | Any list of completed calls on the object that meets the condition of NoSilentLoss keeps its promises |
| SenderSpool.FileNameRoundTrip | capture_and_network/src/storage/SenderSpool.cpp:174-193 | Parsing a printed file name gives the frame id, for every 64-bit id |
| SenderSpool.FileRoundTrip | capture_and_network/src/storage/SenderSpool.cpp:61-145 | A whole file loads as the frame written; a file torn anywhere before its end does not load |
| SenderSpool.PersistsIff | capture_and_network/src/storage/SenderSpool.cpp:39-80 | persist returns true exactly when the frame is not empty, the write goes through, and the file, header included, fits under the cap if there is one; returning false without a torn write changes nothing |
| SenderSpool.FileLayout | capture_and_network/src/storage/SenderSpool.cpp:12-72 | Each number of the file at its offset, least significant byte first, and the payload behind byte 40 |
| SenderSpool.PersistKeepsOwnFiles | capture_and_network/src/storage/SenderSpool.cpp:39-80 | Whatever becomes of a write, the directory still holds only files that carry their own frame id |
| SenderSpool.PendingIsWholeFrames | capture_and_network/src/storage/SenderSpool.cpp:98-149 | The pending frames are exactly those whose files are whole, each once, in strictly increasing id order, none empty |
| SenderSpool.AccountExact | capture_and_network/src/storage/SenderSpool.cpp:39-92 | Over any run of persist and removeFrame, bytesUsed exceeds the bytes on disk by exactly the sizes of files overwritten while present, and a cap that holds at the start holds on disk at the end |
| SenderSpool.PutExact | capture_and_network/src/storage/SenderSpool.cpp:46-79 | The account after one successful persist, overwriting or not |
| SenderSpool.DropExact | capture_and_network/src/storage/SenderSpool.cpp:82-92 | Removal takes the file size off the account and never underflows |
| SenderSpool.SenderSpoolStore.constructor | capture_and_network/src/storage/SenderSpool.cpp:25-35 | Opening a directory counts the bytes of every file in it |
| SenderSpool.SenderSpoolStore.SetMaxSpoolBytes | capture_and_network/src/storage/SenderSpool.cpp:159-161 | Sets the cap and nothing else |
| SenderSpool.SenderSpoolStore.Persist | capture_and_network/src/storage/SenderSpool.cpp:39-80 | Refuses an empty frame or one over the cap; otherwise writes header and payload and, only if the write is whole, counts them |
| SenderSpool.SenderSpoolStore.RemoveFrame | capture_and_network/src/storage/SenderSpool.cpp:82-92 | Deletes the file if it is there and debits its size |
| SenderSpool.SenderSpoolStore.LoadPendingFrames | capture_and_network/src/storage/SenderSpool.cpp:98-149 | For any directory: the readable spool files in order of their parsed ids; over files of its own, exactly the pending frames |
| SenderSpool.ListingIsPending | capture_and_network/src/storage/SenderSpool.cpp:102-149 | Reading a directory of own files in any order sorted by parsed id gives the same frames |
| SenderSpool.SenderSpoolStore.SpoolPaths | capture_and_network/src/storage/SenderSpool.cpp:102-107 | Every path with the spool extension once, in any order |
| SenderSpool.SortByFrameId | capture_and_network/src/storage/SenderSpool.cpp:109-112 | A permutation ordered by parsed id |
| Decimal.StoullPrint | capture_and_network/src/storage/SenderSpool.cpp:174-193 | stoull reads back every printed 64-bit number |
| Decimal.StoiPrint | capture_and_network/include/protocol/ProtocolV2.h:231-304 | stoi reads back every printed non-negative int |
| Tcp.SentConcat | capture_and_network/src/network/TcpClient.cpp:83-104 | Two sendAll calls, the second only after the first succeeded, put on the wire what one call of the concatenation would, including where a break leaves it |
| Tcp.DrainedConcat | capture_and_network/src/network/TcpClient.cpp:106-127 | Two recvAll calls, the second only after the first succeeded, take what one call for both sizes would; a connection outlives a recvAll exactly when it is served, and the bytes written stay as they are |
| Tcp.TcpClient.ConnectToServer | capture_and_network/src/network/TcpClient.cpp:23-68 | Already connected: nothing; refused: nothing; else a new empty wire |
| Tcp.TcpClient.CloseConnection | capture_and_network/src/network/TcpClient.cpp:70-77 | Clears the flag and the link |
| Tcp.TcpClient.SendAll | capture_and_network/src/network/TcpClient.cpp:83-104 | For every pattern of short sends: all bytes and true, or the longest prefix the network carries, closed, and false |
| Tcp.TcpClient.RecvAll | capture_and_network/src/network/TcpClient.cpp:106-127 | For every pattern of short receives: exactly the next bytes, or closed and nothing |
| FrameTransmission.CutStreamDelivers | capture_and_network/apps/server/test_server.cpp:139-209 | However many bytes of the stream get through, the server delivers, in order, every frame whole in them before the first one above the limit: each with the frame id, rows, columns, pixel type and element size of the frame sent, its length, the fragment size in force, the least number of fragments that holds it, and its own pixels |
| FrameServer.StreamRoundTrip | capture_and_network/apps/server/test_server.cpp:139-209 | For any frames and fragment sizes the receiving loop run on the concatenated sender output rebuilds exactly the headers and payloads, in order, up to the first frame its 200 MiB check refuses; if it refuses none it consumes the stream to the last byte |
| FrameServer.CutStreamKeepsWholeFrames | capture_and_network/apps/server/test_server.cpp:139-209 | If the stream stops after any byte, the server has rebuilt exactly the frames that had arrived whole |
| FrameTransmission.SendAndServe | capture_and_network/src/network/RawFrameSender.cpp:20-92 | The sender object over any list of frames, a new connection that breaks after any byte or holds, and the server loop over what came through: exactly the frames that crossed whole before the first one above the limit come out, each described field by field as in the row above, and all of them if the connection holds |
| FrameTransmission.CutStreamServes | capture_and_network/apps/server/test_server.cpp:139-209 | The same of the byte streams: any non-empty frames, any cut |
| FrameTransmission.TransmitFrames | capture_and_network/src/network/RawFrameSender.cpp:20-92 | A list of frames puts its whole stream on the wire, or the prefix carried before the break |
| FrameServer.LegalIsDescribed | capture_and_network/src/network/RawFrameSender.cpp:33-45 | The header of a frame tells its own id, shape, type, length, fragment size and the least count of fragments |
| FrameServer.ChunkOnWire | capture_and_network/src/network/RawFrameSender.cpp:57-82 | Chunk i on the wire tells the frame id, i, its offset i times the fragment size and its length, a full fragment or what is left, and then holds exactly those bytes of the payload |
| FrameServer.FrameBytesLength | capture_and_network/src/network/RawFrameSender.cpp:47-83 | A frame takes 48 bytes, 28 for each chunk, and its payload |
| FrameServer.ForeignChunkEndsFrame | capture_and_network/apps/server/test_server.cpp:172-208 | A chunk of another frame, or one that points outside the frame, ends it early: the frame is delivered under its full header with the chunks before it and zeros behind, and reading goes on right behind the header of that chunk |
| FrameServer.TailDecides | capture_and_network/apps/server/test_server.cpp:139-164 | Behind any frames below the limit the server treats what follows as it would treat a new stream: fewer than 48 bytes are a peer that closed, 48 bytes that no builder makes are refused |
| FrameServer.FrontFrame | capture_and_network/apps/server/test_server.cpp:164-209 | One frame in front of any further bytes is rebuilt first and leaves exactly those bytes |
| FrameServer.ServeConnection | capture_and_network/apps/server/test_server.cpp:139-240 | The server loop, over any pattern of short receives, gives the frames and the reason for stopping that the specification gives |
| FrameServer.ReceiveFrame | capture_and_network/apps/server/test_server.cpp:164-209 | The chunk loop fills the buffer in place as specified, including both early exits |
| FrameServer.Socket.RecvAll | capture_and_network/apps/server/test_server.cpp:15-30 | Fills the given part of the buffer, or reports how far it came when the peer closed |
| FrameSending.ChunkStartsInside | capture_and_network/src/network/RawFrameSender.cpp:33-63 | Every chunk the send loop visits starts inside the payload, even where the count wraps |
| FrameSending.ChunksReachEnd | capture_and_network/src/network/RawFrameSender.cpp:33-63 | Up to 200 MiB the chunks cover the payload to its end |
| FrameSending.RawFrameSender.SetFragmentSize | capture_and_network/src/network/RawFrameSender.cpp:12-18 | Fragment sizes below 1024 become 1024 |
| FrameSending.RawFrameSender.SendChunk | capture_and_network/src/network/RawFrameSender.cpp:57-82 | One chunk header and its slice of the payload, or the prefix the connection carried |
| FrameSending.RawFrameSender.SendFrame | capture_and_network/src/network/RawFrameSender.cpp:20-92 | However the socket splits the sends, the wire gains the frame bytes or the prefix carried before the break; what those bytes tell is LegalIsDescribed and ChunkOnWire |
| RawFrameProtocol.FrameHeaderRoundTrip | capture_and_network/src/protocol/RawFrameProtocol.cpp:3-108 | A built frame header parses back to itself, whatever follows it |
| RawFrameProtocol.ChunkHeaderRoundTrip | capture_and_network/src/protocol/RawFrameProtocol.cpp:23-148 | So does a chunk header |
| RawFrameProtocol.FrameHeaderOnlyBuilt | capture_and_network/src/protocol/RawFrameProtocol.cpp:36-108 | The parser accepts nothing but built headers: whatever parses is the image of what it parsed to |
| RawFrameProtocol.ChunkHeaderOnlyBuilt | capture_and_network/src/protocol/RawFrameProtocol.cpp:110-148 | The same for chunk headers |
| RawFrameProtocol.FrameHeaderLayout | capture_and_network/src/protocol/RawFrameProtocol.cpp:3-21 | Each number of a frame header at its offset, most significant byte first |
| RawFrameProtocol.ChunkHeaderLayout | capture_and_network/src/protocol/RawFrameProtocol.cpp:23-34 | The same for chunk headers |
| RawFrameProtocol.BuildFrameHeader | capture_and_network/src/protocol/RawFrameProtocol.cpp:3-21 | The appends give the 48 bytes of the header image |
| RawFrameProtocol.BuildChunkHeader | capture_and_network/src/protocol/RawFrameProtocol.cpp:23-34 | The appends give the 28 bytes of the chunk header image |
| RawFrameProtocol.ParseFrameHeader | capture_and_network/src/protocol/RawFrameProtocol.cpp:36-108 | Size, magic, version and size field checked, then the fields in order |
| RawFrameProtocol.ParseChunkHeader | capture_and_network/src/protocol/RawFrameProtocol.cpp:110-148 | Size and magic checked, then the fields in order |
| Bytes.AppendUint16 | capture_and_network/src/protocol/RawFrameProtocol.cpp:150-153 | Two bytes, most significant first |
| Bytes.AppendUint32 | capture_and_network/src/protocol/RawFrameProtocol.cpp:155-160 | Four bytes, most significant first |
| Bytes.AppendUint64 | capture_and_network/src/protocol/RawFrameProtocol.cpp:162-171 | Eight bytes, most significant first |
| Bytes.ReadPut | capture_and_network/src/protocol/RawFrameProtocol.cpp:150-234 | Reading undoes appending, at all three widths |
| ProtocolMessages.ResumeReplyRoundTrip | capture_and_network/include/protocol/ProtocolV2.h:402-581 | A resume reply is read back exactly, whatever follows it in the buffer |
| ProtocolMessages.TaskCheckpointRoundTrip | capture_and_network/include/protocol/ProtocolV2.h:443-529 | parseTaskCheckpoint undoes makeTaskCheckpointMessage for every checkpoint |
| ProtocolMessages.HeaderReadsBack | capture_and_network/include/protocol/ProtocolV2.h:376-490 | A message header is accepted for exactly its own type and body length |
| ProtocolMessages.RequestsReadBack | capture_and_network/include/protocol/ProtocolV2.h:376-400 | A reader accepts hello as hello only and a resume request as one only, and bytes 12 to 20 of each are the task id |
| ProtocolMessages.ResumeReplyOnlyBuilt | capture_and_network/include/protocol/ProtocolV2.h:531-581 | Nothing but the image of a reply parses as that reply |
| ProtocolMessages.MessageLayouts | capture_and_network/include/protocol/ProtocolV2.h:376-454 | Each number of a resume reply and of a checkpoint at its offset |
| ProtocolMessages.MakeHelloMessage | capture_and_network/include/protocol/ProtocolV2.h:386-392 | Builds the hello image |
| ProtocolMessages.MakeResumeRequestMessage | capture_and_network/include/protocol/ProtocolV2.h:394-400 | Builds the resume request image |
| ProtocolMessages.MakeTaskCheckpointMessage | capture_and_network/include/protocol/ProtocolV2.h:443-454 | Builds the checkpoint image |
| ProtocolMessages.ParseResumeReply | capture_and_network/include/protocol/ProtocolV2.h:531-581 | Length, header and body checks, then the shift-in loops |
| ProtocolMessages.ParseTaskCheckpoint | capture_and_network/include/protocol/ProtocolV2.h:456-529 | The same for checkpoints |
| ProcessingHistory.DisciplinedRunsTellAll | capture_and_network/include/protocol/ProtocolV2.h:158-216 | From a first process without a file, over any operations, resumes and restarts in which every process begins or resumes before it writes: the file holds, of the attempt last begun, the number of frames marked since (modulo 2^64), the frame last marked or last given to a checkpoint as other than zero, the acknowledged frame of the last checkpoint, the phase and the aborted and committed flags, all read off the list of operations; and the process has the same in memory |
| ProcessingHistory.DiskTellsAllIff | capture_and_network/include/protocol/ProtocolV2.h:158-216 | The file keeps telling all of these after every operation of a run exactly when every write is made with memory agreeing with the disk on what that write does not set itself |
| ProcessingHistory.ResumeRestores | capture_and_network/include/protocol/ProtocolV2.h:204-216 | After such a run and a restart, resuming succeeds exactly for the attempt last begun, and memory then holds its frame count, last frame, acknowledged frame and committed flag, running and not aborted |
| ProcessingMachine.RunsStayCoherent | capture_and_network/include/protocol/ProtocolV2.h:158-216 | Over every run of transitions, resumes and restarts whose saves succeed, in any order: the file holds the state last saved, in which aborted holds exactly in phase Aborted and Committed implies committed |
| ProcessingMachine.DiskTellsIff | capture_and_network/include/protocol/ProtocolV2.h:158-216 | After every operation of a run, across resumes and restarts, the file names the attempt last begun and its frameIndex counts the frames marked since (modulo 2^64), exactly when every mark, checkpoint, abort and commit is made while memory is at the attempt and frame count on disk |
| ProcessingMachine.InStepSince | capture_and_network/include/protocol/ProtocolV2.h:166-216 | Beginning, or any resume that finds a file, accepted or refused, puts memory in step with the disk, and everything but a restart keeps it so: a process that has begun or loaded once meets that condition |
| ProcessingMachine.OldAttemptsAreDead | capture_and_network/include/protocol/ProtocolV2.h:204-216 | With an attempt on disk and no other begun, at every point of a run no resume for any other attempt succeeds or changes the disk, exactly when every mark, checkpoint, abort and commit is made while memory is about the attempt on disk |
| ProcessingMachine.BeginPutsOnDisk | capture_and_network/include/protocol/ProtocolV2.h:166-169 | Beginning an attempt puts it on disk with a count of zero, and memory in step |
| ProcessingMachine.ResumeAnswersExactly | capture_and_network/include/protocol/ProtocolV2.h:204-216 | A resume succeeds exactly for the attempt on disk, never throws on a saved file, and when refused leaves the disk alone |
| ProcessingMachine.WriteKeepsAttemptIff | capture_and_network/include/protocol/ProtocolV2.h:171-202 | A mark, checkpoint, abort or commit keeps the attempt on disk exactly when memory is about that attempt |
| ProcessingMachine.WriteAfterRestartIff | capture_and_network/include/protocol/ProtocolV2.h:160-202 | Made right after a restart, any of the four keeps the attempt on disk exactly when it is the empty one; any other can never be resumed again |
| ProcessingState.TextRoundTrip | capture_and_network/include/protocol/ProtocolV2.h:218-316 | loadState after saveState restores every state exactly, through printing, line splitting, key lookup and parsing |
| ProcessingState.TornSaveNeverLies | capture_and_network/include/protocol/ProtocolV2.h:218-316 | A save stopped after any character loads if and only if all but perhaps the final line break was written, and then as the state saved |
| ProcessingState.LoadsIff | capture_and_network/include/protocol/ProtocolV2.h:237-316 | Loading succeeds exactly when all nine keys are present with readable numbers; a missing key is enough to fail it |
| ProcessingMachine.ProcessingStateMachine.constructor | capture_and_network/include/protocol/ProtocolV2.h:160-164 | A new process starts from the empty attempt over the file it finds |
| ProcessingMachine.ProcessingStateMachine.SaveState | capture_and_network/include/protocol/ProtocolV2.h:218-235 | The nine lines written, refused or torn |
| ProcessingMachine.ProcessingStateMachine.LoadState | capture_and_network/include/protocol/ProtocolV2.h:237-316 | Replaces the whole state in memory or nothing |
| ProcessingMachine.ReadValues | capture_and_network/include/protocol/ProtocolV2.h:244-252 | The getline loop builds the key table |
| ProcessingMachine.ProcessingStateMachine.BeginLine | capture_and_network/include/protocol/ProtocolV2.h:166-169 | A fresh running attempt, saved |
| ProcessingMachine.ProcessingStateMachine.MarkFrameSent | capture_and_network/include/protocol/ProtocolV2.h:171-177 | Counts a frame (modulo 2^64), running again, saved |
| ProcessingMachine.ProcessingStateMachine.Checkpoint | capture_and_network/include/protocol/ProtocolV2.h:179-188 | Acknowledged mark, last frame unless zero, phase by finality, saved; what that leaves on disk over runs is DiskTellsAllIff |
| ProcessingMachine.ProcessingStateMachine.AbortCurrentAttempt | capture_and_network/include/protocol/ProtocolV2.h:190-195 | Aborted and not committed, saved |
| ProcessingMachine.ProcessingStateMachine.CommitCurrentAttempt | capture_and_network/include/protocol/ProtocolV2.h:197-202 | Committed and not aborted, saved |
| ProcessingMachine.ProcessingStateMachine.ResumeFromDisk | capture_and_network/include/protocol/ProtocolV2.h:204-216 | Load, compare, run again and save; what memory and disk hold on each refusal |
| ProcessingMachine.Perform | capture_and_network/include/protocol/ProtocolV2.h:166-216 | Every operation of the object is one step of the runs spoken of above |
| ExposureSafety.EveryRunIsGood | fsm_demo.cpp:308-489 | In every interleaving of controller, workers and timeouts: the platform never moves while the shutter is open or opening or a capture runs; no wait sees an event it does not expect; workers leave only by Stop; at most 6n+2 loop iterations; and TaskFinished means a closed shutter and, per segment in order, move, open and capture in either order, close, each exactly once |
| ExposureOutcome.SucceedsIff | fsm_demo.cpp:308-489 | A run that is over, under any schedule, has done the whole task with the shutter closed if and only if the controller ran out of time in none of its three waits |
| ExposureOutcome.StepFailsIff | fsm_demo.cpp:331-454 | A step leads into Error exactly when it is the controller running out of time: in WaitPlatformArrived or SegmentFinished with no event there, or at the deadline of WaitCaptureDone |
| ExposureOutcome.WaitsAnswer | fsm_demo.cpp:331-454 | What each wait makes of any event in any state: one of another segment is dropped and nothing else changes; the expected one leads on, both reports being needed in WaitCaptureDone; any other leads to Error, except that WaitCaptureDone minds only the two failures |
| ExposureOutcome.MovesGoToTarget | fsm_demo.cpp:323-329 | In every interleaving a platform that moves is on its way to the target of the segment the controller is at, after an error too |
| ExposureProgress.PatientRunsSucceed | fsm_demo.cpp:308-489 | A run in which no wait times out never reaches Error, and once nothing can move it is finished, with the log complete, the shutter closed and every worker gone by Stop |
| ExposureProgress.StepShrinks | fsm_demo.cpp:312-473 | Every effective step uses up part of a bounded supply, so no run goes on for ever |
| ExposureProgress.PatientMove | fsm_demo.cpp:312-473 | Until all is over some thread can move without a timeout: no deadlock |
| ExposureShutter.OpenAtTheEndIff | fsm_demo.cpp:308-489 | A run that is over, all workers gone, leaves the shutter open exactly when the controller missed the deadline of WaitCaptureDone in it |
| ExposureShutter.MissedDeadlineDooms | fsm_demo.cpp:370-418 | Missing that deadline, whether the shutter has opened by then or its open command is still under way, is the one step into an error after which nothing will close it; every other error leaves it closed or with a close under way |
| ExposureShutter.ErrorKeepsFate | fsm_demo.cpp:462-484 | After an error no step of any thread changes which of the two it is: shutdown sends only Stop |
| ExposureShutter.ShutterCanStayOpen | fsm_demo.cpp:370-418 | It happens, for every segment, both with the shutter open at the missed deadline and with it opening only afterwards: the run can be carried to its end with the shutter open |
| ExposureSafety.WorkersDrain | fsm_demo.cpp:475-484 | After the controller is done each worker that has not left can move, and each move brings it nearer its end |
| ExposureSafety.WorkerKeepsInv | fsm_demo.cpp:158-181 | Taking and completing a command keeps the invariant that fixes, for each controller state, the commands, events and log |
| ExposureSafety.NeverThrows | fsm_demo.cpp:39-48 | A waiting worker never meets a stopped empty queue: its Stop came first |
| ExposureSafety.ControllerFromWaitCapture | fsm_demo.cpp:370-418 | The wait for the open and capture race keeps the invariant, whichever report comes first and at a missed deadline |
| ExposureSafety.ControllerFromSegmentFinished | fsm_demo.cpp:428-454 | Leaving a segment closes its block of the log |
| ExposureSafety.ControllerFromStop | fsm_demo.cpp:475-484 | Each step of stopAllWorkers keeps every worker with its Stop last in flight |
| ExposureController.ThreadSafeQueue.Push | fsm_demo.cpp:23-37 | Appends |
| ExposureController.ThreadSafeQueue.WaitAndPop | fsm_demo.cpp:39-48 | Front, exception when stopped and empty, or still waiting |
| ExposureController.ThreadSafeQueue.WaitAndPopFor | fsm_demo.cpp:50-61 | Front, or false on timeout or when stopped and empty |
| ExposureController.DeviceWorker.Take | fsm_demo.cpp:158-181 | The head of a worker loop, exception branch included |
| ExposureController.DeviceWorker.Finish | fsm_demo.cpp:162-176 | The body of a worker loop: act, log, report; Stop ends it |
| ExposureController.ProcessController.constructor | fsm_demo.cpp:284-310 | Fresh queues and workers wired together, in state TaskLoaded |
| ExposureController.ProcessController.WaitArrived | fsm_demo.cpp:331-351 | The object does the step the model does, for every event and timeout |
| ExposureController.ProcessController.OpenAndCapture | fsm_demo.cpp:353-368 | Two pushes, the open command first |
| ExposureController.ProcessController.WaitCapture | fsm_demo.cpp:370-418 | One turn of the inner loop |
| ExposureController.ProcessController.FinishSegment | fsm_demo.cpp:428-454 | Waits for the closed shutter and goes to the next segment or the end |
| ExposureController.ProcessController.StopAllWorkers | fsm_demo.cpp:475-484 | One queue operation of the shutdown at a time |
| ExposureController.ProcessController.FsmStep | fsm_demo.cpp:312-472 | The switch: one atomic step of the controller thread |
| ExposureController.ProcessController.Execute | fsm_demo.cpp:290-305 | The objects under any scheduler end where the model run ends, so the first row of this group holds of them |
| CaptureHistory.EveryRunIsFaithful | capture_and_network/src/capture/CameraCapture.cpp:90-156 | In every interleaving the reads that find the camera running and fit a buffer are numbered 1, 2, 3, ... without a gap; each frame sent and each on its way holds exactly the bytes the camera gave under its number; and every number handed to the queue is sent, on its way, pushed out of a full queue or lost with a failed send, and only one of these, once |
| CaptureHistory.StopEnds | capture_and_network/src/app/CameraNetworkSender.cpp:53-70 | Once stop() has cleared both flags, every step of any thread changes nothing or brings the end nearer, and with two spare buffers some thread can always take such a step until stop() is through, the capture thread gone and the send thread left |
| CaptureHistory.RunsFollowFlags | capture_and_network/src/app/CameraNetworkSender.cpp:53-65 | In every run the flags say how far stop() has come, and the capture thread leaves its loop only when told to |
| CaptureSafety.EveryRunDelivers | capture_and_network/src/capture/CameraCapture.cpp:90-156 | In every interleaving each frame sent carries exactly the bytes copied under its number (the row above: what the camera gave), numbers strictly increasing; every frame queued or being sent still holds its own bytes; the queue holds the newest frames without a gap; free and referenced buffers partition the pool |
| CaptureCapacity.CaptureNeverWaitsIff | capture_and_network/src/common/FrameBufferPool.cpp:24-37 | The capture thread never waits for a buffer, however slow the sender, if and only if the pool has at least two buffers more than the queue has places |
| CaptureCapacity.ProgramNeverWaits | capture_and_network/src/app/CameraNetworkSender.cpp:10-15 | With a queue of 10 over a pool of 16 it never waits |
| CaptureCapacity.WaitsForGood | capture_and_network/src/common/FrameBufferPool.cpp:24-32 | If the send thread has left, a wait for a buffer never ends, and stop() never gets past its join |
| CaptureCapacity.WaitsForGoodIff | capture_and_network/src/app/CameraNetworkSender.cpp:53-91 | That can come about exactly when the queue alone can hold the whole pool |
| CaptureCapacity.FreeBufferWhenWanted | capture_and_network/src/common/FrameBufferPool.cpp:27-32 | With two buffers to spare the free list is not empty when acquire looks at it |
| CaptureSafety.AcquireKeepsInv | capture_and_network/src/common/FrameBufferPool.cpp:24-37 | A buffer handed out is referenced by nobody else |
| CaptureSafety.CopyByteKeepsInv | capture_and_network/src/capture/CameraCapture.cpp:123-125 | Copying into it disturbs no frame queued or being sent |
| CaptureSafety.PushKeepsInv | capture_and_network/include/common/BlockingQueue.h:15-28 | Pushing, with or without losing the oldest frame, keeps counts, order and contents |
| CaptureSafety.RestKeepsInv | capture_and_network/src/capture/CameraCapture.cpp:139-156 | The end of an iteration drops the references of the capture thread, and frees the buffer only if nobody else has one |
| CaptureSafety.SendKeepsInv | capture_and_network/src/app/CameraNetworkSender.cpp:75-91 | So does the end of a send |
| CaptureSafety.InvPartitions | capture_and_network/src/common/FrameBufferPool.cpp:24-45 | Counts that match the holders make free and referenced buffers partition the pool |
| CaptureSender.FrameBufferPool.constructor | capture_and_network/src/common/FrameBufferPool.cpp:6-22 | Distinct arrays of the right size holding anything, all free |
| CaptureSender.FrameBufferPool.TakeFree | capture_and_network/src/common/FrameBufferPool.cpp:24-37 | The front of the free list with one reference, or still waiting |
| CaptureSender.FrameBufferPool.Unshare | capture_and_network/src/common/FrameBufferPool.cpp:34-45 | The last reference hands the buffer back |
| CaptureSender.FrameBufferPool.Put | capture_and_network/src/capture/CameraCapture.cpp:125 | Writes one byte of one array and no other |
| CaptureSender.BlockingQueue.Push | capture_and_network/include/common/BlockingQueue.h:15-28 | Nothing once stopped; a full queue loses its oldest item |
| CaptureSender.BlockingQueue.Pop | capture_and_network/include/common/BlockingQueue.h:30-45 | Front, or done when stopped and empty, or still waiting |
| CaptureSender.BlockingQueue.Stop | capture_and_network/include/common/BlockingQueue.h:47-54 | Marks the queue stopped and keeps what it holds |
| CaptureSender.BlockingQueue.Clear | capture_and_network/include/common/BlockingQueue.h:56-60 | Empties the queue |
| CaptureSender.CameraNetworkSender.CaptureLoop | capture_and_network/src/capture/CameraCapture.cpp:90-156 | One step of the capture loop on the objects; what it does with what the camera gives is EveryRunIsFaithful |
| CaptureSender.CameraNetworkSender.SendLoop | capture_and_network/src/app/CameraNetworkSender.cpp:72-91 | One step of the send loop |
| CaptureSender.CameraNetworkSender.Stop | capture_and_network/src/app/CameraNetworkSender.cpp:53-65 | One step of stop(): flags, wait for the capture thread, stop the queue |
| CaptureSender.CameraNetworkSender.Execute | capture_and_network/src/app/CameraNetworkSender.cpp:29-91 | The objects under any scheduler do what EveryRunIsFaithful says of the schedule, and the pool is partitioned |
| MemoryPoolSafety.NeverDeadlocksIff | mem_pool_main_demo.cpp:44-84 | Producer and consumer never block each other for ever if and only if the pool has two blocks, or one block that no frame fits |
| MemoryPoolSafety.AllSentAtTheEnd | mem_pool_main_demo.cpp:86-105 | Past its joins main finds every frame pushed to have been sent, in order, every fitting frame pushed, all buffers free and none in use |
| MemoryPoolSafety.ShutdownEnds | mem_pool_main_demo.cpp:97-103 | After main clears the flag no step undoes progress and, until main is through, some thread can make some, with two blocks or more |
| MemoryPoolSafety.HighWaterIsMostHeld | mem_pool_demo.cpp:126-132 | The high-water mark is the maximum, over all states of the run, of the buffers in use |
| MemoryPoolSafety.ProducerKeepsInv | mem_pool_main_demo.cpp:44-68 | Acquire, fill, give up or push: buffers are each free or held once and no queued frame changes |
| MemoryPoolSafety.ConsumerKeepsInv | mem_pool_main_demo.cpp:71-84 | Pop gives the previous buffer back; sent and unsent frames together stay what was pushed |
| MemoryPoolDemo.MemoryPool.constructor | mem_pool_demo.cpp:24-42 | Distinct blocks, all free, counters zero |
| MemoryPoolDemo.MemoryPool.UpdateHighWaterMark | mem_pool_demo.cpp:126-132 | The compare-exchange loop leaves the larger of mark and use, for any number of spurious failures |
| MemoryPoolDemo.MemoryPool.AcquireNow | mem_pool_demo.cpp:52-73 | Nothing when stopped, else the front block, emptied and counted |
| MemoryPoolDemo.MemoryPool.TryAcquire | mem_pool_demo.cpp:76-93 | The same without waiting; a failure is counted |
| MemoryPoolDemo.MemoryPool.Release | mem_pool_demo.cpp:112-124 | The block emptied and back at the end of the list, the count never below zero |
| MemoryPoolDemo.MemoryPool.Write | mem_pool_main_demo.cpp:60-61 | Copies the text into this block only and sets its size |
| MemoryPoolDemo.FrameQueue.Push | mem_pool_main_demo.cpp:5-11 | Appends |
| MemoryPoolDemo.FrameQueue.Pop | mem_pool_main_demo.cpp:13-26 | Nothing when stopped and empty, else the front |
| MemoryPoolDemo.PoolDemo.Produce | mem_pool_main_demo.cpp:44-68 | One step of the producer on the objects |
| MemoryPoolDemo.PoolDemo.Consume | mem_pool_main_demo.cpp:71-84 | One step of the consumer |
| MemoryPoolDemo.PoolDemo.ShutDown | mem_pool_main_demo.cpp:97-103 | One step of the shutdown order of main |
| MemoryPoolDemo.PoolDemo.Execute | mem_pool_main_demo.cpp:86-108 | The objects under any scheduler: the mark is the true maximum, and at the end all is sent and back |
| BilinearConservation.AffineConserved | reconstruct_picture/src/reconstruction_core.cpp:86-104 | If every sample lies inside the grid, every affine function summed over the weights, or over the accumulated values, is the same sum over the samples: total weight, total value and both first moments |
| BilinearConservation.TotalWeightIff | reconstruct_picture/src/reconstruction_core.cpp:86-104 | The total weight never exceeds the number of samples, and equals it exactly when every sample lies inside the grid |
| BilinearConservation.KernelWeighsAffine | reconstruct_picture/src/reconstruction_core.cpp:86-104 | One sample inside the grid reproduces affine functions at its position |
| BilinearConservation.ArraysConserve | reconstruct_picture/src/reconstruction_core.cpp:86-104 | The two matrices the program fills add up accordingly |
| Bilinear.ReconIsBetween | reconstruct_picture/src/reconstruction_core.cpp:106-115 | Where the weight passes the threshold the reconstruction lies between the least and the greatest sample felt at that pixel, so equals their value when they agree |
| Bilinear.FeltIff | reconstruct_picture/src/reconstruction_core.cpp:86-104 | A pixel has weight exactly when some sample lies strictly within one pixel of it in both directions |
| Bilinear.FourNeighbours | reconstruct_picture/src/reconstruction_core.cpp:87-103 | The four products of the code are the tent kernel at the four neighbours, which is zero at every other pixel |
| Bilinear.AddOne | reconstruct_picture/src/reconstruction_core.cpp:94-98 | One pixel and its weight, or nothing outside the image |
| Bilinear.AddBilinearSample | reconstruct_picture/src/reconstruction_core.cpp:86-104 | Every pixel gains value times kernel, and its weight gains the kernel |
| Bilinear.AddSignals | reconstruct_picture/src/main.cpp:204-206 | The accumulator loop leaves what all its samples leave |
| Bilinear.NormalizeByWeight | reconstruct_picture/src/reconstruction_core.cpp:106-115 | Quotient above the threshold, zero elsewhere, at every pixel |
| PipelineHistory.PipelineDelivers | reconstruct_picture/src/main.cpp:89-218 | With at least one worker, in every interleaving, when the accumulator has left its loop: the signals written out are one block for every decodable packet that arrived, no more and no fewer, each holding for every spot in order its id, the place of the stage plus the offset of the spot, and the intensity measured there; and value and weight of every pixel are the sums over those packets and spots |
| PipelineHistory.SequentialMeasures | reconstruct_picture/src/main.cpp:181-186 | The blocks of the sequential program are these, packet by packet |
| PipelineSafety.PipelineIsSequential | reconstruct_picture/src/main.cpp:89-218 | With at least one worker, in every interleaving, when the accumulator has left its loop the signal list is the sequential one, whole frame by whole frame in some order, and every pixel has the value and weight that folding the decodable frames in order of arrival gives |
| PipelineSafety.NeverStuck | reconstruct_picture/src/main.cpp:89-218 | No reachable state is stuck: until main is through its joins some thread can move |
| PipelineSafety.ExitsCompleteIff | reconstruct_picture/src/main.cpp:129-218 | Every exit, over all interleavings, has the blocks of all decodable packets exactly when there is a worker (or a raw queue that takes nothing, or no image that decodes): the floor of one worker is needed |
| PipelineSafety.WorkerConserves | reconstruct_picture/src/main.cpp:150-191 | A worker neither loses nor makes up a block |
| PipelineSafety.ExitConserves | reconstruct_picture/src/main.cpp:214-218 | The shutdown order leaves every block in the result |
| PipelineSafety.BlocksSumPermutes | reconstruct_picture/src/main.cpp:202-211 | What is accumulated does not depend on the order of the blocks |
| ReconstructionPipeline.BoundedQueue.Push | reconstruct_picture/include/concurrent_queue.h:20-26 | Appends once there is room |
| ReconstructionPipeline.BoundedQueue.Pop | reconstruct_picture/include/concurrent_queue.h:28-41 | Nothing when empty and finished, else the front |
| ReconstructionPipeline.BoundedQueue.SetFinished | reconstruct_picture/include/concurrent_queue.h:43-46 | Sets the flag and keeps the queue |
| ReconstructionPipeline.MeasureSpots | reconstruct_picture/src/main.cpp:181-186 | One signal per spot, displaced by the spot offset, in spot order |
| ReconstructionPipeline.Pipeline.Receive | reconstruct_picture/src/main.cpp:106-126 | One step of the network thread |
| ReconstructionPipeline.Pipeline.Work | reconstruct_picture/src/main.cpp:150-191 | One step of a worker |
| ReconstructionPipeline.Pipeline.Accumulate | reconstruct_picture/src/main.cpp:198-211 | One step of the accumulator; the matrices always hold what the listed signals leave |
| ReconstructionPipeline.Pipeline.ShutDown | reconstruct_picture/src/main.cpp:215-218 | One step of the shutdown order |
| ReconstructionPipeline.Reconstruct | reconstruct_picture/src/main.cpp:227 | Normalising the final matrices gives at every pixel the weighted mean of the samples, or zero below the threshold |
| ReconstructionPipeline.Pipeline.Execute | reconstruct_picture/src/main.cpp:89-218 | The objects under any scheduler: once the accumulator has left, every pixel of the matrices holds the sums over packets that arrived and spots of the first row of this group |
| RegionOrder.PlanRegionOrder | opencv_demo.cc:57-88 | All the regions, a permutation of those given, starting at the first and always going on to the nearest not yet visited, ties to the lower index; or the out-of-range index, exactly when that walk comes to a region with all the rest 1e18 or more away |
| RegionOrder.GapsCompareDistances | opencv_demo.cc:73-76 | Nearer, equally near and within reach mean what they do for the distances of the centroids |
| RegionOrder.WithinReachIsEnough | opencv_demo.cc:68-82 | With all centroids nearer than that to each other it never does |
| RegionOrder.FindNearest | opencv_demo.cc:68-80 | The inner loop finds the nearest unused region below the initial best distance, or -1 when there is none |
| RegionOrder.PickPermutes | opencv_demo.cc:57-88 | The ordered regions are a permutation of the regions |
| RegionOrder.NearestFirstUnique | opencv_demo.cc:57-88 | Nearest-first leaves no freedom: any two lists so ordered are the same |
| LaserPath.GenerateSnakePathForRegion | opencv_demo.cc:91-111 | The two-way row loops give the serpentine path |
| LaserPath.SnakeVisitsOnce | opencv_demo.cc:91-111 | Every pixel of the bounding box is visited exactly once, no other, with the laser on exactly at foreground |
| LaserPath.SnakeGoes | opencv_demo.cc:94-108 | Point by point: row by row downwards, the first and every second row to the right, the others to the left, with the laser on exactly at foreground |
| LaserPath.SnakeUnitSteps | opencv_demo.cc:91-111 | The scan moves by single pixels |
| LaserPath.PlanPath | opencv_demo.cc:142-154 | The concatenation with jump points |
| LaserPath.PathKeepsOrder | opencv_demo.cc:142-154 | The regions are gone through in their order: the path through the earlier ones comes first, then a jump with the laser off to where the next scan starts, then that scan |
| LaserPath.FullPathIsSafe | opencv_demo.cc:142-154 | Every step between points that are not neighbours arrives with the laser off |
| LaserPath.ExposedPerBox | opencv_demo.cc:91-154 | A foreground pixel is exposed once for each region whose box contains it, and no other pixel is exposed |

## Left out

- FrameServer.ServeConnection: reads chunks by ReceiveFrame and leaves out what that does.
- FrameServer.ReceiveFrame: does not model the 64-bit wrap-around of offset plus payload size in the bounds check; streams of the sender never come near it.
- SessionClient.ResumeSession.constructor: takes a directory whose .spool files carry their own frame id, as every file written by the spool does, torn or not; with foreign files loading is specified but the session's guarantees are not.
- SenderSpool.FileRoundTrip: takes the two padding bytes of the header image as zero; loading never reads them.
- SenderSpool.AccountExact: speaks of runs whose writes succeed and whose offered bytes stay below 2^64; a torn write leaves bytes on disk that the account does not count.
- Tcp.TcpClient.SendAll: the network is a byte budget and the bytes it will deliver, chosen by the environment; timeouts are failures at an arbitrary byte.
- ExposureController.DeviceWorker.Finish: a device action, its log entry and its report are one step.
- RegionOrder.PlanRegionOrder: compares squares of distances over exact reals instead of rounded square roots.
- Bilinear.AddBilinearSample: exact reals for float and double, so rounding is not modelled; the cast of the floor to int is taken to fit.
- ReconstructionPipeline.MeasureSpots: the mean over a spot's circle, divided by its gain, is a given function of image and spot.
- PipelineSafety.PipelineIsSequential: decoding a packet and measuring one spot are given functions, and the wake-up of a waiting thread is not modelled, since setFinished sets its flag without the mutex.
- CaptureSafety.EveryRunDelivers: the 64-bit frame number does not wrap, and a camera that fails to open and the warm-up reads before the loop are not modelled.
- MemoryPoolSafety.AllSentAtTheEnd: the int frame counter of the producer does not overflow.
- Condition variables are guarded steps: what is proved is what holds in every state and that some thread can move, not that the right thread is woken.
- Destructors that run stop or shutdown again, and restarting a stopped sender.
- The line, frame, acknowledgement and finish messages of protocol version 2, AttemptState and shouldRejectOldAttempt, which no modelled run uses.
- The framing of the reconstruction program's own socket (NetHeader), its CSV, TIFF and report output, and the numerics after accumulation (inpainting, blur, deconvolution, normalisation to 16 bits).
- Saving .raw and .ppm files, the window display, argument parsing, socket set-up and console output.
- The connected-component analysis that produces the regions; the path planner takes any regions whose boxes lie in the image.
- reconstruct_serial.cpp and the second copy of the server, which repeat modelled code.

// What the state file tells, field by field, read off the list of operations
// performed so far, the latest one last.
module ProcessingHistory {
  import opened Bytes
  import opened ProcessingState
  import opened ProcessingMachine

  // ---- Reading the operations backwards -----------------------------------

  // The attempt last begun.
  function LastBegun(h: seq<Op>): Option<Identity> {
    if h == [] then None
    else
      match h[|h| - 1]
      case Begin(t, l, a) => Some((t, l, a))
      case _ => LastBegun(h[..|h| - 1])
  }

  // The frames marked since.
  function MarksSince(h: seq<Op>): nat {
    if h == [] || h[|h| - 1].Begin? then 0
    else MarksSince(h[..|h| - 1]) + if h[|h| - 1].Mark? then 1 else 0
  }

  // The acknowledged frame of the last checkpoint since.
  function AckedSince(h: seq<Op>): u64 {
    if h == [] then 0
    else
      match h[|h| - 1]
      case Begin(_, _, _) => 0
      case Checkpoint(acked, _, _) => acked
      case _ => AckedSince(h[..|h| - 1])
  }

  // The frame last marked or, if later, given to a checkpoint as other than 0.
  function FrameSince(h: seq<Op>): u64 {
    if h == [] then 0
    else
      match h[|h| - 1]
      case Begin(_, _, _) => 0
      case Mark(n) => n
      case Checkpoint(_, last, _) => if last != 0 then last else FrameSince(h[..|h| - 1])
      case _ => FrameSince(h[..|h| - 1])
  }

  // What the attempt last came to. Resuming runs it again if it is the one last
  // begun, and is refused otherwise.
  function PhaseSince(h: seq<Op>): byte {
    if h == [] then RUNNING
    else
      match h[|h| - 1]
      case Begin(_, _, _) => RUNNING
      case Mark(_) => RUNNING
      case Checkpoint(_, _, finalized) => if finalized then COMMITTED else RUNNING
      case Abort => ABORTED
      case Commit => COMMITTED
      case Resume(t, l, a) =>
        if LastBegun(h[..|h| - 1]) == Some((t, l, a)) then RUNNING else PhaseSince(h[..|h| - 1])
      case Restart => PhaseSince(h[..|h| - 1])
  }

  // Whether the last of beginning, checkpoint, abort and commit finalized it:
  // marking and resuming leave that as it is.
  function CommittedSince(h: seq<Op>): bool {
    if h == [] then false
    else
      match h[|h| - 1]
      case Begin(_, _, _) => false
      case Checkpoint(_, _, finalized) => finalized
      case Abort => false
      case Commit => true
      case _ => CommittedSince(h[..|h| - 1])
  }

  // Memory has been set from a beginning, or from a file, by this process.
  function Loaded(h: seq<Op>): bool {
    if h == [] then false
    else
      match h[|h| - 1]
      case Begin(_, _, _) => true
      case Restart => false
      case Resume(_, _, _) => LastBegun(h[..|h| - 1]).Some? || Loaded(h[..|h| - 1])
      case _ => Loaded(h[..|h| - 1])
  }

  // The state this makes of an attempt.
  function StateAfter(h: seq<Op>, id: Identity): ResumeState {
    ResumeState(id.0, id.1, id.2, MarksSince(h) % TWO64, FrameSince(h), AckedSince(h),
                PhaseSince(h), PhaseSince(h) == ABORTED, CommittedSince(h))
  }

  predicate DiskTellsAll(r: Tracked, h: seq<Op>) {
    r.saved == if LastBegun(h).None? then None else Some(StateAfter(h, LastBegun(h).value))
  }

  // ---- When the file keeps telling it -------------------------------------

  // Memory agrees with the disk on everything the write does not set itself. A
  // process can check this before it calls.
  predicate Agrees(r: Tracked, op: Op)
    requires Writes(op)
  {
    && SamePoint(r)
    && var mine, disk := r.m.state, r.saved.value;
       match op
       case Mark(_) => mine.lastAckedFrameSeq == disk.lastAckedFrameSeq && mine.committed == disk.committed
       case Checkpoint(_, last, _) => last == 0 ==> mine.lastFrameSeq == disk.lastFrameSeq
       case _ => mine.lastFrameSeq == disk.lastFrameSeq && mine.lastAckedFrameSeq == disk.lastAckedFrameSeq
  }

  // One more operation, told from what was so far.
  lemma HistoryGrows(h: seq<Op>, op: Op)
    ensures (h + [op])[|h + [op]| - 1] == op && (h + [op])[..|h + [op]| - 1] == h
  {
  }

  lemma TellsAllStep(r: Tracked, h: seq<Op>, op: Op)
    requires Consistent(r) && DiskTellsAll(r, h)
    ensures DiskTellsAll(Track(r, op), h + [op]) <==> (Writes(op) ==> Agrees(r, op))
  {
    hide StateText, LoadText, LastBegun, MarksSince, AckedSince, FrameSince, PhaseSince, CommittedSince;
    match op {
      case Begin(t, l, a) => BeginStep(h, op);
      case Resume(t, l, a) =>
        ResumeAnswersExactly(r, t, l, a);
        ResumeStep(h, op);
      case Restart => RestartStep(h);
      case Mark(n) =>
        WriteStep(h, op);
        SuccessorAgrees(r.m.state.frameIndex, MarksSince(h));
      case _ => WriteStep(h, op);
    }
  }

  lemma BeginStep(h: seq<Op>, op: Op)
    requires op.Begin?
    ensures LastBegun(h + [op]) == Some((op.taskId, op.lineId, op.attemptId))
    ensures StateAfter(h + [op], LastBegun(h + [op]).value) == BeginNew(op.taskId, op.lineId, op.attemptId)
  {
    HistoryGrows(h, op);
  }

  lemma RestartStep(h: seq<Op>)
    ensures LastBegun(h + [Restart]) == LastBegun(h)
    ensures forall id :: StateAfter(h + [Restart], id) == StateAfter(h, id)
  {
    HistoryGrows(h, Restart);
  }

  lemma ResumeStep(h: seq<Op>, op: Op)
    requires op.Resume?
    ensures LastBegun(h + [op]) == LastBegun(h)
    ensures forall id :: StateAfter(h + [op], id) ==
              if LastBegun(h) == Some((op.taskId, op.lineId, op.attemptId)) then Resumed(StateAfter(h, id)) else StateAfter(h, id)
  {
    HistoryGrows(h, op);
  }

  lemma WriteStep(h: seq<Op>, op: Op)
    requires Writes(op)
    ensures var g := h + [op];
            LastBegun(g) == LastBegun(h)
            && MarksSince(g) == MarksSince(h) + (if op.Mark? then 1 else 0)
            && AckedSince(g) == (if op.Checkpoint? then op.lastAcked else AckedSince(h))
            && FrameSince(g) == (if op.Mark? then op.frameSeq
                                 else if op.Checkpoint? && op.lastFrameSeq != 0 then op.lastFrameSeq else FrameSince(h))
            && PhaseSince(g) == (if op.Abort? then ABORTED
                                 else if op.Commit? || (op.Checkpoint? && op.finalized) then COMMITTED else RUNNING)
            && CommittedSince(g) == (if op.Mark? then CommittedSince(h) else op.Commit? || (op.Checkpoint? && op.finalized))
  {
    HistoryGrows(h, op);
  }

  predicate AlwaysTellsAll(r: Tracked, h: seq<Op>, ops: seq<Op>)
    decreases |ops|
  {
    DiskTellsAll(r, h) && (ops == [] || AlwaysTellsAll(Track(r, ops[0]), h + [ops[0]], ops[1..]))
  }

  predicate AlwaysAgrees(r: Tracked, ops: seq<Op>)
    decreases |ops|
  {
    ops == [] || ((Writes(ops[0]) ==> Agrees(r, ops[0])) && AlwaysAgrees(Track(r, ops[0]), ops[1..]))
  }

  // Main result: the file tells, after every operation of a run and across any
  // resumes and restarts, the attempt last begun and its exact state - frames
  // marked, last frame, last acknowledged frame, phase, aborted and committed -
  // exactly when every write is made with memory agreeing with the disk on what
  // the write does not set.
  lemma {:induction false} DiskTellsAllIff(r: Tracked, h: seq<Op>, ops: seq<Op>)
    requires Consistent(r) && DiskTellsAll(r, h)
    ensures AlwaysTellsAll(r, h, ops) <==> AlwaysAgrees(r, ops)
    decreases |ops|
  {
    hide Consistent, Track, DiskTellsAll, Agrees;
    if ops != [] {
      TrackKeeps(r, ops[0]);
      TellsAllStep(r, h, ops[0]);
      var next := Track(r, ops[0]);
      if DiskTellsAll(next, h + [ops[0]]) {
        DiskTellsAllIff(next, h + [ops[0]], ops[1..]);
      }
    }
  }

  // ---- A discipline that suffices -----------------------------------------

  // Every process begins an attempt, or resumes from a file, before it writes.
  predicate Disciplined(ops: seq<Op>) {
    forall i :: 0 <= i < |ops| && Writes(ops[i]) ==> Loaded(ops[..i])
  }

  function FirstProcessState(): Tracked {
    Tracked(Machine(BeginNew(0, 0, 0), None), None)
  }

  lemma TrackLast(r: Tracked, ops: seq<Op>, op: Op)
    ensures TrackAll(r, ops + [op]) == Track(TrackAll(r, ops), op)
    decreases |ops|
  {
    hide Track;
    if ops == [] {
      assert [op][1..] == [];
      assert TrackAll(Track(r, op), []) == Track(r, op);
    } else {
      TrackLast(Track(r, ops[0]), ops[1..], op);
      assert (ops + [op])[1..] == ops[1..] + [op];
    }
  }

  lemma InStepAgrees(r: Tracked, op: Op)
    requires InStep(r) && Writes(op)
    ensures Agrees(r, op)
  {
  }

  // Main result: from a first process without a file, whatever operations,
  // resumes and restarts follow, as long as every process begins or resumes
  // before it writes, the file tells exactly what the operations tell; and from
  // then until it ends the process has the same in memory.
  lemma {:induction false} DisciplinedRunsTellAll(ops: seq<Op>)
    requires Disciplined(ops)
    ensures var r := TrackAll(FirstProcessState(), ops);
            Consistent(r) && DiskTellsAll(r, ops) && (Loaded(ops) ==> InStep(r))
    decreases |ops|
  {
    hide Consistent, Track, Step, Agrees, StateAfter, InStep;
    if ops == [] {
      FirstProcess();
    } else {
      var h, op := ops[..|ops| - 1], ops[|ops| - 1];
      assert ops == h + [op];
      forall i | 0 <= i < |h| && Writes(h[i]) ensures Loaded(h[..i]) {
        assert h[..i] == ops[..i] && ops[i] == h[i];
      }
      DisciplinedRunsTellAll(h);
      var r := TrackAll(FirstProcessState(), h);
      TrackLast(FirstProcessState(), h, op);
      TrackKeeps(r, op);
      InStepSince(r, op);
      if Writes(op) {
        InStepAgrees(r, op);
      }
      TellsAllStep(r, h, op);
    }
  }

  // After a restart a resume for the attempt last begun succeeds, and puts its
  // frame count, last frame, last acknowledged frame and committed flag back in
  // memory, running again; a resume for any other attempt is refused.
  lemma ResumeRestores(ops: seq<Op>, taskId: u64, lineId: u32, attemptId: u32)
    requires Disciplined(ops)
    ensures var r := Track(TrackAll(FirstProcessState(), ops), Restart);
            var reply := ResumeReply(r.m, taskId, lineId, attemptId);
            var s := Step(r.m, Resume(taskId, lineId, attemptId)).state;
            reply == (if LastBegun(ops) == Some((taskId, lineId, attemptId)) then Yes else No)
            && (reply == Yes ==> s == ResumeState(taskId, lineId, attemptId, MarksSince(ops) % TWO64, FrameSince(ops),
                                                  AckedSince(ops), RUNNING, false, CommittedSince(ops)))
  {
    hide Consistent, StateText, LoadText, LastBegun, MarksSince, AckedSince, FrameSince, PhaseSince, CommittedSince, TrackAll;
    DisciplinedRunsTellAll(ops);
    var before := TrackAll(FirstProcessState(), ops);
    var r := Track(before, Restart);
    TrackKeeps(before, Restart);
    ResumeAnswersExactly(r, taskId, lineId, attemptId);
  }
}

// The attempt state machine over its state file, and what holds over whole
// runs of transitions and process restarts.
module ProcessingMachine {
  import opened Bytes
  import opened ProcessingState

  datatype Machine = Machine(state: ResumeState, file: Option<string>)

  // How a save ends: the whole text written, the file not opened, or the text
  // torn after some characters.
  datatype SaveOutcome = Saved | Refused | Torn(chars: nat)

  function SavedFile(m: Machine, outcome: SaveOutcome): Option<string> {
    match outcome
    case Saved => Some(StateText(m.state))
    case Refused => m.file
    case Torn(k) =>
      var text := StateText(m.state);
      Some(text[..if k < |text| then k else |text|])
  }

  function Marked(s: ResumeState, frameSeq: u64): ResumeState {
    s.(frameIndex := (s.frameIndex + 1) % TWO64, lastFrameSeq := frameSeq, phase := RUNNING, aborted := false)
  }

  function Checkpointed(s: ResumeState, lastAcked: u64, lastFrameSeq: u64, finalized: bool): ResumeState {
    s.(lastAckedFrameSeq := lastAcked,
       lastFrameSeq := if lastFrameSeq != 0 then lastFrameSeq else s.lastFrameSeq,
       phase := if finalized then COMMITTED else RUNNING, committed := finalized, aborted := false)
  }

  function Aborted(s: ResumeState): ResumeState {
    s.(phase := ABORTED, aborted := true, committed := false)
  }

  function Committed(s: ResumeState): ResumeState {
    s.(phase := COMMITTED, committed := true, aborted := false)
  }

  function Resumed(s: ResumeState): ResumeState {
    s.(phase := RUNNING, aborted := false)
  }

  // The answer of loadState and resumeFromDisk; Threw is an uncaught exception.
  datatype Reply = Yes | No | Exception

  function LoadReply(m: Machine): Reply {
    match m.file
    case None => No
    case Some(text) =>
      match LoadText(text)
      case Loaded(_) => Yes
      case KeyMissing => No
      case Threw => Exception
  }

  // In memory a load replaces the whole state or nothing.
  function AfterLoad(m: Machine): Machine {
    if LoadReply(m) == Yes then m.(state := LoadText(m.file.value).state) else m
  }

  predicate Accepts(s: ResumeState, taskId: u64, lineId: u32, attemptId: u32) {
    s.taskId == taskId && !IsStaleFor(s, lineId, attemptId)
  }

  lemma OneMoreLine(values: Values, rest: string)
    requires rest != ""
    ensures var n := Find(rest, '\n');
            TakeLines(values, Lines(rest))
            == TakeLines(TakeLine(values, rest[..n]), Lines(if n == |rest| then "" else rest[n + 1..]))
  {
    var n := Find(rest, '\n');
    if n < |rest| {
      assert ([rest[..n]] + Lines(rest[n + 1..]))[1..] == Lines(rest[n + 1..]);
    } else {
      assert rest[..n] == rest;
      assert [rest][1..] == [];
    }
  }

  // The getline loop.
  method ReadValues(text: string) returns (values: Values)
    ensures values == ValuesOf(text)
  {
    hide TakeLine;
    values := map[];
    var rest := text;
    while rest != ""
      invariant TakeLines(values, Lines(rest)) == ValuesOf(text)
      decreases |rest|
    {
      OneMoreLine(values, rest);
      var n := Find(rest, '\n');
      var line := rest[..n];
      rest := if n == |rest| then "" else rest[n + 1..];
      values := TakeLine(values, line);
    }
  }

  class ProcessingStateMachine {
    var state: ResumeState
    var file: Option<string>

    ghost function View(): Machine
      reads this
    {
      Machine(state, file)
    }

    constructor (file: Option<string>)
      ensures View() == Machine(BeginNew(0, 0, 0), file)
    {
      this.file := file;
      state := BeginNew(0, 0, 0);
    }

    method SaveState(outcome: SaveOutcome) returns (ok: bool)
      modifies this`file
      ensures View() == old(View()).(file := SavedFile(old(View()), outcome)) && ok == outcome.Saved?
    {
      hide Line;
      if outcome.Refused? {
        return false;
      }
      var fields := FieldsOf(state);
      var out := "";
      var i := 0;
      assert fields[0..] == fields;
      while i < 9
        invariant 0 <= i <= 9 && out + Text(fields[i..]) == StateText(state)
        invariant View() == old(View())
      {
        assert fields[i..][1..] == fields[i + 1..];
        assert out + (Line(fields[i]) + "\n" + Text(fields[i + 1..])) == (out + Line(fields[i]) + "\n") + Text(fields[i + 1..]);
        out := out + Line(fields[i]) + "\n";
        i := i + 1;
      }
      assert fields[9..] == [] && out + "" == out;
      if outcome.Torn? {
        file := Some(out[..if outcome.chars < |out| then outcome.chars else |out|]);
        return false;
      }
      file := Some(out);
      return true;
    }

    method LoadState() returns (reply: Reply)
      modifies this`state
      ensures View() == AfterLoad(old(View())) && reply == LoadReply(old(View()))
    {
      if file.None? {
        return No;
      }
      var values := ReadValues(file.value);
      var failure := FirstBad(values, 0);
      NoneBad(values, 0);
      if failure.Some? {
        return if failure.value.KeyMissing? then No else Exception;
      }
      state := StateFrom(values);
      return Yes;
    }

    method BeginLine(taskId: u64, lineId: u32, attemptId: u32, outcome: SaveOutcome) returns (ok: bool)
      modifies this
      ensures state == BeginNew(taskId, lineId, attemptId) && ok == outcome.Saved?
      ensures file == SavedFile(Machine(state, old(file)), outcome)
    {
      state := BeginNew(taskId, lineId, attemptId);
      ok := SaveState(outcome);
    }

    method MarkFrameSent(frameSeq: u64, outcome: SaveOutcome) returns (ok: bool)
      modifies this
      ensures state == Marked(old(state), frameSeq) && ok == outcome.Saved?
      ensures file == SavedFile(Machine(state, old(file)), outcome)
    {
      var frameIndex := (state.frameIndex + 1) % TWO64;
      state := state.(frameIndex := frameIndex);
      state := state.(lastFrameSeq := frameSeq);
      state := state.(phase := RUNNING);
      state := state.(aborted := false);
      ok := SaveState(outcome);
    }

    method Checkpoint(lastAcked: u64, lastFrameSeq: u64, finalized: bool, outcome: SaveOutcome) returns (ok: bool)
      modifies this
      ensures state == Checkpointed(old(state), lastAcked, lastFrameSeq, finalized) && ok == outcome.Saved?
      ensures file == SavedFile(Machine(state, old(file)), outcome)
    {
      state := state.(lastAckedFrameSeq := lastAcked);
      if lastFrameSeq != 0 {
        state := state.(lastFrameSeq := lastFrameSeq);
      }
      state := state.(phase := if finalized then COMMITTED else RUNNING);
      state := state.(committed := finalized);
      state := state.(aborted := false);
      ok := SaveState(outcome);
    }

    method AbortCurrentAttempt(outcome: SaveOutcome) returns (ok: bool)
      modifies this
      ensures state == Aborted(old(state)) && ok == outcome.Saved?
      ensures file == SavedFile(Machine(state, old(file)), outcome)
    {
      state := state.(phase := ABORTED);
      state := state.(aborted := true);
      state := state.(committed := false);
      ok := SaveState(outcome);
    }

    method CommitCurrentAttempt(outcome: SaveOutcome) returns (ok: bool)
      modifies this
      ensures state == Committed(old(state)) && ok == outcome.Saved?
      ensures file == SavedFile(Machine(state, old(file)), outcome)
    {
      state := state.(phase := COMMITTED);
      state := state.(committed := true);
      state := state.(aborted := false);
      ok := SaveState(outcome);
    }

    method ResumeFromDisk(taskId: u64, lineId: u32, attemptId: u32, outcome: SaveOutcome) returns (reply: Reply)
      modifies this
      ensures var loaded := AfterLoad(old(View()));
              if LoadReply(old(View())) != Yes then View() == old(View()) && reply == LoadReply(old(View()))
              else if !Accepts(loaded.state, taskId, lineId, attemptId) then View() == loaded && reply == No
              else state == Resumed(loaded.state) && file == SavedFile(Machine(state, old(file)), outcome)
                   && reply == if outcome.Saved? then Yes else No
    {
      reply := LoadState();
      if reply != Yes {
        return;
      }
      if state.taskId != taskId || IsStaleFor(state, lineId, attemptId) {
        return No;
      }
      state := state.(phase := RUNNING);
      state := state.(aborted := false);
      var ok := SaveState(outcome);
      return if ok then Yes else No;
    }
  }

  // Any one operation, its save succeeding; Restart is a new process over the
  // same file.
  method Perform(m: ProcessingStateMachine, op: Op)
    modifies m
    ensures m.View() == Step(old(m.View()), op)
  {
    hide StateText, LoadText;
    match op {
      case Begin(t, l, a) => var _ := m.BeginLine(t, l, a, Saved);
      case Mark(n) => var _ := m.MarkFrameSent(n, Saved);
      case Checkpoint(acked, last, fin) => var _ := m.Checkpoint(acked, last, fin, Saved);
      case Abort => var _ := m.AbortCurrentAttempt(Saved);
      case Commit => var _ := m.CommitCurrentAttempt(Saved);
      case Resume(t, l, a) => var _ := m.ResumeFromDisk(t, l, a, Saved);
      case Restart => m.state := BeginNew(0, 0, 0);
    }
  }

  // ---- Runs ---------------------------------------------------------------

  datatype Op =
    | Begin(taskId: u64, lineId: u32, attemptId: u32)
    | Mark(frameSeq: u64)
    | Checkpoint(lastAcked: u64, lastFrameSeq: u64, finalized: bool)
    | Abort
    | Commit
    | Resume(taskId: u64, lineId: u32, attemptId: u32)
    | Restart

  function Save(m: Machine): Machine {
    m.(file := SavedFile(m, Saved))
  }

  function ResumeReply(m: Machine, taskId: u64, lineId: u32, attemptId: u32): Reply {
    if LoadReply(m) != Yes then LoadReply(m)
    else if Accepts(AfterLoad(m).state, taskId, lineId, attemptId) then Yes else No
  }

  // One operation whose save, if it makes one, succeeds.
  function Step(m: Machine, op: Op): Machine {
    match op
    case Begin(t, l, a) => Save(m.(state := BeginNew(t, l, a)))
    case Mark(n) => Save(m.(state := Marked(m.state, n)))
    case Checkpoint(acked, last, fin) => Save(m.(state := Checkpointed(m.state, acked, last, fin)))
    case Abort => Save(m.(state := Aborted(m.state)))
    case Commit => Save(m.(state := Committed(m.state)))
    case Resume(t, l, a) =>
      var loaded := AfterLoad(m);
      if ResumeReply(m, t, l, a) == Yes then Save(loaded.(state := Resumed(loaded.state))) else loaded
    case Restart => m.(state := BeginNew(0, 0, 0))
  }

  // saved is the state behind the file.
  datatype Tracked = Tracked(m: Machine, saved: Option<ResumeState>)

  function Track(r: Tracked, op: Op): Tracked {
    var m := Step(r.m, op);
    match op
    case Restart => Tracked(m, r.saved)
    case Resume(t, l, a) => Tracked(m, if ResumeReply(r.m, t, l, a) == Yes then Some(m.state) else r.saved)
    case _ => Tracked(m, Some(m.state))
  }

  function TrackAll(r: Tracked, ops: seq<Op>): Tracked
    decreases |ops|
  {
    if ops == [] then r else TrackAll(Track(r, ops[0]), ops[1..])
  }

  predicate Coherent(s: ResumeState) {
    (s.aborted <==> s.phase == ABORTED) && (s.phase == COMMITTED ==> s.committed)
  }

  ghost predicate Consistent(r: Tracked) {
    && (r.saved.None? ==> r.m.file.None?)
    && (r.saved.Some? ==> r.m.file == Some(StateText(r.saved.value)) && Coherent(r.saved.value))
  }

  type Identity = (u64, u32, u32)

  function IdentityOf(s: ResumeState): Identity {
    (s.taskId, s.lineId, s.attemptId)
  }

  function SavedIdentity(r: Tracked): Option<Identity> {
    if r.saved.Some? then Some(IdentityOf(r.saved.value)) else None
  }

  // The operations that save what is in memory over what is on disk.
  predicate Writes(op: Op) {
    op.Mark? || op.Checkpoint? || op.Abort? || op.Commit?
  }

  // Memory and disk are about the same attempt, or the same point of it. A
  // process can check this before it calls.
  predicate SameAttempt(r: Tracked) {
    r.saved.Some? && IdentityOf(r.m.state) == IdentityOf(r.saved.value)
  }

  predicate SamePoint(r: Tracked) {
    SameAttempt(r) && r.m.state.frameIndex == r.saved.value.frameIndex
  }

  // A resume is answered yes exactly for the attempt on disk, never by an
  // exception, and a refused one leaves the disk alone.
  lemma ResumeAnswersExactly(r: Tracked, taskId: u64, lineId: u32, attemptId: u32)
    requires Consistent(r)
    ensures ResumeReply(r.m, taskId, lineId, attemptId) == Yes
            <==> r.saved.Some? && IdentityOf(r.saved.value) == (taskId, lineId, attemptId)
    ensures ResumeReply(r.m, taskId, lineId, attemptId) != Exception
    ensures ResumeReply(r.m, taskId, lineId, attemptId) != Yes ==>
              Step(r.m, Resume(taskId, lineId, attemptId)).file == r.m.file
    ensures r.saved.Some? ==> AfterLoad(r.m).state == r.saved.value
    ensures r.saved.None? ==> AfterLoad(r.m) == r.m
  {
    hide StateText, LoadText;
    if r.saved.Some? {
      TextRoundTrip(r.saved.value);
    }
  }

  lemma TrackKeeps(r: Tracked, op: Op)
    requires Consistent(r)
    ensures Consistent(Track(r, op))
  {
    hide StateText, LoadText;
    if op.Resume? {
      ResumeAnswersExactly(r, op.taskId, op.lineId, op.attemptId);
    }
  }

  // Main result: over every run of transitions, resumes and restarts whose
  // saves succeed, in any order, the file holds the state last saved, in which
  // aborted holds exactly in phase Aborted and Committed implies committed.
  lemma {:induction false} RunsStayCoherent(r: Tracked, ops: seq<Op>)
    requires Consistent(r)
    ensures Consistent(TrackAll(r, ops))
    decreases |ops|
  {
    hide Consistent, Track;
    if ops != [] {
      TrackKeeps(r, ops[0]);
      RunsStayCoherent(Track(r, ops[0]), ops[1..]);
    }
  }

  // ---- When the attempt on disk survives ----------------------------------

  // A write keeps the attempt on disk exactly when memory is about it.
  lemma WriteKeepsAttemptIff(r: Tracked, op: Op)
    requires Consistent(r) && Writes(op)
    ensures SavedIdentity(Track(r, op)) == SavedIdentity(r) <==> SameAttempt(r)
  {
    hide StateText, LoadText;
  }

  // Right after a restart that is the case only for the empty attempt: a mark,
  // checkpoint, abort or commit there replaces any other, and no resume for it
  // succeeds any more.
  lemma WriteAfterRestartIff(r: Tracked, op: Op)
    requires Consistent(r) && Writes(op)
    ensures var t := Track(Track(r, Restart), op);
            SavedIdentity(t) == SavedIdentity(r) <==> SavedIdentity(r) == Some((0, 0, 0))
    ensures var t := Track(Track(r, Restart), op);
            r.saved.Some? && IdentityOf(r.saved.value) != (0, 0, 0) ==>
              ResumeReply(t.m, r.saved.value.taskId, r.saved.value.lineId, r.saved.value.attemptId) == No
  {
    hide StateText, LoadText;
    var b := Track(r, Restart);
    TrackKeeps(r, Restart);
    TrackKeeps(b, op);
    WriteKeepsAttemptIff(b, op);
    if r.saved.Some? {
      ResumeAnswersExactly(Track(b, op), r.saved.value.taskId, r.saved.value.lineId, r.saved.value.attemptId);
    }
  }

  // Memory holds exactly what the disk does.
  predicate InStep(r: Tracked) {
    r.saved.Some? && r.m.state == r.saved.value
  }

  // Beginning an attempt, or any resume that finds a file, accepted or refused,
  // puts memory in step with the disk, and everything but a restart keeps it
  // so: a process that has begun or loaded once may write.
  lemma InStepSince(r: Tracked, op: Op)
    requires Consistent(r)
    ensures op.Begin? || (op.Resume? && r.saved.Some?) ==> InStep(Track(r, op))
    ensures InStep(r) && !op.Restart? ==> InStep(Track(r, op))
    ensures InStep(r) ==> SamePoint(r)
  {
    hide StateText, LoadText;
    if op.Resume? {
      ResumeAnswersExactly(r, op.taskId, op.lineId, op.attemptId);
    }
  }

  // What the operations themselves say: the attempt last begun, and how many
  // frames were marked since.
  datatype Story = Story(last: Option<Identity>, marks: nat)

  function Told(op: Op, story: Story): Story {
    match op
    case Begin(t, l, a) => Story(Some((t, l, a)), 0)
    case Mark(_) => story.(marks := story.marks + 1)
    case _ => story
  }

  // The disk is about the attempt last begun, and its frameIndex counts the
  // frames marked since, modulo 2^64.
  predicate DiskTells(r: Tracked, story: Story) {
    SavedIdentity(r) == story.last
    && (r.saved.Some? ==> r.saved.value.frameIndex == story.marks % TWO64)
  }

  predicate AlwaysTells(r: Tracked, ops: seq<Op>, story: Story)
    decreases |ops|
  {
    DiskTells(r, story)
    && (ops == [] || AlwaysTells(Track(r, ops[0]), ops[1..], Told(ops[0], story)))
  }

  // Every write is made with memory at the point the disk is at.
  predicate AlwaysSamePoint(r: Tracked, ops: seq<Op>)
    decreases |ops|
  {
    ops == [] || ((Writes(ops[0]) ==> SamePoint(r)) && AlwaysSamePoint(Track(r, ops[0]), ops[1..]))
  }

  lemma SuccessorAgrees(a: u64, marks: nat)
    ensures (a + 1) % TWO64 == (marks + 1) % TWO64 <==> a == marks % TWO64
  {
    var b := marks % TWO64;
    ModSuccessor(marks);
    ModSuccessor(a);
    ModSmall(a, TWO64);
  }

  lemma ModSuccessor(n: nat)
    ensures (n + 1) % TWO64 == if n % TWO64 == TWO64 - 1 then 0 else n % TWO64 + 1
  {
  }

  lemma TellsStep(r: Tracked, op: Op, story: Story)
    requires Consistent(r) && DiskTells(r, story)
    ensures DiskTells(Track(r, op), Told(op, story)) <==> (Writes(op) ==> SamePoint(r))
  {
    hide StateText, LoadText;
    match op {
      case Resume(t, l, a) => ResumeAnswersExactly(r, t, l, a);
      case Mark(n) => SuccessorAgrees(r.m.state.frameIndex, story.marks);
      case _ =>
    }
  }

  // Main result: the file tells, after every operation of a run and across any
  // resumes and restarts, the attempt last begun and the number of frames
  // marked since, exactly when every mark, checkpoint, abort and commit is made
  // with memory at the attempt and frame count that are on disk.
  lemma {:induction false} DiskTellsIff(r: Tracked, ops: seq<Op>, story: Story)
    requires Consistent(r) && DiskTells(r, story)
    ensures AlwaysTells(r, ops, story) <==> AlwaysSamePoint(r, ops)
    decreases |ops|
  {
    hide Consistent, Track, DiskTells, SamePoint;
    if ops != [] {
      TrackKeeps(r, ops[0]);
      TellsStep(r, ops[0], story);
      var next := Track(r, ops[0]);
      if DiskTells(next, Told(ops[0], story)) {
        DiskTellsIff(next, ops[1..], Told(ops[0], story));
      }
    }
  }

  // ---- Old attempts -------------------------------------------------------

  // No resume for another attempt than this one succeeds or touches the disk,
  // now or after any of the operations.
  ghost predicate OthersDead(r: Tracked, ops: seq<Op>, id: Identity)
    decreases |ops|
  {
    AttemptsDead(r, id) && (ops == [] || OthersDead(Track(r, ops[0]), ops[1..], id))
  }

  ghost predicate AttemptsDead(r: Tracked, id: Identity) {
    forall taskId: u64, lineId: u32, attemptId: u32 :: (taskId, lineId, attemptId) != id ==>
      ResumeReply(r.m, taskId, lineId, attemptId) == No
      && Step(r.m, Resume(taskId, lineId, attemptId)).file == r.m.file
  }

  predicate AlwaysSameAttempt(r: Tracked, ops: seq<Op>)
    decreases |ops|
  {
    ops == [] || ((Writes(ops[0]) ==> SameAttempt(r)) && AlwaysSameAttempt(Track(r, ops[0]), ops[1..]))
  }

  lemma DeadIff(r: Tracked, id: Identity)
    requires Consistent(r) && r.saved.Some?
    ensures AttemptsDead(r, id) <==> IdentityOf(r.saved.value) == id
  {
    hide StateText, LoadText, Step, ResumeReply;
    var own := IdentityOf(r.saved.value);
    ResumeAnswersExactly(r, own.0, own.1, own.2);
    forall taskId: u64, lineId: u32, attemptId: u32 | (taskId, lineId, attemptId) != own
      ensures ResumeReply(r.m, taskId, lineId, attemptId) == No
           && Step(r.m, Resume(taskId, lineId, attemptId)).file == r.m.file
    {
      ResumeAnswersExactly(r, taskId, lineId, attemptId);
    }
  }

  // Main result: once an attempt is on disk, and while no other is begun, every
  // other attempt stays dead through any resumes and restarts, exactly when
  // every mark, checkpoint, abort and commit is made with memory about the
  // attempt on disk.
  lemma {:induction false} OldAttemptsAreDead(r: Tracked, ops: seq<Op>, id: Identity)
    requires Consistent(r) && SavedIdentity(r) == Some(id)
    requires forall op :: op in ops ==> !op.Begin?
    ensures OthersDead(r, ops, id) <==> AlwaysSameAttempt(r, ops)
    decreases |ops|
  {
    hide Consistent, Track, AttemptsDead, Writes;
    DeadIff(r, id);
    if ops != [] {
      assert ops[0] in ops;
      var next := Track(r, ops[0]);
      TrackKeeps(r, ops[0]);
      AttemptStep(r, ops[0]);
      if SavedIdentity(next) == Some(id) {
        OldAttemptsAreDead(next, ops[1..], id);
      } else {
        DeadIff(next, id);
      }
    }
  }

  lemma AttemptStep(r: Tracked, op: Op)
    requires Consistent(r) && r.saved.Some? && !op.Begin?
    ensures Track(r, op).saved.Some?
    ensures SavedIdentity(Track(r, op)) == SavedIdentity(r) <==> (Writes(op) ==> SameAttempt(r))
  {
    hide StateText, LoadText;
    match op {
      case Resume(t, l, a) => ResumeAnswersExactly(r, t, l, a);
      case Restart =>
      case _ => WriteKeepsAttemptIff(r, op);
    }
  }

  // Beginning an attempt puts it on disk, whatever was there.
  lemma BeginPutsOnDisk(r: Tracked, taskId: u64, lineId: u32, attemptId: u32)
    requires Consistent(r)
    ensures var b := Track(r, Begin(taskId, lineId, attemptId));
            Consistent(b) && SavedIdentity(b) == Some((taskId, lineId, attemptId)) && InStep(b)
            && DiskTells(b, Story(Some((taskId, lineId, attemptId)), 0))
  {
    hide StateText, LoadText;
    TrackKeeps(r, Begin(taskId, lineId, attemptId));
  }

  // A machine over no file yet, as a first process finds it.
  lemma FirstProcess()
    ensures var r := Tracked(Machine(BeginNew(0, 0, 0), None), None);
            Consistent(r) && DiskTells(r, Story(None, 0))
  {
  }
}

// The crash-resumable attempt state: nine key=value lines on disk, rewritten
// after every transition and parsed back after a restart.
module ProcessingState {
  import opened Bytes
  import opened Decimal

  const RUNNING: byte := 1
  const ABORTED: byte := 2
  const COMMITTED: byte := 3

  datatype ResumeState = ResumeState(
    taskId: u64, lineId: u32, attemptId: u32, frameIndex: u64, lastFrameSeq: u64, lastAckedFrameSeq: u64,
    phase: byte, aborted: bool, committed: bool)

  function BeginNew(taskId: u64, lineId: u32, attemptId: u32): ResumeState {
    ResumeState(taskId, lineId, attemptId, 0, 0, 0, RUNNING, false, false)
  }

  predicate Matches(s: ResumeState, lineId: u32, attemptId: u32) {
    s.lineId == lineId && s.attemptId == attemptId
  }

  predicate IsStaleFor(s: ResumeState, lineId: u32, attemptId: u32) {
    !Matches(s, lineId, attemptId)
  }

  // ---- Writing ------------------------------------------------------------

  type Fields = seq<(string, string)>

  function Line(f: (string, string)): string {
    f.0 + "=" + f.1
  }

  function Text(fields: Fields): string {
    if fields == [] then "" else Line(fields[0]) + "\n" + Text(fields[1..])
  }

  function BoolText(b: bool): string {
    Print(if b then 1 else 0)
  }

  const KEYS: seq<string> :=
    ["taskId", "lineId", "attemptId", "frameIndex", "lastFrameSeq", "lastAckedFrameSeq", "phase", "aborted", "committed"]

  function FieldsOf(s: ResumeState): (fields: Fields)
    ensures |fields| == 9
  {
    [("taskId", Print(s.taskId)), ("lineId", Print(s.lineId)), ("attemptId", Print(s.attemptId)),
     ("frameIndex", Print(s.frameIndex)), ("lastFrameSeq", Print(s.lastFrameSeq)),
     ("lastAckedFrameSeq", Print(s.lastAckedFrameSeq)), ("phase", Print(s.phase)),
     ("aborted", BoolText(s.aborted)), ("committed", BoolText(s.committed))]
  }

  function StateText(s: ResumeState): string {
    Text(FieldsOf(s))
  }

  // ---- Reading ------------------------------------------------------------

  // Position of the first c, or the length of the text.
  function Find(s: string, c: char): (n: nat)
    ensures n <= |s|
    ensures forall i :: 0 <= i < n ==> s[i] != c
    ensures n < |s| ==> s[n] == c
  {
    if s == "" || s[0] == c then 0 else 1 + Find(s[1..], c)
  }

  // std::getline until the stream is exhausted.
  function Lines(text: string): seq<string>
    decreases |text|
  {
    if text == "" then []
    else
      var n := Find(text, '\n');
      if n == |text| then [text] else [text[..n]] + Lines(text[n + 1..])
  }

  type Values = map<string, string>

  function TakeLine(values: Values, line: string): Values {
    var pos := Find(line, '=');
    if pos == |line| then values else values[line[..pos] := line[pos + 1..]]
  }

  function TakeLines(values: Values, lines: seq<string>): Values
    decreases |lines|
  {
    if lines == [] then values else TakeLines(TakeLine(values, lines[0]), lines[1..])
  }

  function ValuesOf(text: string): Values {
    TakeLines(map[], Lines(text))
  }

  // loadState: a missing key is reported, an unreadable number throws.
  datatype LoadResult = Loaded(state: ResumeState) | KeyMissing | Threw

  datatype Field = Absent | Unreadable | Number(value: int)

  function U64Field(values: Values, key: string): Field {
    if key !in values then Absent
    else
      match Stoull(values[key])
      case None => Unreadable
      case Some(v) => Number(v)
  }

  // stoul yields 64 bits, the cast keeps 32.
  function U32Field(values: Values, key: string): Field {
    match U64Field(values, key)
    case Number(v) => Number(v % TWO32)
    case other => other
  }

  function IntField(values: Values, key: string): Field {
    if key !in values then Absent
    else
      match Stoi(values[key])
      case None => Unreadable
      case Some(v) => Number(v)
  }

  function FieldAt(values: Values, i: nat): Field
    requires i < 9
  {
    if i == 1 || i == 2 then U32Field(values, KEYS[i])
    else if i < 6 then U64Field(values, KEYS[i])
    else IntField(values, KEYS[i])
  }

  // The first field, in reading order, that cannot be used.
  function FirstBad(values: Values, i: nat): Option<LoadResult>
    requires i <= 9
    decreases 9 - i
  {
    if i == 9 then None
    else
      match FieldAt(values, i)
      case Absent => Some(KeyMissing)
      case Unreadable => Some(Threw)
      case Number(_) => FirstBad(values, i + 1)
  }

  lemma {:induction false} NoneBad(values: Values, i: nat)
    requires i <= 9
    ensures FirstBad(values, i).None? <==> forall k :: i <= k < 9 ==> FieldAt(values, k).Number?
    ensures FirstBad(values, i).Some? ==> !FirstBad(values, i).value.Loaded?
    decreases 9 - i
  {
    if i < 9 {
      NoneBad(values, i + 1);
    }
  }

  function StateFrom(values: Values): ResumeState
    requires forall k :: 0 <= k < 9 ==> FieldAt(values, k).Number?
  {
    assert forall k :: 0 <= k < 9 ==> FieldAt(values, k).Number?;
    assert FieldAt(values, 0).Number? && FieldAt(values, 1).Number? && FieldAt(values, 2).Number?
        && FieldAt(values, 3).Number? && FieldAt(values, 4).Number? && FieldAt(values, 5).Number?
        && FieldAt(values, 6).Number? && FieldAt(values, 7).Number? && FieldAt(values, 8).Number?;
    ResumeState(FieldAt(values, 0).value, FieldAt(values, 1).value, FieldAt(values, 2).value,
                FieldAt(values, 3).value, FieldAt(values, 4).value, FieldAt(values, 5).value,
                FieldAt(values, 6).value % 256, FieldAt(values, 7).value != 0, FieldAt(values, 8).value != 0)
  }

  function LoadText(text: string): LoadResult {
    var values := ValuesOf(text);
    match FirstBad(values, 0)
    case Some(failure) => failure
    case None => NoneBad(values, 0); Loaded(StateFrom(values))
  }

  // Loading succeeds exactly when all nine keys are there with readable numbers.
  lemma LoadsIff(text: string)
    ensures LoadText(text).Loaded? <==> forall k :: 0 <= k < 9 ==> FieldAt(ValuesOf(text), k).Number?
    ensures forall k :: 0 <= k < 9 && KEYS[k] !in ValuesOf(text) ==> !LoadText(text).Loaded?
  {
    NoneBad(ValuesOf(text), 0);
    forall k | 0 <= k < 9 && KEYS[k] !in ValuesOf(text) ensures !LoadText(text).Loaded? {
      assert FieldAt(ValuesOf(text), k) == Absent;
    }
  }

  // ---- Round trip ---------------------------------------------------------

  ghost predicate CleanField(f: (string, string)) {
    '=' !in f.0 && '\n' !in f.0 && '\n' !in f.1
  }

  ghost predicate Clean(fields: Fields) {
    forall i :: 0 <= i < |fields| ==> CleanField(fields[i])
  }

  function Entered(values: Values, fields: Fields): Values
    decreases |fields|
  {
    if fields == [] then values else Entered(values[fields[0].0 := fields[0].1], fields[1..])
  }

  lemma {:induction false} FindAt(s: string, c: char, n: nat)
    requires n < |s| && s[n] == c && forall i :: 0 <= i < n ==> s[i] != c
    ensures Find(s, c) == n
  {
  }

  lemma FirstLineSplits(line: string, rest: string)
    requires '\n' !in line
    ensures Lines(line + "\n" + rest) == [line] + Lines(rest)
  {
    var text := line + "\n" + rest;
    assert forall i :: 0 <= i < |line| ==> text[i] == line[i];
    FindAt(text, '\n', |line|);
    assert text[..|line|] == line && text[|line| + 1..] == rest;
  }

  lemma LineEnters(values: Values, f: (string, string))
    requires CleanField(f)
    ensures TakeLine(values, Line(f)) == values[f.0 := f.1]
  {
    var line := Line(f);
    assert forall i :: 0 <= i < |f.0| ==> line[i] == f.0[i];
    FindAt(line, '=', |f.0|);
    assert line[..|f.0|] == f.0 && line[|f.0| + 1..] == f.1;
  }

  lemma LineIsClean(f: (string, string))
    requires CleanField(f)
    ensures '\n' !in Line(f)
  {
  }

  lemma {:induction false} TextEnters(values: Values, fields: Fields, rest: string)
    requires Clean(fields)
    ensures TakeLines(values, Lines(Text(fields) + rest)) == TakeLines(Entered(values, fields), Lines(rest))
    decreases |fields|
  {
    if fields == [] {
      assert Text(fields) + rest == rest;
    } else {
      var f, later := fields[0], Text(fields[1..]) + rest;
      LineIsClean(f);
      assert Text(fields) + rest == Line(f) + "\n" + later;
      FirstLineSplits(Line(f), later);
      LineEnters(values, f);
      assert ([Line(f)] + Lines(later))[1..] == Lines(later);
      TextEnters(values[f.0 := f.1], fields[1..], rest);
    }
  }

  lemma {:induction false} EnteredAt(values: Values, fields: Fields, i: nat)
    requires i < |fields|
    requires forall a, b :: 0 <= a < b < |fields| ==> fields[a].0 != fields[b].0
    ensures fields[i].0 in Entered(values, fields) && Entered(values, fields)[fields[i].0] == fields[i].1
    decreases |fields|
  {
    if i == 0 {
      EnteredElsewhere(values[fields[0].0 := fields[0].1], fields[1..], fields[0].0);
    } else {
      EnteredAt(values[fields[0].0 := fields[0].1], fields[1..], i - 1);
    }
  }

  lemma {:induction false} EnteredElsewhere(values: Values, fields: Fields, key: string)
    requires forall a :: 0 <= a < |fields| ==> fields[a].0 != key
    ensures key in Entered(values, fields) <==> key in values
    ensures key in values ==> Entered(values, fields)[key] == values[key]
    decreases |fields|
  {
    if fields != [] {
      EnteredElsewhere(values[fields[0].0 := fields[0].1], fields[1..], key);
    }
  }

  lemma PrintedHasNoBreaks(n: nat)
    ensures '\n' !in Print(n) && '=' !in Print(n)
  {
    PrintedValue(n);
  }

  lemma KeysDiffer()
    ensures forall a, b :: 0 <= a < b < 9 ==> KEYS[a] != KEYS[b]
    ensures forall a :: 0 <= a < 9 ==> '=' !in KEYS[a] && '\n' !in KEYS[a]
  {
    assert |KEYS[0]| == 6 && |KEYS[1]| == 6 && |KEYS[2]| == 9 && |KEYS[3]| == 10 && |KEYS[4]| == 12;
    assert |KEYS[5]| == 17 && |KEYS[6]| == 5 && |KEYS[7]| == 7 && |KEYS[8]| == 9;
    assert KEYS[0][0] == 't' && KEYS[1][0] == 'l' && KEYS[2][0] == 'a' && KEYS[8][0] == 'c';
    forall a, b | 0 <= a < b < 9 ensures KEYS[a] != KEYS[b] {
      assert |KEYS[a]| != |KEYS[b]| || KEYS[a][0] != KEYS[b][0];
    }
  }

  lemma FieldsAreClean(s: ResumeState)
    ensures Clean(FieldsOf(s))
    ensures forall i :: 0 <= i < 9 ==> FieldsOf(s)[i].0 == KEYS[i]
  {
    KeysDiffer();
    PrintedHasNoBreaks(s.taskId); PrintedHasNoBreaks(s.lineId); PrintedHasNoBreaks(s.attemptId);
    PrintedHasNoBreaks(s.frameIndex); PrintedHasNoBreaks(s.lastFrameSeq); PrintedHasNoBreaks(s.lastAckedFrameSeq);
    PrintedHasNoBreaks(s.phase); PrintedHasNoBreaks(0); PrintedHasNoBreaks(1);
    var fields := FieldsOf(s);
    forall i | 0 <= i < 9 ensures fields[i].0 == KEYS[i] && CleanField(fields[i]) {
    }
  }

  ghost predicate Recorded(values: Values, s: ResumeState) {
    forall i :: 0 <= i < 9 ==> KEYS[i] in values && values[KEYS[i]] == FieldsOf(s)[i].1
  }

  lemma RecordedU64(values: Values, key: string, n: u64)
    requires key in values && values[key] == Print(n)
    ensures U64Field(values, key) == Number(n)
  {
    StoullPrint(n);
  }

  lemma RecordedInt(values: Values, key: string, n: nat)
    requires key in values && values[key] == Print(n) && n < 256
    ensures IntField(values, key) == Number(n)
  {
    StoiPrint(n);
  }

  lemma RecordedLoads(values: Values, s: ResumeState)
    requires Recorded(values, s)
    ensures forall k :: 0 <= k < 9 ==> FieldAt(values, k).Number?
    ensures StateFrom(values) == s
  {
    hide U64Field, IntField, Print;
    RecordedU64(values, KEYS[0], s.taskId);
    RecordedU64(values, KEYS[1], s.lineId);
    RecordedU64(values, KEYS[2], s.attemptId);
    RecordedU64(values, KEYS[3], s.frameIndex);
    RecordedU64(values, KEYS[4], s.lastFrameSeq);
    RecordedU64(values, KEYS[5], s.lastAckedFrameSeq);
    RecordedInt(values, KEYS[6], s.phase);
    RecordedInt(values, KEYS[7], if s.aborted then 1 else 0);
    RecordedInt(values, KEYS[8], if s.committed then 1 else 0);
  }

  lemma EnteredRecords(s: ResumeState)
    ensures Recorded(Entered(map[], FieldsOf(s)), s)
  {
    KeysDiffer();
    FieldsAreClean(s);
    forall i | 0 <= i < 9
      ensures KEYS[i] in Entered(map[], FieldsOf(s)) && Entered(map[], FieldsOf(s))[KEYS[i]] == FieldsOf(s)[i].1
    {
      EnteredAt(map[], FieldsOf(s), i);
    }
  }

  // loadState after saveState restores every state exactly.
  lemma TextRoundTrip(s: ResumeState)
    ensures LoadText(StateText(s)) == Loaded(s)
  {
    var values := ValuesOf(StateText(s));
    FieldsAreClean(s);
    assert StateText(s) + "" == StateText(s);
    TextEnters(map[], FieldsOf(s), "");
    EnteredRecords(s);
    RecordedLoads(values, s);
    NoneBad(values, 0);
  }

  // ---- A save torn after any character ------------------------------------

  lemma {:induction false} TornTextKeys(values: Values, fields: Fields, k: nat, key: string)
    requires Clean(fields) && k <= |Text(fields)|
    requires key !in values && forall i :: 0 <= i < |fields| ==> fields[i].0 != key
    ensures key !in TakeLines(values, Lines(Text(fields)[..k]))
    decreases |fields|
  {
    if fields != [] && k > 0 {
      var f := fields[0];
      var line, later := Line(f), Text(fields[1..]);
      LineIsClean(f);
      var cut := Text(fields)[..k];
      assert Text(fields) == line + "\n" + later;
      if k <= |line| {
        assert cut == line[..k];
        assert Find(cut, '\n') == |cut|;
        PartialLine(values, f, k);
        assert Lines(cut) == [cut];
        assert TakeLines(values, [cut]) == TakeLine(values, cut);
      } else {
        assert cut == line + "\n" + later[..k - |line| - 1];
        FirstLineSplits(line, later[..k - |line| - 1]);
        LineEnters(values, f);
        assert ([line] + Lines(later[..k - |line| - 1]))[1..] == Lines(later[..k - |line| - 1]);
        TornTextKeys(values[f.0 := f.1], fields[1..], k - |line| - 1, key);
      }
    }
  }

  // A line cut before its '=' is skipped; cut behind it, the key is whole.
  lemma PartialLine(values: Values, f: (string, string), k: nat)
    requires CleanField(f) && k <= |Line(f)|
    ensures TakeLine(values, Line(f)[..k])
            == if k <= |f.0| then values else values[f.0 := f.1[..k - |f.0| - 1]]
  {
    var cut := Line(f)[..k];
    if k <= |f.0| {
      assert cut == f.0[..k];
      assert Find(cut, '=') == |cut|;
    } else {
      assert forall i :: 0 <= i < |f.0| ==> cut[i] == f.0[i];
      FindAt(cut, '=', |f.0|);
      assert cut[..|f.0|] == f.0 && cut[|f.0| + 1..] == f.1[..k - |f.0| - 1];
    }
  }

  lemma {:induction false} TextConcat(a: Fields, b: Fields)
    ensures Text(a + b) == Text(a) + Text(b)
  {
    hide Text;
    if a == [] {
      assert a + b == b;
      TextOfNothing();
      assert "" + Text(b) == Text(b);
    } else {
      TextConcat(a[1..], b);
      TextStarts(a);
      TextStarts(a + b);
      assert (a + b)[1..] == a[1..] + b;
      Regroup(Line(a[0]) + "\n", Text(a[1..]), Text(b));
    }
  }

  lemma TextOfNothing()
    ensures Text([]) == ""
  {
  }

  lemma TextStarts(fields: Fields)
    requires fields != []
    ensures Text(fields) == Line(fields[0]) + "\n" + Text(fields[1..])
  {
    hide Line;
  }

  lemma Regroup(a: string, b: string, c: string)
    ensures a + (b + c) == a + b + c
  {
  }

  // The last line, which decides.
  lemma TornLastLine(s: ResumeState, k: nat)
    requires k < |StateText(s)| - 1
    ensures !FieldAt(ValuesOf(StateText(s)[..k]), 8).Number?
  {
    var fields := FieldsOf(s);
    var head, last := fields[..8], fields[8];
    FieldsAreClean(s);
    KeysDiffer();
    assert fields == head + [last];
    TextConcat(head, [last]);
    assert Text([last]) == Line(last) + "\n" + "";
    var all := StateText(s);
    assert |Line(last)| == 11;
    if k <= |Text(head)| {
      assert all[..k] == Text(head)[..k];
      TornTextKeys(map[], head, k, "committed");
    } else {
      var j := k - |Text(head)|;
      assert all[..k] == Text(head) + Line(last)[..j];
      TextEnters(map[], head, Line(last)[..j]);
      EnteredElsewhere(map[], head, "committed");
      LineIsClean(last);
      OneLine(Entered(map[], head), Line(last)[..j]);
      PartialLine(Entered(map[], head), last, j);
    }
  }

  // Whatever character a save stops at, a later load never sees a state other
  // than the one being saved: without at least its final digit it fails.
  lemma TornSaveNeverLies(s: ResumeState, k: nat)
    requires k <= |StateText(s)|
    ensures LoadText(StateText(s)[..k]).Loaded? <==> k >= |StateText(s)| - 1
    ensures LoadText(StateText(s)[..k]).Loaded? ==> LoadText(StateText(s)[..k]).state == s
  {
    hide StateText, LoadText, FieldsOf;
    var all := StateText(s);
    if k < |all| - 1 {
      TornLastLine(s, k);
      LoadsIff(all[..k]);
    } else if k == |all| {
      assert all[..k] == all;
      TextRoundTrip(s);
    } else {
      MissingFinalBreak(s);
    }
  }

  lemma OneLine(values: Values, line: string)
    requires '\n' !in line && line != ""
    ensures TakeLines(values, Lines(line)) == TakeLine(values, line)
  {
    assert Find(line, '\n') == |line|;
    assert Lines(line) == [line];
    assert [line][1..] == [];
    assert TakeLines(TakeLine(values, line), []) == TakeLine(values, line);
  }

  lemma AllButFinalBreak(s: ResumeState)
    ensures var head := FieldsOf(s)[..8];
            |StateText(s)| > 0 && StateText(s)[..|StateText(s)| - 1] == Text(head) + Line(FieldsOf(s)[8])
            && FieldsOf(s) == head + [FieldsOf(s)[8]]
  {
    hide Print, BoolText, FieldsOf;
    var head, last := FieldsOf(s)[..8], FieldsOf(s)[8];
    assert FieldsOf(s) == head + [last];
    TextConcat(head, [last]);
    assert [last][1..] == [];
    assert Text([last]) == Line(last) + "\n" + "";
  }

  lemma MissingFinalBreak(s: ResumeState)
    ensures |StateText(s)| > 0 && LoadText(StateText(s)[..|StateText(s)| - 1]) == Loaded(s)
  {
    hide Print, BoolText, FieldsOf, StateText, TakeLines, Entered, StateFrom, FirstBad, Lines, Text, FieldAt;
    var head, last := FieldsOf(s)[..8], FieldsOf(s)[8];
    FieldsAreClean(s);
    AllButFinalBreak(s);
    var cut := StateText(s)[..|StateText(s)| - 1];
    TextEnters(map[], head, Line(last));
    LineIsClean(last);
    OneLine(Entered(map[], head), Line(last));
    LineEnters(Entered(map[], head), last);
    EnteredSplit(map[], head, last);
    EnteredRecords(s);
    RecordedLoads(ValuesOf(cut), s);
    NoneBad(ValuesOf(cut), 0);
  }

  lemma {:induction false} EnteredSplit(values: Values, head: Fields, last: (string, string))
    ensures Entered(values, head + [last]) == Entered(values, head)[last.0 := last.1]
    decreases |head|
  {
    if head == [] {
      assert head + [last] == [last];
    } else {
      assert (head + [last])[1..] == head[1..] + [last];
      EnteredSplit(values[head[0].0 := head[0].1], head[1..], last);
    }
  }
}

// The sender's durable spool: one file per frame in a directory, with a byte
// account that survives neither overwriting nor a restart unchanged.
module SenderSpool {
  import opened Bytes
  import opened Decimal
  import opened FrameSending

  // ---- File names ---------------------------------------------------------

  const PREFIX: string := "frame_"
  const SUFFIX: string := ".spool"

  function FileName(frameId: nat): (name: string) {
    PREFIX + Print(frameId) + SUFFIX
  }

  // std::filesystem::path::extension() == ".spool"
  predicate HasSpoolExtension(name: string) {
    |name| > 6 && name[|name| - 6..] == SUFFIX
  }

  function ParseFrameId(name: string): u64 {
    if !(PREFIX <= name) || |name| <= 12 then 0
    else
      match Stoull(name[6..|name| - 6])
      case Some(id) => id
      case None => 0
  }

  lemma FileNameRoundTrip(id: u64)
    ensures ParseFrameId(FileName(id)) == id && HasSpoolExtension(FileName(id))
  {
    var name := FileName(id);
    assert name[6..|name| - 6] == Print(id);
    assert name[..6] == PREFIX;
    StoullPrint(id);
  }

  // ---- File contents ------------------------------------------------------

  const SPOOL_MAGIC: u32 := 0x5350484C
  const HEADER_BYTES: nat := 40

  // magic, version, two bytes of padding, frame id
  ghost function HeaderTag(f: RawFrame): (bs: seq<byte>)
    ensures |bs| == 16
  {
    PowValues();
    PutLE(SPOOL_MAGIC, 4) + PutLE(1, 2) + [0, 0] + PutLE(f.frameId, 8)
  }

  ghost function HeaderShape(f: RawFrame): (bs: seq<byte>)
    ensures |bs| == 24
  {
    PowValues();
    PutLE(f.rows, 4) + PutLE(f.cols, 4) + PutLE(f.pixelType, 4) + PutLE(f.elemSize, 4) + PutLE(|f.payload|, 8)
  }

  ghost function FileBytes(f: RawFrame): (bs: seq<byte>)
    ensures |bs| == HEADER_BYTES + |f.payload|
  {
    HeaderTag(f) + HeaderShape(f) + f.payload
  }

  function ReadLE32(bs: seq<byte>): u32
    requires |bs| == 4
  {
    FromLEBound(bs); PowValues();
    FromLE(bs)
  }

  function ReadLE64(bs: seq<byte>): u64
    requires |bs| == 8
  {
    FromLEBound(bs); PowValues();
    FromLE(bs)
  }

  predicate TagOk(t: seq<byte>)
    requires |t| == 16
  {
    FromLE(t[0..4]) == SPOOL_MAGIC && FromLE(t[4..6]) == 1
  }

  function FrameOfParts(t: seq<byte>, h: seq<byte>, payload: Payload): RawFrame
    requires |t| == 16 && |h| == 24
  {
    RawFrame(ReadLE64(t[8..16]), ReadLE32(h[0..4]), ReadLE32(h[4..8]), ReadLE32(h[8..12]), ReadLE32(h[12..16]), payload)
  }

  // What loading makes of one file: a short file, a wrong tag or a missing
  // tail of the payload all make it unreadable.
  function Load(bytes: seq<byte>): Option<RawFrame> {
    if |bytes| < HEADER_BYTES || !TagOk(bytes[0..16]) then None
    else
      var total := ReadLE64(bytes[16..40][16..24]);
      if |bytes| < HEADER_BYTES + total then None
      else Some(FrameOfParts(bytes[0..16], bytes[16..40], bytes[40..40 + total]))
  }

  lemma TagReadsBack(f: RawFrame)
    ensures TagOk(HeaderTag(f)) && ReadLE64(HeaderTag(f)[8..16]) == f.frameId
  {
    PowValues();
    var t := HeaderTag(f);
    assert t[0..4] == PutLE(SPOOL_MAGIC, 4);
    assert t[4..6] == PutLE(1, 2);
    assert t[8..16] == PutLE(f.frameId, 8);
    PutLEReads(SPOOL_MAGIC, 4); PutLEReads(1, 2); PutLEReads(f.frameId, 8);
  }

  lemma ShapeReadsBack(f: RawFrame)
    ensures var h := HeaderShape(f);
            ReadLE32(h[0..4]) == f.rows && ReadLE32(h[4..8]) == f.cols && ReadLE32(h[8..12]) == f.pixelType
            && ReadLE32(h[12..16]) == f.elemSize && ReadLE64(h[16..24]) == |f.payload|
  {
    PowValues();
    var h := HeaderShape(f);
    assert h[0..4] == PutLE(f.rows, 4);
    assert h[4..8] == PutLE(f.cols, 4);
    assert h[8..12] == PutLE(f.pixelType, 4);
    assert h[12..16] == PutLE(f.elemSize, 4);
    assert h[16..24] == PutLE(|f.payload|, 8);
    PutLEReads(f.rows, 4); PutLEReads(f.cols, 4); PutLEReads(f.pixelType, 4); PutLEReads(f.elemSize, 4);
    PutLEReads(|f.payload|, 8);
  }

  // Where a reader of the file finds each number, least significant byte first.
  lemma FileLayout(f: RawFrame)
    ensures var d := FileBytes(f);
            FromLE(d[0..4]) == SPOOL_MAGIC && FromLE(d[4..6]) == 1 && FromLE(d[8..16]) == f.frameId
            && FromLE(d[16..20]) == f.rows && FromLE(d[20..24]) == f.cols && FromLE(d[24..28]) == f.pixelType
            && FromLE(d[28..32]) == f.elemSize && FromLE(d[32..40]) == |f.payload| && d[40..] == f.payload
  {
    hide FromLE, HeaderTag, HeaderShape;
    var d := FileBytes(f);
    TagReadsBack(f);
    ShapeReadsBack(f);
    assert d[0..16] == HeaderTag(f) && d[16..40] == HeaderShape(f);
    SliceOfSlice(d, 0, 16, 0, 4); SliceOfSlice(d, 0, 16, 4, 6); SliceOfSlice(d, 0, 16, 8, 16);
    SliceOfSlice(d, 16, 40, 0, 4); SliceOfSlice(d, 16, 40, 4, 8); SliceOfSlice(d, 16, 40, 8, 12);
    SliceOfSlice(d, 16, 40, 12, 16); SliceOfSlice(d, 16, 40, 16, 24);
  }

  // A whole file loads as the frame that was written; a file torn anywhere
  // before its end does not load at all.
  lemma FileRoundTrip(f: RawFrame, k: nat)
    requires k <= |FileBytes(f)|
    ensures Load(FileBytes(f)[..k]) == if k == |FileBytes(f)| then Some(f) else None
  {
    var all := FileBytes(f);
    var bytes := all[..k];
    if k >= HEADER_BYTES {
      assert bytes[0..16] == HeaderTag(f);
      assert bytes[16..40] == HeaderShape(f);
      TagReadsBack(f);
      ShapeReadsBack(f);
      if k == |all| {
        assert bytes[40..40 + |f.payload|] == f.payload;
      }
    }
  }

  // ---- The spool as a value -----------------------------------------------

  type Directory = map<string, seq<byte>>

  datatype Spool = Spool(files: Directory, maxBytes: u64, bytesUsed: u64)

  // How a write to the file ends: whole, not even opened, or torn after some
  // bytes with the stream reporting failure.
  datatype WriteOutcome = Written | OpenFailed | Torn(bytes: nat)

  function RequiredBytes(f: RawFrame): u64 {
    (|f.payload| + HEADER_BYTES) % TWO64
  }

  predicate CanPersist(s: Spool, required: u64) {
    s.maxBytes == 0 || (s.bytesUsed + required) % TWO64 <= s.maxBytes
  }

  // persist gets as far as opening the file.
  predicate Admits(s: Spool, f: RawFrame) {
    !f.Empty() && CanPersist(s, RequiredBytes(f))
  }

  predicate Persists(s: Spool, f: RawFrame, w: WriteOutcome) {
    Admits(s, f) && w.Written?
  }

  ghost function Persisted(s: Spool, f: RawFrame, w: WriteOutcome): Spool {
    if !Admits(s, f) then s
    else
      match w
      case OpenFailed => s
      case Torn(k) =>
        var all := FileBytes(f);
        s.(files := s.files[FileName(f.frameId) := all[..if k < |all| then k else |all|]])
      case Written =>
        s.(files := s.files[FileName(f.frameId) := FileBytes(f)],
           bytesUsed := (s.bytesUsed + RequiredBytes(f)) % TWO64)
  }

  // bytesUsed_ - removedSize in unsigned arithmetic.
  function Debit(used: u64, size: nat): u64 {
    (used - size) % TWO64
  }

  function Removed(s: Spool, frameId: u64): Spool {
    var name := FileName(frameId);
    if name !in s.files then s
    else s.(files := s.files - {name}, bytesUsed := Debit(s.bytesUsed, |s.files[name]|))
  }

  // A new process opens the directory: no cap yet, the account recounted.
  ghost function Reopened(files: Directory): Spool {
    Spool(files, 0, Total(files) % TWO64)
  }

  // persist returns true exactly when the frame is not empty, the write goes
  // through, and the file fits under the cap if there is one; short of a torn
  // write, returning false changes nothing.
  lemma PersistsIff(s: Spool, f: RawFrame, write: WriteOutcome)
    requires s.bytesUsed + |FileBytes(f)| < TWO64
    ensures Persists(s, f, write) <==>
              f.payload != [] && write == Written && (s.maxBytes == 0 || s.bytesUsed + |FileBytes(f)| <= s.maxBytes)
    ensures Persists(s, f, write) || write.Torn? || Persisted(s, f, write) == s
  {
    hide HeaderTag, HeaderShape, FileName;
    ModSmall(|f.payload| + HEADER_BYTES, TWO64);
    ModSmall(s.bytesUsed + |f.payload| + HEADER_BYTES, TWO64);
  }

  // ---- What is pending ----------------------------------------------------

  // Every spool file carries its own name and, if readable, a non-empty frame
  // of that id. persist, removeFrame and torn writes keep this.
  predicate OwnFile(name: string, bytes: seq<byte>) {
    name == FileName(ParseFrameId(name))
    && (Load(bytes).Some? ==> Load(bytes).value.frameId == ParseFrameId(name) && !Load(bytes).value.Empty())
  }

  ghost predicate OwnFiles(files: Directory) {
    forall name :: name in files && HasSpoolExtension(name) ==> OwnFile(name, files[name])
  }

  ghost predicate Loadable(files: Directory, f: RawFrame) {
    FileName(f.frameId) in files && Load(files[FileName(f.frameId)]) == Some(f)
  }

  lemma PersistKeepsOwnFiles(s: Spool, f: RawFrame, w: WriteOutcome)
    requires OwnFiles(s.files)
    ensures OwnFiles(Persisted(s, f, w).files)
  {
    FileNameRoundTrip(f.frameId);
    var all := FileBytes(f);
    forall k | 0 <= k <= |all| ensures OwnFile(FileName(f.frameId), all[..k]) || f.Empty() {
      FileRoundTrip(f, k);
    }
    assert all[..|all|] == all;
  }

  ghost function Ids(files: Directory): set<u64> {
    set name | name in files && HasSpoolExtension(name) :: ParseFrameId(name)
  }

  ghost predicate Least(ids: set<u64>, m: u64) {
    m in ids && forall k :: k in ids ==> m <= k
  }

  lemma LeastExists(ids: set<u64>)
    requires ids != {}
    ensures exists m :: Least(ids, m)
  {
    var x :| x in ids;
    var rest := ids - {x};
    if rest == {} {
      assert ids == {x};
      assert Least(ids, x);
    } else {
      LeastExists(rest);
      var m :| Least(rest, m);
      var l := if x <= m then x else m;
      forall k | k in ids ensures l <= k {
        assert k == x || k in rest;
      }
      assert Least(ids, l);
    }
  }

  ghost function Sorted(ids: set<u64>): seq<u64> {
    if ids == {} then [] else
      LeastExists(ids);
      var m :| Least(ids, m);
      [m] + Sorted(ids - {m})
  }

  ghost predicate Increasing(ids: seq<u64>) {
    forall i, j :: 0 <= i < j < |ids| ==> ids[i] < ids[j]
  }

  lemma {:induction false} SortedIsIncreasing(ids: set<u64>)
    ensures Increasing(Sorted(ids))
    ensures forall x :: x in Sorted(ids) <==> x in ids
  {
    if ids != {} {
      LeastExists(ids);
      var m :| Least(ids, m) && Sorted(ids) == [m] + Sorted(ids - {m});
      SortedIsIncreasing(ids - {m});
      var rest := Sorted(ids - {m});
      forall j | 0 <= j < |rest| ensures m < rest[j] {
        assert rest[j] in rest;
      }
    }
  }

  lemma EmptyOrInhabited(b: seq<u64>)
    ensures b == [] || exists x :: x in b
  {
    if b != [] {
      assert b[0] in b;
    }
  }

  lemma {:induction false} IncreasingIsUnique(a: seq<u64>, b: seq<u64>)
    requires Increasing(a) && Increasing(b)
    requires forall x :: x in a <==> x in b
    ensures a == b
  {
    if a == [] {
      EmptyOrInhabited(b);
    } else {
      assert a[0] in a;
      assert a[0] in b;
      assert b[0] in b;
      assert b[0] in a;
      var i :| 0 <= i < |b| && b[i] == a[0];
      var j :| 0 <= j < |a| && a[j] == b[0];
      assert a[0] == b[0];
      forall x ensures x in a[1..] <==> x in b[1..] {
        if x in a[1..] { assert x in a && x != a[0]; assert x in b; }
        if x in b[1..] { assert x in b && x != b[0]; assert x in a; }
      }
      IncreasingIsUnique(a[1..], b[1..]);
      assert a == [a[0]] + a[1..] && b == [b[0]] + b[1..];
    }
  }

  // The frames loaded from the files of the given ids, in that order.
  function LoadAll(files: Directory, ids: seq<u64>): seq<RawFrame> {
    if ids == [] then []
    else
      var rest := LoadAll(files, ids[1..]);
      if FileName(ids[0]) !in files then rest
      else
        match Load(files[FileName(ids[0])])
        case None => rest
        case Some(f) => [f] + rest
  }

  ghost function Pending(files: Directory): seq<RawFrame> {
    LoadAll(files, Sorted(Ids(files)))
  }

  lemma {:induction false} LoadAllMembers(files: Directory, ids: seq<u64>, f: RawFrame)
    requires OwnFiles(files)
    ensures f in LoadAll(files, ids) <==> f.frameId in ids && Loadable(files, f)
  {
    if ids != [] {
      LoadAllMembers(files, ids[1..], f);
      FileNameRoundTrip(ids[0]);
      assert f.frameId in ids <==> f.frameId == ids[0] || f.frameId in ids[1..];
    }
  }

  lemma {:induction false} LoadAllOrder(files: Directory, ids: seq<u64>)
    requires OwnFiles(files) && Increasing(ids)
    ensures forall i, j :: 0 <= i < j < |LoadAll(files, ids)| ==>
              LoadAll(files, ids)[i].frameId < LoadAll(files, ids)[j].frameId
  {
    if ids != [] {
      LoadAllOrder(files, ids[1..]);
      var rest := LoadAll(files, ids[1..]);
      forall j | 0 <= j < |rest| ensures ids[0] < rest[j].frameId {
        LoadAllMembers(files, ids[1..], rest[j]);
      }
      FileNameRoundTrip(ids[0]);
    }
  }

  lemma IdsHold(files: Directory, f: RawFrame)
    requires Loadable(files, f)
    ensures f.frameId in Ids(files)
  {
    FileNameRoundTrip(f.frameId);
    assert FileName(f.frameId) in files && HasSpoolExtension(FileName(f.frameId));
  }

  // loadPendingFrames returns exactly the frames whose files are whole, each
  // once, in strictly increasing id order.
  lemma PendingIsWholeFrames(files: Directory)
    requires OwnFiles(files)
    ensures forall f :: f in Pending(files) <==> Loadable(files, f)
    ensures forall i, j :: 0 <= i < j < |Pending(files)| ==> Pending(files)[i].frameId < Pending(files)[j].frameId
    ensures forall f :: f in Pending(files) ==> !f.Empty()
  {
    var ids := Sorted(Ids(files));
    SortedIsIncreasing(Ids(files));
    LoadAllOrder(files, ids);
    forall f ensures f in Pending(files) <==> Loadable(files, f) {
      LoadAllMembers(files, ids, f);
      if Loadable(files, f) { IdsHold(files, f); }
    }
    forall f | f in Pending(files) ensures !f.Empty() {
      FileNameRoundTrip(f.frameId);
    }
  }

  // ---- The byte account ---------------------------------------------------

  ghost function Total(files: Directory): nat {
    if files == map[] then 0
    else
      var name :| name in files;
      |files[name]| + Total(files - {name})
  }

  lemma {:induction false} TotalWithout(files: Directory, name: string)
    requires name in files
    ensures Total(files) == |files[name]| + Total(files - {name})
    decreases |files|
  {
    var pick :| pick in files && Total(files) == |files[pick]| + Total(files - {pick});
    if pick != name {
      TotalWithout(files - {pick}, name);
      TotalWithout(files - {name}, pick);
      assert files - {pick} - {name} == files - {name} - {pick};
    }
  }

  datatype AccountOp = Put(frame: RawFrame) | Drop(frameId: u64)

  ghost function AccountStep(s: Spool, op: AccountOp): Spool {
    match op
    case Put(f) => Persisted(s, f, Written)
    case Drop(id) => Removed(s, id)
  }

  ghost function AccountRun(s: Spool, ops: seq<AccountOp>): Spool
    decreases |ops|
  {
    if ops == [] then s else AccountRun(AccountStep(s, ops[0]), ops[1..])
  }

  // Sizes of all frames offered to persist; below 2^64 nothing wraps.
  function Offered(ops: seq<AccountOp>): nat {
    if ops == [] then 0
    else (if ops[0].Put? then |ops[0].frame.payload| + HEADER_BYTES else 0) + Offered(ops[1..])
  }

  // Bytes of files that a step overwrites while they are present.
  ghost function Overwritten(s: Spool, op: AccountOp): nat {
    if op.Put? && Admits(s, op.frame) && FileName(op.frame.frameId) in s.files
    then |s.files[FileName(op.frame.frameId)]| else 0
  }

  ghost function OverwrittenIn(s: Spool, ops: seq<AccountOp>): nat
    decreases |ops|
  {
    if ops == [] then 0 else Overwritten(s, ops[0]) + OverwrittenIn(AccountStep(s, ops[0]), ops[1..])
  }

  lemma TotalAfterWrite(files: Directory, name: string, bytes: seq<byte>)
    ensures Total(files[name := bytes]) == Total(files) + |bytes| - (if name in files then |files[name]| else 0)
  {
    var after := files[name := bytes];
    TotalWithout(after, name);
    assert after - {name} == files - {name};
    if name in files {
      TotalWithout(files, name);
    } else {
      assert files - {name} == files;
    }
  }

  ghost predicate AccountKept(s: Spool, t: Spool, debt: nat, grown: nat) {
    t.bytesUsed == Total(t.files) + debt && t.maxBytes == s.maxBytes && t.bytesUsed <= s.bytesUsed + grown
    && (s.maxBytes > 0 && s.bytesUsed <= s.maxBytes ==> t.bytesUsed <= t.maxBytes)
  }

  lemma PutExact(s: Spool, f: RawFrame, debt: nat)
    requires s.bytesUsed == Total(s.files) + debt
    requires s.bytesUsed + |f.payload| + HEADER_BYTES < TWO64
    ensures AccountKept(s, Persisted(s, f, Written), debt + Overwritten(s, Put(f)), |f.payload| + HEADER_BYTES)
  {
    ModSmall(|f.payload| + HEADER_BYTES, TWO64);
    ModSmall(s.bytesUsed + |f.payload| + HEADER_BYTES, TWO64);
    TotalAfterWrite(s.files, FileName(f.frameId), FileBytes(f));
  }

  lemma DropExact(s: Spool, id: u64, debt: nat)
    requires s.bytesUsed == Total(s.files) + debt
    ensures AccountKept(s, Removed(s, id), debt, 0)
    ensures FileName(id) in s.files ==> |s.files[FileName(id)]| <= s.bytesUsed
  {
    if FileName(id) in s.files {
      TotalWithout(s.files, FileName(id));
      ModSmall(s.bytesUsed - |s.files[FileName(id)]|, TWO64);
    }
  }

  // Main result of the account: over any run of persist and removeFrame whose
  // writes succeed, the account exceeds the bytes on disk by exactly the sizes
  // of files overwritten while present, no removal underflows, and a cap that
  // holds at the start holds at the end.
  lemma {:induction false} AccountExact(s: Spool, ops: seq<AccountOp>, debt: nat)
    requires s.bytesUsed == Total(s.files) + debt
    requires s.bytesUsed + Offered(ops) < TWO64
    ensures var t := AccountRun(s, ops);
            t.bytesUsed == Total(t.files) + debt + OverwrittenIn(s, ops)
            && (s.maxBytes > 0 && s.bytesUsed <= s.maxBytes ==> Total(t.files) <= t.bytesUsed <= s.maxBytes)
    decreases |ops|
  {
    if ops != [] {
      match ops[0] {
        case Put(f) => PutExact(s, f, debt);
        case Drop(id) => DropExact(s, id, debt);
      }
      AccountExact(AccountStep(s, ops[0]), ops[1..], debt + Overwritten(s, ops[0]));
    }
  }

  // ---- The class ----------------------------------------------------------

  class SenderSpoolStore {
    var files: Directory
    var maxSpoolBytes: u64
    var bytesUsed: u64

    ghost function View(): Spool
      reads this
    {
      Spool(files, maxSpoolBytes, bytesUsed)
    }

    // Opens a directory that may hold files of an earlier process.
    constructor (directory: Directory)
      ensures View() == Reopened(directory)
    {
      files, maxSpoolBytes := directory, 0;
      bytesUsed := 0;
      new;
      var left := directory;
      ghost var seen: nat := 0;
      while left != map[]
        invariant files == directory && maxSpoolBytes == 0
        invariant bytesUsed == seen % TWO64 && seen + Total(left) == Total(directory)
        decreases |left|
      {
        var name :| name in left;
        TotalWithout(left, name);
        ModAdd(seen, |left[name]|);
        bytesUsed := (bytesUsed + |left[name]|) % TWO64;
        seen := seen + |left[name]|;
        left := left - {name};
      }
    }

    method SetMaxSpoolBytes(maxBytes: u64)
      modifies this
      ensures View() == old(View()).(maxBytes := maxBytes)
    {
      maxSpoolBytes := maxBytes;
    }

    method HeaderImage(frame: RawFrame) returns (bs: seq<byte>)
      ensures bs == HeaderTag(frame) + HeaderShape(frame)
    {
      PowValues();
      var magic := LEImage(SPOOL_MAGIC, 4);
      var version := LEImage(1, 2);
      var id := LEImage(frame.frameId, 8);
      var rows := LEImage(frame.rows, 4);
      var cols := LEImage(frame.cols, 4);
      var kind := LEImage(frame.pixelType, 4);
      var elem := LEImage(frame.elemSize, 4);
      var total := LEImage(|frame.payload|, 8);
      bs := (magic + version + [0, 0] + id) + (rows + cols + kind + elem + total);
    }

    // outcome is what the file system does with the write.
    method Persist(frame: RawFrame, outcome: WriteOutcome) returns (ok: bool)
      modifies this
      ensures View() == Persisted(old(View()), frame, outcome)
      ensures ok == Persists(old(View()), frame, outcome)
    {
      if frame.Empty() {
        return false;
      }
      var requiredBytes := RequiredBytes(frame);
      if maxSpoolBytes > 0 && (bytesUsed + requiredBytes) % TWO64 > maxSpoolBytes {
        return false;
      }
      var path := FileName(frame.frameId);
      if outcome.OpenFailed? {
        return false;
      }
      var header := HeaderImage(frame);
      var image := header + frame.payload;
      if outcome.Torn? {
        files := files[path := image[..if outcome.bytes < |image| then outcome.bytes else |image|]];
        return false;
      }
      files := files[path := image];
      bytesUsed := (bytesUsed + requiredBytes) % TWO64;
      return true;
    }

    method RemoveFrame(frameId: u64)
      modifies this
      ensures View() == Removed(old(View()), frameId)
    {
      var path := FileName(frameId);
      if path !in files {
        return;
      }
      var removedSize := |files[path]|;
      files := files - {path};
      bytesUsed := (bytesUsed - removedSize) % TWO64;
    }

    // directory_iterator, in whatever order the file system lists the entries
    method SpoolPaths() returns (paths: seq<string>)
      ensures forall p :: p in paths <==> p in files && HasSpoolExtension(p)
      ensures forall i, j :: 0 <= i < j < |paths| ==> paths[i] != paths[j]
    {
      var left := files.Keys;
      paths := [];
      while left != {}
        invariant left <= files.Keys
        invariant forall p :: p in paths <==> p in files && p !in left && HasSpoolExtension(p)
        invariant forall i, j :: 0 <= i < j < |paths| ==> paths[i] != paths[j]
        decreases |left|
      {
        var entry :| entry in left;
        left := left - {entry};
        if HasSpoolExtension(entry) {
          paths := paths + [entry];
        }
      }
    }

    // Any directory: the readable spool files in order of their parsed ids.
    method LoadPendingFrames() returns (frames: seq<RawFrame>)
      ensures exists sorted :: IsListing(files, sorted) && frames == LoadPaths(files, sorted)
      ensures OwnFiles(files) ==> frames == Pending(files)
    {
      hide LoadPaths, OwnFiles, ParseFrameId, Load, Pending;
      var paths := SpoolPaths();
      var sorted := SortByFrameId(paths);
      SortedIsListing(files, paths, sorted);
      frames := [];
      assert sorted[..0] == [];
      NothingLoaded(files);
      for k := 0 to |sorted|
        invariant frames == LoadPaths(files, sorted[..k])
      {
        assert sorted[k] in sorted;
        LoadPathsNext(files, sorted, k);
        var loaded := Load(files[sorted[k]]);
        if loaded.Some? {
          frames := frames + [loaded.value];
        }
      }
      assert sorted[..|sorted|] == sorted;
      if OwnFiles(files) { ListingIsPending(files, sorted); }
    }
  }

  // Every spool file once, ordered by the id in its name.
  ghost predicate IsListing(files: Directory, paths: seq<string>) {
    && (forall p :: p in paths <==> p in files && HasSpoolExtension(p))
    && (forall i, j :: 0 <= i < j < |paths| ==> paths[i] != paths[j])
    && OrderedById(paths)
  }

  // What reading the files in a given order yields; unreadable ones are skipped.
  function LoadPaths(files: Directory, paths: seq<string>): seq<RawFrame> {
    if paths == [] then []
    else
      var p, before := paths[|paths| - 1], LoadPaths(files, paths[..|paths| - 1]);
      if p !in files then before
      else
        match Load(files[p])
        case None => before
        case Some(f) => before + [f]
  }

  lemma NothingLoaded(files: Directory)
    ensures LoadPaths(files, []) == []
  {
  }

  lemma LoadPathsNext(files: Directory, paths: seq<string>, k: nat)
    requires k < |paths| && paths[k] in files
    ensures var f := Load(files[paths[k]]);
            LoadPaths(files, paths[..k + 1]) == LoadPaths(files, paths[..k]) + (if f.Some? then [f.value] else [])
  {
    assert paths[..k + 1][..k] == paths[..k];
  }

  lemma {:induction false} LoadAllConcat(files: Directory, a: seq<u64>, b: seq<u64>)
    ensures LoadAll(files, a + b) == LoadAll(files, a) + LoadAll(files, b)
    decreases |a|
  {
    hide Load, FileName;
    if a == [] {
      assert a + b == b;
    } else {
      LoadAllConcat(files, a[1..], b);
      assert (a + b)[1..] == a[1..] + b;
    }
  }

  // By name or by id: the same frames.
  lemma {:induction false} LoadPathsByIds(files: Directory, paths: seq<string>)
    requires forall p :: p in paths ==> p in files && FileName(ParseFrameId(p)) == p
    ensures LoadPaths(files, paths) == LoadAll(files, IdsOf(paths))
  {
    hide Load, FileName, ParseFrameId;
    if paths != [] {
      var n := |paths| - 1;
      LoadPathsByIds(files, paths[..n]);
      assert IdsOf(paths) == IdsOf(paths[..n]) + [ParseFrameId(paths[n])];
      LoadAllConcat(files, IdsOf(paths[..n]), [ParseFrameId(paths[n])]);
      assert paths[n] in paths;
      assert [ParseFrameId(paths[n])][1..] == [];
    }
  }

  lemma ListingIsPending(files: Directory, sorted: seq<string>)
    requires OwnFiles(files) && IsListing(files, sorted)
    ensures LoadPaths(files, sorted) == Pending(files)
  {
    hide LoadAll, LoadPaths;
    ListingIds(files, sorted);
    LoadPathsByIds(files, sorted);
  }

  ghost function IdsOf(paths: seq<string>): (ids: seq<u64>)
    ensures |ids| == |paths| && forall i :: 0 <= i < |ids| ==> ids[i] == ParseFrameId(paths[i])
  {
    seq(|paths|, i requires 0 <= i < |paths| => ParseFrameId(paths[i]))
  }

  lemma ModAdd(a: nat, b: nat)
    ensures (a % TWO64 + b) % TWO64 == (a + b) % TWO64
  {
    assert a == (a / TWO64) * TWO64 + a % TWO64;
    ModShift(a % TWO64 + b, a / TWO64);
  }

  lemma {:induction false} ModShift(a: nat, k: nat)
    ensures (a + k * TWO64) % TWO64 == a % TWO64
  {
    if k > 0 {
      ModShift(a, k - 1);
      assert a + k * TWO64 == (a + (k - 1) * TWO64) + TWO64;
    }
  }

  ghost predicate OrderedById(paths: seq<string>) {
    forall i, j :: 0 <= i < j < |paths| ==> ParseFrameId(paths[i]) <= ParseFrameId(paths[j])
  }

  lemma InsertionKeepsOrder(low: seq<string>, p: string, high: seq<string>)
    requires OrderedById(low + high)
    requires forall q :: q in low ==> ParseFrameId(q) <= ParseFrameId(p)
    requires forall q :: q in high ==> ParseFrameId(p) <= ParseFrameId(q)
    ensures OrderedById(low + [p] + high)
  {
    var all, out := low + high, low + [p] + high;
    forall i, j | 0 <= i < j < |out| ensures ParseFrameId(out[i]) <= ParseFrameId(out[j]) {
      if i == |low| {
        assert out[j] == high[j - |low| - 1];
      } else if j == |low| {
        assert out[i] == low[i];
      } else {
        var i', j' := if i < |low| then i else i - 1, if j < |low| then j else j - 1;
        assert out[i] == all[i'] && out[j] == all[j'];
      }
    }
  }

  lemma LowerPart(sorted: seq<string>, p: string, at: nat)
    requires at <= |sorted| && OrderedById(sorted)
    requires at == 0 || ParseFrameId(sorted[at - 1]) <= ParseFrameId(p)
    ensures forall q :: q in sorted[..at] ==> ParseFrameId(q) <= ParseFrameId(p)
  {
    forall q | q in sorted[..at] ensures ParseFrameId(q) <= ParseFrameId(p) {
      var i :| 0 <= i < at && sorted[i] == q;
      assert i == at - 1 || ParseFrameId(sorted[i]) <= ParseFrameId(sorted[at - 1]);
    }
  }

  lemma UpperPart(sorted: seq<string>, p: string, at: nat)
    requires at <= |sorted| && OrderedById(sorted)
    requires at == |sorted| || ParseFrameId(p) <= ParseFrameId(sorted[at])
    ensures forall q :: q in sorted[at..] ==> ParseFrameId(p) <= ParseFrameId(q)
  {
    forall q | q in sorted[at..] ensures ParseFrameId(p) <= ParseFrameId(q) {
      var i :| at <= i < |sorted| && sorted[i] == q;
      assert i == at || ParseFrameId(sorted[at]) <= ParseFrameId(sorted[i]);
    }
  }

  lemma InsertionAddsOne(low: seq<string>, p: string, high: seq<string>)
    ensures multiset(low + [p] + high) == multiset(low + high) + multiset{p}
  {
  }

  method InsertById(sorted: seq<string>, p: string) returns (r: seq<string>)
    requires OrderedById(sorted)
    ensures OrderedById(r) && multiset(r) == multiset(sorted) + multiset{p}
  {
    hide ParseFrameId, OrderedById;
    var at := |sorted|;
    while at > 0 && ParseFrameId(p) < ParseFrameId(sorted[at - 1])
      invariant 0 <= at <= |sorted|
      invariant at == |sorted| || ParseFrameId(p) <= ParseFrameId(sorted[at])
    {
      at := at - 1;
    }
    LowerPart(sorted, p, at);
    UpperPart(sorted, p, at);
    ghost var low, high := sorted[..at], sorted[at..];
    assert sorted == low + high;
    InsertionKeepsOrder(low, p, high);
    InsertionAddsOne(low, p, high);
    r := sorted[..at] + [p] + sorted[at..];
  }

  // std::sort with the comparison on parsed ids.
  method SortByFrameId(paths: seq<string>) returns (sorted: seq<string>)
    ensures multiset(sorted) == multiset(paths) && OrderedById(sorted)
  {
    sorted := [];
    for k := 0 to |paths|
      invariant multiset(sorted) == multiset(paths[..k]) && OrderedById(sorted)
    {
      sorted := InsertById(sorted, paths[k]);
      assert paths[..k + 1] == paths[..k] + [paths[k]];
    }
    assert paths[..|paths|] == paths;
  }

  lemma SortedIsListing(files: Directory, paths: seq<string>, sorted: seq<string>)
    requires forall p :: p in paths <==> p in files && HasSpoolExtension(p)
    requires forall i, j :: 0 <= i < j < |paths| ==> paths[i] != paths[j]
    requires multiset(sorted) == multiset(paths) && OrderedById(sorted)
    ensures IsListing(files, sorted)
  {
    hide ParseFrameId, HasSpoolExtension;
    forall p ensures p in sorted <==> p in paths {
      assert p in multiset(sorted) <==> p in multiset(paths);
    }
    DistinctByMultiset(paths, sorted);
  }

  lemma ListingIds(files: Directory, sorted: seq<string>)
    requires OwnFiles(files) && IsListing(files, sorted)
    ensures IdsOf(sorted) == Sorted(Ids(files))
    ensures forall p :: p in sorted ==> p in files && FileName(ParseFrameId(p)) == p
  {
    var ids := IdsOf(sorted);
    forall p | p in sorted ensures OwnFile(p, files[p]) {
    }
    forall i, j | 0 <= i < j < |ids| ensures ids[i] < ids[j] {
      assert sorted[i] in sorted && sorted[j] in sorted;
      assert OwnFile(sorted[i], files[sorted[i]]) && OwnFile(sorted[j], files[sorted[j]]);
    }
    forall x ensures x in ids <==> x in Ids(files) {
      if x in ids {
        var i :| 0 <= i < |ids| && ids[i] == x;
        assert sorted[i] in sorted;
      }
      if x in Ids(files) {
        var name :| name in files && HasSpoolExtension(name) && ParseFrameId(name) == x;
        assert name in sorted;
        var i :| 0 <= i < |sorted| && sorted[i] == name;
        assert ids[i] == x;
      }
    }
    SortedIsIncreasing(Ids(files));
    IncreasingIsUnique(ids, Sorted(Ids(files)));
  }

  lemma DistinctByMultiset(a: seq<string>, b: seq<string>)
    requires forall i, j :: 0 <= i < j < |a| ==> a[i] != a[j]
    requires multiset(a) == multiset(b)
    ensures forall i, j :: 0 <= i < j < |b| ==> b[i] != b[j]
  {
    forall i, j | 0 <= i < j < |b| ensures b[i] != b[j] {
      if b[i] == b[j] {
        assert b == b[..i] + [b[i]] + b[i + 1..j] + [b[j]] + b[j + 1..];
        assert multiset(b)[b[i]] >= 2;
        AtMostOnce(a, b[i]);
        assert false;
      }
    }
  }

  lemma {:induction false} AtMostOnce(a: seq<string>, x: string)
    requires forall i, j :: 0 <= i < j < |a| ==> a[i] != a[j]
    ensures multiset(a)[x] <= 1
  {
    if a != [] {
      AtMostOnce(a[1..], x);
      assert a == [a[0]] + a[1..];
      if a[0] == x {
        assert x !in a[1..];
      }
    }
  }
}

/** The checkpoint of a whole input file: which scans are done, buffered in memory and flushed to disk. */
module ScanCheckpoint {
  import opened Wrappers
  import opened Sequences
  import opened Disk
  import opened JsonValue
  import Checkpoint
  import ResultParser

  datatype Progress = Progress(
    inputFile: string,
    processedScanIds: seq<string>,
    lastBatch: nat,
    lastMiniBatch: nat,
    startedAt: nat,
    updatedAt: nat)

  const CHECKPOINT_FILE := ".ai-scan-checkpoint.json"

  // ---- The file -------------------------------------------------------------------------------

  function ProgressMembers(c: Progress): (ms: seq<Member>)
    ensures forall m :: m in ms ==> Printable(m.value)
  {
    [ Member("inputFile", VStr(c.inputFile)),
      Member("processedScanIds", ResultParser.StringArray(c.processedScanIds)),
      Member("lastBatch", VNum(c.lastBatch as real)),
      Member("lastMiniBatch", VNum(c.lastMiniBatch as real)),
      Member("startedAt", VNum(c.startedAt as real)),
      Member("updatedAt", VNum(c.updatedAt as real)) ]
  }

  function ProgressText(c: Progress): string {
    Stringify(VObj(ProgressMembers(c)))
  }

  function ReadProgress(content: string): Option<Progress> {
    match Parse(content) case None => None case Some(v) => DecodeProgress(v)
  }

  function DecodeProgress(v: Value): Option<Progress> {
    var batch, mini := Checkpoint.NatOf(Get(v, "lastBatch")), Checkpoint.NatOf(Get(v, "lastMiniBatch"));
    var started, updated := Checkpoint.NatOf(Get(v, "startedAt")), Checkpoint.NatOf(Get(v, "updatedAt"));
    match (Get(v, "inputFile"), Get(v, "processedScanIds"))
    case (Some(VStr(file)), Some(VArr(ids))) =>
      if batch.None? || mini.None? || started.None? || updated.None? then None
      else Some(Progress(file, ResultParser.Strings(ids), batch.value, mini.value, started.value, updated.value))
    case _ => None
  }

  lemma ProgressKeys(c: Progress)
    ensures var m := ProgressMembers(c);
      && |m| == 6 && |m[0].key| == 9 && |m[1].key| == 16 && |m[2].key| == 9 && |m[3].key| == 13 && |m[4].key| == 9 && |m[5].key| == 9
      && m[0].key[0] == 'i' && m[2].key[0] == 'l' && m[4].key[0] == 's' && m[5].key[0] == 'u'
  {
    hide ResultParser.StringArray;
  }

  lemma ProgressFields(c: Progress)
    ensures var v := VObj(ProgressMembers(c));
      && Get(v, "inputFile") == Some(VStr(c.inputFile))
      && Get(v, "processedScanIds") == Some(ResultParser.StringArray(c.processedScanIds))
      && Get(v, "lastBatch") == Some(VNum(c.lastBatch as real))
      && Get(v, "lastMiniBatch") == Some(VNum(c.lastMiniBatch as real))
      && Get(v, "startedAt") == Some(VNum(c.startedAt as real))
      && Get(v, "updatedAt") == Some(VNum(c.updatedAt as real))
  {
    hide Lookup, ResultParser.StringArray;
    var m := ProgressMembers(c);
    ProgressKeys(c);
    ResultParser.LookupAt(m, 0);
    ResultParser.LookupAt(m, 1);
    ResultParser.LookupAt(m, 2);
    ResultParser.LookupAt(m, 3);
    ResultParser.LookupAt(m, 4);
    ResultParser.LookupAt(m, 5);
  }

  lemma ProgressRoundTrip(c: Progress)
    ensures ReadProgress(ProgressText(c)) == Some(c)
  {
    hide Stringify, ProgressMembers, Get, Checkpoint.NatOf, ResultParser.Strings, ResultParser.StringArray, Parse;
    StringifyRoundTrip(VObj(ProgressMembers(c)));
    ProgressFields(c);
    ResultParser.StringsOfArray(c.processedScanIds);
    Checkpoint.NatOfNat(c.lastBatch);
    Checkpoint.NatOfNat(c.lastMiniBatch);
    Checkpoint.NatOfNat(c.startedAt);
    Checkpoint.NatOfNat(c.updatedAt);
  }

  function Load(fs: Files, fault: bool): Option<Progress> {
    if fault || CHECKPOINT_FILE !in fs then None else ReadProgress(fs[CHECKPOINT_FILE])
  }

  // ---- The manager ----------------------------------------------------------------------------

  /** What the manager holds in memory. */
  datatype Memory = Memory(checkpoint: Option<Progress>, pendingIds: seq<string>)

  datatype FlushResult = Nothing | NoCheckpoint | SaveFailed | Saved

  function FlushOutcome(m: Memory, env: SaveEnv): FlushResult {
    if m.pendingIds == [] then Nothing
    else if m.checkpoint.None? then NoCheckpoint
    else if Succeeds(env) then Saved else SaveFailed
  }

  function Pushed(m: Memory, now: nat): Progress
    requires m.checkpoint.Some?
  {
    var c := m.checkpoint.value;
    c.(processedScanIds := c.processedScanIds + m.pendingIds, updatedAt := now)
  }

  /** The ids stay pending if the save fails, though the checkpoint in memory already has them. */
  function Flushed(m: Memory, env: SaveEnv): Memory {
    match FlushOutcome(m, env)
    case Nothing => m
    case NoCheckpoint => m
    case SaveFailed => Memory(Some(Pushed(m, env.now)), m.pendingIds)
    case Saved => Memory(Some(Pushed(m, env.now)), [])
  }

  function FlushOps(m: Memory, env: SaveEnv): seq<FileOp> {
    if m.pendingIds == [] || m.checkpoint.None? then [] else AtomicSave(CHECKPOINT_FILE, ProgressText(Pushed(m, env.now)), env)
  }

  class CheckpointManager {
    const fs: FileSystem
    var checkpoint: Option<Progress>
    var pendingIds: seq<string>

    function Mem(): Memory
      reads this
    {
      Memory(checkpoint, pendingIds)
    }

    constructor (fs: FileSystem)
      ensures this.fs == fs && Mem() == Memory(None, [])
    {
      this.fs, checkpoint, pendingIds := fs, None, [];
    }

    method LoadCheckpoint(fault: bool) returns (r: Option<Progress>)
      modifies this
      ensures r == Load(fs.files, fault) && Mem() == Memory(r, old(pendingIds))
    {
      var content := fs.ReadFile(CHECKPOINT_FILE, fault);
      checkpoint := if content.None? then None else ReadProgress(content.value);
      r := checkpoint;
    }

    method MarkProcessed(scanIds: seq<string>)
      modifies this
      ensures Mem() == Memory(old(checkpoint), old(pendingIds) + scanIds)
    {
      pendingIds := pendingIds + scanIds;
    }

    /** NoCheckpoint and SaveFailed are thrown. */
    method Flush(env: SaveEnv) returns (r: FlushResult)
      modifies this, fs
      ensures r == FlushOutcome(old(Mem()), env) && Mem() == Flushed(old(Mem()), env)
      ensures var ops := FlushOps(old(Mem()), env); fs.files == ApplyAll(old(fs.files), ops) && fs.log == old(fs.log) + ops
    {
      hide ApplyAll;
      ApplyNothing(fs.files);
      if pendingIds == [] { return Nothing; }
      if checkpoint.None? { return NoCheckpoint; }
      var c := checkpoint.value;
      checkpoint := Some(c.(processedScanIds := c.processedScanIds + pendingIds, updatedAt := env.now));
      var ok := fs.SaveAtomically(CHECKPOINT_FILE, ProgressText(checkpoint.value), env);
      if !ok { return SaveFailed; }
      pendingIds := [];
      r := Saved;
    }

    /** If there is no file to remove, the checkpoint in memory stays. */
    method ClearCheckpoint(fault: bool) returns (ok: bool)
      modifies this, fs
      ensures ok == !fault
      ensures Mem() == Memory(if !fault && CHECKPOINT_FILE in old(fs.files) then None else old(checkpoint), old(pendingIds))
      ensures var ops := if fault then [] else [Unlink(CHECKPOINT_FILE)];
        fs.files == ApplyAll(old(fs.files), ops) && fs.log == old(fs.log) + ops
    {
      var r := fs.UnlinkFile(CHECKPOINT_FILE, fault);
      ok := !r.NotPermitted?;
      if r.Deleted? { checkpoint := None; }
    }
  }

  // ---- Sessions -------------------------------------------------------------------------------

  datatype Act = Mark(ids: seq<string>) | Flush(env: SaveEnv)

  datatype Session = Session(files: Files, mem: Memory)

  function Perform(s: Session, act: Act): Session {
    match act
    case Mark(ids) => s.(mem := s.mem.(pendingIds := s.mem.pendingIds + ids))
    case Flush(env) => Session(ApplyAll(s.files, FlushOps(s.mem, env)), Flushed(s.mem, env))
  }

  function PerformAll(s: Session, acts: seq<Act>): Session {
    if acts == [] then s else Perform(PerformAll(s, acts[..|acts| - 1]), acts[|acts| - 1])
  }

  function Resume(fs: Files): Session {
    Session(fs, Memory(Load(fs, false), []))
  }

  function SetOf(ids: seq<string>): set<string> {
    set id | id in ids
  }

  function Marked(acts: seq<Act>): set<string> {
    if acts == [] then {} else
      var act := acts[|acts| - 1];
      Marked(acts[..|acts| - 1]) + match act case Mark(ids) => SetOf(ids) case Flush(_) => {}
  }

  function OnDisk(fs: Files): set<string> {
    match Load(fs, false) case None => {} case Some(c) => SetOf(c.processedScanIds)
  }

  /** Memory and buffer together hold what was found and what was marked; the disk lags behind only
      while something is pending. */
  ghost predicate Tracks(s: Session, start: set<string>, marked: set<string>) {
    && s.mem.checkpoint.Some? && Load(s.files, false).Some?
    && SetOf(s.mem.checkpoint.value.processedScanIds) + SetOf(s.mem.pendingIds) == start + marked
    && start <= OnDisk(s.files) <= SetOf(s.mem.checkpoint.value.processedScanIds)
    && (s.mem.pendingIds == [] ==> OnDisk(s.files) == start + marked)
  }

  lemma SetOfAppend(a: seq<string>, b: seq<string>)
    ensures SetOf(a + b) == SetOf(a) + SetOf(b)
  {}

  lemma PushedIds(m: Memory, now: nat)
    requires m.checkpoint.Some?
    ensures SetOf(Pushed(m, now).processedScanIds) == SetOf(m.checkpoint.value.processedScanIds) + SetOf(m.pendingIds)
  {
    SetOfAppend(m.checkpoint.value.processedScanIds, m.pendingIds);
  }

  lemma FlushTracks(s: Session, env: SaveEnv, start: set<string>, marked: set<string>)
    requires Tracks(s, start, marked)
    ensures Tracks(Perform(s, Flush(env)), start, marked)
    ensures OnDisk(s.files) <= OnDisk(Perform(s, Flush(env)).files)
    ensures FlushOutcome(s.mem, env).Saved? ==> OnDisk(Perform(s, Flush(env)).files) == start + marked
  {
    hide ApplyAll, AtomicSave, ReadProgress, SetOf, Pushed, ProgressText;
    ApplyNothing(s.files);
    if s.mem.pendingIds != [] {
      var c := Pushed(s.mem, env.now);
      PushedIds(s.mem, env.now);
      SaveApplied(s.files, CHECKPOINT_FILE, ProgressText(c), env);
      ProgressRoundTrip(c);
      NoIds();
    }
  }

  lemma NoIds()
    ensures SetOf([]) == {}
  {}

  lemma {:induction false} SessionTracks(fs: Files, acts: seq<Act>)
    requires Load(fs, false).Some?
    ensures Tracks(PerformAll(Resume(fs), acts), OnDisk(fs), Marked(acts))
  {
    hide ReadProgress, ApplyAll, FlushOps, Flushed, Tracks;
    if acts == [] {
      StartTracks(fs);
    } else {
      var n := |acts| - 1;
      SessionTracks(fs, acts[..n]);
      var s := PerformAll(Resume(fs), acts[..n]);
      if acts[n].Flush? {
        FlushTracks(s, acts[n].env, OnDisk(fs), Marked(acts[..n]));
        assert Marked(acts) == Marked(acts[..n]);
      } else {
        MarkTracks(s, acts[n].ids, OnDisk(fs), Marked(acts[..n]));
      }
    }
  }

  lemma StartTracks(fs: Files)
    requires Load(fs, false).Some?
    ensures Tracks(Resume(fs), OnDisk(fs), {})
  {
    NoIds();
  }

  lemma MarkTracks(s: Session, ids: seq<string>, start: set<string>, marked: set<string>)
    requires Tracks(s, start, marked)
    ensures Tracks(Perform(s, Mark(ids)), start, marked + SetOf(ids))
  {
    hide ReadProgress, SetOf;
    SetOfAppend(s.mem.pendingIds, ids);
    NoIds();
    if s.mem.pendingIds + ids == [] { assert ids == []; }
  }

  /** A session that resumes from a checkpoint, and either does all its acts or dies in one of them. */
  ghost predicate Outcome(fs: Files, acts: seq<Act>, fs': Files) {
    || fs' == PerformAll(Resume(fs), acts).files
    || exists n, k :: 0 <= n < |acts| && DiesIn(PerformAll(Resume(fs), acts[..n]), acts[n], k, fs')
  }

  ghost predicate DiesIn(s: Session, act: Act, k: nat, fs': Files) {
    act.Flush? && k <= |FlushOps(s.mem, act.env)| && CrashImage(s.files, FlushOps(s.mem, act.env), k, fs')
  }

  /** In the middle of a flush the disk has the old ids or the new ones. */
  lemma FlushIsAtomic(s: Session, act: Act, k: nat, fs': Files, start: set<string>, marked: set<string>)
    requires Tracks(s, start, marked) && DiesIn(s, act, k, fs')
    ensures Load(fs', false).Some? && (OnDisk(fs') == OnDisk(s.files) || OnDisk(fs') == start + marked)
  {
    hide AtomicSave, ReadProgress, SetOf, Pushed, ProgressText, ApplyAll;
    ApplyNothing(s.files);
    if s.mem.pendingIds != [] {
      var c := Pushed(s.mem, act.env.now);
      PushedIds(s.mem, act.env.now);
      SaveIsAtomic(s.files, CHECKPOINT_FILE, ProgressText(c), act.env, k, fs');
      ProgressRoundTrip(c);
    }
  }

  lemma {:induction false} MarkedGrows(acts: seq<Act>, n: nat)
    requires n <= |acts|
    ensures Marked(acts[..n]) <= Marked(acts)
    decreases |acts|
  {
    if n < |acts| {
      MarkedGrows(acts[..|acts| - 1], n);
      assert acts[..|acts| - 1][..n] == acts[..n];
    } else {
      assert acts[..n] == acts;
    }
  }

  /** A session that dies in act number `n` has recorded nothing but what it was told before. */
  lemma DeathOnlyAdds(fs: Files, acts: seq<Act>, n: nat, k: nat, fs': Files)
    requires Load(fs, false).Some? && n < |acts| && DiesIn(PerformAll(Resume(fs), acts[..n]), acts[n], k, fs')
    ensures Load(fs', false).Some? && OnDisk(fs) <= OnDisk(fs') <= OnDisk(fs) + Marked(acts[..n])
  {
    hide Tracks, Load, DiesIn, PerformAll, OnDisk, Marked;
    SessionTracks(fs, acts[..n]);
    TracksMeans(PerformAll(Resume(fs), acts[..n]), OnDisk(fs), Marked(acts[..n]));
    FlushIsAtomic(PerformAll(Resume(fs), acts[..n]), acts[n], k, fs', OnDisk(fs), Marked(acts[..n]));
  }

  /** However a session ends, no id is lost and none is recorded that it was not told of. */
  lemma SessionOnlyAdds(fs: Files, acts: seq<Act>, fs': Files)
    requires Load(fs, false).Some? && Outcome(fs, acts, fs')
    ensures Load(fs', false).Some? && OnDisk(fs) <= OnDisk(fs') <= OnDisk(fs) + Marked(acts)
  {
    hide Tracks, Load, DiesIn, PerformAll;
    SessionTracks(fs, acts);
    TracksMeans(PerformAll(Resume(fs), acts), OnDisk(fs), Marked(acts));
    if fs' != PerformAll(Resume(fs), acts).files {
      var n, k :| 0 <= n < |acts| && DiesIn(PerformAll(Resume(fs), acts[..n]), acts[n], k, fs');
      DeathOnlyAdds(fs, acts, n, k, fs');
      MarkedGrows(acts, n);
    }
  }

  lemma TracksMeans(s: Session, start: set<string>, marked: set<string>)
    requires Tracks(s, start, marked)
    ensures Load(s.files, false).Some? && start <= OnDisk(s.files) <= start + marked
  {}

  /** Sessions one after the other, each resuming from what the one before left. */
  ghost predicate Chain(disks: seq<Files>, acts: seq<seq<Act>>) {
    |disks| == |acts| + 1 && forall i :: 0 <= i < |acts| ==> Outcome(disks[i], acts[i], disks[i + 1])
  }

  /** Over any number of sessions the set on disk only grows, and by marked ids only. */
  lemma {:induction false} ChainOnlyAdds(disks: seq<Files>, acts: seq<seq<Act>>)
    requires Chain(disks, acts) && Load(disks[0], false).Some?
    ensures Load(disks[|acts|], false).Some? && OnDisk(disks[0]) <= OnDisk(disks[|acts|])
    ensures forall id :: id in OnDisk(disks[|acts|]) ==> id in OnDisk(disks[0]) || exists i :: 0 <= i < |acts| && id in Marked(acts[i])
    decreases |acts|
  {
    hide Load, Outcome, OnDisk, Marked;
    if acts != [] {
      var n := |acts| - 1;
      ChainOnlyAdds(disks[..n + 1], acts[..n]);
      SessionOnlyAdds(disks[n], acts[n], disks[n + 1]);
    }
  }

  /** A flush that succeeds brings the disk up to date, whatever failed before it. */
  lemma SavedIsComplete(fs: Files, acts: seq<Act>, env: SaveEnv)
    requires Load(fs, false).Some? && FlushOutcome(PerformAll(Resume(fs), acts).mem, env).Saved?
    ensures OnDisk(PerformAll(Resume(fs), acts + [Flush(env)]).files) == OnDisk(fs) + Marked(acts)
  {
    hide Tracks, Load, OnDisk, Perform;
    SessionTracks(fs, acts);
    FlushTracks(PerformAll(Resume(fs), acts), env, OnDisk(fs), Marked(acts));
    assert (acts + [Flush(env)])[..|acts|] == acts;
  }

  // ---- The resume filter ----------------------------------------------------------------------

  datatype Scan = Scan(scanId: string, url: string, existingIssues: nat)

  function Unprocessed(ids: seq<string>): Scan -> bool {
    (s: Scan) => s.scanId !in ids
  }

  function Remaining(scans: seq<Scan>, ids: seq<string>): seq<Scan> {
    Filter(Unprocessed(ids), scans)
  }

  /** What is skipped and what is left are the input; and a list with repetitions, as a retried flush
      leaves it, skips the same scans as any other list of the same set. */
  lemma {:induction false} ResumeIsComplement(scans: seq<Scan>, ids: seq<string>, same: seq<string>)
    requires SetOf(ids) == SetOf(same)
    ensures multiset(scans) == multiset(Remaining(scans, ids)) + multiset(Filter((s: Scan) => s.scanId in ids, scans))
    ensures Remaining(scans, ids) == Remaining(scans, same)
  {
    hide Filter;
    var done := (s: Scan) => s.scanId in ids;
    FilterNothing(done);
    FilterNothing(Unprocessed(ids));
    FilterNothing(Unprocessed(same));
    if scans != [] {
      var n := |scans| - 1;
      ResumeIsComplement(scans[..n], ids, same);
      assert scans == scans[..n] + [scans[n]];
      FilterSnoc(done, scans[..n], scans[n]);
      FilterSnoc(Unprocessed(ids), scans[..n], scans[n]);
      FilterSnoc(Unprocessed(same), scans[..n], scans[n]);
      assert scans[n].scanId in SetOf(ids) <==> scans[n].scanId in SetOf(same);
    }
  }
}

/** The checkpoint of one scan's criteria batches: its file, and the manager that keeps it. */
module Checkpoint {
  import opened Wrappers
  import opened Disk
  import opened JsonValue
  import opened Criteria
  import opened Sequences
  import opened Cache
  import ResultParser

  datatype CriteriaCheckpoint = CriteriaCheckpoint(
    scanId: string,
    url: string,
    wcagLevel: Level,
    totalBatches: nat,
    completedBatches: seq<nat>,
    partialVerifications: seq<Value>,
    issueEnhancementComplete: bool,
    startedAt: nat,
    updatedAt: nat,
    tokensUsed: nat)

  const CHECKPOINT_DIR := ".ai-scan-checkpoints/"

  function CheckpointPath(scanId: string): string {
    CHECKPOINT_DIR + scanId + ".json"
  }

  /** Checkpoint, temporary file and cache entries never meet. */
  lemma PathsApart(scanId: string, path: string)
    requires InEntries(path)
    ensures CheckpointPath(scanId) != TempOf(CheckpointPath(scanId)) && CheckpointPath(scanId) != path && TempOf(CheckpointPath(scanId)) != path
  {
    assert |TempOf(CheckpointPath(scanId))| == |CheckpointPath(scanId)| + 4;
    assert CheckpointPath(scanId)[10] == TempOf(CheckpointPath(scanId))[10] == 'h';
    assert path[10] == path[..|ENTRIES_DIR|][10] == 'a';
  }

  /** Neither do the files of two scans. */
  lemma ScansApart(a: string, b: string)
    ensures CheckpointPath(a) == CheckpointPath(b) ==> a == b
    ensures TempOf(CheckpointPath(a)) != CheckpointPath(b)
  {
    var p, q := CheckpointPath(a), CheckpointPath(b);
    var n := |CHECKPOINT_DIR|;
    assert p[n..|p| - 5] == a && q[n..|q| - 5] == b;
    assert TempOf(p)[|p| + 3] == 'p' && q[|q| - 1] == 'n';
  }

  // ---- The file -------------------------------------------------------------------------------

  function NumberArray(ns: seq<nat>): (v: Value)
    ensures Printable(v) && v.VArr? && |v.elems| == |ns|
  {
    VArr(seq(|ns|, i requires 0 <= i < |ns| => VNum(ns[i] as real)))
  }

  function HeadMembers(c: CriteriaCheckpoint): (ms: seq<Member>)
    ensures forall m :: m in ms ==> Printable(m.value)
  {
    [ Member("scanId", VStr(c.scanId)),
      Member("url", VStr(c.url)),
      Member("wcagLevel", VStr(LevelText(c.wcagLevel))),
      Member("totalBatches", VNum(c.totalBatches as real)),
      Member("completedBatches", NumberArray(c.completedBatches)) ]
  }

  function TailMembers(c: CriteriaCheckpoint): (ms: seq<Member>)
    requires AllPrintable(c.partialVerifications)
    ensures forall m :: m in ms ==> Printable(m.value)
  {
    [ Member("partialVerifications", VArr(c.partialVerifications)),
      Member("issueEnhancementComplete", VBool(c.issueEnhancementComplete)),
      Member("startedAt", VNum(c.startedAt as real)),
      Member("updatedAt", VNum(c.updatedAt as real)),
      Member("tokensUsed", VNum(c.tokensUsed as real)) ]
  }

  function CheckpointValue(c: CriteriaCheckpoint): (v: Value)
    requires AllPrintable(c.partialVerifications)
    ensures Printable(v) && v.VObj?
  {
    VObj(HeadMembers(c) + TailMembers(c))
  }

  function LevelOf(v: Option<Value>): Option<Level> {
    if v == Some(VStr("A")) then Some(A)
    else if v == Some(VStr("AA")) then Some(AA)
    else if v == Some(VStr("AAA")) then Some(AAA)
    else None
  }

  function NatOf(v: Option<Value>): Option<nat> {
    if v.Some? && v.value.VNum? && v.value.r >= 0.0 && v.value.r == v.value.r.Floor as real then Some(v.value.r.Floor) else None
  }

  function NatsOf(elems: seq<Value>): Option<seq<nat>> {
    if elems == [] then Some([]) else
      match (NatOf(Some(elems[0])), NatsOf(elems[1..]))
      case (Some(n), Some(rest)) => Some([n] + rest)
      case _ => None
  }

  /** A missing or empty scan id, URL or level makes the file no checkpoint. */
  function DecodeCheckpoint(v: Value): (r: Option<CriteriaCheckpoint>)
    ensures r.Some? ==> AllPrintable(r.value.partialVerifications)
  {
    match (Get(v, "scanId"), Get(v, "url"), LevelOf(Get(v, "wcagLevel")))
    case (Some(VStr(scanId)), Some(VStr(url)), Some(level)) =>
      if scanId == "" || url == "" then None else DecodeProgress(v, scanId, url, level)
    case _ => None
  }

  function DecodeProgress(v: Value, scanId: string, url: string, level: Level): (r: Option<CriteriaCheckpoint>)
    ensures r.Some? ==> AllPrintable(r.value.partialVerifications)
  {
    match (Get(v, "completedBatches"), Get(v, "partialVerifications"), Get(v, "issueEnhancementComplete"))
    case (Some(VArr(ns)), Some(VArr(vs)), Some(VBool(done))) =>
      var total, completed := NatOf(Get(v, "totalBatches")), NatsOf(ns);
      var started, updated, tokens := NatOf(Get(v, "startedAt")), NatOf(Get(v, "updatedAt")), NatOf(Get(v, "tokensUsed"));
      if total.None? || completed.None? || started.None? || updated.None? || tokens.None? || !AllPrintable(vs) then None
      else Some(CriteriaCheckpoint(scanId, url, level, total.value, completed.value, vs, done, started.value, updated.value, tokens.value))
    case _ => None
  }

  function ReadCheckpoint(content: string): (r: Option<CriteriaCheckpoint>)
    ensures r.Some? ==> AllPrintable(r.value.partialVerifications)
  {
    match Parse(content) case None => None case Some(v) => DecodeCheckpoint(v)
  }

  /** Any failure to read counts as no checkpoint. */
  function LoadCheckpoint(fs: Files, scanId: string, fault: bool): (r: Option<CriteriaCheckpoint>)
    ensures r.Some? ==> AllPrintable(r.value.partialVerifications)
  {
    if fault || CheckpointPath(scanId) !in fs then None else ReadCheckpoint(fs[CheckpointPath(scanId)])
  }

  lemma {:induction false} NatsOfArray(ns: seq<nat>)
    ensures NatsOf(NumberArray(ns).elems) == Some(ns)
  {
    if ns != [] {
      assert NumberArray(ns).elems[1..] == NumberArray(ns[1..]).elems;
      NatsOfArray(ns[1..]);
      NatOfNat(ns[0]);
      assert [ns[0]] + ns[1..] == ns;
    }
  }

  lemma {:induction false} LookupAppend(a: seq<Member>, b: seq<Member>, key: string)
    ensures Lookup(a + b, key) == if Lookup(b, key).Some? then Lookup(b, key) else Lookup(a, key)
    decreases b
  {
    if b == [] {
      assert a + b == a;
    } else {
      assert (a + b)[..|a + b| - 1] == a + b[..|b| - 1];
      LookupAppend(a, b[..|b| - 1], key);
    }
  }

  lemma CheckpointHead(c: CriteriaCheckpoint)
    ensures var m := HeadMembers(c);
      && Lookup(m, "scanId") == Some(VStr(c.scanId))
      && Lookup(m, "url") == Some(VStr(c.url))
      && Lookup(m, "wcagLevel") == Some(VStr(LevelText(c.wcagLevel)))
      && Lookup(m, "totalBatches") == Some(VNum(c.totalBatches as real))
      && Lookup(m, "completedBatches") == Some(NumberArray(c.completedBatches))
  {
    hide Lookup, NumberArray, LevelText;
    var m := HeadMembers(c);
    HeadKeys(c);
    ResultParser.LookupAt(m, 0);
    ResultParser.LookupAt(m, 1);
    ResultParser.LookupAt(m, 2);
    ResultParser.LookupAt(m, 3);
    ResultParser.LookupAt(m, 4);
  }

  lemma TailLacks(c: CriteriaCheckpoint, key: string)
    requires AllPrintable(c.partialVerifications)
    requires |key| == 6 || |key| == 3 || |key| == 12 || |key| == 16 || (|key| == 9 && key[0] == 'w')
    ensures Lookup(TailMembers(c), key) == None
  {
    hide TailMembers, Lookup;
    TailKeys(c);
    ResultParser.LookupMissing(TailMembers(c), key);
  }

  lemma HeadKeys(c: CriteriaCheckpoint)
    ensures var m := HeadMembers(c);
      && |m| == 5 && |m[0].key| == 6 && |m[1].key| == 3 && |m[2].key| == 9 && |m[3].key| == 12 && |m[4].key| == 16
      && m[2].key[0] == 'w'
  {
    hide NumberArray, LevelText;
  }

  lemma TailKeys(c: CriteriaCheckpoint)
    requires AllPrintable(c.partialVerifications)
    ensures var m := TailMembers(c);
      && |m| == 5 && |m[0].key| == 20 && |m[1].key| == 24 && |m[2].key| == 9 && |m[3].key| == 9 && |m[4].key| == 10
      && m[2].key[0] == 's' && m[3].key[0] == 'u'
  {}

  lemma CheckpointTail(c: CriteriaCheckpoint)
    requires AllPrintable(c.partialVerifications)
    ensures var t := TailMembers(c);
      && Lookup(t, "partialVerifications") == Some(VArr(c.partialVerifications))
      && Lookup(t, "issueEnhancementComplete") == Some(VBool(c.issueEnhancementComplete))
      && Lookup(t, "startedAt") == Some(VNum(c.startedAt as real))
      && Lookup(t, "updatedAt") == Some(VNum(c.updatedAt as real))
      && Lookup(t, "tokensUsed") == Some(VNum(c.tokensUsed as real))
  {
    hide Lookup;
    var t := TailMembers(c);
    TailKeys(c);
    ResultParser.LookupAt(t, 0);
    ResultParser.LookupAt(t, 1);
    ResultParser.LookupAt(t, 2);
    ResultParser.LookupAt(t, 3);
    ResultParser.LookupAt(t, 4);
  }

  /** Every field is found under its name. */
  lemma CheckpointMembers(c: CriteriaCheckpoint)
    requires AllPrintable(c.partialVerifications)
    ensures var v := CheckpointValue(c);
      && Get(v, "scanId") == Some(VStr(c.scanId))
      && Get(v, "url") == Some(VStr(c.url))
      && Get(v, "wcagLevel") == Some(VStr(LevelText(c.wcagLevel)))
      && Get(v, "totalBatches") == Some(VNum(c.totalBatches as real))
      && Get(v, "completedBatches") == Some(NumberArray(c.completedBatches))
      && Get(v, "partialVerifications") == Some(VArr(c.partialVerifications))
      && Get(v, "issueEnhancementComplete") == Some(VBool(c.issueEnhancementComplete))
      && Get(v, "startedAt") == Some(VNum(c.startedAt as real))
      && Get(v, "updatedAt") == Some(VNum(c.updatedAt as real))
      && Get(v, "tokensUsed") == Some(VNum(c.tokensUsed as real))
  {
    hide Lookup, HeadMembers, TailMembers, NumberArray, LevelText;
    CheckpointHead(c);
    CheckpointTail(c);
    TailLacks(c, "scanId");
    TailLacks(c, "url");
    TailLacks(c, "wcagLevel");
    TailLacks(c, "totalBatches");
    TailLacks(c, "completedBatches");
    forall key ensures Get(CheckpointValue(c), key) ==
      if Lookup(TailMembers(c), key).Some? then Lookup(TailMembers(c), key) else Lookup(HeadMembers(c), key)
    {
      LookupAppend(HeadMembers(c), TailMembers(c), key);
    }
  }

  lemma NatOfNat(n: nat)
    ensures NatOf(Some(VNum(n as real))) == Some(n)
  {}

  lemma LevelOfText(l: Level)
    ensures LevelOf(Some(VStr(LevelText(l)))) == Some(l)
  {
    assert |"A"| == 1 && |"AA"| == 2 && |"AAA"| == 3;
  }

  /** A saved checkpoint is read back exactly, unless its scan id or URL is empty: then never. */
  lemma CheckpointRoundTrip(c: CriteriaCheckpoint)
    requires AllPrintable(c.partialVerifications)
    ensures ReadCheckpoint(Stringify(CheckpointValue(c))) == if c.scanId == "" || c.url == "" then None else Some(c)
  {
    hide Stringify, CheckpointValue, Get, NatOf, NatsOf, LevelOf, LevelText, NumberArray, Parse;
    StringifyRoundTrip(CheckpointValue(c));
    CheckpointMembers(c);
    NatsOfArray(c.completedBatches);
    LevelOfText(c.wcagLevel);
    NatOfNat(c.totalBatches);
    NatOfNat(c.startedAt);
    NatOfNat(c.updatedAt);
    NatOfNat(c.tokensUsed);
  }

  // ---- Saving ---------------------------------------------------------------------------------

  function CheckpointText(c: CriteriaCheckpoint, now: nat): string
    requires AllPrintable(c.partialVerifications)
  {
    Stringify(CheckpointValue(c.(updatedAt := now)))
  }

  function SaveOps(c: CriteriaCheckpoint, env: SaveEnv): seq<FileOp>
    requires AllPrintable(c.partialVerifications)
  {
    AtomicSave(CheckpointPath(c.scanId), CheckpointText(c, env.now), env)
  }

  // ---- Marking a batch complete ---------------------------------------------------------------

  function Ascending(): (nat, nat) -> bool {
    (a: nat, b: nat) => a <= b
  }

  function Marked(c: CriteriaCheckpoint, batchNumber: nat, vs: seq<Value>, tokens: nat): CriteriaCheckpoint {
    c.(completedBatches := if batchNumber in c.completedBatches then c.completedBatches else Sort(Ascending(), c.completedBatches + [batchNumber]),
       partialVerifications := c.partialVerifications + vs,
       tokensUsed := c.tokensUsed + tokens)
  }

  /** Without a readable checkpoint nothing happens. */
  function MarkOps(fs: Files, scanId: string, batchNumber: nat, vs: seq<Value>, tokens: nat, fault: bool, env: SaveEnv): seq<FileOp>
    requires AllPrintable(vs)
  {
    match LoadCheckpoint(fs, scanId, fault)
    case None => []
    case Some(c) => SaveOps(Marked(c, batchNumber, vs, tokens), env)
  }

  // ---- Selecting what is left -----------------------------------------------------------------

  function Incomplete(total: nat, completed: seq<nat>): seq<nat> {
    if total == 0 then []
    else Incomplete(total - 1, completed) + if total - 1 in completed then [] else [total - 1]
  }

  /** The batches below `total` that are not completed, in ascending order. */
  lemma {:induction false} IncompleteMeans(total: nat, completed: seq<nat>)
    ensures var r := Incomplete(total, completed);
      && (forall b: nat :: b in r <==> b < total && b !in completed)
      && (forall i, j :: 0 <= i < j < |r| ==> r[i] < r[j])
  {
    if total > 0 {
      IncompleteMeans(total - 1, completed);
      var front := Incomplete(total - 1, completed);
      assert forall i :: 0 <= i < |front| ==> front[i] in front;
    }
  }

  class CriteriaCheckpointManager {
    const fs: FileSystem

    constructor (fs: FileSystem)
      ensures this.fs == fs
    {
      this.fs := fs;
    }

    method GetCheckpoint(scanId: string, fault: bool) returns (r: Option<CriteriaCheckpoint>)
      ensures r == LoadCheckpoint(fs.files, scanId, fault)
    {
      var content := fs.ReadFile(CheckpointPath(scanId), fault);
      r := if content.None? then None else ReadCheckpoint(content.value);
    }

    /** False: the write or the rename threw. */
    method SaveCheckpoint(c: CriteriaCheckpoint, env: SaveEnv) returns (ok: bool)
      requires AllPrintable(c.partialVerifications)
      modifies fs
      ensures ok <==> Succeeds(env)
      ensures fs.files == ApplyAll(old(fs.files), SaveOps(c, env)) && fs.log == old(fs.log) + SaveOps(c, env)
    {
      var checkpoint := c.(updatedAt := env.now);
      ok := fs.SaveAtomically(CheckpointPath(c.scanId), Stringify(CheckpointValue(checkpoint)), env);
    }

    /** False: there is no checkpoint, or saving threw. */
    method MarkBatchComplete(scanId: string, batchNumber: nat, vs: seq<Value>, tokens: nat, fault: bool, env: SaveEnv) returns (ok: bool)
      requires AllPrintable(vs)
      modifies fs
      ensures ok <==> LoadCheckpoint(old(fs.files), scanId, fault).Some? && Succeeds(env)
      ensures var ops := MarkOps(old(fs.files), scanId, batchNumber, vs, tokens, fault, env);
        fs.files == ApplyAll(old(fs.files), ops) && fs.log == old(fs.log) + ops
    {
      hide LoadCheckpoint, SaveOps, Sort, ApplyAll;
      var loaded := GetCheckpoint(scanId, fault);
      ApplyNothing(fs.files);
      if loaded.None? {
        assert fs.log + [] == fs.log;
        return false;
      }
      var checkpoint := loaded.value;
      if batchNumber !in checkpoint.completedBatches {
        checkpoint := checkpoint.(completedBatches := checkpoint.completedBatches + [batchNumber]);
        checkpoint := checkpoint.(completedBatches := Sort(Ascending(), checkpoint.completedBatches));
      }
      checkpoint := checkpoint.(partialVerifications := checkpoint.partialVerifications + vs);
      checkpoint := checkpoint.(tokensUsed := checkpoint.tokensUsed + tokens);
      ok := SaveCheckpoint(checkpoint, env);
    }

    method ClearCheckpoint(scanId: string, fault: bool) returns (ok: bool)
      modifies fs
      ensures ok == !fault
      ensures var ops := if fault then [] else [Unlink(CheckpointPath(scanId))];
        fs.files == ApplyAll(old(fs.files), ops) && fs.log == old(fs.log) + ops
    {
      var r := fs.UnlinkFile(CheckpointPath(scanId), fault);
      ok := !r.NotPermitted?;
    }

    method GetIncompleteBatches(c: CriteriaCheckpoint) returns (r: seq<nat>)
      ensures r == Incomplete(c.totalBatches, c.completedBatches)
    {
      var completedSet := set b | b in c.completedBatches;
      r := [];
      for batchNum := 0 to c.totalBatches
        invariant r == Incomplete(batchNum, c.completedBatches)
      {
        assert batchNum in completedSet <==> batchNum in c.completedBatches;
        if batchNum !in completedSet { r := r + [batchNum]; }
      }
    }
  }
}

/** The disk cache of batch verifications, and the timed map it refines. */
module Cache {
  import opened Wrappers
  import opened Disk
  import opened JsonValue
  import opened Criteria
  import JsonParser
  import BraceScanner
  import ResultParser

  // ---- Keys and paths -------------------------------------------------------------------------

  /** The first sixteen hexadecimal characters of a SHA-256 digest. */
  type ContentHash = s: string | |s| == 16 witness "0123456789abcdef"

  datatype CacheKey = CacheKey(contentHash: ContentHash, wcagLevel: Level, batchNumber: nat)

  const ENTRIES_DIR := ".ai-scan-cache/entries/"
  const DAY_MS := 86400000

  function EntryPath(key: CacheKey): (path: string)
    ensures InEntries(path)
  {
    var name := key.contentHash + "_" + LevelText(key.wcagLevel) + "_" + Digits(key.batchNumber);
    assert (ENTRIES_DIR + name + ".json")[..|ENTRIES_DIR|] == ENTRIES_DIR;
    ENTRIES_DIR + name + ".json"
  }

  /** The files `cleanup` looks at. */
  predicate InEntries(path: string) {
    |path| >= |ENTRIES_DIR| + 5 && path[..|ENTRIES_DIR|] == ENTRIES_DIR && path[|path| - 5..] == ".json"
  }

  lemma LevelTextInjective(a: Level, b: Level, u: string, v: string)
    requires LevelText(a) + "_" + u == LevelText(b) + "_" + v
    ensures a == b && u == v
  {
    var s, t := LevelText(a) + "_" + u, LevelText(b) + "_" + v;
    assert s[1] == (if a.A? then '_' else 'A') && t[1] == (if b.A? then '_' else 'A');
    if !a.A? {
      assert s[2] == (if a.AA? then '_' else 'A') && t[2] == (if b.AA? then '_' else 'A');
    }
    assert s[|LevelText(a)| + 1..] == u && t[|LevelText(b)| + 1..] == v;
  }

  /** Different keys have different files. */
  lemma EntryPathInjective(a: CacheKey, b: CacheKey)
    requires EntryPath(a) == EntryPath(b)
    ensures a == b
  {
    hide LevelText, Digits;
    var p, q := EntryPath(a), EntryPath(b);
    var n := |ENTRIES_DIR|;
    var s, t := LevelText(a.wcagLevel) + "_" + Digits(a.batchNumber), LevelText(b.wcagLevel) + "_" + Digits(b.batchNumber);
    assert p == ENTRIES_DIR + a.contentHash + "_" + s + ".json" && q == ENTRIES_DIR + b.contentHash + "_" + t + ".json";
    assert p[n..n + 16] == a.contentHash && q[n..n + 16] == b.contentHash;
    assert p[n + 17..|p| - 5] == s && q[n + 17..|q| - 5] == t;
    LevelTextInjective(a.wcagLevel, b.wcagLevel, Digits(a.batchNumber), Digits(b.batchNumber));
    DigitsInjective(a.batchNumber, b.batchNumber);
  }

  // ---- Entries --------------------------------------------------------------------------------

  predicate AllPrintable(vs: seq<Value>) {
    forall v :: v in vs ==> Printable(v)
  }

  function KeyValue(key: CacheKey): (v: Value)
    ensures Printable(v)
  {
    VObj([
      Member("contentHash", VStr(key.contentHash)),
      Member("wcagLevel", VStr(LevelText(key.wcagLevel))),
      Member("batchNumber", VNum(key.batchNumber as real))])
  }

  function EntryValue(key: CacheKey, vs: seq<Value>, tokens: nat, now: nat, expiry: nat): (v: Value)
    requires AllPrintable(vs)
    ensures Printable(v) && v.VObj?
  {
    VObj([
      Member("key", KeyValue(key)),
      Member("verifications", VArr(vs)),
      Member("tokensUsed", VNum(tokens as real)),
      Member("aiModel", VStr("claude-opus-4")),
      Member("createdAt", VNum(now as real)),
      Member("expiresAt", VNum(expiry as real))])
  }

  lemma EntryMembers(key: CacheKey, vs: seq<Value>, tokens: nat, now: nat, expiry: nat)
    requires AllPrintable(vs)
    ensures var v := EntryValue(key, vs, tokens, now, expiry);
      && Get(v, "expiresAt") == Some(VNum(expiry as real))
      && Get(v, "verifications") == Some(VArr(vs))
      && Get(v, "tokensUsed") == Some(VNum(tokens as real))
  {
    hide Lookup, KeyValue;
    var m := EntryValue(key, vs, tokens, now, expiry).members;
    assert |m[2].key| == 10 && |m[3].key| == 7 && |m[4].key| == 9 && |m[5].key| == 9;
    ResultParser.LookupAt(m, 5);
    ResultParser.LookupAt(m, 1);
    ResultParser.LookupAt(m, 2);
  }

  // ---- Reading an entry -----------------------------------------------------------------------

  /** What the content of a file amounts to: nothing `JSON.parse` accepts or null, whose property
      access throws; or a value without, or with, a usable expiry. */
  datatype Reading = Unreadable | Undated(entry: Value) | Dated(expiry: real, entry: Value)

  function ReadContent(content: string): Reading {
    match Parse(content)
    case None => Unreadable
    case Some(v) =>
      if v.VNull? then Unreadable
      else
        match Get(v, "expiresAt")
        case Some(VNum(r)) => Dated(r, v)
        case Some(VNull) => Dated(0.0, v)
        case Some(VBool(b)) => Dated(if b then 1.0 else 0.0, v)
        case _ => Undated(v)
  }

  function ReadEntry(fs: Files, path: string, fault: bool): Reading {
    if fault || path !in fs then Unreadable else ReadContent(fs[path])
  }

  predicate Expired(r: Reading, now: nat) {
    r.Dated? && now as real > r.expiry
  }

  /** `get`: a value that compares as not expired is a hit, even if it carries no date. */
  function CacheGet(fs: Files, key: CacheKey, now: nat, fault: bool): Option<Value> {
    var r := ReadEntry(fs, EntryPath(key), fault);
    if r.Unreadable? || Expired(r, now) then None else Some(r.entry)
  }

  /** `has`: the comparison the other way round, which an invalid date fails. */
  predicate CacheHas(fs: Files, key: CacheKey, now: nat, fault: bool) {
    var r := ReadEntry(fs, EntryPath(key), fault);
    r.Dated? && now as real <= r.expiry
  }

  /** `has` and `get` agree, except on a readable file without a usable expiry ... */
  lemma HasAgreesIff(fs: Files, key: CacheKey, now: nat, fault: bool)
    ensures (CacheHas(fs, key, now, fault) <==> CacheGet(fs, key, now, fault).Some?)
      <==> !ReadEntry(fs, EntryPath(key), fault).Undated?
  {}

  /** ... such as this one, which is a hit that `has` denies. */
  lemma HasDisagrees(fs: Files, key: CacheKey, now: nat)
    requires EntryPath(key) in fs && fs[EntryPath(key)] == Stringify(VObj([Member("tokensUsed", VNum(1.0))]))
    ensures CacheGet(fs, key, now, false).Some? && !CacheHas(fs, key, now, false)
  {
    hide Stringify;
    var v := VObj([Member("tokensUsed", VNum(1.0))]);
    assert Printable(v);
    StringifyRoundTrip(v);
    assert |v.members[0].key| == 10 && |"expiresAt"| == 9;
    ResultParser.LookupMissing(v.members, "expiresAt");
  }

  // ---- Runs -----------------------------------------------------------------------------------

  /** Every way a file of the cache changes: a `set`, with how its write ended, and a `cleanup`, with
      the files it could not read and those it could not delete. */
  datatype CacheOp =
    | Set(key: CacheKey, vs: seq<Value>, tokens: nat, now: nat, outcome: WriteOutcome)
    | Cleanup(at: nat, unread: set<string>, stuck: set<string>)

  predicate OpOk(op: CacheOp) {
    op.Set? ==> AllPrintable(op.vs)
  }

  function Content(op: CacheOp, ttlDays: nat): string
    requires op.Set? && OpOk(op)
  {
    Stringify(EntryValue(op.key, op.vs, op.tokens, op.now, op.now + ttlDays * DAY_MS))
  }

  /** Whether `cleanup` takes a file for invalid or expired. */
  predicate Removable(fs: Files, path: string, now: nat, unread: set<string>) {
    var r := ReadEntry(fs, path, path in unread);
    r.Unreadable? || Expired(r, now)
  }

  predicate Removed(fs: Files, path: string, now: nat, unread: set<string>, stuck: set<string>) {
    path in fs && InEntries(path) && path !in stuck && Removable(fs, path, now, unread)
  }

  function CleanedUp(fs: Files, now: nat, unread: set<string>, stuck: set<string>): Files {
    map path | path in fs && !Removed(fs, path, now, unread, stuck) :: fs[path]
  }

  /** The deletions of a cleanup that works through `listing`. */
  function CleanOps(fs: Files, listing: seq<string>, now: nat, unread: set<string>, stuck: set<string>): seq<FileOp> {
    if listing == [] then [] else
      var n := |listing| - 1;
      CleanOps(fs, listing[..n], now, unread, stuck) + if Removed(fs, listing[n], now, unread, stuck) then [Unlink(listing[n])] else []
  }

  function FilesAfter(fs: Files, op: CacheOp, ttlDays: nat): Files
    requires OpOk(op)
  {
    match op
    case Set(key, _, _, _, w) => ApplyAll(fs, WriteOps(EntryPath(key), Content(op, ttlDays), w))
    case Cleanup(at, unread, stuck) => CleanedUp(fs, at, unread, stuck)
  }

  function Replay(ops: seq<CacheOp>, ttlDays: nat): Files
    requires forall op :: op in ops ==> OpOk(op)
  {
    if ops == [] then map[] else FilesAfter(Replay(ops[..|ops| - 1], ttlDays), ops[|ops| - 1], ttlDays)
  }

  /** The timed map: for each key the value last stored and its expiry. */
  datatype Slot = Empty | Holds(entry: Value, expiry: nat)

  function SlotAfter(slot: Slot, op: CacheOp, key: CacheKey, ttlDays: nat): Slot
    requires OpOk(op)
  {
    match op
    case Set(k, vs, tokens, now, w) =>
      var expiry := now + ttlDays * DAY_MS;
      if k != key || w.Refused? then slot
      else if w.Partial? && w.n < |Content(op, ttlDays)| then Empty
      else Holds(EntryValue(k, vs, tokens, now, expiry), expiry)
    case Cleanup(_, unread, stuck) =>
      if EntryPath(key) in unread && EntryPath(key) !in stuck then Empty else slot
  }

  function Latest(ops: seq<CacheOp>, key: CacheKey, ttlDays: nat): Slot
    requires forall op :: op in ops ==> OpOk(op)
  {
    if ops == [] then Empty else SlotAfter(Latest(ops[..|ops| - 1], key, ttlDays), ops[|ops| - 1], key, ttlDays)
  }

  function Answer(s: Slot, t: nat): Option<Value> {
    if s.Holds? && t <= s.expiry then Some(s.entry) else None
  }

  lemma StoredReads(key: CacheKey, vs: seq<Value>, tokens: nat, now: nat, expiry: nat)
    requires AllPrintable(vs)
    ensures var v := EntryValue(key, vs, tokens, now, expiry); ReadContent(Stringify(v)) == Dated(expiry as real, v)
  {
    hide Stringify, EntryValue, Get;
    StringifyRoundTrip(EntryValue(key, vs, tokens, now, expiry));
    EntryMembers(key, vs, tokens, now, expiry);
  }

  lemma TornReads(v: Value, n: nat, cut: bool)
    requires Printable(v) && v.VObj? && n < |Stringify(v)|
    ensures Parse(Torn(Stringify(v), n, cut)) == None
    ensures ReadContent(Torn(Stringify(v), n, cut)) == Unreadable
  {
    hide Layout, Get, JsonParser.ParseJson;
    BraceScanner.TornObjectIsNotJson(Layout(v, 0), n);
    var p := Stringify(v)[..n];
    assert p + [] == p;
  }

  lemma SetStep(fs: Files, op: CacheOp, key: CacheKey, slot: Slot, t: nat, ttlDays: nat)
    requires op.Set? && OpOk(op) && CacheGet(fs, key, t, false) == Answer(slot, t)
    ensures CacheGet(FilesAfter(fs, op, ttlDays), key, t, false) == Answer(SlotAfter(slot, op, key, ttlDays), t)
  {
    hide EntryPath, Stringify, EntryValue, ReadContent;
    var expiry := op.now + ttlDays * DAY_MS;
    var v := EntryValue(op.key, op.vs, op.tokens, op.now, expiry);
    var path := EntryPath(op.key);
    if op.key != key && path == EntryPath(key) { EntryPathInjective(op.key, key); }
    if op.outcome.Partial? && op.outcome.n < |Content(op, ttlDays)| {
      TornReads(v, op.outcome.n, op.outcome.cut);
    }
    StoredReads(op.key, op.vs, op.tokens, op.now, expiry);
    var arrived := Arrived(Content(op, ttlDays), op.outcome);
    if arrived.Some? {
      WriteApplied(fs, path, arrived.value);
    }
  }

  lemma WriteApplied(fs: Files, path: string, content: string)
    ensures ApplyAll(fs, [WriteFile(path, content)]) == fs[path := content]
  {
    assert [WriteFile(path, content)][1..] == [];
  }

  /** `cleanup` never changes a later answer, unless it failed to read, but not to delete, the file of
      a live entry. */
  lemma CleanupInvisibleIff(fs: Files, key: CacheKey, at: nat, unread: set<string>, stuck: set<string>, t: nat)
    requires at <= t
    ensures var path := EntryPath(key);
      CacheGet(CleanedUp(fs, at, unread, stuck), key, t, false) == CacheGet(fs, key, t, false)
      <==> !(path in unread && path !in stuck && CacheGet(fs, key, t, false).Some?)
    ensures var path := EntryPath(key);
      CacheHas(CleanedUp(fs, at, unread, stuck), key, t, false) == CacheHas(fs, key, t, false)
      <==> !(path in unread && path !in stuck && CacheHas(fs, key, t, false))
    ensures var path := EntryPath(key);
      path in unread && path !in stuck ==> CacheGet(CleanedUp(fs, at, unread, stuck), key, t, false) == None
  {
    hide ReadContent, InEntries;
    var path := EntryPath(key);
    assert InEntries(path);
  }

  /** A cleanup takes away exactly the entries that a lookup at that time would not return, and among the
      other `.json` files next to them those that are not readable or expired; nothing else, and what it
      leaves it leaves as it was. */
  lemma CleanupIff(fs: Files, key: CacheKey, at: nat, unread: set<string>, stuck: set<string>, path: string)
    ensures var left := CleanedUp(fs, at, unread, stuck);
      && (var entry := EntryPath(key);
          entry in left <==> entry in fs && (entry in stuck || CacheGet(fs, key, at, entry in unread).Some?))
      && (path in left ==> path in fs && left[path] == fs[path])
      && (path in fs && path !in left ==> InEntries(path) && path !in stuck)
      && (path in fs && InEntries(path) && path !in stuck && path !in unread && path in left ==>
            match Parse(fs[path])
            case None => false
            case Some(v) => !v.VNull? && match Get(v, "expiresAt") case Some(VNum(r)) => at as real <= r case _ => true)
  {
    hide InEntries, Parse, Get;
    var entry := EntryPath(key);
    assert InEntries(entry);
  }

  /** In particular an entry that was stored is gone behind the first cleanup after its time to live that
      can delete it, and stays behind any earlier one that can read it. */
  lemma StoredIsRemovedIff(fs: Files, op: CacheOp, ttlDays: nat, at: nat, unread: set<string>, stuck: set<string>)
    requires op.Set? && OpOk(op) && op.outcome == Written && EntryPath(op.key) !in unread && EntryPath(op.key) !in stuck
    ensures EntryPath(op.key) in CleanedUp(FilesAfter(fs, op, ttlDays), at, unread, stuck)
      <==> at <= op.now + ttlDays * (24 * 60 * 60 * 1000)
  {
    hide EntryPath, Stringify, EntryValue, ReadContent, InEntries;
    assert InEntries(EntryPath(op.key));
    StoredReads(op.key, op.vs, op.tokens, op.now, op.now + ttlDays * DAY_MS);
    WriteApplied(fs, EntryPath(op.key), Content(op, ttlDays));
  }

  /** Over any run, `get` at a time no cleanup lies behind answers as the timed map does. */
  lemma {:induction false} CacheRefines(ops: seq<CacheOp>, key: CacheKey, ttlDays: nat, t: nat)
    requires forall op :: op in ops ==> OpOk(op)
    requires forall op :: op in ops && op.Cleanup? ==> op.at <= t
    ensures CacheGet(Replay(ops, ttlDays), key, t, false) == Answer(Latest(ops, key, ttlDays), t)
  {
    hide FilesAfter, SlotAfter, CacheGet, OpOk;
    if ops == [] {
      NothingCached(key, t);
    } else {
      var n := |ops| - 1;
      CacheRefines(ops[..n], key, ttlDays, t);
      var fs, slot := Replay(ops[..n], ttlDays), Latest(ops[..n], key, ttlDays);
      if ops[n].Set? {
        SetStep(fs, ops[n], key, slot, t, ttlDays);
      } else {
        CleanupStep(fs, ops[n], key, slot, t, ttlDays);
      }
    }
  }

  lemma NothingCached(key: CacheKey, t: nat)
    ensures CacheGet(map[], key, t, false) == None
  {
    hide EntryPath;
  }

  lemma CleanupStep(fs: Files, op: CacheOp, key: CacheKey, slot: Slot, t: nat, ttlDays: nat)
    requires op.Cleanup? && op.at <= t && CacheGet(fs, key, t, false) == Answer(slot, t)
    ensures CacheGet(FilesAfter(fs, op, ttlDays), key, t, false) == Answer(SlotAfter(slot, op, key, ttlDays), t)
  {
    hide EntryPath, CacheGet, CleanedUp;
    CleanupInvisibleIff(fs, key, op.at, op.unread, op.stuck, t);
  }

  // ---- `has` and `get` over runs --------------------------------------------------------------

  /** No file carries a value without a usable expiry. */
  ghost predicate AllDated(fs: Files) {
    forall path :: path in fs ==> !ReadContent(fs[path]).Undated?
  }

  lemma StepKeepsDated(fs: Files, op: CacheOp, ttlDays: nat)
    requires AllDated(fs) && OpOk(op)
    ensures AllDated(FilesAfter(fs, op, ttlDays))
  {
    hide ReadContent, EntryPath, Stringify, EntryValue, ApplyAll;
    if op.Set? {
      var expiry := op.now + ttlDays * DAY_MS;
      ApplyNothing(fs);
      StoredReads(op.key, op.vs, op.tokens, op.now, expiry);
      if op.outcome.Partial? && op.outcome.n < |Content(op, ttlDays)| {
        TornReads(EntryValue(op.key, op.vs, op.tokens, op.now, expiry), op.outcome.n, op.outcome.cut);
      }
      var arrived := Arrived(Content(op, ttlDays), op.outcome);
      if arrived.Some? { WriteApplied(fs, EntryPath(op.key), arrived.value); }
    }
  }

  lemma {:induction false} RunsLeaveDates(ops: seq<CacheOp>, ttlDays: nat)
    requires forall op :: op in ops ==> OpOk(op)
    ensures AllDated(Replay(ops, ttlDays))
  {
    if ops != [] {
      hide FilesAfter, OpOk, AllDated;
      var n := |ops| - 1;
      RunsLeaveDates(ops[..n], ttlDays);
      StepKeepsDated(Replay(ops[..n], ttlDays), ops[n], ttlDays);
    }
  }

  /** Over every run of writes and cleanups, however they end, `has` says whether `get` would hit. */
  lemma HasAgreesOverRuns(ops: seq<CacheOp>, ttlDays: nat, key: CacheKey, t: nat, fault: bool)
    requires forall op :: op in ops ==> OpOk(op)
    ensures var fs := Replay(ops, ttlDays); CacheHas(fs, key, t, fault) <==> CacheGet(fs, key, t, fault).Some?
  {
    hide Replay, ReadContent, EntryPath, OpOk;
    RunsLeaveDates(ops, ttlDays);
    HasAgreesIff(Replay(ops, ttlDays), key, t, fault);
  }

  // ---- The class ------------------------------------------------------------------------------

  function TokensOf(entry: Value): real {
    match Get(entry, "tokensUsed") case Some(VNum(r)) => r case _ => 0.0
  }

  function Hits(gets: seq<Option<Value>>): nat {
    if gets == [] then 0 else Hits(gets[..|gets| - 1]) + if gets[|gets| - 1].Some? then 1 else 0
  }

  function Saved(gets: seq<Option<Value>>): real {
    if gets == [] then 0.0
    else Saved(gets[..|gets| - 1]) + match gets[|gets| - 1] case None => 0.0 case Some(v) => TokensOf(v)
  }

  class CriteriaVerificationCache {
    const fs: FileSystem
    const ttlDays: nat
    var hits: nat
    var misses: nat
    var totalSavedTokens: real
    /** The answers given since the cache was created. */
    ghost var gets: seq<Option<Value>>

    /** The statistics are those of the answers given. */
    ghost predicate Valid()
      reads this
    {
      hits == Hits(gets) && hits + misses == |gets| && totalSavedTokens == Saved(gets)
    }

    constructor (fs: FileSystem, ttlDays: nat)
      ensures this.fs == fs && this.ttlDays == ttlDays && gets == [] && Valid()
    {
      this.fs, this.ttlDays := fs, ttlDays;
      hits, misses, totalSavedTokens := 0, 0, 0.0;
      gets := [];
    }

    method GetEntry(key: CacheKey, now: nat, fault: bool) returns (entry: Option<Value>)
      requires Valid()
      modifies this
      ensures Valid()
      ensures entry == CacheGet(fs.files, key, now, fault)
      ensures gets == old(gets) + [entry]
    {
      hide EntryPath, ReadContent, TokensOf;
      var content := fs.ReadFile(EntryPath(key), fault);
      var r := if content.None? then Unreadable else ReadContent(content.value);
      entry := None;
      if r.Unreadable? || Expired(r, now) {
        misses := misses + 1;
      } else {
        hits := hits + 1;
        totalSavedTokens := totalSavedTokens + TokensOf(r.entry);
        entry := Some(r.entry);
      }
      gets := gets + [entry];
      assert gets[..|gets| - 1] == old(gets);
    }

    method SetEntry(key: CacheKey, vs: seq<Value>, tokens: nat, now: nat, w: WriteOutcome) returns (ok: bool)
      requires AllPrintable(vs)
      modifies fs
      ensures ok <==> w == Written
      ensures var ops := WriteOps(EntryPath(key), Content(Set(key, vs, tokens, now, w), ttlDays), w);
        fs.files == ApplyAll(old(fs.files), ops) && fs.log == old(fs.log) + ops
    {
      hide EntryPath, Stringify, EntryValue, ApplyAll;
      var expiresAt := now + ttlDays * DAY_MS;
      ok := fs.Write(EntryPath(key), Stringify(EntryValue(key, vs, tokens, now, expiresAt)), w);
    }

    method Has(key: CacheKey, now: nat, fault: bool) returns (r: bool)
      ensures r <==> CacheHas(fs.files, key, now, fault)
    {
      var content := fs.ReadFile(EntryPath(key), fault);
      if content.None? { return false; }
      var reading := ReadContent(content.value);
      r := reading.Dated? && now as real <= reading.expiry;
    }

    /** `listing` is the directory as `readdir` returned it. */
    method CleanUp(listing: seq<string>, now: nat, unread: set<string>, stuck: set<string>) returns (removedCount: nat)
      requires forall path :: path in listing <==> path in fs.files && InEntries(path)
      requires forall i, j :: 0 <= i < j < |listing| ==> listing[i] != listing[j]
      modifies fs
      ensures fs.files == CleanedUp(old(fs.files), now, unread, stuck)
      ensures removedCount + |fs.files| == |old(fs.files)|
      ensures var ops := CleanOps(old(fs.files), listing, now, unread, stuck);
        fs.files == ApplyAll(old(fs.files), ops) && fs.log == old(fs.log) + ops
    {
      hide ReadContent, InEntries, ApplyAll, CleanOps;
      removedCount := 0;
      ghost var before, log := fs.files, fs.log;
      NothingCleaned(before, now, unread, stuck);
      for i := 0 to |listing|
        invariant removedCount + |fs.files| == |before|
        invariant var ops := CleanOps(before, listing[..i], now, unread, stuck); fs.files == ApplyAll(before, ops) && fs.log == log + ops
      {
        var file := listing[i];
        CleanOpsApplied(before, listing[..i], now, unread, stuck);
        assert file in fs.files && fs.files[file] == before[file];
        CleanStep(before, listing, i, now, unread, stuck);
        var content := fs.ReadFile(file, file in unread);
        var r := if content.None? then Unreadable else ReadContent(content.value);
        assert Removed(before, file, now, unread, stuck) <==> file !in stuck && (r.Unreadable? || Expired(r, now));
        if r.Unreadable? || Expired(r, now) {
          var u := fs.UnlinkFile(file, file in stuck);
          if u.Deleted? { removedCount := removedCount + 1; }
        } else {
          ApplyNothing(fs.files);
        }
        ApplyNothing(fs.files);
      }
      assert listing[..|listing|] == listing;
      CleanOpsApplied(before, listing, now, unread, stuck);
      CleanedExactly(before, fs.files, listing, now, unread, stuck);
    }
  }

  lemma NothingCleaned(fs: Files, now: nat, unread: set<string>, stuck: set<string>)
    ensures ApplyAll(fs, CleanOps(fs, [], now, unread, stuck)) == fs && CleanOps(fs, [], now, unread, stuck) == []
  {}

  /** What the deletions leave. */
  lemma {:induction false} CleanOpsApplied(fs: Files, listing: seq<string>, now: nat, unread: set<string>, stuck: set<string>)
    ensures var fs' := ApplyAll(fs, CleanOps(fs, listing, now, unread, stuck));
      && (forall path :: path in fs' <==> path in fs && !(path in listing && Removed(fs, path, now, unread, stuck)))
      && (forall path :: path in fs' ==> fs'[path] == fs[path])
  {
    hide ApplyAll, Removed, CleanOps;
    NothingCleaned(fs, now, unread, stuck);
    if listing != [] {
      var n := |listing| - 1;
      CleanOpsApplied(fs, listing[..n], now, unread, stuck);
      CleanStep(fs, listing, n, now, unread, stuck);
      assert listing[..n + 1] == listing;
      assert forall path :: path in listing <==> path in listing[..n] || path == listing[n];
      var fs1 := ApplyAll(fs, CleanOps(fs, listing[..n], now, unread, stuck));
      ApplyNothing(fs1);
      ApplyOne(fs1, Unlink(listing[n]));
    }
  }

  lemma CleanedExactly(fs: Files, fs': Files, listing: seq<string>, now: nat, unread: set<string>, stuck: set<string>)
    requires forall path :: path in fs && InEntries(path) ==> path in listing
    requires forall path :: path in fs' <==> path in fs && !(path in listing && Removed(fs, path, now, unread, stuck))
    requires forall path :: path in fs' ==> fs'[path] == fs[path]
    ensures fs' == CleanedUp(fs, now, unread, stuck)
  {
    hide InEntries, Removable;
  }

  /** One round of the cleanup loop. */
  lemma CleanStep(fs: Files, listing: seq<string>, i: nat, now: nat, unread: set<string>, stuck: set<string>)
    requires i < |listing|
    ensures var next := if Removed(fs, listing[i], now, unread, stuck) then [Unlink(listing[i])] else [];
      && CleanOps(fs, listing[..i + 1], now, unread, stuck) == CleanOps(fs, listing[..i], now, unread, stuck) + next
      && ApplyAll(fs, CleanOps(fs, listing[..i + 1], now, unread, stuck)) == ApplyAll(ApplyAll(fs, CleanOps(fs, listing[..i], now, unread, stuck)), next)
  {
    hide Removed, ApplyAll;
    assert listing[..i + 1][..i] == listing[..i];
    ApplyAllAppend(fs, CleanOps(fs, listing[..i], now, unread, stuck), if Removed(fs, listing[i], now, unread, stuck) then [Unlink(listing[i])] else []);
  }
}

/** Whole runs of the batch processor: any number of sessions, each of which may crash anywhere. */
module Runs {
  import opened Wrappers
  import opened Sequences
  import opened Disk
  import opened JsonValue
  import opened Cache
  import opened Checkpoint
  import opened BatchProcessor
  import opened CrashSafety

  // ---- One session ----------------------------------------------------------------------------

  lemma IosAppend(a: seq<FileOp>, b: seq<FileOp>)
    ensures Ios(a + b) == Ios(a) + Ios(b)
  {}

  /** A scan has as many batches in every session. */
  predicate Fits(v: View, job: Job) {
    |job.batches| == v.totals(job.scanId)
  }

  lemma StoreIsSafe(v: View, job: Job, w: World, r: Reply, env: BatchEnv, skip: seq<nat>)
    requires WorldOk(v, w) && r in w.heard && Accepted(r) && r.scanId == job.scanId && r.batch < v.totals(r.scanId)
    requires NotYet(r.scanId, w.files, skip, r.batch) && r.batch !in skip
    ensures var ops := StoreOps(job, w.files, r, env);
      Safe(v, w, Ios(ops)) && NotYet(r.scanId, ApplyAll(w.files, ops), skip, r.batch + 1)
  {
    hide WorldOk, Safe, LoadCheckpoint, MarkOps, CacheOps, Accepted, VerificationsOf, TokensOfReply, ApplyAll, Ios, After;
    var cached := CacheOps(job, r, env);
    var w' := World(ApplyAll(w.files, cached), w.heard);
    var marked := MarkOps(w'.files, job.scanId, r.batch, VerificationsOf(r), TokensOfReply(r), env.loadFault, env.save);
    CacheStoreIsSafe(v, job, w, r, env);
    CacheSparesCheckpoints(job, w.files, r, env, r.scanId, false);
    SafeMeans(v, w, Ios(cached));
    AfterIos(w, cached);
    MarkIsSafe(v, w', r, env.loadFault, env.save, skip);
    SafeAppend(v, w, Ios(cached), Ios(marked));
    IosAppend(cached, marked);
    ApplyAllAppend(w.files, cached, marked);
  }

  lemma SafeMeans(v: View, w: World, events: seq<Event>)
    requires Safe(v, w, events)
    ensures WorldOk(v, w) && WorldOk(v, After(w, events))
  {
    SafeAt(v, w, events, |events|);
    assert events[..|events|] == events;
  }

  lemma SingleIsSafe(v: View, job: Job, w: World, b: nat, env: BatchEnv, skip: seq<nat>)
    requires WorldOk(v, w) && Fits(v, job) && b < |job.batches| && NotYet(job.scanId, w.files, skip, b) && b !in skip
    ensures var events := SingleBatch(job, w.files, b, env).events;
      Safe(v, w, events) && NotYet(job.scanId, After(w, events).files, skip, b + 1)
  {
    hide WorldOk, Safe, LoadCheckpoint, StoreOps, Accepted, VerificationsOf, TokensOfReply, CachedVerifications, Request, Ios, After, ApplyAll;
    var t := SingleBatch(job, w.files, b, env);
    SafeNothing(v, w);
    if t.events != [] {
      var r := Request(job, b, env).value;
      var w' := World(w.files, w.heard + [r]);
      HearingIsSafe(v, w, r);
      assert Step(w, Hear(r)) == w';
      SafeOne(v, w, Hear(r));
      StoreIsSafe(v, job, w', r, env, skip);
      SafeAppend(v, w, [Hear(r)], Ios(StoreOps(job, w.files, r, env)));
      AfterAppend(w, [Hear(r)], Ios(StoreOps(job, w.files, r, env)));
      AfterIos(w', StoreOps(job, w.files, r, env));
    }
  }

  lemma {:induction false} BatchesAreSafe(v: View, job: Job, w: World, batch: nat -> BatchEnv, skip: seq<nat>, b: nat)
    requires WorldOk(v, w) && Fits(v, job) && b <= |job.batches| && NotYet(job.scanId, w.files, skip, b)
    ensures Safe(v, w, RunBatches(job, w.files, batch, skip, b).events)
    decreases |job.batches| - b
  {
    hide WorldOk, Safe, SingleBatch, LoadCheckpoint, Ops, ApplyAll, After, Fits;
    if b == |job.batches| {
      SafeNothing(v, w);
    } else if b in skip {
      BatchesAreSafe(v, job, w, batch, skip, b + 1);
    } else {
      var events := SingleBatch(job, w.files, b, batch(b)).events;
      var w' := After(w, events);
      SingleIsSafe(v, job, w, b, batch(b), skip);
      SafeMeans(v, w, events);
      AfterFiles(w, events);
      BatchesAreSafe(v, job, w', batch, skip, b + 1);
      SafeAppend(v, w, events, RunBatches(job, w'.files, batch, skip, b + 1).events);
    }
  }

  /** A session of the scan that is looked at reads its checkpoint, or fails to replace it; other scans
      may find what they like. */
  predicate Resumes(v: View, job: Job, fs: Files, env: SessionEnv) {
    BaseOf(v, job.scanId) == [] || LoadCheckpoint(fs, job.scanId, env.readFault).Some? || !Succeeds(env.init) || job.batches == []
  }

  /** A save that fails touches the temporary file at most. */
  lemma FailedSaveIsSafe(v: View, w: World, c: CriteriaCheckpoint, env: SaveEnv)
    requires WorldOk(v, w) && AllPrintable(c.partialVerifications) && !Succeeds(env)
    ensures Safe(v, w, Ios(SaveOps(c, env)))
  {
    hide WorldOk, Safe, AtomicSave, TempOf, CheckpointPath, CheckpointText, After;
    var ops, temp := SaveOps(c, env), TempOf(CheckpointPath(c.scanId));
    SaveShape(CheckpointPath(c.scanId), CheckpointText(c, env.now), env);
    if ops == [] {
      SafeNothing(v, w);
      assert Ios(ops) == [];
    } else {
      var part :| ops == [WriteFile(temp, part)];
      TempWriteIsSafe(v, c.scanId, w, part);
      assert Ios(ops) == [Io(WriteFile(temp, part))];
    }
  }

  /** Opening a session: the batches on disk are those it will skip. */
  lemma OpeningIsSafe(v: View, job: Job, w: World, env: SessionEnv)
    requires WorldOk(v, w) && Fits(v, job) && Resumes(v, job, w.files, env) && job.batches != []
    ensures var opening := OpeningOps(job, w.files, env);
      && Safe(v, w, Ios(opening))
      && (Opens(job, w.files, env) ==> NotYet(job.scanId, ApplyAll(w.files, opening), Skipped(job, w.files, env), 0))
  {
    hide WorldOk, Safe, LoadCheckpoint, ApplyAll, SaveOps, After, Recorded;
    if LoadCheckpoint(w.files, job.scanId, env.readFault).Some? {
      LoadFaulty(w.files, job.scanId, env.readFault);
      SafeNothing(v, w);
      ApplyNothing(w.files);
      assert Ios([]) == [];
    } else if Succeeds(env.init) {
      FirstCheckpoint(job, env.startedAt);
      SaveIsSafe(v, job.scanId, w, Book(job.url, job.wcagLevel, [], env.startedAt, env.startedAt), env.init);
      FirstLoads(job, w.files, env);
    } else {
      FailedSaveIsSafe(v, w, InitialCheckpoint(job, env.startedAt), env.init);
    }
  }

  lemma FirstCheckpoint(job: Job, now: nat)
    ensures Recorded(job.scanId, |job.batches|, Book(job.url, job.wcagLevel, [], now, now)) == InitialCheckpoint(job, now)
  {
    assert Sort(Ascending(), BatchesOf([])) == [];
  }

  lemma FirstLoads(job: Job, fs: Files, env: SessionEnv)
    requires Succeeds(env.init)
    ensures NotYet(job.scanId, ApplyAll(fs, SaveOps(InitialCheckpoint(job, env.startedAt), env.init)), [], 0)
  {
    hide ReadCheckpoint, CheckpointPath, AtomicSave, ApplyAll, CheckpointValue, Stringify;
    var c := InitialCheckpoint(job, env.startedAt);
    SaveApplied(fs, CheckpointPath(c.scanId), CheckpointText(c, env.init.now), env.init);
    CheckpointRoundTrip(c.(updatedAt := env.init.now));
  }

  /** What the opening of a session makes of a checkpoint that could be loaded: it is replaced by an empty
      one exactly if reading it fails and saving the empty one succeeds. */
  lemma OpeningResetsIff(job: Job, fs: Files, env: SessionEnv)
    requires LoadCheckpoint(fs, job.scanId, false).Some? && job.scanId != ""
    ensures LoadCheckpoint(ApplyAll(fs, OpeningOps(job, fs, env)), job.scanId, false)
      == if !(env.readFault && Succeeds(env.init)) then LoadCheckpoint(fs, job.scanId, false)
         else if job.url == "" then None
         else Some(InitialCheckpoint(job, env.startedAt).(updatedAt := env.init.now))
    ensures Opens(job, fs, env) <==> !env.readFault || Succeeds(env.init)
  {
    hide ReadCheckpoint, CheckpointPath, AtomicSave, ApplyAll, CheckpointValue, Stringify;
    var c := InitialCheckpoint(job, env.startedAt);
    ApplyNothing(fs);
    SaveApplied(fs, CheckpointPath(c.scanId), CheckpointText(c, env.init.now), env.init);
    CheckpointRoundTrip(c.(updatedAt := env.init.now));
  }

  /** A session keeps the disk well at every moment. If it resumes, nothing recorded is ever lost; and
      nothing of another scan is. */
  lemma SessionIsSafe(v: View, job: Job, w: World, env: SessionEnv)
    requires WorldOk(v, w) && Fits(v, job) && Resumes(v, job, w.files, env)
    ensures Safe(v, w, Session(job, w.files, env).events)
  {
    hide WorldOk, Safe, LoadCheckpoint, ApplyAll, OpeningOps, Opens, Skipped, RunBatches, Ios, After, CheckpointPath, Fits;
    SafeNothing(v, w);
    if job.batches != [] {
      var opening := OpeningOps(job, w.files, env);
      OpeningIsSafe(v, job, w, env);
      if Opens(job, w.files, env) {
        var w1 := World(ApplyAll(w.files, opening), w.heard);
        SafeMeans(v, w, Ios(opening));
        AfterIos(w, opening);
        var run := RunBatches(job, w1.files, env.batch, Skipped(job, w.files, env), 0);
        BatchesAreSafe(v, job, w1, env.batch, Skipped(job, w.files, env), 0);
        SafeAppend(v, w, Ios(opening), run.events);
        SafeMeans(v, w, Ios(opening) + run.events);
        UnlinkIsSafe(v, After(w, Ios(opening) + run.events), CheckpointPath(job.scanId));
        SafeAppend(v, w, Ios(opening) + run.events, [Io(Unlink(CheckpointPath(job.scanId)))]);
      }
    }
  }

  lemma UnlinkIsSafe(v: View, w: World, path: string)
    requires WorldOk(v, w)
    ensures Safe(v, w, [Io(Unlink(path))])
  {
    hide WorldOk, Safe, After;
    RemovalIsSafe(v, w, path);
    forall w' | Cut(w, Io(Unlink(path)), w') ensures WorldOk(v, w') { assert w' == w; }
    SafeOne(v, w, Io(Unlink(path)));
  }

  /** So does the cleanup of the cache at start-up. */
  lemma {:induction false} CleanupIsSafe(v: View, w: World, fs: Files, listing: seq<string>, now: nat, unread: set<string>, stuck: set<string>)
    requires WorldOk(v, w)
    ensures Safe(v, w, Ios(CleanOps(fs, listing, now, unread, stuck)))
  {
    hide WorldOk, Safe, After, Removed, Ios;
    SafeNothing(v, w);
    IosOfNone();
    if listing != [] {
      var n := |listing| - 1;
      var front := CleanOps(fs, listing[..n], now, unread, stuck);
      CleanupIsSafe(v, w, fs, listing[..n], now, unread, stuck);
      if Removed(fs, listing[n], now, unread, stuck) {
        SafeMeans(v, w, Ios(front));
        UnlinkIsSafe(v, After(w, Ios(front)), listing[n]);
        SafeAppend(v, w, Ios(front), [Io(Unlink(listing[n]))]);
        IosAppend(front, [Unlink(listing[n])]);
        IosOfOne(Unlink(listing[n]));
      } else {
        assert front + [] == front;
      }
    }
  }

  lemma IosOfNone()
    ensures Ios([]) == []
  {}

  lemma IosOfOne(op: FileOp)
    ensures Ios([op]) == [Io(op)]
  {}

  // ---- Runs -----------------------------------------------------------------------------------

  /** A crash behind `at` events, `tear` saying how much of a write it cuts short. */
  datatype Crash = Crash(at: nat, tear: Option<(nat, bool)>)

  /** A session of some scan, or a start-up with its cleanup of the cache; either may end in a crash. */
  datatype Episode =
    | Scan(job: Job, env: SessionEnv, crash: Option<Crash>)
    | Startup(listing: seq<string>, now: nat, unread: set<string>, stuck: set<string>, crash: Option<Crash>)

  function EventsOf(fs: Files, e: Episode): seq<Event> {
    match e
    case Scan(job, env, _) => Session(job, fs, env).events
    case Startup(listing, now, unread, stuck, _) => Ios(CleanOps(fs, listing, now, unread, stuck))
  }

  function Play(w: World, e: Episode): World {
    var events := EventsOf(w.files, e);
    if e.crash.None? || e.crash.value.at >= |events| then After(w, events)
    else
      var k := e.crash.value.at;
      var w' := After(w, events[..k]);
      match (e.crash.value.tear, events[k])
      case (Some((n, cut)), Io(WriteFile(path, content))) =>
        if n < |content| then w'.(files := w'.files[path := Torn(content, n, cut)]) else w'
      case _ => w'
  }

  /** Sessions of any scans, of any pages and levels, and start-ups, one after the other. */
  function Run(w: World, episodes: seq<Episode>): World {
    if episodes == [] then w else Play(Run(w, episodes[..|episodes| - 1]), episodes[|episodes| - 1])
  }

  ghost predicate AllFit(v: View, episodes: seq<Episode>) {
    forall e :: e in episodes && e.Scan? ==> Fits(v, e.job)
  }

  lemma PlayIsSafe(v: View, w: World, e: Episode)
    requires Safe(v, w, EventsOf(w.files, e))
    ensures WorldOk(v, Play(w, e))
  {
    hide WorldOk, Safe, EventsOf, After;
    var events := EventsOf(w.files, e);
    SafeMeans(v, w, events);
    if e.crash.Some? && e.crash.value.at < |events| {
      var k := e.crash.value.at;
      SafeAt(v, w, events, k);
      assert Cut(After(w, events[..k]), events[k], Play(w, e));
    }
  }

  lemma EpisodeIsSafe(v: View, w: World, e: Episode)
    requires WorldOk(v, w) && (e.Scan? ==> Fits(v, e.job) && Resumes(v, e.job, w.files, e.env))
    ensures Safe(v, w, EventsOf(w.files, e)) && WorldOk(v, Play(w, e))
  {
    hide WorldOk, Safe, Play, Fits, Session, CleanOps;
    if e.Scan? {
      SessionIsSafe(v, e.job, w, e.env);
    } else {
      CleanupIsSafe(v, w, w.files, e.listing, e.now, e.unread, e.stuck);
    }
    PlayIsSafe(v, w, e);
  }

  const EMPTY := World(map[], [])

  /** The view that asks no checkpoint to continue anything. */
  function Any(totals: string -> nat): View {
    View(totals, "", [])
  }

  /** Over every run, from a disk that is well, every checkpoint on disk is whole and records replies
      that were heard for its scan, one for each of its batches; and every cache entry stems from a
      heard reply of its page, level and batch. */
  lemma {:induction false} EveryRunIsSafe(totals: string -> nat, w: World, episodes: seq<Episode>)
    requires WorldOk(Any(totals), w) && AllFit(Any(totals), episodes)
    ensures WorldOk(Any(totals), Run(w, episodes))
  {
    hide WorldOk, Play, Safe, EventsOf;
    if episodes != [] {
      var n := |episodes| - 1;
      EveryRunIsSafe(totals, w, episodes[..n]);
      EpisodeIsSafe(Any(totals), Run(w, episodes[..n]), episodes[n]);
    }
  }

  /** An empty disk is well. */
  lemma NothingIsSafe(v: View)
    ensures WorldOk(v, EMPTY)
  {}

  // ---- What a resumed scan can rely on --------------------------------------------------------

  /** The checkpoint of a scan found after any run: never torn, and adding up to the replies it records. */
  lemma CheckpointOfEveryRun(totals: string -> nat, episodes: seq<Episode>, id: string)
    requires AllFit(Any(totals), episodes)
    ensures var w := Run(EMPTY, episodes);
      var loaded := LoadCheckpoint(w.files, id, false);
      && (CheckpointPath(id) in w.files ==>
            exists book :: CheckpointIs(Any(totals), id, w.heard, w.files[CheckpointPath(id)], book)
              && loaded == if id == "" || book.url == "" then None else Some(Recorded(id, totals(id), book)))
      && (loaded.Some? ==> var c := loaded.value;
            && CheckpointPath(id) in w.files
            && (forall i, j :: 0 <= i < j < |c.completedBatches| ==> c.completedBatches[i] < c.completedBatches[j])
            && (forall b :: b in c.completedBatches ==> b < totals(id)))
  {
    hide CheckpointPath, ReadCheckpoint, Run, Recorded, CheckpointValue, Stringify, InEntries, EntryIs;
    var w, v := Run(EMPTY, episodes), Any(totals);
    NothingIsSafe(v);
    EveryRunIsSafe(totals, EMPTY, episodes);
    var path := CheckpointPath(id);
    if path in w.files {
      var book :| CheckpointIs(v, id, w.heard, w.files[path], book);
      RecordedHeader(id, totals(id), book);
      CheckpointRoundTrip(Recorded(id, totals(id), book));
      RecordedMeans(id, totals(id), w.heard, book);
      assert CheckpointIs(v, id, w.heard, w.files[path], book);
    }
  }

  lemma RecordedHeader(id: string, total: nat, book: Book)
    requires AllAccepted(book.ledger)
    ensures var c := Recorded(id, total, book); c.scanId == id && c.url == book.url && c.totalBatches == total
  {}

  lemma {:induction false} CollectedExtends(a: seq<Reply>, b: seq<Reply>)
    requires a <= b && AllAccepted(b)
    ensures AllAccepted(a) && Collected(a) <= Collected(b) && Tokens(a) <= Tokens(b)
    decreases |b|
  {
    hide VerificationsOf, TokensOfReply, Accepted;
    assert forall r :: r in a ==> r in b;
    if |a| < |b| {
      CollectedExtends(a, b[..|b| - 1]);
    } else {
      assert a == b;
    }
  }

  lemma Rebase(totals: string -> nat, id: string, w: World, book: Book)
    requires WorldOk(Any(totals), w)
    requires CheckpointPath(id) in w.files && CheckpointIs(Any(totals), id, w.heard, w.files[CheckpointPath(id)], book)
    ensures WorldOk(View(totals, id, book.ledger), w)
  {
    hide CheckpointPath, InEntries, EntryText, Stringify, CheckpointValue, Recorded, EntryPath;
    var v := View(totals, id, book.ledger);
    forall other | CheckpointPath(other) in w.files ensures exists b :: CheckpointIs(v, other, w.heard, w.files[CheckpointPath(other)], b) {
      if other == id {
        assert CheckpointIs(v, id, w.heard, w.files[CheckpointPath(id)], book);
      } else {
        var b :| CheckpointIs(Any(totals), other, w.heard, w.files[CheckpointPath(other)], b);
        assert CheckpointIs(v, other, w.heard, w.files[CheckpointPath(other)], b);
      }
    }
    forall path | path in w.files && InEntries(path) ensures exists o :: EntryIs(v, w.heard, path, w.files[path], o) {
      var o :| EntryIs(Any(totals), w.heard, path, w.files[path], o);
      assert EntryIs(v, w.heard, path, w.files[path], o);
    }
  }

  predicate Extends(before: CriteriaCheckpoint, after: CriteriaCheckpoint) {
    && before.partialVerifications <= after.partialVerifications
    && before.tokensUsed <= after.tokensUsed
    && forall b :: b in before.completedBatches ==> b in after.completedBatches
  }

  /** The one way to lose what a checkpoint records: a session of its own scan fails to read it and saves
      an empty one instead. */
  predicate Resets(e: Episode, id: string) {
    e.Scan? && e.job.scanId == id && e.job.batches != [] && e.env.readFault && Succeeds(e.env.init)
  }

  /** But for that, a checkpoint is only added to, wherever its sessions are cut off, and whatever page
      they find; sessions of other scans and start-ups do not touch it. */
  lemma EpisodesOnlyAdd(totals: string -> nat, w: World, e: Episode, id: string)
    requires WorldOk(Any(totals), w) && LoadCheckpoint(w.files, id, false).Some?
    requires e.Scan? ==> Fits(Any(totals), e.job)
    ensures var after := LoadCheckpoint(Play(w, e).files, id, false);
      after.Some? ==> Resets(e, id) || Extends(LoadCheckpoint(w.files, id, false).value, after.value)
  {
    hide WorldOk, Play, LoadCheckpoint, Safe, Sort, BatchesOf, Collected, Tokens, CheckpointValue, Stringify, EventsOf;
    if !Resets(e, id) {
      var book := LoadedIsRecorded(Any(totals), id, w, false);
      LoadedIsThere(w.files, id);
      Rebase(totals, id, w, book);
      var v := View(totals, id, book.ledger);
      EpisodeIsSafe(v, w, e);
      if LoadCheckpoint(Play(w, e).files, id, false).Some? {
        var book' := LoadedIsRecorded(v, id, Play(w, e), false);
        CollectedExtends(book.ledger, book'.ledger);
        forall b | b in Recorded(id, totals(id), book).completedBatches ensures b in Recorded(id, totals(id), book').completedBatches {
          InBatchesOf(book.ledger, b);
          InBatchesOf(book'.ledger, b);
        }
      }
    }
  }

  lemma LoadedIsThere(fs: Files, id: string)
    requires LoadCheckpoint(fs, id, false).Some?
    ensures CheckpointPath(id) in fs
  {}

  // ---- A checkpoint stays ---------------------------------------------------------------------

  /** No event takes the file away. */
  ghost predicate Keeps(events: seq<Event>, path: string) {
    forall i :: 0 <= i < |events| && events[i].Io? ==>
      match events[i].op
      case WriteFile(_, _) => true
      case Rename(src, _) => src != path
      case Unlink(p) => p != path
  }

  lemma {:induction false} KeptAfter(w: World, events: seq<Event>, path: string)
    requires Keeps(events, path) && path in w.files
    ensures path in After(w, events).files
    decreases |events|
  {
    if events != [] {
      KeptAfter(Step(w, events[0]), events[1..], path);
    }
  }

  lemma KeepsNothing(path: string)
    ensures Keeps([], path)
  {}

  lemma KeepsHear(r: Reply, path: string)
    ensures Keeps([Hear(r)], path)
  {}

  lemma KeepsUnlink(other: string, path: string)
    requires other != path
    ensures Keeps([Io(Unlink(other))], path)
  {}

  lemma KeepsAppend(a: seq<Event>, b: seq<Event>, path: string)
    requires Keeps(a, path) && Keeps(b, path)
    ensures Keeps(a + b, path)
  {}

  lemma KeepsFront(events: seq<Event>, k: nat, path: string)
    requires Keeps(events, path) && k <= |events|
    ensures Keeps(events[..k], path)
  {}

  lemma SaveKeeps(c: CriteriaCheckpoint, env: SaveEnv, id: string)
    requires AllPrintable(c.partialVerifications)
    ensures Keeps(Ios(SaveOps(c, env)), CheckpointPath(id))
  {
    SaveShape(CheckpointPath(c.scanId), CheckpointText(c, env.now), env);
    ScansApart(c.scanId, id);
    hide AtomicSave, TempOf, CheckpointPath, CheckpointText;
  }

  lemma MarkKeeps(fs: Files, scanId: string, b: nat, vs: seq<Value>, tokens: nat, fault: bool, env: SaveEnv, id: string)
    requires AllPrintable(vs)
    ensures Keeps(Ios(MarkOps(fs, scanId, b, vs, tokens, fault, env)), CheckpointPath(id))
  {
    hide CheckpointPath, LoadCheckpoint, SaveOps, Marked;
    var loaded := LoadCheckpoint(fs, scanId, fault);
    if loaded.Some? {
      MarkedPrintable(loaded.value, b, vs, tokens);
      SaveKeeps(Marked(loaded.value, b, vs, tokens), env, id);
    }
  }

  lemma MarkedPrintable(c: CriteriaCheckpoint, b: nat, vs: seq<Value>, tokens: nat)
    ensures Marked(c, b, vs, tokens).partialVerifications == c.partialVerifications + vs
  {}

  lemma CacheKeeps(job: Job, r: Reply, env: BatchEnv, path: string)
    requires Accepted(r)
    ensures Keeps(Ios(CacheOps(job, r, env)), path)
  {
    hide EntryPath, Content, VerificationsOf, TokensOfReply, Accepted;
  }

  lemma SingleKeeps(job: Job, fs: Files, b: nat, env: BatchEnv, id: string)
    requires b < |job.batches|
    ensures Keeps(SingleBatch(job, fs, b, env).events, CheckpointPath(id))
  {
    hide CheckpointPath, CachedVerifications, Request, CacheOps, MarkOps, VerificationsOf, TokensOfReply, ApplyAll, Accepted, Ios, Keeps;
    var path := CheckpointPath(id);
    var t := SingleBatch(job, fs, b, env);
    KeepsNothing(path);
    if t.events != [] {
      var r := Request(job, b, env).value;
      var cached := CacheOps(job, r, env);
      var marked := MarkOps(ApplyAll(fs, cached), job.scanId, b, VerificationsOf(r), TokensOfReply(r), env.loadFault, env.save);
      CacheKeeps(job, r, env, path);
      MarkKeeps(ApplyAll(fs, cached), job.scanId, b, VerificationsOf(r), TokensOfReply(r), env.loadFault, env.save, id);
      KeepsAppend(Ios(cached), Ios(marked), path);
      IosAppend(cached, marked);
      KeepsHear(r, path);
      KeepsAppend([Hear(r)], Ios(cached + marked), path);
    }
  }

  lemma {:induction false} BatchesKeep(job: Job, fs: Files, batch: nat -> BatchEnv, skip: seq<nat>, b: nat, id: string)
    requires b <= |job.batches|
    ensures Keeps(RunBatches(job, fs, batch, skip, b).events, CheckpointPath(id))
    decreases |job.batches| - b
  {
    hide SingleBatch, Ops, ApplyAll, Keeps, CheckpointPath;
    var path := CheckpointPath(id);
    KeepsNothing(path);
    if b == |job.batches| {
    } else if b in skip {
      BatchesKeep(job, fs, batch, skip, b + 1, id);
    } else {
      var events := SingleBatch(job, fs, b, batch(b)).events;
      SingleKeeps(job, fs, b, batch(b), id);
      BatchesKeep(job, ApplyAll(fs, Ops(events)), batch, skip, b + 1, id);
      KeepsAppend(events, RunBatches(job, ApplyAll(fs, Ops(events)), batch, skip, b + 1).events, path);
    }
  }

  lemma OpeningKeeps(job: Job, fs: Files, env: SessionEnv, id: string)
    ensures Keeps(Ios(OpeningOps(job, fs, env)), CheckpointPath(id))
  {
    hide CheckpointPath, SaveOps, LoadCheckpoint;
    SaveKeeps(InitialCheckpoint(job, env.startedAt), env.init, id);
  }

  /** A session takes away no checkpoint but its own, and that one with its last event. */
  lemma SessionKeeps(job: Job, fs: Files, env: SessionEnv, id: string, k: nat)
    requires k <= |Session(job, fs, env).events| && (job.scanId == id ==> k < |Session(job, fs, env).events|)
    ensures Keeps(Session(job, fs, env).events[..k], CheckpointPath(id))
  {
    hide CheckpointPath, ApplyAll, Ios, Keeps, RunBatches, Skipped, Opens, OpeningOps;
    var path := CheckpointPath(id);
    var opening := OpeningOps(job, fs, env);
    var events := Session(job, fs, env).events;
    KeepsNothing(path);
    OpeningKeeps(job, fs, env, id);
    if job.batches == [] {
      assert events[..k] == [];
    } else if !Opens(job, fs, env) {
      KeepsFront(events, k, path);
    } else {
      var run := RunBatches(job, ApplyAll(fs, opening), env.batch, Skipped(job, fs, env), 0);
      var front := Ios(opening) + run.events;
      BatchesKeep(job, ApplyAll(fs, opening), env.batch, Skipped(job, fs, env), 0, id);
      KeepsAppend(Ios(opening), run.events, path);
      if k <= |front| {
        assert events[..k] == front[..k];
        KeepsFront(front, k, path);
      } else {
        ScansApart(job.scanId, id);
        KeepsUnlink(CheckpointPath(job.scanId), path);
        KeepsAppend(front, [Io(Unlink(CheckpointPath(job.scanId)))], path);
        assert events[..k] == events;
      }
    }
  }

  lemma {:induction false} CleanupKeeps(fs: Files, listing: seq<string>, now: nat, unread: set<string>, stuck: set<string>, id: string)
    ensures Keeps(Ios(CleanOps(fs, listing, now, unread, stuck)), CheckpointPath(id))
  {
    hide CheckpointPath, Keeps, Ios, Removable, InEntries;
    var path := CheckpointPath(id);
    IosOfNone();
    KeepsNothing(path);
    if listing != [] {
      var n := |listing| - 1;
      var front := CleanOps(fs, listing[..n], now, unread, stuck);
      CleanupKeeps(fs, listing[..n], now, unread, stuck, id);
      if Removed(fs, listing[n], now, unread, stuck) {
        PathsApart(id, listing[n]);
        KeepsUnlink(listing[n], path);
        IosAppend(front, [Unlink(listing[n])]);
        IosOfOne(Unlink(listing[n]));
        KeepsAppend(Ios(front), [Io(Unlink(listing[n]))], path);
      } else {
        assert front + [] == front;
      }
    }
  }

  /** A checkpoint that is there at the start of an episode is there at every later moment, but for the
      last event of a session of its own scan, which comes after every batch. */
  lemma CheckpointStays(w: World, e: Episode, id: string, k: nat)
    requires CheckpointPath(id) in w.files && k <= |EventsOf(w.files, e)|
    requires e.Scan? && e.job.scanId == id ==> k < |EventsOf(w.files, e)|
    ensures CheckpointPath(id) in After(w, EventsOf(w.files, e)[..k]).files
  {
    hide CheckpointPath, After, Keeps, Session, CleanOps, Ios;
    if e.Scan? {
      SessionKeeps(e.job, w.files, e.env, id, k);
    } else {
      CleanupKeeps(w.files, e.listing, e.now, e.unread, e.stuck, id);
      KeepsFront(EventsOf(w.files, e), k, CheckpointPath(id));
    }
    KeptAfter(w, EventsOf(w.files, e)[..k], CheckpointPath(id));
  }
}

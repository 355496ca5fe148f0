/** Which page the batches of a scan are answered for. A checkpoint is found by scan id alone, so what a
    resumed session skips may have been verified on another page, or at another level. */
module PageCoverage {
  import opened Wrappers
  import opened Sequences
  import opened Disk
  import opened JsonValue
  import opened Criteria
  import opened ResultParser
  import opened Retry
  import opened Cache
  import opened Checkpoint
  import opened BatchProcessor
  import opened CrashSafety
  import opened Runs
  import opened Coverage
  import BraceScanner

  datatype Page = Page(contentHash: ContentHash, wcagLevel: Level)

  function PageOf(job: Job): Page {
    Page(job.contentHash, job.wcagLevel)
  }

  /** The sessions of the scan find only these pages and levels. */
  ghost predicate OnPages(episodes: seq<Episode>, id: string, pages: set<Page>) {
    forall e :: e in episodes && e.Scan? && e.job.scanId == id ==> PageOf(e.job) in pages
  }

  /** A reply was heard for this scan, this page, this level and this batch. */
  ghost predicate AnsweredFor(job: Job, heard: seq<Reply>, b: nat) {
    exists r :: r in heard && Accepted(r) && r.scanId == job.scanId && KeyOfReply(r) == KeyOf(job, b)
  }

  // ---- As long as the page stays the same -----------------------------------------------------

  lemma HeardOnPage(episodes: seq<Episode>, job: Job, r: Reply)
    requires OnPages(episodes, job.scanId, {PageOf(job)})
    requires r in Run(EMPTY, episodes).heard && r.scanId == job.scanId
    ensures Accepted(r) && KeyOfReply(r) == KeyOf(job, r.batch)
  {
    hide Run, Accepted;
    HeardFromModel(episodes);
    assert Launched(episodes, r);
    var e :| e in episodes && e.Scan? && LaunchedIn(e.job, e.env.batch, r);
    assert PageOf(e.job) in {PageOf(job)};
  }

  /** Every reply that the checkpoint of the scan records is one for this page and level. */
  lemma CheckpointIsForThisPage(totals: string -> nat, episodes: seq<Episode>, job: Job) returns (book: Book)
    requires AllFit(Any(totals), episodes) && OnPages(episodes, job.scanId, {PageOf(job)})
    requires LoadCheckpoint(Run(EMPTY, episodes).files, job.scanId, false).Some?
    ensures var w := Run(EMPTY, episodes);
      && LedgerOk(job.scanId, totals(job.scanId), w.heard, book.ledger)
      && LoadCheckpoint(w.files, job.scanId, false) == Some(Recorded(job.scanId, totals(job.scanId), book))
      && forall r :: r in book.ledger ==> KeyOfReply(r) == KeyOf(job, r.batch)
  {
    hide WorldOk, Run, LoadCheckpoint, Recorded, Accepted, OnPages, AllFit, Stringify, CheckpointValue;
    var w := Run(EMPTY, episodes);
    NothingIsSafe(Any(totals));
    EveryRunIsSafe(totals, EMPTY, episodes);
    book := LoadedIsRecorded(Any(totals), job.scanId, w, false);
    forall r | r in book.ledger ensures KeyOfReply(r) == KeyOf(job, r.batch) { HeardOnPage(episodes, job, r); }
  }

  /** So every batch that a session skips was answered for this page and level. */
  lemma SkippedIsForThisPage(totals: string -> nat, episodes: seq<Episode>, job: Job, env: SessionEnv, b: nat)
    requires AllFit(Any(totals), episodes) && OnPages(episodes, job.scanId, {PageOf(job)})
    requires b in Skipped(job, Run(EMPTY, episodes).files, env)
    ensures AnsweredFor(job, Run(EMPTY, episodes).heard, b)
  {
    hide Run, LoadCheckpoint, Recorded, Accepted, OnPages, AllFit;
    var w := Run(EMPTY, episodes);
    LoadFaulty(w.files, job.scanId, env.readFault);
    var book := CheckpointIsForThisPage(totals, episodes, job);
    RecordedMeans(job.scanId, totals(job.scanId), w.heard, book);
    var r :| r in book.ledger && r.batch == b;
    LedgerMembers(job.scanId, totals(job.scanId), w.heard, book.ledger, r);
  }

  lemma LedgerMembers(id: string, total: nat, heard: seq<Reply>, ledger: seq<Reply>, r: Reply)
    requires LedgerOk(id, total, heard, ledger) && r in ledger
    ensures r in heard && Accepted(r) && r.scanId == id && r.batch < total
  {
    hide Accepted;
  }

  // ---- Failures are named ---------------------------------------------------------------------

  /** All criteria reported as NOT_TESTED for a reason, or nothing reported but an exception. */
  ghost predicate NamedFailure(job: Job, b: nat, r: BatchResult)
    requires b < |job.batches|
  {
    exists e :: r == Fallback(b, job.batches[b], e) || r == BatchResult(b + 1, 0, [], 0, [e])
  }

  lemma SingleFailureIsNamed(job: Job, fs: Files, b: nat, env: BatchEnv)
    requires b < |job.batches|
    ensures var r := ResultOf(b, SingleBatch(job, fs, b, env).result); r.errors != [] ==> NamedFailure(job, b, r)
  {
    hide CachedVerifications, StoreOps, VerificationsOf, TokensOfReply, Fallback;
    if env.thrown.None? && CachedVerifications(job, fs, b, env).None? && Request(job, b, env).Err? {
      assert ResultOf(b, SingleBatch(job, fs, b, env).result) == Fallback(b, job.batches[b], Request(job, b, env).error);
    }
  }

  ghost predicate FailuresNamed(job: Job, rs: seq<BatchResult>) {
    forall i :: 0 <= i < |rs| && rs[i].errors != [] ==>
      1 <= rs[i].batchNumber <= |job.batches| && NamedFailure(job, rs[i].batchNumber - 1, rs[i])
  }

  lemma {:induction false} RunFailuresAreNamed(job: Job, fs: Files, batch: nat -> BatchEnv, skip: seq<nat>, b: nat)
    requires b <= |job.batches|
    ensures FailuresNamed(job, RunBatches(job, fs, batch, skip, b).result)
    decreases |job.batches| - b
  {
    hide SingleBatch, ApplyAll, Ops, NamedFailure;
    if b == |job.batches| {
    } else if b in skip {
      RunFailuresAreNamed(job, fs, batch, skip, b + 1);
    } else {
      var t := SingleBatch(job, fs, b, batch(b));
      ResultNumber(job, fs, b, batch(b));
      SingleFailureIsNamed(job, fs, b, batch(b));
      RunFailuresAreNamed(job, ApplyAll(fs, Ops(t.events)), batch, skip, b + 1);
    }
  }

  // ---- Coverage -------------------------------------------------------------------------------

  /** A result for this batch: the verifications of a reply for this page, level and batch, or a failure
      with its reason. */
  ghost predicate AnswersOrFails(job: Job, heard: seq<Reply>, b: nat, r: BatchResult)
    requires b < |job.batches|
  {
    r.batchNumber == b + 1 && if r.errors == [] then FromReply(job, heard, r) else NamedFailure(job, b, r)
  }

  /** If all sessions of the scan found this page and level, then a session that returns leaves no batch
      open: each one is answered by a reply for this page, in the checkpoint that was found or else in the
      results, or it is among the results as a failure with its reason. */
  lemma CoveredForThisPage(totals: string -> nat, episodes: seq<Episode>, job: Job, env: SessionEnv, b: nat)
    requires AllFit(Any(totals), episodes) && Fits(Any(totals), job) && OnPages(episodes, job.scanId, {PageOf(job)})
    requires Session(job, Run(EMPTY, episodes).files, env).result.Some? && b < |job.batches|
    ensures var w := Run(EMPTY, episodes);
      var t := Session(job, w.files, env);
      if b in Skipped(job, w.files, env) then AnsweredFor(job, w.heard, b)
      else exists i :: 0 <= i < |t.result.value| && AnswersOrFails(job, After(w, t.events).heard, b, t.result.value[i])
  {
    hide Run, Session, Skipped, After, AnsweredFor, FromReply, NamedFailure, WorldOk, Fits, AllFit, OnPages;
    var w := Run(EMPTY, episodes);
    var t := Session(job, w.files, env);
    if b in Skipped(job, w.files, env) {
      SkippedIsForThisPage(totals, episodes, job, env, b);
    } else {
      NothingIsSafe(Any(totals));
      EveryRunIsSafe(totals, EMPTY, episodes);
      EveryBatchOnce(Any(totals), job, w, env);
      ResultsAreHeard(totals, episodes, job, env);
      SessionFailuresAreNamed(job, w.files, env);
      var i :| 0 <= i < |t.result.value| && t.result.value[i].batchNumber == b + 1;
      assert AnswersOrFails(job, After(w, t.events).heard, b, t.result.value[i]);
    }
  }

  lemma SessionFailuresAreNamed(job: Job, fs: Files, env: SessionEnv)
    requires Session(job, fs, env).result.Some?
    ensures FailuresNamed(job, Session(job, fs, env).result.value)
  {
    hide RunBatches, NamedFailure, ApplyAll, OpeningOps, Opens, Skipped;
    if job.batches != [] {
      RunFailuresAreNamed(job, ApplyAll(fs, OpeningOps(job, fs, env)), env.batch, Skipped(job, fs, env), 0);
    }
  }

  // ---- When the page changes ------------------------------------------------------------------

  function SomeVerifications(): (vs: seq<Verification>)
    ensures AllNormal(vs) && vs != []
  {
    [Verification("1", AiVerifiedPass, 70, "", None)]
  }

  function SomeOutput(): string {
    Stringify(BatchValue(SomeVerifications()))
  }

  /** Everything goes well, but for the cache, which is not written. */
  function SomeBatch(): BatchEnv {
    BatchEnv(None, 0, false, Result.Ok(""), _ => Launch.Succeeded(SomeOutput()), 0, Refused, false, SaveEnv(0, Written, false))
  }

  function SomeSession(): SessionEnv {
    SessionEnv(false, 0, SaveEnv(0, Written, false), _ => SomeBatch(), false)
  }

  lemma SomeOutputIsRead()
    ensures ReadReply(SomeOutput()) == Result.Ok(SomeVerifications()) && SomeOutput() != ""
  {
    hide ParseBatchVerificationOutput, Layout, BatchValue;
    BatchRoundTrip(SomeVerifications());
    BraceScanner.ObjectCloses(Layout(BatchValue(SomeVerifications()), 0), "");
  }

  lemma SomeRequest(job: Job, b: nat)
    ensures Request(job, b, SomeBatch()).Ok?
  {
    hide SomeOutput, ReadReply, FailureText, SomeVerifications;
    SomeOutputIsRead();
    var launch := SomeBatch().launch;
    assert Invoke(launch, 0, 0, MAX_ATTEMPTS) == Use(Launch.Succeeded(SomeOutput()), 1, 0);
    hide Invoke;
    assert Backoff(launch, 0, 0, MAX_RATE_LIMIT_RETRIES, MAX_ATTEMPTS) == Use(Some(Launch.Succeeded(SomeOutput())), 1, 0);
    hide Backoff;
    assert ReadWithRetry(ReadReply, launch, 1, SomeOutput(), 0, MAX_JSON_PARSE_RETRIES, MAX_ATTEMPTS).result.Ok?;
    hide ReadWithRetry;
    RequestIs(job, b, SomeBatch());
  }

  /** The operations that open the first session, and the events of its first batch. */
  function FirstOpening(job: Job): seq<FileOp> {
    OpeningOps(job, map[], SomeSession())
  }

  function FirstBatch(job: Job): Trace<Result<BatchResult, string>>
    requires job.batches != []
  {
    SingleBatch(job, ApplyAll(map[], FirstOpening(job)), 0, SomeBatch())
  }

  /** A session that dies when its first batch is stored. */
  function CutShort(job: Job): Episode
    requires job.batches != []
  {
    Scan(job, SomeSession(), Some(Crash(|Ios(FirstOpening(job))| + |FirstBatch(job).events|, None)))
  }

  /** A session that finds no checkpoint and saves an empty one can load it. */
  lemma FreshLoads(job: Job, fs: Files, env: SessionEnv)
    requires LoadCheckpoint(fs, job.scanId, env.readFault).None? && Succeeds(env.init) && job.scanId != "" && job.url != ""
    ensures LoadCheckpoint(ApplyAll(fs, OpeningOps(job, fs, env)), job.scanId, false)
      == Some(InitialCheckpoint(job, env.startedAt).(updatedAt := env.init.now))
  {
    hide ReadCheckpoint, CheckpointPath, AtomicSave, ApplyAll, CheckpointValue, Stringify;
    var c := InitialCheckpoint(job, env.startedAt);
    SaveApplied(fs, CheckpointPath(c.scanId), CheckpointText(c, env.init.now), env.init);
    CheckpointRoundTrip(c.(updatedAt := env.init.now));
  }

  lemma OpeningCachesNothing(job: Job, env: SessionEnv, b: nat, batchEnv: BatchEnv)
    ensures CachedVerifications(job, ApplyAll(map[], OpeningOps(job, map[], env)), b, batchEnv) == None
  {
    hide ReadCheckpoint, CheckpointPath, AtomicSave, ApplyAll, CheckpointText, EntryPath, ReadContent, InEntries, TempOf;
    var c := InitialCheckpoint(job, env.startedAt);
    var path := EntryPath(KeyOf(job, b));
    SaveApplied(map[], CheckpointPath(c.scanId), CheckpointText(c, env.init.now), env.init);
    PathsApart(job.scanId, path);
  }

  lemma CutShortIs(job: Job)
    requires job.batches != []
    ensures Play(EMPTY, CutShort(job)) == After(World(ApplyAll(map[], FirstOpening(job)), []), FirstBatch(job).events)
  {
    hide ApplyAll, SingleBatch, After, Ops, LoadCheckpoint, Ios, CheckpointPath, SaveOps, FirstOpening, SomeBatch, InitialCheckpoint;
    var opening, env := FirstOpening(job), SomeSession();
    var fs := ApplyAll(map[], opening);
    FirstIsOpening(job);
    var run := RunBatches(job, fs, env.batch, [], 0);
    var events := EventsOf(map[], CutShort(job));
    assert events == Ios(opening) + run.events + [Io(Unlink(CheckpointPath(job.scanId)))];
    assert FirstBatch(job).events <= run.events;
    var k := |Ios(opening)| + |FirstBatch(job).events|;
    assert events[..k] == Ios(opening) + FirstBatch(job).events;
    AfterAppend(EMPTY, Ios(opening), FirstBatch(job).events);
    AfterIos(EMPTY, opening);
  }

  lemma FirstIsOpening(job: Job)
    ensures FirstOpening(job) == OpeningOps(job, map[], SomeSession())
    ensures Opens(job, map[], SomeSession()) && Skipped(job, map[], SomeSession()) == []
  {
    hide SaveOps;
  }

  lemma SomeIsGood()
    ensures !SomeBatch().loadFault && Succeeds(SomeBatch().save)
    ensures !SomeSession().readFault && Succeeds(SomeSession().init)
  {
    hide SomeOutput;
  }

  /** The disk behind the opening is well, and the checkpoint on it loads. */
  lemma OpeningLeaves(totals: string -> nat, job: Job)
    requires job.batches != [] && job.scanId != "" && job.url != "" && Fits(Any(totals), job)
    ensures var fs := ApplyAll(map[], FirstOpening(job));
      LoadCheckpoint(fs, job.scanId, false).Some? && WorldOk(Any(totals), World(fs, []))
  {
    hide WorldOk, LoadCheckpoint, ApplyAll, After, Ios, OpeningOps, Fits, SomeSession;
    NoCheckpoint(job, SomeSession());
    SomeIsGood();
    FreshLoads(job, map[], SomeSession());
    NothingIsSafe(Any(totals));
    OpeningIsSafe(Any(totals), job, EMPTY, SomeSession());
    SafeMeans(Any(totals), EMPTY, Ios(FirstOpening(job)));
    AfterIos(EMPTY, FirstOpening(job));
  }

  /** Its first batch is in the checkpoint, and one reply was heard, for its page. */
  lemma CutShortLeaves(totals: string -> nat, job: Job)
    requires job.batches != [] && job.scanId != "" && job.url != "" && Fits(Any(totals), job)
    ensures var w := Play(EMPTY, CutShort(job));
      && LoadCheckpoint(w.files, job.scanId, false).Some?
      && 0 in LoadCheckpoint(w.files, job.scanId, false).value.completedBatches
      && forall r :: r in w.heard ==> KeyOfReply(r) == KeyOf(job, 0)
  {
    hide WorldOk, LoadCheckpoint, ApplyAll, Request, CachedVerifications, After, Ios, CutShort, Fits, Play, StoreOps, SingleBatch, Accepted;
    hide SomeBatch, SomeSession, FirstOpening;
    var w1 := World(ApplyAll(map[], FirstOpening(job)), []);
    OpeningLeaves(totals, job);
    FirstIsOpening(job);
    OpeningCachesNothing(job, SomeSession(), 0, SomeBatch());
    SomeRequest(job, 0);
    SomeIsGood();
    FirstBatchStores(job, w1.files);
    OnlyRepliesAreStored(job, w1.files, 0, SomeBatch());
    var r := SingleBatch(job, w1.files, 0, SomeBatch()).events[0].reply;
    SuccessIsRecorded(Any(totals), job, w1, 0, SomeBatch());
    HeardAfterHear(w1, r, StoreOps(job, w1.files, r, SomeBatch()));
    CutShortIs(job);
  }

  lemma NoCheckpoint(job: Job, env: SessionEnv)
    ensures LoadCheckpoint(map[], job.scanId, env.readFault).None?
  {}

  lemma FirstBatchStores(job: Job, fs: Files)
    requires job.batches != [] && CachedVerifications(job, fs, 0, SomeBatch()).None? && Request(job, 0, SomeBatch()).Ok?
    ensures SingleBatch(job, fs, 0, SomeBatch()).events != []
  {
    hide CachedVerifications, Request, StoreOps, Ios;
  }

  function OnPage(job: Job, page: Page): Job {
    job.(contentHash := page.contentHash, wcagLevel := page.wcagLevel)
  }

  /** An earlier session on any other page, or at any other level, that dies when its first batch is stored:
      a session on this page then skips that batch and returns without a result for it, though no reply
      was ever heard for this page and level. */
  lemma OtherPageIsSkipped(totals: string -> nat, job: Job, page: Page)
    requires job.batches != [] && job.scanId != "" && job.url != "" && Fits(Any(totals), job) && page != PageOf(job)
    ensures var episodes, env := [CutShort(OnPage(job, page))], SomeSession();
      var w := Run(EMPTY, episodes);
      var t := Session(job, w.files, env);
      && AllFit(Any(totals), episodes) && OnPages(episodes, job.scanId, {page})
      && 0 in Skipped(job, w.files, env)
      && (forall r, b :: r in w.heard ==> KeyOfReply(r) != KeyOf(job, b))
      && t.result.Some? && (forall i :: 0 <= i < |t.result.value| ==> t.result.value[i].batchNumber != 1)
  {
    hide LoadCheckpoint, Play, CutShort, Session, WorldOk, SomeBatch, SomeSession, Run;
    var before := OnPage(job, page);
    var e := CutShort(before);
    var w := Play(EMPTY, e);
    CutShortJob(before);
    RunOne(e);
    CutShortLeaves(totals, before);
    SomeIsGood();
    NothingIsSafe(Any(totals));
    assert AllFit(Any(totals), [e]);
    EveryRunIsSafe(totals, EMPTY, [e]);
    SomeSessionReturns(job, w.files);
    EveryBatchOnce(Any(totals), job, w, SomeSession());
    assert KeyOf(before, 0) == CacheKey(page.contentHash, page.wcagLevel, 0);
  }

  lemma SomeSessionReturns(job: Job, fs: Files)
    ensures Session(job, fs, SomeSession()).result.Some?
  {
    hide SomeBatch, LoadCheckpoint, RunBatches, ApplyAll, Skipped, OpeningOps;
  }

  lemma CutShortJob(job: Job)
    requires job.batches != []
    ensures CutShort(job).Scan? && CutShort(job).job == job
  {}

  lemma RunOne(e: Episode)
    ensures Run(EMPTY, [e]) == Play(EMPTY, e)
  {
    hide Play;
    assert [e][..0] == [];
    assert Run(EMPTY, []) == EMPTY;
  }

  /** Whatever the history, what a session skips was answered for its own page and level. */
  ghost predicate AlwaysForThisPage(totals: string -> nat, job: Job, pages: set<Page>) {
    forall episodes: seq<Episode>, env: SessionEnv, b: nat ::
      AllFit(Any(totals), episodes) && OnPages(episodes, job.scanId, pages) && b in Skipped(job, Run(EMPTY, episodes).files, env)
      ==> AnsweredFor(job, Run(EMPTY, episodes).heard, b)
  }

  /** That is so if and only if the sessions of the scan find no other page and level. */
  lemma PageConditionIsExact(totals: string -> nat, job: Job, pages: set<Page>)
    requires job.batches != [] && job.scanId != "" && job.url != "" && Fits(Any(totals), job)
    ensures AlwaysForThisPage(totals, job, pages) <==> pages <= {PageOf(job)}
  {
    hide Run, Skipped, AllFit, CutShort, Fits, Accepted, Session, OnPages, AnsweredFor, SomeSession;
    if pages <= {PageOf(job)} {
      forall episodes: seq<Episode>, env: SessionEnv, b: nat
        | AllFit(Any(totals), episodes) && OnPages(episodes, job.scanId, pages) && b in Skipped(job, Run(EMPTY, episodes).files, env)
        ensures AnsweredFor(job, Run(EMPTY, episodes).heard, b)
      {
        MorePages(episodes, job.scanId, pages, {PageOf(job)});
        SkippedIsForThisPage(totals, episodes, job, env, b);
      }
    } else {
      var page :| page in pages && page != PageOf(job);
      OtherPageIsSkipped(totals, job, page);
      var episodes := [CutShort(OnPage(job, page))];
      MorePages(episodes, job.scanId, {page}, pages);
      NotAnswered(job, Run(EMPTY, episodes).heard, 0);
      assert 0 in Skipped(job, Run(EMPTY, episodes).files, SomeSession());
    }
  }

  lemma MorePages(episodes: seq<Episode>, id: string, few: set<Page>, many: set<Page>)
    requires OnPages(episodes, id, few) && few <= many
    ensures OnPages(episodes, id, many)
  {}

  lemma NotAnswered(job: Job, heard: seq<Reply>, b: nat)
    requires forall r, b :: r in heard ==> KeyOfReply(r) != KeyOf(job, b)
    ensures !AnsweredFor(job, heard, b)
  {
    hide Accepted;
  }
}

/** Verifying the criteria batches of one scan: from the cache, by the model, or as NOT_TESTED. */
module BatchProcessor {
  import opened Wrappers
  import opened Sequences
  import opened Disk
  import opened JsonValue
  import opened Criteria
  import opened ResultParser
  import opened Retry
  import opened Cache
  import opened Checkpoint

  /** One scan of one page, as one session sees it: a later session of the same scan may find another
      page, and another hash. */
  datatype Job = Job(
    scanId: string,
    url: string,
    contentHash: ContentHash,
    wcagLevel: Level,
    batches: seq<seq<Criterion>>,
    ttlDays: nat,
    timeout: nat)

  /** A reply of the model: for which scan, page, level and batch, the length of the prompt it answers,
      and what it says. */
  datatype Reply = Reply(scanId: string, contentHash: ContentHash, wcagLevel: Level, batch: nat, promptLength: nat, output: string)

  /** What a session does that outlives it. */
  datatype Event = Hear(reply: Reply) | Io(op: FileOp)

  /** Everything the outside decides while one batch is processed. */
  datatype BatchEnv = BatchEnv(
    thrown: Option<string>,
    now: nat,
    readFault: bool,
    prompt: Result<string, string>,
    launch: nat -> Launch,
    storedAt: nat,
    cacheWrite: WriteOutcome,
    loadFault: bool,
    save: SaveEnv)

  datatype SessionEnv = SessionEnv(readFault: bool, startedAt: nat, init: SaveEnv, batch: nat -> BatchEnv, unlinkFault: bool)

  /** Batch numbers count from 1 here; everywhere else they count from 0. */
  datatype BatchResult = BatchResult(batchNumber: nat, criteriaVerified: nat, verifications: seq<Value>, tokensUsed: nat, errors: seq<string>)

  datatype Trace<+R> = Trace(result: R, events: seq<Event>)

  // ---- Replies --------------------------------------------------------------------------------

  /** A reply without verifications is no reply. */
  function ReadReply(output: string): (r: Result<seq<Verification>, ReplyError>)
    ensures r.Ok? ==> AllNormal(r.value) && r.value != []
  {
    match ParseBatchVerificationOutput(output)
    case Err(e) => Err(BadReply(e))
    case Ok(vs) => if vs == [] then Err(NoVerifications) else Result.Ok(vs)
  }

  predicate Accepted(r: Reply) {
    ReadReply(r.output).Ok?
  }

  function VerificationsOf(r: Reply): (vs: seq<Value>)
    requires Accepted(r)
    ensures AllPrintable(vs)
  {
    VerificationValues(ReadReply(r.output).value)
  }

  /** A quarter of the characters sent and received, rounded up. */
  function TokensOfReply(r: Reply): (t: nat)
    ensures 4 * t - 4 < r.promptLength + |r.output| <= 4 * t
  {
    (r.promptLength + |r.output| + 3) / 4
  }

  // ---- One batch ------------------------------------------------------------------------------

  function KeyOf(job: Job, b: nat): CacheKey {
    CacheKey(job.contentHash, job.wcagLevel, b)
  }

  function KeyOfReply(r: Reply): CacheKey {
    CacheKey(r.contentHash, r.wcagLevel, r.batch)
  }

  /** An entry without an array of verifications makes the lookup throw, which counts as a miss. */
  function CachedVerifications(job: Job, fs: Files, b: nat, env: BatchEnv): Option<seq<Value>> {
    match CacheGet(fs, KeyOf(job, b), env.now, env.readFault)
    case None => None
    case Some(entry) => match Get(entry, "verifications") case Some(VArr(vs)) => Some(vs) case _ => None
  }

  function ReplyErrorText(e: ReplyError): string {
    match e
    case BadReply(NoJsonFound) => "Failed to extract JSON from AI output: No valid JSON found"
    case BadReply(NotAnObject) => "Invalid batch verification output: Expected an object"
    case BadReply(MissingArray) => "Invalid batch verification output: Missing or invalid criteriaVerifications array"
    case NoVerifications => "No valid verifications parsed from output"
  }

  function FailureText(f: Failure, timeout: nat): string {
    match f
    case RateLimitExhausted => "Rate limit retries exhausted after " + Digits(MAX_RATE_LIMIT_RETRIES) + " attempts"
    case TimedOut => "Timeout after " + Digits(timeout) + "ms"
    case InvocationFailed(l) => if !l.Succeeded? then l.error else "Unknown error during AI invocation"
    case RetryThrew(e) => "JSON parse retry invocation failed: " + e
    case RetryFailed(l) => "JSON parse retry failed: " + if !l.Succeeded? then l.error else "No output"
    case Unparseable(n, e) => "Failed to parse AI response after " + Digits(n) + " retry(s): " + ReplyErrorText(e)
  }

  function NotTestedValue(id: string, error: string): Value {
    VerificationValue(Verification(id, NotTested, 0, "Unable to verify: " + error, Some([])))
  }

  function Fallback(b: nat, criteria: seq<Criterion>, error: string): BatchResult {
    var vs := seq(|criteria|, i requires 0 <= i < |criteria| => NotTestedValue(criteria[i].id, error));
    BatchResult(b + 1, |vs|, vs, 0, [error])
  }

  function ReplyTo(job: Job, b: nat, prompt: string, output: string): Reply {
    Reply(job.scanId, job.contentHash, job.wcagLevel, b, |prompt|, output)
  }

  /** The reply a batch gets, or why there is none. */
  function Request(job: Job, b: nat, env: BatchEnv): (r: Result<Reply, string>)
    ensures r.Ok? ==> Accepted(r.value) && r.value.scanId == job.scanId && r.value.batch == b && KeyOfReply(r.value) == KeyOf(job, b)
    ensures r.Ok? ==> exists i: nat :: env.launch(i) == Succeeded(r.value.output)
  {
    match env.prompt
    case Err(e) => Err("Prompt generation failed: " + e)
    case Ok(prompt) =>
      match AskInForce(ReadReply, env.launch).result
      case Err(f) => Err(FailureText(f, job.timeout))
      case Ok(answer) => Result.Ok(ReplyTo(job, b, prompt, answer.output))
  }

  function CacheOps(job: Job, reply: Reply, env: BatchEnv): seq<FileOp>
    requires Accepted(reply)
  {
    var op := Set(KeyOfReply(reply), VerificationsOf(reply), TokensOfReply(reply), env.storedAt, env.cacheWrite);
    WriteOps(EntryPath(op.key), Content(op, job.ttlDays), env.cacheWrite)
  }

  /** The accepted reply goes to the cache, then to the checkpoint; either may fail. */
  function StoreOps(job: Job, fs: Files, reply: Reply, env: BatchEnv): seq<FileOp>
    requires Accepted(reply)
  {
    var ops := CacheOps(job, reply, env);
    ops + MarkOps(ApplyAll(fs, ops), job.scanId, reply.batch, VerificationsOf(reply), TokensOfReply(reply), env.loadFault, env.save)
  }

  function Ios(ops: seq<FileOp>): seq<Event> {
    seq(|ops|, i requires 0 <= i < |ops| => Io(ops[i]))
  }

  /** Err: an exception the caller turns into an empty result. */
  function SingleBatch(job: Job, fs: Files, b: nat, env: BatchEnv): Trace<Result<BatchResult, string>>
    requires b < |job.batches|
  {
    match env.thrown
    case Some(e) => Trace(Err(e), [])
    case None =>
      match CachedVerifications(job, fs, b, env)
      case Some(vs) => Trace(Result.Ok(BatchResult(b + 1, |vs|, vs, 0, [])), [])
      case None =>
        match Request(job, b, env)
        case Err(e) => Trace(Result.Ok(Fallback(b, job.batches[b], e)), [])
        case Ok(reply) =>
          var vs := VerificationsOf(reply);
          Trace(Result.Ok(BatchResult(b + 1, |vs|, vs, TokensOfReply(reply), [])), [Hear(reply)] + Ios(StoreOps(job, fs, reply, env)))
  }

  // ---- The whole scan -------------------------------------------------------------------------

  function Ops(events: seq<Event>): seq<FileOp> {
    if events == [] then [] else (if events[0].Io? then [events[0].op] else []) + Ops(events[1..])
  }

  lemma {:induction false} OpsAppend(a: seq<Event>, b: seq<Event>)
    ensures Ops(a + b) == Ops(a) + Ops(b)
  {
    if a == [] {
      assert a + b == b;
    } else {
      hide Ops;
      assert (a + b)[1..] == a[1..] + b;
      OpsAppend(a[1..], b);
      OpsFirst(a);
      OpsFirst(a + b);
    }
  }

  lemma OpsFirst(events: seq<Event>)
    requires events != []
    ensures Ops(events) == (if events[0].Io? then [events[0].op] else []) + Ops(events[1..])
  {}

  lemma {:induction false} OpsOfIos(ops: seq<FileOp>)
    ensures Ops(Ios(ops)) == ops
  {
    if ops != [] {
      assert Ios(ops)[1..] == Ios(ops[1..]);
      OpsOfIos(ops[1..]);
    }
  }

  lemma OpsOfStore(reply: Reply, ops: seq<FileOp>)
    ensures Ops([Hear(reply)] + Ios(ops)) == ops
  {
    OpsOfIos(ops);
    assert ([Hear(reply)] + Ios(ops))[1..] == Ios(ops);
  }

  function ResultOf(b: nat, r: Result<BatchResult, string>): BatchResult {
    match r case Ok(result) => result case Err(e) => BatchResult(b + 1, 0, [], 0, [e])
  }

  /** The batches from `b` on that are not skipped. */
  function RunBatches(job: Job, fs: Files, batch: nat -> BatchEnv, skip: seq<nat>, b: nat): Trace<seq<BatchResult>>
    requires b <= |job.batches|
    decreases |job.batches| - b
  {
    if b == |job.batches| then Trace([], [])
    else if b in skip then RunBatches(job, fs, batch, skip, b + 1)
    else
      var t := SingleBatch(job, fs, b, batch(b));
      var rest := RunBatches(job, ApplyAll(fs, Ops(t.events)), batch, skip, b + 1);
      Trace([ResultOf(b, t.result)] + rest.result, t.events + rest.events)
  }

  function InitialCheckpoint(job: Job, now: nat): CriteriaCheckpoint {
    CriteriaCheckpoint(job.scanId, job.url, job.wcagLevel, |job.batches|, [], [], false, now, now, 0)
  }

  function Skipped(job: Job, fs: Files, env: SessionEnv): seq<nat> {
    match LoadCheckpoint(fs, job.scanId, env.readFault) case None => [] case Some(c) => c.completedBatches
  }

  function OpeningOps(job: Job, fs: Files, env: SessionEnv): seq<FileOp> {
    match LoadCheckpoint(fs, job.scanId, env.readFault)
    case None => SaveOps(InitialCheckpoint(job, env.startedAt), env.init)
    case Some(_) => []
  }

  predicate Opens(job: Job, fs: Files, env: SessionEnv) {
    LoadCheckpoint(fs, job.scanId, env.readFault).Some? || Succeeds(env.init)
  }

  /** None: an exception ends the session. */
  function Session(job: Job, fs: Files, env: SessionEnv): Trace<Option<seq<BatchResult>>> {
    if job.batches == [] then Trace(Some([]), [])
    else
      var opening := OpeningOps(job, fs, env);
      if !Opens(job, fs, env) then Trace(None, Ios(opening))
      else
        var run := RunBatches(job, ApplyAll(fs, opening), env.batch, Skipped(job, fs, env), 0);
        if env.unlinkFault then Trace(None, Ios(opening) + run.events)
        else Trace(Some(run.result), Ios(opening) + run.events + [Io(Unlink(CheckpointPath(job.scanId)))])
  }

  class CriteriaBatchProcessor {
    const fs: FileSystem
    const cache: CriteriaVerificationCache
    const checkpointManager: CriteriaCheckpointManager
    const allCriteria: seq<Criterion>
    const batchSize: nat
    const timeout: nat

    ghost predicate Valid()
      reads this, cache
    {
      batchSize > 0 && cache.fs == fs && checkpointManager.fs == fs && cache.Valid()
    }

    constructor (fs: FileSystem, allCriteria: seq<Criterion>, batchSize: nat, ttlDays: nat, timeout: nat)
      requires batchSize > 0
      ensures Valid() && fresh(cache) && this.fs == fs && this.allCriteria == allCriteria
      ensures this.batchSize == batchSize && cache.ttlDays == ttlDays && this.timeout == timeout
    {
      this.fs, this.allCriteria, this.batchSize, this.timeout := fs, allCriteria, batchSize, timeout;
      cache := new CriteriaVerificationCache(fs, ttlDays);
      checkpointManager := new CriteriaCheckpointManager(fs);
    }

    function JobOf(scanId: string, url: string, contentHash: ContentHash, wcagLevel: Level): Job
      requires batchSize > 0
    {
      Job(scanId, url, contentHash, wcagLevel, Chunks(CriteriaForLevel(allCriteria, wcagLevel), batchSize), cache.ttlDays, timeout)
    }

    /** Start-up: the cache is cleaned, unless loading the instructions throws. */
    method Initialize(loadFails: bool, listing: seq<string>, now: nat, unread: set<string>, stuck: set<string>) returns (ok: bool)
      requires Valid()
      requires forall path :: path in listing <==> path in fs.files && InEntries(path)
      requires forall i, j :: 0 <= i < j < |listing| ==> listing[i] != listing[j]
      modifies fs
      ensures Valid() && ok == !loadFails
      ensures var ops := if loadFails then [] else CleanOps(old(fs.files), listing, now, unread, stuck);
        fs.files == ApplyAll(old(fs.files), ops) && fs.log == old(fs.log) + ops
    {
      hide ApplyAll, CleanOps, InEntries;
      ApplyNothing(fs.files);
      ok := !loadFails;
      if ok {
        var cleanedCount := cache.CleanUp(listing, now, unread, stuck);
      }
    }

    method ProcessSingleBatch(job: Job, batchNumber: nat, env: BatchEnv) returns (r: Result<BatchResult, string>)
      requires Valid() && batchNumber < |job.batches| && job.ttlDays == cache.ttlDays && job.timeout == timeout
      modifies fs, cache
      ensures Valid()
      ensures var t := SingleBatch(job, old(fs.files), batchNumber, env);
        && r == t.result
        && fs.files == ApplyAll(old(fs.files), Ops(t.events))
        && fs.log == old(fs.log) + Ops(t.events)
    {
      hide AskInForce, ApplyAll, CacheGet, MarkOps, ReadReply, EntryPath, Content, WriteOps, FailureText, CriteriaVerificationCache.Valid, VerificationValues, StoreOps, Request, Ops;
      ghost var start, log := fs.files, fs.log;
      NoOps(start, log);
      if env.thrown.Some? { return Err(env.thrown.value); }
      var cacheKey := KeyOf(job, batchNumber);
      var cachedEntry := cache.GetEntry(cacheKey, env.now, env.readFault);
      if cachedEntry.Some? {
        var cached := Get(cachedEntry.value, "verifications");
        if cached.Some? && cached.value.VArr? {
          var vs := cached.value.elems;
          return Result.Ok(BatchResult(batchNumber + 1, |vs|, vs, 0, []));
        }
      }
      RequestIs(job, batchNumber, env);
      if env.prompt.Err? {
        return Result.Ok(Fallback(batchNumber, job.batches[batchNumber], "Prompt generation failed: " + env.prompt.error));
      }
      var answer, _, _ := AskModel(ReadReply, env.launch);
      if answer.Err? {
        return Result.Ok(Fallback(batchNumber, job.batches[batchNumber], FailureText(answer.error, timeout)));
      }
      var reply := ReplyTo(job, batchNumber, env.prompt.value, answer.value.output);
      var verifications := VerificationValues(answer.value.verifications);
      var estimatedTokens := TokensOfReply(reply);
      var _ := cache.SetEntry(cacheKey, verifications, estimatedTokens, env.storedAt, env.cacheWrite);
      var _ := checkpointManager.MarkBatchComplete(job.scanId, batchNumber, verifications, estimatedTokens, env.loadFault, env.save);
      StoreApplied(job, start, log, reply, env);
      r := Result.Ok(BatchResult(batchNumber + 1, |verifications|, verifications, estimatedTokens, []));
    }

    /** None: an exception ended the session. */
    method ProcessCriteriaBatches(scanId: string, url: string, contentHash: ContentHash, wcagLevel: Level, env: SessionEnv)
      returns (r: Option<seq<BatchResult>>)
      requires Valid()
      modifies fs, cache
      ensures Valid()
      ensures var t := Session(JobOf(scanId, url, contentHash, wcagLevel), old(fs.files), env);
        && r == t.result
        && fs.files == ApplyAll(old(fs.files), Ops(t.events))
        && fs.log == old(fs.log) + Ops(t.events)
    {
      hide ApplyAll, SaveOps, LoadCheckpoint, SingleBatch, Ops, Chunks, CriteriaForLevel, RunBatches, CriteriaVerificationCache.Valid;
      ghost var start, log := fs.files, fs.log;
      NoOps(start, log);
      var batches := CreateBatches(allCriteria, wcagLevel, batchSize);
      var job := Job(scanId, url, contentHash, wcagLevel, batches, cache.ttlDays, timeout);
      var totalBatches := |batches|;
      if totalBatches == 0 { return Some([]); }
      var results: seq<BatchResult> := [];
      var completedBatchNumbers: seq<nat> := [];
      var existingCheckpoint := checkpointManager.GetCheckpoint(scanId, env.readFault);
      OpsOfIos(OpeningOps(job, start, env));
      if existingCheckpoint.Some? {
        completedBatchNumbers := existingCheckpoint.value.completedBatches;
      } else {
        var checkpoint := CriteriaCheckpoint(scanId, url, wcagLevel, totalBatches, [], [], false, env.startedAt, env.startedAt, 0);
        var ok := checkpointManager.SaveCheckpoint(checkpoint, env.init);
        if !ok { return None; }
      }
      var processedCount, skippedCount := 0, 0;
      ghost var begun, openLog := fs.files, fs.log;
      ghost var run := RunBatches(job, begun, env.batch, completedBatchNumbers, 0);
      for batchNumber := 0 to totalBatches
        invariant Valid()
        invariant processedCount + skippedCount == batchNumber && processedCount == |results|
        invariant var rest := RunBatches(job, fs.files, env.batch, completedBatchNumbers, batchNumber);
          && results + rest.result == run.result
          && fs.log + Ops(rest.events) == openLog + Ops(run.events)
          && ApplyAll(fs.files, Ops(rest.events)) == ApplyAll(begun, Ops(run.events))
      {
        if batchNumber in completedBatchNumbers {
          SkipStep(job, fs.files, env.batch, completedBatchNumbers, batchNumber);
          skippedCount := skippedCount + 1;
          continue;
        }
        RunStep(job, fs.files, fs.log, results, env.batch, completedBatchNumbers, batchNumber);
        var batchResult := ProcessSingleBatch(job, batchNumber, env.batch(batchNumber));
        match batchResult {
          case Ok(result) => results := results + [result];
          case Err(errorMsg) => results := results + [BatchResult(batchNumber + 1, 0, [], 0, [errorMsg])];
        }
        processedCount := processedCount + 1;
      }
      NothingLeft(job, fs.files, env.batch, completedBatchNumbers);
      NoOps(fs.files, fs.log);
      var remainingBatches: int := totalBatches - skippedCount - processedCount;
      if remainingBatches == 0 {
        SessionCloses(job, start, log, env);
        var ok := checkpointManager.ClearCheckpoint(scanId, env.unlinkFault);
        if !ok { return None; }
      }
      assert results + [] == results;
      r := Some(results);
    }
  }

  lemma RequestIs(job: Job, b: nat, env: BatchEnv)
    ensures env.prompt.Err? ==> Request(job, b, env) == Err("Prompt generation failed: " + env.prompt.error)
    ensures env.prompt.Ok? ==>
      match AskInForce(ReadReply, env.launch).result
      case Err(f) => Request(job, b, env) == Err(FailureText(f, job.timeout))
      case Ok(answer) =>
        var reply := ReplyTo(job, b, env.prompt.value, answer.output);
        && Request(job, b, env) == Result.Ok(reply)
        && Accepted(reply) && AllNormal(answer.verifications) && VerificationsOf(reply) == VerificationValues(answer.verifications)
  {
    hide Backoff, ReadWithRetry, ReadReply, VerificationValues, FailureText;
  }

  lemma NothingLeft(job: Job, fs: Files, batch: nat -> BatchEnv, skip: seq<nat>)
    ensures RunBatches(job, fs, batch, skip, |job.batches|) == Trace([], [])
  {}

  lemma SkipStep(job: Job, fs: Files, batch: nat -> BatchEnv, skip: seq<nat>, b: nat)
    requires b < |job.batches| && b in skip
    ensures RunBatches(job, fs, batch, skip, b) == RunBatches(job, fs, batch, skip, b + 1)
  {}

  /** One round of the loop, as the specification sees it. */
  lemma RunStep(job: Job, fs: Files, log: seq<FileOp>, results: seq<BatchResult>, batch: nat -> BatchEnv, skip: seq<nat>, b: nat)
    requires b < |job.batches| && b !in skip
    ensures var now := RunBatches(job, fs, batch, skip, b);
      var t := SingleBatch(job, fs, b, batch(b));
      var rest := RunBatches(job, ApplyAll(fs, Ops(t.events)), batch, skip, b + 1);
      && results + now.result == results + [ResultOf(b, t.result)] + rest.result
      && log + Ops(now.events) == log + Ops(t.events) + Ops(rest.events)
      && ApplyAll(fs, Ops(now.events)) == ApplyAll(ApplyAll(fs, Ops(t.events)), Ops(rest.events))
  {
    hide SingleBatch, ApplyAll, Ops;
    var t := SingleBatch(job, fs, b, batch(b));
    var rest := RunBatches(job, ApplyAll(fs, Ops(t.events)), batch, skip, b + 1);
    OpsAppend(t.events, rest.events);
    ApplyAllAppend(fs, Ops(t.events), Ops(rest.events));
  }

  /** The operations of a session that gets past its opening. */
  lemma SessionCloses(job: Job, fs: Files, log: seq<FileOp>, env: SessionEnv)
    requires job.batches != [] && Opens(job, fs, env)
    ensures var opening := OpeningOps(job, fs, env);
      var begun := ApplyAll(fs, opening);
      var run := RunBatches(job, begun, env.batch, Skipped(job, fs, env), 0);
      var closing := if env.unlinkFault then [] else [Unlink(CheckpointPath(job.scanId))];
      var total := Ops(Session(job, fs, env).events);
      && log + total == log + opening + Ops(run.events) + closing
      && ApplyAll(fs, total) == ApplyAll(ApplyAll(begun, Ops(run.events)), closing)
  {
    hide ApplyAll, Ops, RunBatches, OpeningOps, Opens;
    var opening := OpeningOps(job, fs, env);
    var begun := ApplyAll(fs, opening);
    var run := RunBatches(job, begun, env.batch, Skipped(job, fs, env), 0);
    var last: seq<Event> := if env.unlinkFault then [] else [Io(Unlink(CheckpointPath(job.scanId)))];
    var closing := if env.unlinkFault then [] else [Unlink(CheckpointPath(job.scanId))];
    OpsOfIos(opening);
    OpsOfIos(closing);
    assert last == Ios(closing);
    OpsAppend(Ios(opening), run.events);
    OpsAppend(Ios(opening) + run.events, last);
    assert Session(job, fs, env).events == Ios(opening) + run.events + last;
    ApplyAllAppend(fs, opening, Ops(run.events));
    ApplyAllAppend(fs, opening + Ops(run.events), closing);
  }

  lemma StoreApplied(job: Job, fs: Files, log: seq<FileOp>, reply: Reply, env: BatchEnv)
    requires Accepted(reply)
    ensures var vs, tokens := VerificationsOf(reply), TokensOfReply(reply);
      var op := Set(KeyOfReply(reply), vs, tokens, env.storedAt, env.cacheWrite);
      var cached := WriteOps(EntryPath(op.key), Content(op, job.ttlDays), env.cacheWrite);
      var fs' := ApplyAll(fs, cached);
      var marked := MarkOps(fs', job.scanId, reply.batch, vs, tokens, env.loadFault, env.save);
      var stored := Ops([Hear(reply)] + Ios(StoreOps(job, fs, reply, env)));
      ApplyAll(fs', marked) == ApplyAll(fs, stored) && log + cached + marked == log + stored
  {
    hide ApplyAll, MarkOps, VerificationsOf, Ops, Ios, Content, WriteOps, EntryPath;
    var ops := CacheOps(job, reply, env);
    var fs' := ApplyAll(fs, ops);
    OpsOfStore(reply, StoreOps(job, fs, reply, env));
    ApplyAllAppend(fs, ops, MarkOps(fs', job.scanId, reply.batch, VerificationsOf(reply), TokensOfReply(reply), env.loadFault, env.save));
  }

  lemma NoOps(fs: Files, log: seq<FileOp>)
    ensures ApplyAll(fs, Ops([])) == fs && log + Ops([]) == log
  {}
}

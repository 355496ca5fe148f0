/** What one batch comes to: a cached answer, the whole reply of the model, or a named failure. */
module BatchOutcomes {
  import opened Wrappers
  import opened Sequences
  import opened Disk
  import opened JsonValue
  import opened ResultParser
  import opened Retry
  import opened RetryOutcomes
  import opened Criteria
  import opened Cache
  import opened Checkpoint
  import opened BatchProcessor
  import opened CrashSafety
  import opened Coverage
  import FencedJson
  import BraceScanner
  import opened JsonGrammar

  // ---- Hits and misses ------------------------------------------------------------------------

  /** What a batch returned once, any later batch for that page, level and number returns again until it
      expires, without a launch, a token or a file operation, whatever the model would say. */
  lemma HitIsReturned(job: Job, w: World, b: nat, env: BatchEnv, later: Job, laterEnv: BatchEnv)
    requires b < |job.batches| && SingleBatch(job, w.files, b, env).events != []
    requires env.cacheWrite == Written && !laterEnv.readFault && laterEnv.thrown.None?
    requires later.contentHash == job.contentHash && later.wcagLevel == job.wcagLevel && b < |later.batches|
    requires laterEnv.now <= env.storedAt + job.ttlDays * (24 * 60 * 60 * 1000)
    ensures var t := SingleBatch(job, w.files, b, env);
      t.result.Ok? &&
      var vs := t.result.value.verifications;
      SingleBatch(later, After(w, t.events).files, b, laterEnv) == Trace(Result.Ok(BatchResult(b + 1, |vs|, vs, 0, [])), [])
  {
    hide After, CachedVerifications, Request, StoreOps;
    SuccessIsCached(job, w, b, env, later, laterEnv);
  }

  /** A batch leaves something behind if and only if nothing was thrown, the lookup misses, there is a
      prompt, and the request ends in an answer; and then that answer is what it returns. */
  lemma EventsIff(job: Job, fs: Files, b: nat, env: BatchEnv)
    requires b < |job.batches|
    ensures var t := SingleBatch(job, fs, b, env);
      var asked := AskInForce(ReadReply, env.launch).result;
      && (t.events != [] <==> env.thrown.None? && CachedVerifications(job, fs, b, env).None? && env.prompt.Ok? && asked.Ok?)
      && (t.events != [] ==>
            && t.result.Ok? && t.result.value.errors == [] && t.result.value.batchNumber == b + 1
            && AllNormal(asked.value.verifications)
            && t.result.value.verifications == VerificationValues(asked.value.verifications)
            && t.result.value.tokensUsed == TokensOfReply(ReplyTo(job, b, env.prompt.value, asked.value.output)))
  {
    hide CachedVerifications, AskInForce, StoreOps, Request, TokensOfReply, VerificationsOf, Accepted, FailureText, VerificationValues;
    RequestIs(job, b, env);
  }

  /** A hit is an entry that is read, is not expired, and has an array of verifications. */
  lemma HitIff(job: Job, fs: Files, b: nat, env: BatchEnv, vs: seq<Value>)
    ensures CachedVerifications(job, fs, b, env) == Some(vs) <==>
      var path := EntryPath(KeyOf(job, b));
      && path in fs && !env.readFault
      && var entry := Parse(fs[path]);
      && entry.Some? && Get(entry.value, "verifications") == Some(VArr(vs))
      && !Expired(ReadContent(fs[path]), env.now)
  {
    hide EntryPath, Parse;
  }

  // ---- Replies --------------------------------------------------------------------------------

  /** The entries of a reply: what is recovered from it is an object with this array. */
  ghost predicate Lists(output: string, elems: seq<Value>) {
    exists t: Tree :: FencedJson.Recover(output) == Some(t) && Wf(t) && Get(ValueOf(t), "criteriaVerifications") == Some(VArr(elems))
  }

  /** A reply is accepted if and only if it lists at least one valid entry; then all its valid entries are
      its verifications, in order, and nothing else is. */
  lemma AcceptedIff(r: Reply)
    ensures Accepted(r) <==> exists elems, i :: (Lists(r.output, elems) && 0 <= i < |elems| && NormalizeCriteriaVerification(elems[i]).Some?)
    ensures Accepted(r) <==> exists vs :: ParseBatchVerificationOutput(r.output) == Result.Ok(vs) && vs != []
    ensures Accepted(r) ==> ParseBatchVerificationOutput(r.output) == Result.Ok(ReadReply(r.output).value)
  {
    hide FencedJson.Recover, ReadBatch, NormalizeCriteriaVerification, Wf, Lists;
    if Accepted(r) {
      var elems := OkLists(r.output);
      NormalizeAllIsImage(elems);
      assert NormalizeCriteriaVerification(elems[Kept(elems)[0]]).Some?;
    }
    forall elems, i | Lists(r.output, elems) && 0 <= i < |elems| && NormalizeCriteriaVerification(elems[i]).Some? ensures Accepted(r) {
      ListsIsRead(r.output, elems);
      NormalizeAllIsImage(elems);
    }
  }

  lemma OkLists(output: string) returns (elems: seq<Value>)
    requires ParseBatchVerificationOutput(output).Ok?
    ensures Lists(output, elems) && ParseBatchVerificationOutput(output).value == NormalizeAll(elems)
  {
    hide FencedJson.Recover, NormalizeAll, Get, ValueOf;
    FencedJson.RecoverSound(output);
    elems := Get(ValueOf(FencedJson.Recover(output).value), "criteriaVerifications").value.elems;
  }

  lemma ListsIsRead(output: string, elems: seq<Value>)
    requires Lists(output, elems)
    ensures ParseBatchVerificationOutput(output) == Result.Ok(NormalizeAll(elems))
  {
    hide FencedJson.Recover, NormalizeAll, ValueOf;
  }

  /** `v` is what the entry is normalised to, as it is returned and stored. */
  predicate IsNormalForm(entry: Value, v: Value) {
    var n := NormalizeCriteriaVerification(entry);
    n.Some? && v == VerificationValue(n.value)
  }

  /** The verifications of an accepted reply are its valid entries, every one, in the order of the reply. */
  lemma WholeListIsKept(r: Reply, elems: seq<Value>)
    requires Accepted(r) && Lists(r.output, elems)
    ensures var vs, kept := VerificationsOf(r), Kept(elems);
      && vs == VerificationValues(NormalizeAll(elems))
      && |vs| == |kept|
      && (forall k :: 0 <= k < |kept| ==> kept[k] < |elems| && IsNormalForm(elems[kept[k]], vs[k]))
      && (forall j, k :: 0 <= j < k < |kept| ==> kept[j] < kept[k])
      && (forall i :: 0 <= i < |elems| && NormalizeCriteriaVerification(elems[i]).Some? ==> i in kept)
  {
    hide Lists, ParseBatchVerificationOutput, NormalizeCriteriaVerification, NormalizeAll, VerificationValues, Kept, VerificationValue;
    ListsIsRead(r.output, elems);
    NormalizeAllIsImage(elems);
    ValuesAt(NormalizeAll(elems));
  }

  lemma {:induction false} ValuesAt(vs: seq<Verification>)
    requires AllNormal(vs)
    ensures |VerificationValues(vs)| == |vs|
    ensures forall k :: 0 <= k < |vs| ==> Normal(vs[k]) && VerificationValues(vs)[k] == VerificationValue(vs[k])
  {
    hide VerificationValue;
    if vs != [] { ValuesAt(vs[1..]); }
  }

  // ---- From the launch to the result ----------------------------------------------------------

  /** A batch that misses the cache and whose request ends with a readable reply returns all of it, and
      what it stores is that reply. */
  lemma ReplyIsReturned(job: Job, fs: Files, b: nat, env: BatchEnv, ends: seq<nat>, output: string, vs: seq<Verification>)
    requires b < |job.batches| && env.thrown.None? && CachedVerifications(job, fs, b, env).None? && env.prompt.Ok?
    requires Complete(env.launch, 3, 3, ends) && env.launch(ends[|ends| - 1]) == Launch.Succeeded(output)
    requires output != "" && vs != [] && ParseBatchVerificationOutput(output) == Result.Ok(vs)
    ensures AllNormal(vs)
    ensures var t := SingleBatch(job, fs, b, env);
      var reply := Reply(job.scanId, job.contentHash, job.wcagLevel, b, |env.prompt.value|, output);
      && t.result == Result.Ok(BatchResult(b + 1, |vs|, VerificationValues(vs), TokensOfReply(reply), []))
      && Accepted(reply) && t.events == [Hear(reply)] + Ios(StoreOps(job, fs, reply, env))
  {
    hide CachedVerifications, StoreOps, TokensOfReply, VerificationValues, ParseBatchVerificationOutput, Retried, RetriedAfter, EndsAt, Slept, TotalSlept, AskInForce, FailureText, Request;
    var e := ends[|ends| - 1];
    var f := SomeEnd(env.launch, e + 1, 3);
    AskIs(ReadReply, env.launch, ends, f);
    RequestIs(job, b, env);
    ValuesAt(vs);
  }

  /** End to end: whatever normalised verifications the model writes down in its first reply, the batch
      returns exactly these. */
  lemma ReplyIsReturnedWhole(job: Job, fs: Files, b: nat, env: BatchEnv, vs: seq<Verification>)
    requires b < |job.batches| && env.thrown.None? && CachedVerifications(job, fs, b, env).None? && env.prompt.Ok?
    requires AllNormal(vs) && vs != [] && env.launch(0) == Launch.Succeeded(Stringify(BatchValue(vs)))
    ensures var t := SingleBatch(job, fs, b, env);
      && t.result.Ok? && t.result.value.batchNumber == b + 1 && t.result.value.errors == []
      && t.result.value.criteriaVerified == |vs| && t.result.value.verifications == VerificationValues(vs)
  {
    hide CachedVerifications, Stringify, ParseBatchVerificationOutput, SingleBatch, Complete, StoreOps, VerificationValues, BatchValue;
    WrittenIsRead(vs);
    FirstSucceeds(env.launch);
    ReplyIsReturned(job, fs, b, env, [0], Stringify(BatchValue(vs)), vs);
  }

  lemma WrittenIsRead(vs: seq<Verification>)
    requires AllNormal(vs)
    ensures var text := Stringify(BatchValue(vs)); text != "" && ParseBatchVerificationOutput(text) == Result.Ok(vs)
  {
    hide ParseBatchVerificationOutput, Layout, BatchValue;
    BatchRoundTrip(vs);
    BraceScanner.ObjectCloses(Layout(BatchValue(vs), 0), "");
  }

  lemma FirstSucceeds(launch: nat -> Launch)
    requires launch(0).Succeeded?
    ensures Complete(launch, 3, 3, [0])
  {}

  /** The same for a reply to the further request that follows a reply without JSON or verifications. */
  lemma SecondReplyIsReturned(job: Job, fs: Files, b: nat, env: BatchEnv, ends: seq<nat>, f: nat, first: string, output: string, vs: seq<Verification>)
    requires b < |job.batches| && env.thrown.None? && CachedVerifications(job, fs, b, env).None? && env.prompt.Ok?
    requires Complete(env.launch, 3, 3, ends) && env.launch(ends[|ends| - 1]) == Launch.Succeeded(first)
    requires first != "" && NothingIn(first)
    requires EndsAt(env.launch, ends[|ends| - 1] + 1, 3, f) && env.launch(f) == Launch.Succeeded(output)
    requires output != "" && vs != [] && ParseBatchVerificationOutput(output) == Result.Ok(vs)
    ensures AllNormal(vs)
    ensures var t := SingleBatch(job, fs, b, env);
      var reply := Reply(job.scanId, job.contentHash, job.wcagLevel, b, |env.prompt.value|, output);
      && t.result == Result.Ok(BatchResult(b + 1, |vs|, VerificationValues(vs), TokensOfReply(reply), []))
      && Accepted(reply) && t.events == [Hear(reply)] + Ios(StoreOps(job, fs, reply, env))
  {
    hide CachedVerifications, StoreOps, TokensOfReply, VerificationValues, ParseBatchVerificationOutput, Retried, RetriedAfter, EndsAt, Slept, TotalSlept, AskInForce, FailureText, Request;
    AskIs(ReadReply, env.launch, ends, f);
    RequestIs(job, b, env);
    ValuesAt(vs);
  }

  /** No JSON, or no valid verification. */
  predicate NothingIn(output: string) {
    var r := ParseBatchVerificationOutput(output);
    r == Err(NoJsonFound) || r == Result.Ok([])
  }

  // ---- Failures -------------------------------------------------------------------------------

  /** Every criterion of the batch is reported as not tested, in order, with the reason, and nothing is done. */
  ghost predicate Reports(t: Trace<Result<BatchResult, string>>, b: nat, criteria: seq<Criterion>, error: string) {
    && t.events == [] && t.result.Ok?
    && var r := t.result.value;
    && r.batchNumber == b + 1 && r.criteriaVerified == |criteria| && r.tokensUsed == 0 && r.errors == [error]
    && |r.verifications| == |criteria|
    && forall i :: 0 <= i < |criteria| ==> NotTestedFor(r.verifications[i], criteria[i].id, error)
  }

  predicate NotTestedFor(v: Value, id: string, error: string) {
    && Get(v, "criterionId") == Some(VStr(id))
    && Get(v, "status") == Some(VStr("NOT_TESTED"))
    && Get(v, "confidence") == Some(VNum(0.0))
    && Get(v, "reasoning") == Some(VStr("Unable to verify: " + error))
    && Get(v, "relatedIssueIds") == Some(VArr([]))
  }

  lemma NotTestedMembers(id: string, error: string)
    ensures NotTestedFor(NotTestedValue(id, error), id, error)
  {
    hide Get, VerificationValue;
    assert StringArray([]) == VArr([]);
    VerificationMembers(Verification(id, NotTested, 0, "Unable to verify: " + error, Some([])));
  }

  lemma FailureIsReported(job: Job, fs: Files, b: nat, env: BatchEnv, error: string)
    requires b < |job.batches| && env.thrown.None? && CachedVerifications(job, fs, b, env).None?
    requires Request(job, b, env) == Err(error)
    ensures Reports(SingleBatch(job, fs, b, env), b, job.batches[b], error)
  {
    hide CachedVerifications, Request, StoreOps, NotTestedValue, NotTestedFor;
    forall i | 0 <= i < |job.batches[b]| ensures NotTestedFor(NotTestedValue(job.batches[b][i].id, error), job.batches[b][i].id, error) {
      NotTestedMembers(job.batches[b][i].id, error);
    }
  }

  /** Why a request with these invocations comes to nothing, and what is then reported. */
  ghost function ReasonFor(launch: nat -> Launch, ends: seq<nat>, f: nat, timeout: nat): Option<string>
    requires ends != []
  {
    match launch(ends[|ends| - 1])
    case Threw(_) => Some("Rate limit retries exhausted after " + Digits(3) + " attempts")
    case Failed(_, message) =>
      if RateLimited(launch(ends[|ends| - 1])) then Some("Rate limit retries exhausted after " + Digits(3) + " attempts")
      else if TimesOut(launch(ends[|ends| - 1])) then Some("Timeout after " + Digits(timeout) + "ms")
      else Some(message)
    case Succeeded(output) =>
      if output == "" then Some("Unknown error during AI invocation") else
        match ParseBatchVerificationOutput(output)
        case Err(NotAnObject) => Some(Unparsed(0, "Invalid batch verification output: Expected an object"))
        case Err(MissingArray) => Some(Unparsed(0, "Invalid batch verification output: Missing or invalid criteriaVerifications array"))
        case _ => if NothingIn(output) then SecondReason(launch(f)) else None
  }

  function SecondReason(l: Launch): Option<string> {
    match l
    case Threw(message) => Some("JSON parse retry invocation failed: " + message)
    case Failed(_, message) => Some("JSON parse retry failed: " + message)
    case Succeeded(output) =>
      if output == "" then Some("JSON parse retry failed: " + "No output") else
        match ParseBatchVerificationOutput(output)
        case Err(NoJsonFound) => Some(Unparsed(1, "Failed to extract JSON from AI output: No valid JSON found"))
        case Err(NotAnObject) => Some(Unparsed(1, "Invalid batch verification output: Expected an object"))
        case Err(MissingArray) => Some(Unparsed(1, "Invalid batch verification output: Missing or invalid criteriaVerifications array"))
        case Ok(vs) => if vs == [] then Some(Unparsed(1, "No valid verifications parsed from output")) else None
  }

  function Unparsed(retries: nat, why: string): string {
    "Failed to parse AI response after " + Digits(retries) + " retry(s): " + why
  }

  /** A batch that misses the cache is reported as not tested if and only if there is a reason in what the
      launches came to, or in the prompt; and then with that reason. */
  lemma FailuresAreReported(job: Job, fs: Files, b: nat, env: BatchEnv, ends: seq<nat>, f: nat)
    requires b < |job.batches| && env.thrown.None? && CachedVerifications(job, fs, b, env).None?
    requires Complete(env.launch, 3, 3, ends) && EndsAt(env.launch, ends[|ends| - 1] + 1, 3, f)
    ensures var t := SingleBatch(job, fs, b, env);
      var reason := if env.prompt.Err? then Some("Prompt generation failed: " + env.prompt.error) else ReasonFor(env.launch, ends, f, job.timeout);
      if reason.Some? then Reports(t, b, job.batches[b], reason.value) else t.result.Ok? && t.result.value.errors == [] && t.events != []
  {
    hide CachedVerifications, Complete, EndsAt, AskInForce, Request, ReasonFor, Reports, SingleBatch, FailureText;
    RequestIs(job, b, env);
    EventsIff(job, fs, b, env);
    if env.prompt.Ok? { ReasonIs(env.launch, ends, f, job.timeout); }
    var request := Request(job, b, env);
    if request.Err? { FailureIsReported(job, fs, b, env, request.error); }
  }

  lemma ReasonIs(launch: nat -> Launch, ends: seq<nat>, f: nat, timeout: nat)
    requires Complete(launch, 3, 3, ends) && EndsAt(launch, ends[|ends| - 1] + 1, 3, f)
    ensures var asked := AskInForce(ReadReply, launch).result;
      ReasonFor(launch, ends, f, timeout) == if asked.Err? then Some(FailureText(asked.error, timeout)) else None
  {
    hide AskInForce, Retried, EndsAt, ReasonFor, FailureText;
    var l := launch(ends[|ends| - 1]);
    if l.Succeeded? && l.output != "" { ReasonInReply(launch, ends, f, timeout); } else { ReasonInLaunch(launch, ends, f, timeout); }
  }

  lemma ReasonInLaunch(launch: nat -> Launch, ends: seq<nat>, f: nat, timeout: nat)
    requires Complete(launch, 3, 3, ends) && EndsAt(launch, ends[|ends| - 1] + 1, 3, f)
    requires var l := launch(ends[|ends| - 1]); !l.Succeeded? || l.output == ""
    ensures var asked := AskInForce(ReadReply, launch).result;
      asked.Err? && ReasonFor(launch, ends, f, timeout) == Some(FailureText(asked.error, timeout))
  {
    hide AskInForce, Retried, RetriedAfter, EndsAt, Slept, TotalSlept, RateLimited, TimesOut, ReadReply, SecondOutcome, Digits;
    AskIs(ReadReply, launch, ends, f);
  }

  lemma ReasonInReply(launch: nat -> Launch, ends: seq<nat>, f: nat, timeout: nat)
    requires Complete(launch, 3, 3, ends) && EndsAt(launch, ends[|ends| - 1] + 1, 3, f)
    requires var l := launch(ends[|ends| - 1]); l.Succeeded? && l.output != ""
    ensures var asked := AskInForce(ReadReply, launch).result;
      ReasonFor(launch, ends, f, timeout) == if asked.Err? then Some(FailureText(asked.error, timeout)) else None
  {
    hide AskInForce, Retried, RetriedAfter, EndsAt, Slept, TotalSlept, RateLimited, TimesOut, ParseBatchVerificationOutput, SecondOutcome, SecondReason, FailureText, Unparsed;
    AskIs(ReadReply, launch, ends, f);
    SecondReasonIs(launch(f), timeout);
    UnparsedText(0, BadReply(NotAnObject), timeout);
    UnparsedText(0, BadReply(MissingArray), timeout);
  }

  lemma UnparsedText(n: nat, e: ReplyError, timeout: nat)
    ensures FailureText(Unparseable(n, e), timeout) == Unparsed(n, ReplyErrorText(e))
  {
    hide ReplyErrorText, Digits;
  }

  lemma SecondReasonIs(l: Launch, timeout: nat)
    ensures var o := SecondOutcome(ReadReply, l); SecondReason(l) == if o.Err? then Some(FailureText(o.error, timeout)) else None
  {
    hide ParseBatchVerificationOutput, Digits;
  }

  // ---- The cache before the checkpoint --------------------------------------------------------

  /** No operation touches the file. */
  ghost predicate Spares(ops: seq<FileOp>, path: string) {
    forall i :: 0 <= i < |ops| ==> SparesFile(ops[i], path)
  }

  predicate SparesFile(op: FileOp, path: string) {
    match op
    case WriteFile(p, _) => p != path
    case Rename(src, dst) => src != path && dst != path
    case Unlink(p) => p != path
  }

  lemma {:induction false} SparedAfter(fs: Files, ops: seq<FileOp>, path: string)
    requires Spares(ops, path) && path in fs
    ensures var fs' := ApplyAll(fs, ops); path in fs' && fs'[path] == fs[path]
    decreases |ops|
  {
    if ops != [] {
      assert SparesFile(ops[0], path);
      SparedAfter(Apply(fs, ops[0]), ops[1..], path);
    }
  }

  lemma MarkSpares(fs: Files, scanId: string, b: nat, vs: seq<Value>, tokens: nat, fault: bool, env: SaveEnv, path: string)
    requires AllPrintable(vs) && InEntries(path)
    ensures Spares(MarkOps(fs, scanId, b, vs, tokens, fault, env), path)
  {
    hide LoadCheckpoint, AtomicSave, CheckpointText, Marked, InEntries, CheckpointPath, TempOf;
    var loaded := LoadCheckpoint(fs, scanId, fault);
    if loaded.Some? {
      MarkedMeans(loaded.value, b, vs, tokens);
      var m := Marked(loaded.value, b, vs, tokens);
      PathsApart(m.scanId, path);
      SaveShape(CheckpointPath(m.scanId), CheckpointText(m, env.now), env);
    }
  }

  /** Wherever a crash cuts the storing of a reply: if the checkpoint no longer reads as before, the reply
      is a cache hit already. */
  lemma CachedBeforeRecorded(job: Job, w: World, b: nat, env: BatchEnv, k: nat, later: BatchEnv)
    requires b < |job.batches| && env.cacheWrite == Written
    requires k <= |SingleBatch(job, w.files, b, env).events|
    requires !later.readFault && later.now <= env.storedAt + job.ttlDays * DAY_MS
    ensures var t := SingleBatch(job, w.files, b, env);
      var cut := After(w, t.events[..k]).files;
      || LoadCheckpoint(cut, job.scanId, false) == LoadCheckpoint(w.files, job.scanId, false)
      || (t.result.Ok? && CachedVerifications(job, cut, b, later) == Some(t.result.value.verifications))
  {
    hide CachedVerifications, Request, StoreOps, LoadCheckpoint, After, VerificationsOf, TokensOfReply, Accepted, Ios;
    var t := SingleBatch(job, w.files, b, env);
    NothingAfter(w);
    if k == 0 {
      assert t.events[..0] == [];
    } else {
      var r := Request(job, b, env).value;
      var ops := StoreOps(job, w.files, r, env);
      IosFront(ops, k - 1);
      assert t.events[..k] == [Hear(r)] + Ios(ops[..k - 1]);
      FilesAfterStore(w, r, ops[..k - 1]);
      StoreIsOrdered(job, w.files, r, env, k - 1, b, later);
    }
  }

  lemma NothingAfter(w: World)
    ensures After(w, []) == w
  {}

  lemma IosFront(ops: seq<FileOp>, n: nat)
    ensures |Ios(ops)| == |ops|
    ensures n <= |ops| ==> Ios(ops)[..n] == Ios(ops[..n])
  {}

  lemma StoreIsOrdered(job: Job, fs: Files, r: Reply, env: BatchEnv, n: nat, b: nat, later: BatchEnv)
    requires Accepted(r) && KeyOfReply(r) == KeyOf(job, b) && env.cacheWrite == Written
    requires n <= |StoreOps(job, fs, r, env)|
    requires !later.readFault && later.now <= env.storedAt + job.ttlDays * DAY_MS
    ensures var cut := ApplyAll(fs, StoreOps(job, fs, r, env)[..n]);
      || LoadCheckpoint(cut, job.scanId, false) == LoadCheckpoint(fs, job.scanId, false)
      || CachedVerifications(job, cut, b, later) == Some(VerificationsOf(r))
  {
    hide LoadCheckpoint, MarkOps, VerificationsOf, TokensOfReply, Accepted, EntryPath, ApplyAll, CachedVerifications, InEntries, EntryText, CacheOps;
    var o := OriginOf(job, r, env);
    var path, text := EntryPath(KeyOf(job, b)), EntryText(o);
    var ops, cached := StoreOps(job, fs, r, env), CacheOps(job, r, env);
    EntryTextIs(job, r, env);
    assert cached == [WriteFile(path, text)];
    if n == 0 {
      assert ops[..0] == [];
      ApplyNothing(fs);
    } else {
      var fs1 := ApplyAll(fs, cached);
      var marked := MarkOps(fs1, job.scanId, r.batch, VerificationsOf(r), TokensOfReply(r), env.loadFault, env.save);
      assert ops[..n] == cached + marked[..n - 1];
      ApplyAllAppend(fs, cached, marked[..n - 1]);
      ApplyOne(fs, WriteFile(path, text));
      MarkSpares(fs1, job.scanId, r.batch, VerificationsOf(r), TokensOfReply(r), env.loadFault, env.save, path);
      SparedAfter(fs1, marked[..n - 1], path);
      StoredIsHit(job, ApplyAll(fs, ops[..n]), b, o, later);
    }
  }

  // ---- The session ----------------------------------------------------------------------------

  ghost predicate HasResult(rs: seq<BatchResult>, b: nat) {
    exists i :: 0 <= i < |rs| && rs[i].batchNumber == b + 1
  }

  /** A session returns if and only if there is nothing to do, or its checkpoint could be read or saved and
      be taken away at the end; then a batch has a result if and only if the checkpoint that was read, if
      any, does not have it, and no batch has two. */
  lemma SessionReturnsIff(job: Job, fs: Files, env: SessionEnv)
    ensures var t := Session(job, fs, env);
      var found := LoadCheckpoint(fs, job.scanId, env.readFault);
      && (t.result.Some? <==>
            job.batches == [] || (!env.unlinkFault && (found.Some? || (env.init.temp == Written && !env.init.renameFault))))
      && (t.result.Some? ==>
            var rs := t.result.value;
            && (forall b: nat :: HasResult(rs, b) <==> b < |job.batches| && !(found.Some? && b in found.value.completedBatches))
            && forall i, j :: 0 <= i < j < |rs| ==> rs[i].batchNumber < rs[j].batchNumber)
  {
    hide LoadCheckpoint, RunBatches, ApplyAll, Ios, SaveOps, Numbers, Incomplete;
    if job.batches == [] {
      assert |job.batches| == 0 && Session(job, fs, env).result.value == [];
    } else if Session(job, fs, env).result.Some? {
      var skip := Skipped(job, fs, env);
      NoneIncomplete(skip);
      var begun := ApplyAll(fs, OpeningOps(job, fs, env));
      ResultsAreIncomplete(job, begun, env.batch, skip, 0);
      IncompleteMeans(|job.batches|, skip);
      var rs, left := RunBatches(job, begun, env.batch, skip, 0).result, Incomplete(|job.batches|, skip);
      NumbersAre(rs, left);
      var found := LoadCheckpoint(fs, job.scanId, env.readFault);
      assert Session(job, fs, env).result.value == rs;
      forall b: nat ensures HasResult(rs, b) <==> b < |job.batches| && !(found.Some? && b in found.value.completedBatches) {
        assert b in left <==> b < |job.batches| && b !in skip;
        assert b in skip <==> found.Some? && b in found.value.completedBatches;
      }
    }
  }

  /** The batches of a session hold exactly the criteria of its level, by rank, each as often as it is
      configured, all batches but the last full. */
  lemma EveryCriterionIsBatched(p: CriteriaBatchProcessor, scanId: string, url: string, contentHash: ContentHash, wcagLevel: Level, x: Criterion)
    requires p.batchSize > 0
    ensures var job := p.JobOf(scanId, url, contentHash, wcagLevel);
      && job.scanId == scanId && job.url == url && job.contentHash == contentHash && job.wcagLevel == wcagLevel
      && job.ttlDays == p.cache.ttlDays && job.timeout == p.timeout
      && multiset(Flatten(job.batches))[x] == (if |LevelText(x.level)| <= |LevelText(wcagLevel)| then multiset(p.allCriteria)[x] else 0)
      && (forall i :: 0 <= i < |job.batches| ==> 0 < |job.batches[i]| <= p.batchSize)
      && (forall i :: 0 <= i < |job.batches| - 1 ==> |job.batches[i]| == p.batchSize)
  {
    hide CriteriaForLevel, Chunks, Flatten;
    MembersByRank(p.allCriteria, wcagLevel, x);
    ChunksPartition(CriteriaForLevel(p.allCriteria, wcagLevel), p.batchSize);
  }
}

/** What a session of the batch processor returns, and where it comes from. */
module Coverage {
  import opened Wrappers
  import opened Sequences
  import opened Disk
  import opened JsonValue
  import opened ResultParser
  import opened Retry
  import opened Cache
  import opened Checkpoint
  import opened BatchProcessor
  import opened CrashSafety
  import opened Runs

  // ---- Exactly once ---------------------------------------------------------------------------

  /** The batches of a list of results, counted from 0. */
  function Numbers(rs: seq<BatchResult>): seq<int> {
    seq(|rs|, i requires 0 <= i < |rs| => rs[i].batchNumber - 1)
  }

  lemma ResultNumber(job: Job, fs: Files, b: nat, env: BatchEnv)
    requires b < |job.batches|
    ensures ResultOf(b, SingleBatch(job, fs, b, env).result).batchNumber == b + 1
  {
    hide CachedVerifications, Request, StoreOps;
  }

  lemma NumbersCons(r: BatchResult, rs: seq<BatchResult>)
    ensures Numbers([r] + rs) == [r.batchNumber - 1] + Numbers(rs)
  {}

  /** Each batch that is not skipped has one result, in ascending order. */
  lemma {:induction false} ResultsAreIncomplete(job: Job, fs: Files, batch: nat -> BatchEnv, skip: seq<nat>, b: nat)
    requires b <= |job.batches|
    ensures Incomplete(b, skip) + Numbers(RunBatches(job, fs, batch, skip, b).result) == Incomplete(|job.batches|, skip)
    decreases |job.batches| - b
  {
    hide SingleBatch, ApplyAll, Ops, Numbers, Incomplete;
    if b == |job.batches| {
      assert Numbers([]) == [] by { NoNumbers(); }
      assert Incomplete(b, skip) + [] == Incomplete(b, skip);
    } else if b in skip {
      IncompleteNext(b, skip);
      assert Incomplete(b, skip) + [] == Incomplete(b, skip);
      ResultsAreIncomplete(job, fs, batch, skip, b + 1);
    } else {
      var t := SingleBatch(job, fs, b, batch(b));
      var rest := RunBatches(job, ApplyAll(fs, Ops(t.events)), batch, skip, b + 1);
      ResultNumber(job, fs, b, batch(b));
      ResultsAreIncomplete(job, ApplyAll(fs, Ops(t.events)), batch, skip, b + 1);
      NumbersCons(ResultOf(b, t.result), rest.result);
      IncompleteNext(b, skip);
      assert Incomplete(b, skip) + ([b] + Numbers(rest.result)) == Incomplete(b, skip) + [b] + Numbers(rest.result);
    }
  }

  lemma NoNumbers()
    ensures Numbers([]) == []
  {}

  lemma IncompleteNext(b: nat, skip: seq<nat>)
    ensures Incomplete(b + 1, skip) == Incomplete(b, skip) + if b in skip then [] else [b]
  {}

  lemma {:induction false} IncompleteCount(total: nat, completed: seq<nat>)
    requires forall i, j :: 0 <= i < j < |completed| ==> completed[i] < completed[j]
    requires forall i :: 0 <= i < |completed| ==> completed[i] < total
    ensures |Incomplete(total, completed)| + |completed| == total
  {
    hide Incomplete;
    if total == 0 {
      NoneIncomplete(completed);
    } else {
      IncompleteNext(total - 1, completed);
      if total - 1 in completed {
        var n := |completed| - 1;
        LargestIsLast(completed, total - 1);
        IncompleteSame(total - 1, completed[..n], completed);
        IncompleteCount(total - 1, completed[..n]);
      } else {
        IncompleteCount(total - 1, completed);
      }
    }
  }

  lemma NoneIncomplete(completed: seq<nat>)
    ensures Incomplete(0, completed) == []
  {}

  lemma LargestIsLast(s: seq<nat>, m: nat)
    requires forall i, j :: 0 <= i < j < |s| ==> s[i] < s[j]
    requires m in s && forall x :: x in s ==> x <= m
    ensures s[|s| - 1] == m && forall x :: x in s[..|s| - 1] <==> x in s && x < m
  {
    var n := |s| - 1;
    var i :| 0 <= i <= n && s[i] == m;
    assert s[n] in s;
    assert i == n;
    forall x | x in s && x < m ensures x in s[..n] {
      var j :| 0 <= j <= n && s[j] == x;
      assert s[..n][j] == x;
    }
  }

  lemma {:induction false} IncompleteSame(total: nat, a: seq<nat>, b: seq<nat>)
    requires forall x: nat :: x < total ==> (x in a <==> x in b)
    ensures Incomplete(total, a) == Incomplete(total, b)
  {
    if total > 0 { IncompleteSame(total - 1, a, b); }
  }

  /** A session that returns accounts for each batch exactly once: skipped because the checkpoint it
      found has it, or present in the results; and the checkpoint is gone. */
  lemma EveryBatchOnce(v: View, job: Job, w: World, env: SessionEnv)
    requires WorldOk(v, w) && Fits(v, job)
    requires Session(job, w.files, env).result.Some? && job.batches != []
    ensures var t := Session(job, w.files, env);
      var skipped, rs := Skipped(job, w.files, env), t.result.value;
      && (forall b: nat :: b < |job.batches| ==> (b in skipped) != (exists i :: 0 <= i < |rs| && rs[i].batchNumber == b + 1))
      && (forall i, j :: 0 <= i < j < |rs| ==> rs[i].batchNumber < rs[j].batchNumber)
      && (forall i :: 0 <= i < |rs| ==> 1 <= rs[i].batchNumber <= |job.batches|)
      && |skipped| + |rs| == |job.batches|
      && CheckpointPath(job.scanId) !in After(w, t.events).files
  {
    hide WorldOk, Fits, RunBatches, OpeningOps, LoadCheckpoint, ApplyAll, Opens, CheckpointPath, Numbers, Incomplete, Skipped, Ios, After;
    var t, skipped := Session(job, w.files, env), Skipped(job, w.files, env);
    var fs := ApplyAll(w.files, OpeningOps(job, w.files, env));
    var run := RunBatches(job, fs, env.batch, skipped, 0);
    ResultsAreIncomplete(job, fs, env.batch, skipped, 0);
    NoneIncomplete(skipped);
    var rs := run.result;
    IncompleteMeans(|job.batches|, skipped);
    NumbersAre(rs, Incomplete(|job.batches|, skipped));
    SkippedOk(v, job, w, env);
    IncompleteCount(|job.batches|, skipped);
    AfterUnlink(w, Ios(OpeningOps(job, w.files, env)) + run.events, CheckpointPath(job.scanId));
  }

  lemma NumbersAre(rs: seq<BatchResult>, bs: seq<nat>)
    requires [] + Numbers(rs) == bs
    requires forall i, j :: 0 <= i < j < |bs| ==> bs[i] < bs[j]
    ensures |rs| == |bs| && forall i :: 0 <= i < |rs| ==> rs[i].batchNumber == bs[i] + 1
    ensures forall b: nat :: b in bs <==> exists i :: 0 <= i < |rs| && rs[i].batchNumber == b + 1
    ensures forall i :: 0 <= i < |rs| ==> bs[i] in bs
  {
    assert [] + Numbers(rs) == Numbers(rs);
    forall i | 0 <= i < |rs| ensures rs[i].batchNumber == bs[i] + 1 { assert Numbers(rs)[i] == bs[i]; }
  }

  lemma SkippedOk(v: View, job: Job, w: World, env: SessionEnv)
    requires WorldOk(v, w) && Fits(v, job)
    ensures var s := Skipped(job, w.files, env);
      && (forall i, j :: 0 <= i < j < |s| ==> s[i] < s[j])
      && (forall i :: 0 <= i < |s| ==> s[i] < |job.batches|)
  {
    hide WorldOk, LoadCheckpoint, CheckpointIs;
    if LoadCheckpoint(w.files, job.scanId, env.readFault).Some? {
      SkippedRecorded(v, job, w, env.readFault);
    }
  }

  lemma SkippedRecorded(v: View, job: Job, w: World, fault: bool)
    requires WorldOk(v, w) && Fits(v, job) && LoadCheckpoint(w.files, job.scanId, fault).Some?
    ensures var s := LoadCheckpoint(w.files, job.scanId, fault).value.completedBatches;
      && (forall i, j :: 0 <= i < j < |s| ==> s[i] < s[j])
      && (forall i :: 0 <= i < |s| ==> s[i] < |job.batches|)
  {
    hide WorldOk, LoadCheckpoint, Recorded, Stringify, CheckpointValue;
    var book := LoadedIsRecorded(v, job.scanId, w, fault);
    var total := v.totals(job.scanId);
    RecordedMeans(job.scanId, total, w.heard, book);
    RecordedHeader(job.scanId, total, book);
    var s := Recorded(job.scanId, total, book).completedBatches;
    forall i | 0 <= i < |s| ensures s[i] < |job.batches| { assert s[i] in s; }
  }

  lemma AfterUnlink(w: World, events: seq<Event>, path: string)
    ensures path !in After(w, events + [Io(Unlink(path))]).files
  {
    hide After;
    AfterAppend(w, events, [Io(Unlink(path))]);
    AfterOne(After(w, events), Io(Unlink(path)));
  }

  // ---- Failures -------------------------------------------------------------------------------

  /** A batch that fails, in whatever way, leaves nothing behind; if it fails before an unexpected
      exception, each of its criteria is reported once, in order, as NOT_TESTED. */
  lemma FailuresLeaveNoTrace(job: Job, fs: Files, b: nat, env: BatchEnv)
    requires b < |job.batches|
    ensures var t := SingleBatch(job, fs, b, env);
      && (t.result.Err? || t.result.value.errors != [] ==> t.events == [])
      && (t.result.Ok? && t.result.value.errors != [] ==>
            var vs := t.result.value.verifications;
            && |vs| == |job.batches[b]| && t.result.value.tokensUsed == 0
            && (forall i :: 0 <= i < |vs| ==>
                  && Get(vs[i], "criterionId") == Some(VStr(job.batches[b][i].id))
                  && StatusOf(Get(vs[i], "status")) == Some(NotTested)))
  {
    hide CachedVerifications, StoreOps, Get, VerificationValue, VerificationsOf;
    var t := SingleBatch(job, fs, b, env);
    if t.result.Ok? && t.result.value.errors != [] {
      var error := Request(job, b, env).error;
      forall i | 0 <= i < |job.batches[b]|
        ensures var v := NotTestedValue(job.batches[b][i].id, error);
          Get(v, "criterionId") == Some(VStr(job.batches[b][i].id)) && StatusOf(Get(v, "status")) == Some(NotTested)
      {
        VerificationMembers(Verification(job.batches[b][i].id, NotTested, 0, "Unable to verify: " + error, Some([])));
      }
    }
  }

  /** Only an accepted reply, for this scan, page, level and batch, changes anything outside the session:
      it is heard, stored and returned, and nothing else is done. */
  lemma OnlyRepliesAreStored(job: Job, fs: Files, b: nat, env: BatchEnv)
    requires b < |job.batches| && SingleBatch(job, fs, b, env).events != []
    ensures var t := SingleBatch(job, fs, b, env);
      && t.events[0].Hear?
      && var r := t.events[0].reply;
      && Accepted(r) && r.scanId == job.scanId && KeyOfReply(r) == KeyOf(job, b)
      && t.events == [Hear(r)] + Ios(StoreOps(job, fs, r, env))
      && t.result == Result.Ok(BatchResult(b + 1, |VerificationsOf(r)|, VerificationsOf(r), TokensOfReply(r), []))
      && exists i: nat :: env.launch(i) == Succeeded(r.output)
  {
    hide CachedVerifications, StoreOps, VerificationsOf, TokensOfReply, Accepted, Ios;
  }

  // ---- Successes ------------------------------------------------------------------------------

  lemma FilesAfterStore(w: World, r: Reply, ops: seq<FileOp>)
    ensures After(w, [Hear(r)] + Ios(ops)).files == ApplyAll(w.files, ops)
  {
    hide ApplyAll, Ops, Ios, After;
    AfterFiles(w, [Hear(r)] + Ios(ops));
    OpsOfStore(r, ops);
  }

  lemma MarkedMeans(c: CriteriaCheckpoint, b: nat, vs: seq<Value>, tokens: nat)
    ensures var m := Marked(c, b, vs, tokens);
      && m.scanId == c.scanId && m.url == c.url
      && m.partialVerifications == c.partialVerifications + vs && m.tokensUsed == c.tokensUsed + tokens
      && forall x: nat :: x in m.completedBatches <==> x in c.completedBatches || x == b
  {
    var s := c.completedBatches + [b];
    forall x: nat ensures x in Sort(Ascending(), s) <==> x in s {
      assert x in Sort(Ascending(), s) <==> x in multiset(Sort(Ascending(), s));
      assert x in s <==> x in multiset(s);
    }
  }

  /** A mark that can read and save: the checkpoint that loads afterwards has the batch, its
      verifications and its tokens on top of what it had. */
  lemma MarkIsRemembered(fs: Files, scanId: string, b: nat, vs: seq<Value>, tokens: nat, env: SaveEnv)
    requires AllPrintable(vs) && LoadCheckpoint(fs, scanId, false).Some? && Succeeds(env)
    requires var c := LoadCheckpoint(fs, scanId, false).value; c.scanId == scanId && scanId != "" && c.url != ""
    ensures var c := LoadCheckpoint(fs, scanId, false).value;
      LoadCheckpoint(ApplyAll(fs, MarkOps(fs, scanId, b, vs, tokens, false, env)), scanId, false)
        == Some(Marked(c, b, vs, tokens).(updatedAt := env.now))
  {
    hide ReadCheckpoint, CheckpointPath, AtomicSave, ApplyAll, CheckpointValue, Stringify, Marked;
    var m := Marked(LoadCheckpoint(fs, scanId, false).value, b, vs, tokens);
    MarkedMeans(LoadCheckpoint(fs, scanId, false).value, b, vs, tokens);
    SaveApplied(fs, CheckpointPath(scanId), CheckpointText(m, env.now), env);
    CheckpointRoundTrip(m.(updatedAt := env.now));
  }

  /** A reply that is accepted while the checkpoint can be read and saved is in the checkpoint: no later
      session that loads it asks for that batch again. */
  lemma SuccessIsRecorded(v: View, job: Job, w: World, b: nat, env: BatchEnv)
    requires WorldOk(v, w) && b < |job.batches| && SingleBatch(job, w.files, b, env).events != []
    requires LoadCheckpoint(w.files, job.scanId, false).Some? && !env.loadFault && Succeeds(env.save)
    ensures var t := SingleBatch(job, w.files, b, env);
      var before := LoadCheckpoint(w.files, job.scanId, false).value;
      var after := LoadCheckpoint(After(w, t.events).files, job.scanId, false);
      && after.Some? && t.result.Ok?
      && (forall x: nat :: x in after.value.completedBatches <==> x in before.completedBatches || x == b)
      && after.value.partialVerifications == before.partialVerifications + t.result.value.verifications
      && after.value.tokensUsed == before.tokensUsed + t.result.value.tokensUsed
  {
    hide WorldOk, LoadCheckpoint, CachedVerifications, Request, CacheOps, MarkOps, VerificationsOf, TokensOfReply, ApplyAll, Accepted, Ios, After, Marked, Recorded;
    var r := Request(job, b, env).value;
    var fs := ApplyAll(w.files, CacheOps(job, r, env));
    CacheSparesCheckpoints(job, w.files, r, env, job.scanId, false);
    LoadedId(v, job.scanId, w);
    MarkIsRemembered(fs, job.scanId, b, VerificationsOf(r), TokensOfReply(r), env.save);
    MarkedMeans(LoadCheckpoint(w.files, job.scanId, false).value, b, VerificationsOf(r), TokensOfReply(r));
    FilesAfterStore(w, r, StoreOps(job, w.files, r, env));
    ApplyAllAppend(w.files, CacheOps(job, r, env), MarkOps(fs, job.scanId, b, VerificationsOf(r), TokensOfReply(r), env.loadFault, env.save));
  }

  lemma LoadedId(v: View, id: string, w: World)
    requires WorldOk(v, w) && LoadCheckpoint(w.files, id, false).Some?
    ensures var c := LoadCheckpoint(w.files, id, false).value; c.scanId == id && id != "" && c.url != ""
  {
    hide WorldOk, LoadCheckpoint, Recorded, Stringify, CheckpointValue;
    var book := LoadedIsRecorded(v, id, w, false);
    RecordedHeader(id, v.totals(id), book);
  }

  /** Marking leaves the cache alone. */
  lemma MarkSparesCache(fs: Files, scanId: string, b: nat, vs: seq<Value>, tokens: nat, fault: bool, env: SaveEnv, path: string)
    requires AllPrintable(vs) && InEntries(path) && path in fs
    ensures var fs' := ApplyAll(fs, MarkOps(fs, scanId, b, vs, tokens, fault, env)); path in fs' && fs'[path] == fs[path]
  {
    hide LoadCheckpoint, AtomicSave, ApplyAll, CheckpointText, Marked, InEntries, CheckpointPath, TempOf;
    ApplyNothing(fs);
    var loaded := LoadCheckpoint(fs, scanId, fault);
    if loaded.Some? {
      MarkedMeans(loaded.value, b, vs, tokens);
      var m := Marked(loaded.value, b, vs, tokens);
      PathsApart(m.scanId, path);
      SaveApplied(fs, CheckpointPath(m.scanId), CheckpointText(m, env.now), env);
    }
  }

  /** A reply that is accepted and cached is a hit until it expires: for that page, level and batch in
      any scan, whatever became of the checkpoint. */
  lemma SuccessIsCached(job: Job, w: World, b: nat, env: BatchEnv, later: Job, laterEnv: BatchEnv)
    requires b < |job.batches| && SingleBatch(job, w.files, b, env).events != []
    requires env.cacheWrite == Written && !laterEnv.readFault
    requires later.contentHash == job.contentHash && later.wcagLevel == job.wcagLevel
    ensures var t := SingleBatch(job, w.files, b, env);
      t.result.Ok? && CachedVerifications(later, After(w, t.events).files, b, laterEnv)
        == if laterEnv.now <= env.storedAt + job.ttlDays * DAY_MS then Some(t.result.value.verifications) else None
  {
    hide Request, MarkOps, VerificationsOf, TokensOfReply, Accepted, Ios, After, EntryPath, ReadContent, ApplyAll, CachedVerifications, InEntries, EntryText, CacheOps;
    var r := Request(job, b, env).value;
    var o := OriginOf(job, r, env);
    var path := EntryPath(KeyOf(job, b));
    var fs := ApplyAll(w.files, CacheOps(job, r, env));
    EntryTextIs(job, r, env);
    WriteApplied(w.files, path, EntryText(o));
    MarkSparesCache(fs, job.scanId, b, VerificationsOf(r), TokensOfReply(r), env.loadFault, env.save, path);
    FilesAfterStore(w, r, StoreOps(job, w.files, r, env));
    ApplyAllAppend(w.files, CacheOps(job, r, env), MarkOps(fs, job.scanId, b, VerificationsOf(r), TokensOfReply(r), env.loadFault, env.save));
    StoredIsHit(later, After(w, SingleBatch(job, w.files, b, env).events).files, b, o, laterEnv);
  }

  lemma StoredIsHit(job: Job, fs: Files, b: nat, o: Origin, later: BatchEnv)
    requires Accepted(o.reply) && KeyOfReply(o.reply) == KeyOf(job, b)
    requires EntryPath(KeyOf(job, b)) in fs && fs[EntryPath(KeyOf(job, b))] == EntryText(o)
    requires !later.readFault
    ensures CachedVerifications(job, fs, b, later) == if later.now <= o.expiry then Some(VerificationsOf(o.reply)) else None
  {
    hide Stringify, EntryValue, ReadContent, VerificationsOf, TokensOfReply, Get, Accepted, EntryPath;
    StoredReads(KeyOfReply(o.reply), VerificationsOf(o.reply), TokensOfReply(o.reply), o.now, o.expiry);
    EntryMembers(KeyOfReply(o.reply), VerificationsOf(o.reply), TokensOfReply(o.reply), o.now, o.expiry);
  }

  // ---- Results come from replies --------------------------------------------------------------

  /** The verifications of a result without errors are those of a reply heard, in whatever scan, for this
      page, this level and this batch. */
  ghost predicate FromReply(job: Job, heard: seq<Reply>, r: BatchResult) {
    r.errors == [] ==>
      exists reply :: reply in heard && Accepted(reply)
        && reply.contentHash == job.contentHash && reply.wcagLevel == job.wcagLevel && reply.batch + 1 == r.batchNumber
        && r.verifications == VerificationsOf(reply)
  }

  /** A cache hit gives the verifications of a reply heard for that page, level and batch. */
  lemma CacheHitIsHeard(v: View, job: Job, w: World, b: nat, env: BatchEnv)
    requires WorldOk(v, w) && CachedVerifications(job, w.files, b, env).Some?
    ensures exists r :: (r in w.heard && Accepted(r) && KeyOfReply(r) == KeyOf(job, b)
      && CachedVerifications(job, w.files, b, env) == Some(VerificationsOf(r)))
  {
    hide EntryPath, EntryText, ReadContent, CheckpointIs, CheckpointPath, InEntries;
    var path := EntryPath(KeyOf(job, b));
    assert path in w.files && InEntries(path);
    var o :| EntryIs(v, w.heard, path, w.files[path], o);
    EntryPathInjective(KeyOfReply(o.reply), KeyOf(job, b));
    EntryReads(o);
  }

  lemma EntryReads(o: Origin)
    requires Accepted(o.reply) && o.outcome != Refused
    ensures var reading := ReadContent(Arrived(EntryText(o), o.outcome).value);
      reading.Unreadable? || (reading.Dated? && Get(reading.entry, "verifications") == Some(VArr(VerificationsOf(o.reply))))
  {
    hide Stringify, EntryValue, ReadContent, VerificationsOf, TokensOfReply, Get, Accepted;
    var v := EntryValue(KeyOfReply(o.reply), VerificationsOf(o.reply), TokensOfReply(o.reply), o.now, o.expiry);
    assert EntryText(o) == Stringify(v);
    StoredReads(KeyOfReply(o.reply), VerificationsOf(o.reply), TokensOfReply(o.reply), o.now, o.expiry);
    EntryMembers(KeyOfReply(o.reply), VerificationsOf(o.reply), TokensOfReply(o.reply), o.now, o.expiry);
    if o.outcome.Partial? && o.outcome.n < |Stringify(v)| { TornReads(v, o.outcome.n, o.outcome.cut); }
  }

  /** So on every disk of a run `has` says whether `get` would hit. */
  lemma HasAgreesOnDisk(v: View, w: World, key: CacheKey, now: nat, fault: bool)
    requires WorldOk(v, w)
    ensures CacheHas(w.files, key, now, fault) <==> CacheGet(w.files, key, now, fault).Some?
  {
    hide EntryPath, EntryText, ReadContent, CheckpointIs, CheckpointPath, InEntries;
    var path := EntryPath(key);
    assert InEntries(path);
    HasAgreesIff(w.files, key, now, fault);
    if path in w.files {
      var o :| EntryIs(v, w.heard, path, w.files[path], o);
      EntryReads(o);
    }
  }

  lemma SingleIsFromReply(v: View, job: Job, w: World, b: nat, env: BatchEnv)
    requires WorldOk(v, w) && b < |job.batches|
    ensures var t := SingleBatch(job, w.files, b, env); FromReply(job, After(w, t.events).heard, ResultOf(b, t.result))
  {
    hide WorldOk, StoreOps, CachedVerifications, Accepted, VerificationsOf, TokensOfReply, Request;
    var t := SingleBatch(job, w.files, b, env);
    if CachedVerifications(job, w.files, b, env).Some? {
      CacheHitIsHeard(v, job, w, b, env);
    } else if t.events != [] {
      var r := Request(job, b, env).value;
      HeardAfterHear(w, r, StoreOps(job, w.files, r, env));
    }
  }

  lemma HeardAfterHear(w: World, r: Reply, ops: seq<FileOp>)
    ensures After(w, [Hear(r)] + Ios(ops)).heard == w.heard + [r]
  {
    hide After, Ios;
    AfterAppend(w, [Hear(r)], Ios(ops));
    AfterOne(w, Hear(r));
    AfterIos(Step(w, Hear(r)), ops);
  }

  lemma {:induction false} HeardGrows(w: World, events: seq<Event>)
    ensures w.heard <= After(w, events).heard
    decreases |events|
  {
    if events != [] {
      HeardGrows(Step(w, events[0]), events[1..]);
      assert w.heard <= Step(w, events[0]).heard;
    }
  }

  ghost predicate AllFromReplies(job: Job, heard: seq<Reply>, rs: seq<BatchResult>) {
    forall i :: 0 <= i < |rs| ==> FromReply(job, heard, rs[i])
  }

  lemma FromReplyGrows(job: Job, a: seq<Reply>, b: seq<Reply>, rs: seq<BatchResult>)
    requires AllFromReplies(job, a, rs) && a <= b
    ensures AllFromReplies(job, b, rs)
  {
    hide Accepted, VerificationsOf;
    forall i | 0 <= i < |rs| ensures FromReply(job, b, rs[i]) {
      assert FromReply(job, a, rs[i]);
    }
  }

  lemma {:induction false} RunIsFromReplies(v: View, job: Job, w: World, batch: nat -> BatchEnv, skip: seq<nat>, b: nat)
    requires WorldOk(v, w) && Fits(v, job) && b <= |job.batches| && NotYet(job.scanId, w.files, skip, b)
    ensures var t := RunBatches(job, w.files, batch, skip, b); AllFromReplies(job, After(w, t.events).heard, t.result)
    decreases |job.batches| - b
  {
    hide WorldOk, Fits, SingleBatch, LoadCheckpoint, Ops, ApplyAll, After, FromReply, Safe;
    if b == |job.batches| {
    } else if b in skip {
      RunIsFromReplies(v, job, w, batch, skip, b + 1);
    } else {
      var t := SingleBatch(job, w.files, b, batch(b));
      var w' := After(w, t.events);
      SingleIsSafe(v, job, w, b, batch(b), skip);
      SafeMeans(v, w, t.events);
      AfterFiles(w, t.events);
      var rest := RunBatches(job, w'.files, batch, skip, b + 1);
      RunIsFromReplies(v, job, w', batch, skip, b + 1);
      AfterAppend(w, t.events, rest.events);
      SingleIsFromReply(v, job, w, b, batch(b));
      HeardGrows(w', rest.events);
      FromReplyGrows(job, w'.heard, After(w', rest.events).heard, [ResultOf(b, t.result)]);
      assert RunBatches(job, w.files, batch, skip, b) == Trace([ResultOf(b, t.result)] + rest.result, t.events + rest.events);
    }
  }

  /** After every run of sessions of any scans, each result without an error holds the verifications of
      a reply that was heard, then or earlier, for this very page, level and batch. */
  lemma ResultsAreHeard(totals: string -> nat, episodes: seq<Episode>, job: Job, env: SessionEnv)
    requires AllFit(Any(totals), episodes) && Fits(Any(totals), job)
    ensures var w := Run(EMPTY, episodes);
      var t := Session(job, w.files, env);
      t.result.Some? ==> AllFromReplies(job, After(w, t.events).heard, t.result.value)
  {
    hide WorldOk, Fits, AllFit, Run, RunBatches, OpeningOps, ApplyAll, After, Opens, Skipped, Safe, FromReply, CheckpointPath, NotYet;
    var w, v := Run(EMPTY, episodes), Any(totals);
    NothingIsSafe(v);
    EveryRunIsSafe(totals, EMPTY, episodes);
    var t := Session(job, w.files, env);
    if t.result.Some? && job.batches != [] {
      var opening := OpeningOps(job, w.files, env);
      OpeningIsSafe(v, job, w, env);
      SafeMeans(v, w, Ios(opening));
      AfterIos(w, opening);
      var w1 := After(w, Ios(opening));
      var run := RunBatches(job, w1.files, env.batch, Skipped(job, w.files, env), 0);
      RunIsFromReplies(v, job, w1, env.batch, Skipped(job, w.files, env), 0);
      var last := [Io(Unlink(CheckpointPath(job.scanId)))];
      AfterAppend(w, Ios(opening), run.events);
      AfterAppend(w, Ios(opening) + run.events, last);
      HeardGrows(After(w1, run.events), last);
      FromReplyGrows(job, After(w1, run.events).heard, After(w, t.events).heard, run.result);
    }
  }

  // ---- Replies come from the model ------------------------------------------------------------

  /** The reply is the output of a launch, in a session of its scan, for its page, level and batch. */
  ghost predicate Launched(episodes: seq<Episode>, r: Reply) {
    Accepted(r) && exists e :: e in episodes && e.Scan? && LaunchedIn(e.job, e.env.batch, r)
  }

  ghost predicate LaunchedIn(job: Job, batch: nat -> BatchEnv, r: Reply) {
    r.scanId == job.scanId && KeyOfReply(r) == KeyOf(job, r.batch) && exists i: nat :: batch(r.batch).launch(i) == Succeeded(r.output)
  }

  ghost predicate FromModel(job: Job, batch: nat -> BatchEnv, events: seq<Event>) {
    forall k :: 0 <= k < |events| && events[k].Hear? ==> Accepted(events[k].reply) && LaunchedIn(job, batch, events[k].reply)
  }

  lemma FromModelAppend(job: Job, batch: nat -> BatchEnv, a: seq<Event>, b: seq<Event>)
    requires FromModel(job, batch, a) && FromModel(job, batch, b)
    ensures FromModel(job, batch, a + b)
  {
    hide Accepted, LaunchedIn;
  }

  lemma SingleFromModel(job: Job, fs: Files, b: nat, batch: nat -> BatchEnv)
    requires b < |job.batches|
    ensures FromModel(job, batch, SingleBatch(job, fs, b, batch(b)).events)
  {
    hide CachedVerifications, Request, StoreOps, Accepted;
  }

  lemma {:induction false} RunFromModel(job: Job, fs: Files, batch: nat -> BatchEnv, skip: seq<nat>, b: nat)
    requires b <= |job.batches|
    ensures FromModel(job, batch, RunBatches(job, fs, batch, skip, b).events)
    decreases |job.batches| - b
  {
    hide SingleBatch, ApplyAll, Ops, FromModel;
    IosFromModel(job, batch, []);
    IosOfNone();
    if b == |job.batches| {
    } else if b in skip {
      RunFromModel(job, fs, batch, skip, b + 1);
    } else {
      var t := SingleBatch(job, fs, b, batch(b));
      SingleFromModel(job, fs, b, batch);
      RunFromModel(job, ApplyAll(fs, Ops(t.events)), batch, skip, b + 1);
      FromModelAppend(job, batch, t.events, RunBatches(job, ApplyAll(fs, Ops(t.events)), batch, skip, b + 1).events);
    }
  }

  lemma IosFromModel(job: Job, batch: nat -> BatchEnv, ops: seq<FileOp>)
    ensures FromModel(job, batch, Ios(ops))
  {
    hide Accepted, LaunchedIn;
  }

  lemma SessionFromModel(job: Job, fs: Files, env: SessionEnv)
    ensures FromModel(job, env.batch, Session(job, fs, env).events)
  {
    hide FromModel, RunBatches, OpeningOps, Opens, Skipped, ApplyAll, Ios;
    IosFromModel(job, env.batch, []);
    IosOfNone();
    var opening := OpeningOps(job, fs, env);
    IosFromModel(job, env.batch, opening);
    if job.batches != [] {
      var run := RunBatches(job, ApplyAll(fs, opening), env.batch, Skipped(job, fs, env), 0);
      RunFromModel(job, ApplyAll(fs, opening), env.batch, Skipped(job, fs, env), 0);
      FromModelAppend(job, env.batch, Ios(opening), run.events);
      var last := [Unlink(CheckpointPath(job.scanId))];
      IosFromModel(job, env.batch, last);
      IosOfOne(Unlink(CheckpointPath(job.scanId)));
      FromModelAppend(job, env.batch, Ios(opening) + run.events, Ios(last));
    }
  }

  lemma {:induction false} HeardAfter(w: World, events: seq<Event>, r: Reply)
    ensures r in After(w, events).heard ==> r in w.heard || exists k :: 0 <= k < |events| && events[k] == Hear(r)
    decreases |events|
  {
    if events != [] {
      hide Apply;
      HeardAfter(Step(w, events[0]), events[1..], r);
      if k :| 0 <= k < |events[1..]| && events[1..][k] == Hear(r) { assert events[k + 1] == Hear(r); }
      if r in Step(w, events[0]).heard && r !in w.heard { assert events[0] == Hear(r); }
    }
  }

  lemma PlayHears(w: World, e: Episode, r: Reply)
    requires r in Play(w, e).heard && r !in w.heard
    ensures e.Scan? && Accepted(r) && LaunchedIn(e.job, e.env.batch, r)
  {
    hide Session, After, Accepted, LaunchedIn, CleanOps;
    var events := EventsOf(w.files, e);
    if e.Scan? { SessionFromModel(e.job, w.files, e.env); }
    HeardAfter(w, events, r);
    if e.crash.Some? && e.crash.value.at < |events| { HeardAfter(w, events[..e.crash.value.at], r); }
  }

  /** What was heard in a run, and so whatever is cached, checkpointed or returned, the model said, in
      answer to a request for that very scan, page, level and batch. */
  lemma {:induction false} HeardFromModel(episodes: seq<Episode>)
    ensures forall r :: r in Run(EMPTY, episodes).heard ==> Launched(episodes, r)
  {
    if episodes != [] {
      hide Play, Accepted, LaunchedIn;
      var n := |episodes| - 1;
      HeardFromModel(episodes[..n]);
      forall r | r in Run(EMPTY, episodes).heard ensures Launched(episodes, r) {
        if r in Run(EMPTY, episodes[..n]).heard {
          assert Launched(episodes[..n], r);
          var e :| e in episodes[..n] && e.Scan? && LaunchedIn(e.job, e.env.batch, r);
          assert e in episodes;
        } else {
          PlayHears(Run(EMPTY, episodes[..n]), episodes[n], r);
          assert episodes[n] in episodes;
        }
      }
    }
  }
}

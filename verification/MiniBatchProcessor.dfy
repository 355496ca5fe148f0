/** The processor that runs all batches and records the scans that succeed. */
module MiniBatchProcessor {
  import opened Wrappers
  import opened Sequences
  import opened Disk
  import opened ScanCheckpoint
  import opened BatchOrganizer
  import opened MiniBatches

  lemma {:induction false} PerformAllAppend(s: Session, a: seq<Act>, b: seq<Act>)
    ensures PerformAll(s, a + b) == PerformAll(PerformAll(s, a), b)
    decreases |b|
  {
    hide Perform;
    if b == [] {
      assert a + b == a;
    } else {
      assert (a + b)[..|a + b| - 1] == a + b[..|b| - 1];
      PerformAllAppend(s, a, b[..|b| - 1]);
    }
  }

  lemma PerformNothing(s: Session)
    ensures PerformAll(s, []) == s
  {}

  lemma PerformTwo(s: Session, a: Act, b: Act)
    ensures PerformAll(s, [a, b]) == Perform(Perform(s, a), b)
  {
    hide Perform;
    assert [a, b][..1] == [a] && [a][..0] == [];
    assert PerformAll(s, [a]) == Perform(PerformAll(s, []), a);
  }

  /** One round of the loop over the mini-batches, as the specification sees it. */
  lemma MiniStep(minis: seq<MiniBatch>, env: nat -> MiniEnv, retries: nat, keeping: Keeping, i: nat, results: seq<MiniBatchResult>, s: Session)
    requires i < |minis| && env(i).thrown.None?
    ensures var r := MiniOutcome(minis[i], env(i), retries);
      var acts, error := ActsFor(r, env(i), keeping), FlushError(r, env(i), keeping);
      var p := RunMinis(minis, env, retries, keeping, i);
      if error.Some? then p == Progression([r], error, acts)
      else
        var rest := RunMinis(minis, env, retries, keeping, i + 1);
        && p.thrown == rest.thrown
        && results + p.processed == results + [r] + rest.processed
        && PerformAll(s, p.acts) == PerformAll(PerformAll(s, acts), rest.acts)
  {
    hide PerformAll, MiniOutcome, ActsFor, FlushError;
    var r := MiniOutcome(minis[i], env(i), retries);
    var rest := RunMinis(minis, env, retries, keeping, i + 1);
    PerformAllAppend(s, ActsFor(r, env(i), keeping), rest.acts);
    assert results + ([r] + rest.processed) == results + [r] + rest.processed;
  }

  lemma BatchStep(batches: seq<Batch>, env: nat -> nat -> MiniEnv, retries: nat, keeping: Keeping, b: nat, results: seq<MiniBatchResult>, s: Session)
    requires b < |batches|
    ensures var p := RunMinis(batches[b].miniBatches, env(b), retries, keeping, 0);
      var total := RunAll(batches, env, retries, keeping, b);
      if p.thrown.Some? then total == p
      else
        var rest := RunAll(batches, env, retries, keeping, b + 1);
        && total.thrown == rest.thrown
        && results + total.processed == results + p.processed + rest.processed
        && PerformAll(s, total.acts) == PerformAll(PerformAll(s, p.acts), rest.acts)
  {
    hide PerformAll, RunMinis;
    var p, rest := RunMinis(batches[b].miniBatches, env(b), retries, keeping, 0), RunAll(batches, env, retries, keeping, b + 1);
    PerformAllAppend(s, p.acts, rest.acts);
    assert results + (p.processed + rest.processed) == results + p.processed + rest.processed;
  }

  /** What the caller sees of a run. */
  function ResultOf(p: Progression): Result<seq<MiniBatchResult>, Exception> {
    if p.thrown.Some? then Err(p.thrown.value) else Result.Ok(p.processed)
  }

  class MiniBatchProcessor {
    const retries: nat
    const checkpointManager: CheckpointManager?

    constructor (retries: nat, checkpointManager: CheckpointManager?)
      ensures this.retries == retries && this.checkpointManager == checkpointManager
    {
      this.retries, this.checkpointManager := retries, checkpointManager;
    }

    ghost function Footprint(): set<object> {
      if checkpointManager == null then {} else {checkpointManager, checkpointManager.fs}
    }

    ghost function Keeps(): Keeping
      reads Footprint()
    {
      if checkpointManager == null then NoManager else if checkpointManager.checkpoint.None? then Unloaded else Loaded
    }

    ghost function State(): Session
      reads Footprint()
    {
      if checkpointManager == null then Session(map[], Memory(None, []))
      else Session(checkpointManager.fs.files, checkpointManager.Mem())
    }

    /** Marks what succeeded and flushes; Some: the flush threw. */
    method Record(r: MiniBatchResult, env: MiniEnv) returns (error: Option<Exception>)
      modifies Footprint()
      ensures error == FlushError(r, env, old(Keeps()))
      ensures State() == PerformAll(old(State()), ActsFor(r, env, old(Keeps())))
      ensures Keeps() == old(Keeps())
    {
      hide ApplyAll, AtomicSave, ResultIds, ProgressText;
      PerformNothing(State());
      if checkpointManager == null || |r.results| == 0 { return None; }
      PerformTwo(State(), Mark(ResultIds(r.results)), Flush(env.save));
      IdsNonEmpty(r.results);
      checkpointManager.MarkProcessed(ResultIds(r.results));
      var flushed := checkpointManager.Flush(env.save);
      match flushed {
        case NoCheckpoint => error := Some(NoCheckpointLoaded);
        case SaveFailed => error := Some(env.saveError);
        case _ => error := None;
      }
    }

    /** Err: an exception. */
    method ProcessBatchInternal(batch: Batch, env: nat -> MiniEnv) returns (r: Result<seq<MiniBatchResult>, Exception>)
      modifies Footprint()
      ensures var p := RunMinis(batch.miniBatches, env, retries, old(Keeps()), 0);
        r == ResultOf(p) && State() == PerformAll(old(State()), p.acts) && Keeps() == old(Keeps())
    {
      hide MiniOutcome, PerformAll, RunMinis, ActsFor, FlushError, MiniBatchProcessor.Keeps, MiniBatchProcessor.State;
      var results: seq<MiniBatchResult> := [];
      ghost var keeping := Keeps();
      ghost var p := RunMinis(batch.miniBatches, env, retries, keeping, 0);
      for i := 0 to |batch.miniBatches|
        invariant Keeps() == keeping
        invariant var rest := RunMinis(batch.miniBatches, env, retries, keeping, i);
          && p.thrown == rest.thrown
          && p.processed == results + rest.processed
          && PerformAll(State(), rest.acts) == PerformAll(old(State()), p.acts)
      {
        var result := ProcessMiniBatch(batch.miniBatches[i], env(i), retries);
        if result.Err? {
          MiniThrows(batch.miniBatches, env, retries, keeping, i, State());
          return Err(result.error);
        }
        MiniStep(batch.miniBatches, env, retries, keeping, i, results, State());
        results := results + [result.value];
        var error := Record(result.value, env(i));
        if error.Some? { return Err(error.value); }
      }
      MinisDone(batch.miniBatches, env, retries, keeping, State());
      assert results + [] == results;
      r := Result.Ok(results);
    }

    method ProcessAllBatches(batches: seq<Batch>, env: RunEnv) returns (r: Result<seq<MiniBatchResult>, Exception>)
      modifies Footprint()
      ensures var p := Process(batches, env, retries, old(Keeps()));
        r == ResultOf(p) && State() == PerformAll(old(State()), p.acts) && Keeps() == old(Keeps())
    {
      hide PerformAll, RunMinis, RunAll, MiniBatchProcessor.Keeps, MiniBatchProcessor.State;
      PerformNothing(State());
      if env.initThrown.Some? { return Err(env.initThrown.value); }
      r := ProcessEach(batches, env.mini);
      if env.closeThrown.Some? { return Err(env.closeThrown.value); }
    }

    /** The loop inside `try`. */
    method ProcessEach(batches: seq<Batch>, env: nat -> nat -> MiniEnv) returns (r: Result<seq<MiniBatchResult>, Exception>)
      modifies Footprint()
      ensures var p := RunAll(batches, env, retries, old(Keeps()), 0);
        r == ResultOf(p) && State() == PerformAll(old(State()), p.acts) && Keeps() == old(Keeps())
    {
      hide PerformAll, RunMinis, RunAll, MiniBatchProcessor.Keeps, MiniBatchProcessor.State;
      var allResults: seq<MiniBatchResult> := [];
      ghost var keeping := Keeps();
      ghost var p := RunAll(batches, env, retries, keeping, 0);
      for b := 0 to |batches|
        invariant Keeps() == keeping
        invariant var rest := RunAll(batches, env, retries, keeping, b);
          && p.thrown == rest.thrown
          && p.processed == allResults + rest.processed
          && PerformAll(State(), rest.acts) == PerformAll(old(State()), p.acts)
      {
        BatchStep(batches, env, retries, keeping, b, allResults, State());
        var batchResults := ProcessBatchInternal(batches[b], env(b));
        if batchResults.Err? { return Err(batchResults.error); }
        allResults := allResults + batchResults.value;
      }
      BatchesDone(batches, env, retries, keeping, State());
      assert allResults + [] == allResults;
      r := Result.Ok(allResults);
    }
  }

  lemma IdsNonEmpty(rs: seq<ScanResult>)
    requires rs != []
    ensures ResultIds(rs) != []
  {
    assert |ResultIds(rs)| == |rs|;
  }

  lemma MiniThrows(minis: seq<MiniBatch>, env: nat -> MiniEnv, retries: nat, keeping: Keeping, i: nat, s: Session)
    requires i < |minis| && env(i).thrown.Some?
    ensures var p := RunMinis(minis, env, retries, keeping, i); p.thrown == env(i).thrown && PerformAll(s, p.acts) == s
  {}

  lemma MinisDone(minis: seq<MiniBatch>, env: nat -> MiniEnv, retries: nat, keeping: Keeping, s: Session)
    ensures var rest := RunMinis(minis, env, retries, keeping, |minis|);
      rest == Progression([], None, []) && PerformAll(s, rest.acts) == s
  {}

  lemma BatchesDone(batches: seq<Batch>, env: nat -> nat -> MiniEnv, retries: nat, keeping: Keeping, s: Session)
    ensures var rest := RunAll(batches, env, retries, keeping, |batches|);
      rest == Progression([], None, []) && PerformAll(s, rest.acts) == s
  {}

  // ---- What a run has recorded ----------------------------------------------------------------

  /** Every mark is followed by a flush that succeeds. */
  ghost predicate AllSaved(acts: seq<Act>) {
    acts != [] ==>
      var n := |acts| - 2;
      n >= 0 && acts[n].Mark? && acts[n + 1].Flush? && Succeeds(acts[n + 1].env) && AllSaved(acts[..n])
  }

  lemma {:induction false} AllSavedAppend(a: seq<Act>, b: seq<Act>)
    requires AllSaved(a) && AllSaved(b)
    ensures AllSaved(a + b)
    decreases |b|
  {
    hide Succeeds;
    if b == [] {
      assert a + b == a;
    } else {
      var n := |b| - 2;
      AllSavedAppend(a, b[..n]);
      assert (a + b)[..|a| + n] == a + b[..n];
    }
  }

  lemma {:induction false} MarkedAppend(a: seq<Act>, b: seq<Act>)
    ensures Marked(a + b) == Marked(a) + Marked(b)
    decreases |b|
  {
    hide SetOf;
    if b == [] {
      assert a + b == a;
    } else {
      assert (a + b)[..|a + b| - 1] == a + b[..|b| - 1];
      MarkedAppend(a, b[..|b| - 1]);
    }
  }

  lemma ActsForMeans(r: MiniBatchResult, env: MiniEnv)
    ensures Marked(ActsFor(r, env, Loaded)) == SetOf(ResultIds(r.results))
    ensures FlushError(r, env, Loaded).None? ==> AllSaved(ActsFor(r, env, Loaded))
  {
    hide ResultIds, SetOf;
    var acts := ActsFor(r, env, Loaded);
    if r.results == [] {
      NoResultIds();
    } else {
      assert acts[..1] == [Mark(ResultIds(r.results))] && acts[..1][..0] == [];
      assert Marked(acts[..1]) == SetOf(ResultIds(r.results));
    }
  }

  lemma NoResultIds()
    ensures SetOf(ResultIds([])) == {}
  {}

  lemma SetOfIds(a: seq<ScanResult>, b: seq<ScanResult>)
    ensures SetOf(ResultIds(a + b)) == SetOf(ResultIds(a)) + SetOf(ResultIds(b))
  {
    hide SetOf, ResultIds;
    ResultIdsAppend(a, b);
    SetOfAppend(ResultIds(a), ResultIds(b));
  }

  /** The ids marked are those of the results, however the run ends. */
  lemma {:induction false} MinisRecord(minis: seq<MiniBatch>, env: nat -> MiniEnv, retries: nat, i: nat)
    requires i <= |minis|
    ensures var p := RunMinis(minis, env, retries, Loaded, i);
      Marked(p.acts) == SetOf(ResultIds(Results(p.processed))) && (p.thrown.None? ==> AllSaved(p.acts))
    decreases |minis| - i
  {
    hide MiniOutcome, ActsFor, FlushError, AllSaved, Marked, SetOf, ResultIds;
    NothingSaved();
    if i < |minis| && env(i).thrown.None? {
      var r := MiniOutcome(minis[i], env(i), retries);
      ActsForMeans(r, env(i));
      if FlushError(r, env(i), Loaded).Some? {
        OneResult(r);
      } else {
        MinisRecord(minis, env, retries, i + 1);
        var rest := RunMinis(minis, env, retries, Loaded, i + 1);
        if rest.thrown.None? { AllSavedAppend(ActsFor(r, env(i), Loaded), rest.acts); }
        MarkedAppend(ActsFor(r, env(i), Loaded), rest.acts);
        SetOfIds(r.results, Results(rest.processed));
        assert ([r] + rest.processed)[1..] == rest.processed;
      }
    }
  }

  lemma OneResult(r: MiniBatchResult)
    ensures Results([r]) == r.results
  {
    assert [r][1..] == [];
    assert Results([r]) == r.results + Results([]);
  }

  lemma NothingSaved()
    ensures AllSaved([]) && Marked([]) == SetOf(ResultIds(Results([])))
  {
    NoResultIds();
  }

  lemma {:induction false} BatchesRecord(batches: seq<Batch>, env: nat -> nat -> MiniEnv, retries: nat, b: nat)
    requires b <= |batches|
    ensures var p := RunAll(batches, env, retries, Loaded, b);
      Marked(p.acts) == SetOf(ResultIds(Results(p.processed))) && (p.thrown.None? ==> AllSaved(p.acts))
    decreases |batches| - b
  {
    hide RunMinis, AllSaved, Marked, SetOf, ResultIds, Results;
    NothingSaved();
    if b < |batches| {
      var p := RunMinis(batches[b].miniBatches, env(b), retries, Loaded, 0);
      MinisRecord(batches[b].miniBatches, env(b), retries, 0);
      if p.thrown.None? {
        BatchesRecord(batches, env, retries, b + 1);
        var rest := RunAll(batches, env, retries, Loaded, b + 1);
        if rest.thrown.None? { AllSavedAppend(p.acts, rest.acts); }
        MarkedAppend(p.acts, rest.acts);
        ResultsAppend(p.processed, rest.processed);
        SetOfIds(Results(p.processed), Results(rest.processed));
      }
    }
  }

  lemma RunRecords(batches: seq<Batch>, env: RunEnv, retries: nat)
    ensures var p := Process(batches, env, retries, Loaded);
      Marked(p.acts) == SetOf(ResultIds(Results(p.processed))) && (p.thrown.None? ==> AllSaved(p.acts))
  {
    hide RunAll, AllSaved, Marked, SetOf, ResultIds, Results;
    NothingSaved();
    BatchesRecord(batches, env.mini, retries, 0);
  }

  lemma {:induction false} NothingPends(s: Session, acts: seq<Act>)
    requires AllSaved(acts) && s.mem.checkpoint.Some? && s.mem.pendingIds == []
    ensures PerformAll(s, acts).mem.checkpoint.Some? && PerformAll(s, acts).mem.pendingIds == []
    decreases |acts|
  {
    PerformNothing(s);
    hide PerformAll, Perform, Succeeds;
    if acts != [] {
      var n := |acts| - 2;
      assert acts == acts[..n] + [acts[n], acts[n + 1]];
      NothingPends(s, acts[..n]);
      PerformAllAppend(s, acts[..n], [acts[n], acts[n + 1]]);
      PerformTwo(PerformAll(s, acts[..n]), acts[n], acts[n + 1]);
      PairLeavesNothing(PerformAll(s, acts[..n]), acts[n].ids, acts[n + 1].env);
    }
  }

  lemma PairLeavesNothing(s: Session, ids: seq<string>, save: SaveEnv)
    requires s.mem.checkpoint.Some? && Succeeds(save)
    ensures var m := Perform(Perform(s, Mark(ids)), Flush(save)).mem; m.checkpoint.Some? && m.pendingIds == []
  {
    hide ApplyAll, AtomicSave, ProgressText;
  }

  /** A resumed run that completes leaves on disk the ids that were there and those of its results:
      only scans that succeeded, and all of them. */
  lemma SuccessesAreRecorded(fs: Files, batches: seq<Batch>, env: RunEnv, retries: nat)
    requires Load(fs, false).Some?
    ensures var p := Process(batches, env, retries, Loaded);
      p.thrown.None? ==> OnDisk(PerformAll(Resume(fs), p.acts).files) == OnDisk(fs) + SetOf(ResultIds(Results(p.processed)))
  {
    hide Process, AllSaved, Marked, SetOf, ResultIds, Results, Load, PerformAll;
    var p := Process(batches, env, retries, Loaded);
    RunRecords(batches, env, retries);
    if p.thrown.None? {
      NothingPends(Resume(fs), p.acts);
      SessionTracks(fs, p.acts);
      PendingFree(PerformAll(Resume(fs), p.acts), OnDisk(fs), Marked(p.acts));
    }
  }

  // ---- Runs that are cut short ----------------------------------------------------------------

  /** The number of acts that record a mini-batch. */
  function ActCount(r: MiniBatchResult): nat {
    if r.results == [] then 0 else 2
  }

  function ActCounts(rs: seq<MiniBatchResult>): nat {
    if rs == [] then 0 else ActCounts(rs[..|rs| - 1]) + ActCount(rs[|rs| - 1])
  }

  /** The acts record the mini-batches one after the other, each by a mark of its results and a flush. */
  ghost predicate Records(acts: seq<Act>, rs: seq<MiniBatchResult>)
    decreases |rs|
  {
    |acts| == ActCounts(rs) && (rs != [] ==>
      var last := rs[|rs| - 1];
      var n := |acts| - ActCount(last);
      && n >= 0 && Records(acts[..n], rs[..|rs| - 1])
      && (last.results != [] ==> acts[n] == Mark(ResultIds(last.results)) && acts[n + 1].Flush?))
  }

  lemma RecordsLast(acts: seq<Act>, rs: seq<MiniBatchResult>, last: MiniBatchResult, tail: seq<Act>)
    requires Records(acts, rs) && |tail| == ActCount(last)
    requires last.results != [] ==> tail[0] == Mark(ResultIds(last.results)) && tail[1].Flush?
    ensures Records(acts + tail, rs + [last])
  {
    hide ResultIds;
    assert (rs + [last])[..|rs|] == rs && (acts + tail)[..|acts|] == acts;
  }

  lemma RecordsFront(acts: seq<Act>, rs: seq<MiniBatchResult>)
    requires Records(acts, rs) && rs != []
    ensures var last := rs[|rs| - 1];
      var n := |acts| - ActCount(last);
      && n >= 0 && Records(acts[..n], rs[..|rs| - 1])
      && |acts[n..]| == ActCount(last)
      && (last.results != [] ==> acts[n..][0] == Mark(ResultIds(last.results)) && acts[n..][1].Flush?)
  {
    hide ResultIds;
  }

  lemma {:induction false} RecordsAppend(a: seq<Act>, rs: seq<MiniBatchResult>, b: seq<Act>, qs: seq<MiniBatchResult>)
    requires Records(a, rs) && Records(b, qs)
    ensures Records(a + b, rs + qs)
    decreases |qs|
  {
    hide ResultIds, Records, ActCount, ActCounts;
    if qs == [] {
      NoActs(b);
      assert a + b == a && rs + qs == rs;
    } else {
      var m := |qs| - 1;
      var n := |b| - ActCount(qs[m]);
      RecordsFront(b, qs);
      RecordsAppend(a, rs, b[..n], qs[..m]);
      RecordsLast(a + b[..n], rs + qs[..m], qs[m], b[n..]);
      CutLast(rs, qs, m);
      CutLast(a, b, n);
      assert qs[m..] == [qs[m]];
    }
  }

  lemma NoActs(acts: seq<Act>)
    requires Records(acts, [])
    ensures acts == []
  {}

  lemma CutLast<T>(a: seq<T>, b: seq<T>, n: nat)
    requires n <= |b|
    ensures (a + b[..n]) + b[n..] == a + b
  {}

  lemma ActsRecord(r: MiniBatchResult, env: MiniEnv)
    ensures Records(ActsFor(r, env, Loaded), [r])
  {
    hide ResultIds;
    assert [r][..0] == [];
    var acts := ActsFor(r, env, Loaded);
    assert ActCounts([r]) == ActCounts([]) + ActCount(r);
    assert acts[..|acts| - ActCount(r)] == [];
  }

  lemma NothingRecorded()
    ensures Records([], [])
  {}

  lemma {:induction false} MinisRecorded(minis: seq<MiniBatch>, env: nat -> MiniEnv, retries: nat, i: nat)
    requires i <= |minis|
    ensures var p := RunMinis(minis, env, retries, Loaded, i); Records(p.acts, p.processed)
    decreases |minis| - i
  {
    hide MiniOutcome, ActsFor, FlushError, Records;
    NothingRecorded();
    if i < |minis| && env(i).thrown.None? {
      var r := MiniOutcome(minis[i], env(i), retries);
      ActsRecord(r, env(i));
      MinisRecorded(minis, env, retries, i + 1);
      var rest := RunMinis(minis, env, retries, Loaded, i + 1);
      RecordsAppend(ActsFor(r, env(i), Loaded), [r], rest.acts, rest.processed);
    }
  }

  lemma {:induction false} BatchesRecorded(batches: seq<Batch>, env: nat -> nat -> MiniEnv, retries: nat, b: nat)
    requires b <= |batches|
    ensures var p := RunAll(batches, env, retries, Loaded, b); Records(p.acts, p.processed)
    decreases |batches| - b
  {
    hide RunMinis, Records;
    NothingRecorded();
    if b < |batches| {
      var p := RunMinis(batches[b].miniBatches, env(b), retries, Loaded, 0);
      MinisRecorded(batches[b].miniBatches, env(b), retries, 0);
      BatchesRecorded(batches, env, retries, b + 1);
      var rest := RunAll(batches, env, retries, Loaded, b + 1);
      RecordsAppend(p.acts, p.processed, rest.acts, rest.processed);
    }
  }

  lemma RunIsRecorded(batches: seq<Batch>, env: RunEnv, retries: nat)
    ensures var p := Process(batches, env, retries, Loaded); Records(p.acts, p.processed)
  {
    hide RunAll, Records;
    NothingRecorded();
    BatchesRecorded(batches, env.mini, retries, 0);
  }

  /** The mini-batches whose recording had begun before act number `n`: the ones completed by then. */
  function Completed(rs: seq<MiniBatchResult>, n: nat): (m: nat)
    ensures m <= |rs|
  {
    if rs == [] || ActCounts(rs[..|rs| - 1]) < n then |rs| else Completed(rs[..|rs| - 1], n)
  }

  lemma {:induction false} MarkedAll(acts: seq<Act>, rs: seq<MiniBatchResult>)
    requires Records(acts, rs)
    ensures Marked(acts) == SetOf(ResultIds(Results(rs)))
    decreases |rs|
  {
    hide SetOf, ResultIds, Results, Marked;
    NothingSaved();
    if rs != [] {
      var m := |rs| - 1;
      var last := rs[m];
      var n := |acts| - ActCount(last);
      MarkedAll(acts[..n], rs[..m]);
      assert rs == rs[..m] + [last];
      ResultsAppend(rs[..m], [last]);
      OneResult(last);
      SetOfIds(Results(rs[..m]), last.results);
      if last.results == [] {
        assert acts[..n] == acts;
        assert Results(rs[..m]) + [] == Results(rs[..m]);
      } else {
        assert acts == acts[..n] + [acts[n], acts[n + 1]];
        MarkedAppend(acts[..n], [acts[n], acts[n + 1]]);
        MarkedPair(ResultIds(last.results), acts[n + 1]);
      }
    }
  }

  lemma MarkedPair(ids: seq<string>, flush: Act)
    requires flush.Flush?
    ensures Marked([Mark(ids), flush]) == SetOf(ids)
  {
    hide SetOf;
    assert [Mark(ids), flush][..1] == [Mark(ids)] && [Mark(ids)][..0] == [];
    assert Marked([Mark(ids)]) == SetOf(ids);
  }

  /** What is marked by the acts up to number `n` are ids of results of mini-batches completed by then. */
  lemma {:induction false} MarkedSoFar(acts: seq<Act>, rs: seq<MiniBatchResult>, n: nat)
    requires Records(acts, rs) && n <= |acts|
    ensures Marked(acts[..n]) <= SetOf(ResultIds(Results(rs[..Completed(rs, n)])))
    decreases |rs|
  {
    hide SetOf, ResultIds, Results, Marked;
    if rs == [] || ActCounts(rs[..|rs| - 1]) < n {
      assert rs[..|rs|] == rs;
      MarkedAll(acts, rs);
      MarkedGrows(acts, n);
    } else {
      var m := |rs| - 1;
      var k := |acts| - ActCount(rs[m]);
      MarkedSoFar(acts[..k], rs[..m], n);
      assert acts[..k][..n] == acts[..n];
      var c := Completed(rs[..m], n);
      assert rs[..m][..c] == rs[..c];
    }
  }

  /** However a resumed run ends, by an exception, a failed flush or a crash at or inside any file
      operation: what was on disk still is, and what is new are ids of successful results, of a run that
      crashes of mini-batches that were completed before. */
  lemma OnlySuccessesAreRecorded(fs: Files, batches: seq<Batch>, env: RunEnv, retries: nat, fs': Files)
    requires Load(fs, false).Some? && Outcome(fs, Process(batches, env, retries, Loaded).acts, fs')
    ensures var p := Process(batches, env, retries, Loaded);
      && Load(fs', false).Some? && OnDisk(fs) <= OnDisk(fs') <= OnDisk(fs) + SetOf(ResultIds(Results(p.processed)))
      && (fs' == PerformAll(Resume(fs), p.acts).files
          || exists n, k :: 0 <= n < |p.acts| && DiesIn(PerformAll(Resume(fs), p.acts[..n]), p.acts[n], k, fs')
               && OnDisk(fs') <= OnDisk(fs) + SetOf(ResultIds(Results(p.processed[..Completed(p.processed, n)]))))
  {
    hide Process, Marked, SetOf, ResultIds, Results, Load, PerformAll, OnDisk, DiesIn, Records, Completed;
    var p := Process(batches, env, retries, Loaded);
    RunIsRecorded(batches, env, retries);
    MarkedAll(p.acts, p.processed);
    SessionOnlyAdds(fs, p.acts, fs');
    if fs' != PerformAll(Resume(fs), p.acts).files {
      var n, k :| 0 <= n < |p.acts| && DiesIn(PerformAll(Resume(fs), p.acts[..n]), p.acts[n], k, fs');
      DeathOnlyAdds(fs, p.acts, n, k, fs');
      MarkedSoFar(p.acts, p.processed, n);
    }
  }

  // ---- Chains of resumed runs -----------------------------------------------------------------

  /** One start of the program with an input file, and all that happens to it. */
  datatype Start = Start(scans: seq<Scan>, batchSize: nat, miniBatchSize: int, env: RunEnv, retries: nat)

  /** It processes the scans whose ids the checkpoint does not have. */
  function LeftOf(fs: Files, s: Start): seq<Scan> {
    match Load(fs, false) case None => s.scans case Some(c) => Remaining(s.scans, c.processedScanIds)
  }

  function RunOf(fs: Files, s: Start): Progression
    requires s.batchSize > 0
  {
    Process(Organized(Chunks(LeftOf(fs, s), s.batchSize), Constrained(s.miniBatchSize)), s.env, s.retries, Loaded)
  }

  /** Each start resumes from what the one before left behind, however that ended. */
  ghost predicate Resumed(disks: seq<Files>, starts: seq<Start>) {
    && |disks| == |starts| + 1
    && forall i :: 0 <= i < |starts| ==> starts[i].batchSize > 0 && Outcome(disks[i], RunOf(disks[i], starts[i]).acts, disks[i + 1])
  }

  /** What a run comes to a result for was not recorded before it started. */
  lemma NothingIsRedone(fs: Files, s: Start)
    requires s.batchSize > 0 && Load(fs, false).Some?
    ensures forall id :: id in Accounted(RunOf(fs, s).processed) ==> id !in OnDisk(fs)
  {
    hide Process, Accounted, Organized, Chunks, Filter;
    var ids := Load(fs, false).value.processedScanIds;
    EveryScanIsAccountedFor(LeftOf(fs, s), s.batchSize, s.miniBatchSize, s.env, s.retries, Loaded);
    forall id | id in Accounted(RunOf(fs, s).processed) ensures id !in OnDisk(fs) {
      assert id in multiset(ScanIds(LeftOf(fs, s)));
      var i :| 0 <= i < |ScanIds(LeftOf(fs, s))| && ScanIds(LeftOf(fs, s))[i] == id;
      assert LeftOf(fs, s)[i] in LeftOf(fs, s);
      assert Unprocessed(ids)(LeftOf(fs, s)[i]);
    }
  }

  /** The ids of the results of some of the starts. */
  ghost predicate Succeeded(disks: seq<Files>, starts: seq<Start>, id: string)
    requires Resumed(disks, starts)
  {
    exists i :: 0 <= i < |starts| && id in SetOf(ResultIds(Results(RunOf(disks[i], starts[i]).processed)))
  }

  /** Over any number of starts, each cut short in any way, the ids on disk only grow, by ids of
      successful results only. */
  lemma {:induction false} ResumedOnlyAdds(disks: seq<Files>, starts: seq<Start>)
    requires Resumed(disks, starts) && Load(disks[0], false).Some?
    ensures Load(disks[|starts|], false).Some? && OnDisk(disks[0]) <= OnDisk(disks[|starts|])
    ensures forall id :: id in OnDisk(disks[|starts|]) ==> id in OnDisk(disks[0]) || Succeeded(disks, starts, id)
    decreases |starts|
  {
    hide Load, Outcome, OnDisk, RunOf, SetOf;
    if starts != [] {
      var n := |starts| - 1;
      ResumedOnlyAdds(disks[..n + 1], starts[..n]);
      RunOnlyAdds(disks[n], starts[n], disks[n + 1]);
      forall id | id in OnDisk(disks[n + 1]) ensures id in OnDisk(disks[0]) || Succeeded(disks, starts, id) {
        if id in OnDisk(disks[n]) && id !in OnDisk(disks[0]) {
          assert Succeeded(disks[..n + 1], starts[..n], id);
        }
      }
    }
  }

  lemma RunOnlyAdds(fs: Files, s: Start, fs': Files)
    requires s.batchSize > 0 && Load(fs, false).Some? && Outcome(fs, RunOf(fs, s).acts, fs')
    ensures Load(fs', false).Some? && OnDisk(fs) <= OnDisk(fs') <= OnDisk(fs) + SetOf(ResultIds(Results(RunOf(fs, s).processed)))
  {
    hide Process, SetOf, ResultIds, Results, Load, PerformAll, OnDisk, DiesIn, Outcome, Completed, Organized, Chunks;
    OnlySuccessesAreRecorded(fs, Organized(Chunks(LeftOf(fs, s), s.batchSize), Constrained(s.miniBatchSize)), s.env, s.retries, fs');
  }

  /** So a scan that one of the starts has recorded is never processed by a later one. */
  lemma RecordedIsDone(disks: seq<Files>, starts: seq<Start>, i: nat, j: nat, id: string)
    requires Resumed(disks, starts) && Load(disks[0], false).Some?
    requires i <= j < |starts| && id in OnDisk(disks[i])
    ensures id !in Accounted(RunOf(disks[j], starts[j]).processed)
  {
    hide Load, Outcome, OnDisk, RunOf, Accounted;
    ResumedOnlyAdds(disks[..i + 1], starts[..i]);
    assert disks[..i + 1][i] == disks[i];
    var later := disks[i..j + 1];
    assert |starts[i..j]| == j - i && later[0] == disks[i] && later[j - i] == disks[j];
    assert Resumed(later, starts[i..j]) by {
      forall k | 0 <= k < j - i ensures starts[i..j][k].batchSize > 0 && Outcome(later[k], RunOf(later[k], starts[i..j][k]).acts, later[k + 1]) {
        assert later[k] == disks[i + k] && later[k + 1] == disks[i + k + 1] && starts[i..j][k] == starts[i + k];
      }
    }
    ResumedOnlyAdds(later, starts[i..j]);
    NothingIsRedone(disks[j], starts[j]);
  }

  lemma PendingFree(s: Session, start: set<string>, marked: set<string>)
    requires Tracks(s, start, marked) && s.mem.pendingIds == []
    ensures OnDisk(s.files) == start + marked
  {}
}

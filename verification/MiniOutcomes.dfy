/** Which scans of a run succeed and which fail, told from the downloads and attempts alone. */
module MiniOutcomes {
  import opened Wrappers
  import opened Disk
  import opened Retry
  import opened ScanCheckpoint
  import opened BatchOrganizer
  import opened MiniBatches

  // ---- One site -------------------------------------------------------------------------------

  /** An attempt that brought at least one result. */
  predicate Yields(a: Attempt) {
    match a case Replied(parsed) => |parsed| > 0 case _ => false
  }

  /** The first of the attempts that yields is number `k`. */
  ghost predicate FirstYield(attempts: nat -> Attempt, retries: nat, k: nat) {
    k <= retries && Yields(attempts(k)) && forall j :: 0 <= j < k ==> !Yields(attempts(j))
  }

  ghost predicate FirstWithId(parsed: seq<ScanResult>, id: string, i: nat) {
    i < |parsed| && parsed[i].scanId == id && forall j :: 0 <= j < i ==> parsed[j].scanId != id
  }

  /** The first result with the site's id; if there is none, the first one of all, renamed. */
  ghost predicate TakenFrom(parsed: seq<ScanResult>, site: Scan, r: ScanResult) {
    || (exists i: nat :: FirstWithId(parsed, site.scanId, i) && r == parsed[i])
    || (|parsed| > 0 && (forall j :: 0 <= j < |parsed| ==> parsed[j].scanId != site.scanId)
        && r == ScanResult(site.scanId, site.url, parsed[0].body))
  }

  lemma {:induction false} FindIsFirst(parsed: seq<ScanResult>, id: string) returns (i: nat)
    requires Find(parsed, id).Some?
    ensures FirstWithId(parsed, id, i) && Find(parsed, id) == Some(parsed[i])
  {
    if parsed[0].scanId == id {
      i := 0;
    } else {
      var k := FindIsFirst(parsed[1..], id);
      i := k + 1;
      forall j | 0 <= j < i ensures parsed[j].scanId != id { if j > 0 { assert parsed[1..][j - 1] == parsed[j]; } }
    }
  }

  lemma PickIsTaken(parsed: seq<ScanResult>, site: Scan)
    requires parsed != []
    ensures Pick(parsed, site).Some? && TakenFrom(parsed, site, Pick(parsed, site).value)
  {
    if Find(parsed, site.scanId).Some? {
      var i := FindIsFirst(parsed, site.scanId);
    } else {
      forall j | 0 <= j < |parsed| ensures parsed[j].scanId != site.scanId { assert parsed[j] in parsed; }
    }
  }

  /** The result a site should have: taken from what its first yielding attempt gives. */
  ghost predicate ResultFor(site: Scan, attempts: nat -> Attempt, retries: nat, r: ScanResult) {
    exists k :: FirstYield(attempts, retries, k) && TakenFrom(attempts(k).parsed, site, r)
  }

  predicate NoneYields(attempts: nat -> Attempt, retries: nat) {
    forall k :: 0 <= k <= retries ==> !Yields(attempts(k))
  }

  /** A site comes to nothing if and only if none of its attempts yields, and otherwise to what the first
      yielding attempt gives. */
  lemma AnalyzeIff(site: Scan, attempts: nat -> Attempt, retries: nat)
    ensures var r := Analyze(site, attempts, 0, retries).result;
      && (r.None? <==> NoneYields(attempts, retries))
      && (r.Some? ==> ResultFor(site, attempts, retries, r.value))
  {
    hide Pick, Analyze, TakenFrom;
    AnalyzeMeans(site, attempts, 0, retries);
    var u := Analyze(site, attempts, 0, retries);
    if u.result.Some? {
      var k := u.next - 1;
      PickIsTaken(attempts(k).parsed, site);
      assert FirstYield(attempts, retries, k);
    } else {
      assert !Settles(attempts(u.next - 1));
    }
  }

  /** The delay behind an attempt: a minute after a rate limit, five seconds after any other failure, twice
      as long each time; and always five seconds after a reply without results. */
  function PauseAfter(a: Attempt, k: nat): nat {
    match a
    case Replied(_) => 5000
    case Failing(RateLimit) => 60000 * Pow2(k)
    case _ => 5000 * Pow2(k)
  }

  function Pauses(attempts: nat -> Attempt, from: nat, n: nat): nat
    requires from <= n
    decreases n - from
  {
    if from == n then 0 else PauseAfter(attempts(from), from) + Pauses(attempts, from + 1, n)
  }

  lemma {:induction false} AnalyzeSleeps(site: Scan, attempts: nat -> Attempt, from: nat, retries: nat)
    requires from <= retries
    ensures var u := Analyze(site, attempts, from, retries);
      u.next >= from + 1 && u.slept == Pauses(attempts, from, u.next - 1)
    decreases retries - from
  {
    hide Pick, Pow2;
    if !Settles(attempts(from)) && from < retries { AnalyzeSleeps(site, attempts, from + 1, retries); }
  }

  // ---- One mini-batch -------------------------------------------------------------------------

  /** The indices below `n` with a property, ascending. */
  ghost function Where(n: nat, p: nat -> bool): (r: seq<nat>)
    ensures forall i: nat :: i in r <==> i < n && p(i)
    ensures forall j, k :: 0 <= j < k < |r| ==> r[j] < r[k]
  {
    if n == 0 then [] else
      var front := Where(n - 1, p);
      assert forall j :: 0 <= j < |front| ==> front[j] in front;
      front + if p(n - 1) then [n - 1] else []
  }

  /** How many of the first `i` downloads succeed: the number of the next downloaded site. */
  function Rank(download: nat -> Option<string>, i: nat): nat {
    if i == 0 then 0 else Rank(download, i - 1) + if download(i - 1).None? then 1 else 0
  }

  predicate Lost(env: MiniEnv, i: nat) {
    env.download(i).Some?
  }

  /** Downloaded, but no attempt at the site yields. */
  predicate Fruitless(env: MiniEnv, retries: nat, i: nat) {
    env.download(i).None? && NoneYields(env.attempts(Rank(env.download, i)), retries)
  }

  ghost function Successes(n: nat, env: MiniEnv, retries: nat): seq<nat> {
    Where(n, (i: nat) => !Lost(env, i) && !Fruitless(env, retries, i))
  }

  ghost function Losses(n: nat, env: MiniEnv): seq<nat> {
    Where(n, (i: nat) => Lost(env, i))
  }

  ghost function Fruitlesses(n: nat, env: MiniEnv, retries: nat): seq<nat> {
    Where(n, (i: nat) => Fruitless(env, retries, i))
  }

  ghost predicate ResultsAre(scans: seq<Scan>, env: MiniEnv, retries: nat, ok: seq<nat>, rs: seq<ScanResult>) {
    |rs| == |ok| && forall k :: 0 <= k < |ok| ==>
      ok[k] < |scans| && ResultFor(scans[ok[k]], env.attempts(Rank(env.download, ok[k])), retries, rs[k])
  }

  ghost predicate LossesAre(scans: seq<Scan>, env: MiniEnv, lost: seq<nat>, fs: seq<FailedScan>) {
    |fs| == |lost| && forall k :: 0 <= k < |lost| ==>
      lost[k] < |scans| && env.download(lost[k]).Some? && IsUnreachable(fs[k], scans[lost[k]], env.download(lost[k]).value)
  }

  ghost predicate FruitlessAre(scans: seq<Scan>, fruitless: seq<nat>, fs: seq<FailedScan>) {
    |fs| == |fruitless| && forall k :: 0 <= k < |fruitless| ==> fruitless[k] < |scans| && IsFruitless(fs[k], scans[fruitless[k]])
  }

  predicate IsUnreachable(f: FailedScan, s: Scan, error: string) {
    && f.scanId == s.scanId && f.url == s.url && f.errorType == UrlUnreachable
    && f.errorMessage == if |error| > 0 then error else "Failed to download website"
  }

  predicate IsFruitless(f: FailedScan, s: Scan) {
    f == FailedScan(s.scanId, s.url, InvalidOutput, "Failed to analyze website with Claude after retries")
  }

  /** What a mini-batch should come to: the results of the scans whose download succeeds and one of whose
      attempts yields, and as failures first the scans that could not be downloaded, then the others. */
  ghost predicate Accounts(m: MiniBatch, env: MiniEnv, retries: nat, r: MiniBatchResult) {
    var n := |m.scans|;
    var lost := Losses(n, env);
    && r.miniBatchNumber == m.miniBatchNumber
    && ResultsAre(m.scans, env, retries, Successes(n, env, retries), r.results)
    && |r.failedScans| >= |lost|
    && LossesAre(m.scans, env, lost, r.failedScans[..|lost|])
    && FruitlessAre(m.scans, Fruitlesses(n, env, retries), r.failedScans[|lost|..])
  }

  lemma WhereNext(n: nat, p: nat -> bool)
    ensures Where(n + 1, p) == Where(n, p) + if p(n) then [n] else []
  {}

  lemma DownloadNext(scans: seq<Scan>, env: MiniEnv, i: nat)
    requires i < |scans| && |Sites(scans[..i], env.download)| == Rank(env.download, i)
    requires LossesAre(scans, env, Losses(i, env), NotDownloaded(scans[..i], env.download))
    ensures |Sites(scans[..i + 1], env.download)| == Rank(env.download, i + 1)
    ensures LossesAre(scans, env, Losses(i + 1, env), NotDownloaded(scans[..i + 1], env.download))
  {
    hide Sites, NotDownloaded, Where;
    DownloadStep(scans, env.download, i);
    WhereNext(i, (i: nat) => Lost(env, i));
  }

  lemma AnalyseNext(scans: seq<Scan>, env: MiniEnv, retries: nat, i: nat)
    requires i < |scans| && |Sites(scans[..i], env.download)| == Rank(env.download, i)
    requires ResultsAre(scans, env, retries, Successes(i, env, retries), Analysed(Sites(scans[..i], env.download), env.attempts, retries))
    requires FruitlessAre(scans, Fruitlesses(i, env, retries), NotAnalysed(Sites(scans[..i], env.download), env.attempts, retries))
    ensures ResultsAre(scans, env, retries, Successes(i + 1, env, retries), Analysed(Sites(scans[..i + 1], env.download), env.attempts, retries))
    ensures FruitlessAre(scans, Fruitlesses(i + 1, env, retries), NotAnalysed(Sites(scans[..i + 1], env.download), env.attempts, retries))
  {
    hide Sites, NotDownloaded, Where, Analysed, NotAnalysed, Rank, ResultFor, NoneYields, Analyze, Unanalysed;
    DownloadStep(scans, env.download, i);
    WhereNext(i, (i: nat) => !Lost(env, i) && !Fruitless(env, retries, i));
    WhereNext(i, (i: nat) => Fruitless(env, retries, i));
    if env.download(i).None? {
      var before, k := Sites(scans[..i], env.download), Rank(env.download, i);
      var sites := before + [scans[i]];
      assert sites[..k] == before && sites[..k + 1] == sites;
      AnalyseStep(sites, env.attempts, retries, k);
      AnalyzeIff(scans[i], env.attempts(k), retries);
      UnanalysedIs(scans[i]);
    } else {
      assert Sites(scans[..i], env.download) + [] == Sites(scans[..i], env.download);
    }
  }

  lemma UnanalysedIs(s: Scan)
    ensures IsFruitless(Unanalysed(s), s)
  {}

  lemma {:induction false} ScansUpTo(scans: seq<Scan>, env: MiniEnv, retries: nat, n: nat)
    requires n <= |scans|
    ensures |Sites(scans[..n], env.download)| == Rank(env.download, n)
    ensures LossesAre(scans, env, Losses(n, env), NotDownloaded(scans[..n], env.download))
    ensures ResultsAre(scans, env, retries, Successes(n, env, retries), Analysed(Sites(scans[..n], env.download), env.attempts, retries))
    ensures FruitlessAre(scans, Fruitlesses(n, env, retries), NotAnalysed(Sites(scans[..n], env.download), env.attempts, retries))
  {
    hide Sites, NotDownloaded, Analysed, NotAnalysed, LossesAre, ResultsAre, FruitlessAre, Where, Rank, Successes, Losses, Fruitlesses;
    if n == 0 {
      assert scans[..0] == [];
      NoScans(scans, env, retries);
    } else {
      ScansUpTo(scans, env, retries, n - 1);
      DownloadNext(scans, env, n - 1);
      AnalyseNext(scans, env, retries, n - 1);
    }
  }

  lemma NoScans(scans: seq<Scan>, env: MiniEnv, retries: nat)
    ensures |Sites([], env.download)| == Rank(env.download, 0)
    ensures LossesAre(scans, env, Losses(0, env), NotDownloaded([], env.download))
    ensures ResultsAre(scans, env, retries, Successes(0, env, retries), Analysed(Sites([], env.download), env.attempts, retries))
    ensures FruitlessAre(scans, Fruitlesses(0, env, retries), NotAnalysed(Sites([], env.download), env.attempts, retries))
  {}

  /** A scan of a mini-batch fails if and only if its download failed or none of its attempts yields;
      otherwise its result is what its first yielding attempt gives. */
  lemma MiniOutcomeMeans(m: MiniBatch, env: MiniEnv, retries: nat)
    ensures Accounts(m, env, retries, MiniOutcome(m, env, retries))
  {
    hide Sites, NotDownloaded, Analysed, NotAnalysed, ResultsAre, FruitlessAre, Where;
    var n := |m.scans|;
    assert m.scans[..n] == m.scans;
    ScansUpTo(m.scans, env, retries, n);
    var a, b := NotDownloaded(m.scans, env.download), NotAnalysed(Sites(m.scans, env.download), env.attempts, retries);
    assert (a + b)[..|a|] == a && (a + b)[|a|..] == b;
  }

  // ---- All batches ----------------------------------------------------------------------------

  /** A mini-batch together with what happens to it. */
  datatype Step = Step(mini: MiniBatch, env: MiniEnv)

  function StepsFrom(minis: seq<MiniBatch>, env: nat -> MiniEnv, i: nat): seq<Step>
    requires i <= |minis|
    decreases |minis| - i
  {
    if i == |minis| then [] else [Step(minis[i], env(i))] + StepsFrom(minis, env, i + 1)
  }

  /** Those of all batches from `b` on, in order. */
  function AllSteps(batches: seq<Batch>, env: nat -> nat -> MiniEnv, b: nat): seq<Step>
    requires b <= |batches|
    decreases |batches| - b
  {
    if b == |batches| then [] else StepsFrom(batches[b].miniBatches, env(b), 0) + AllSteps(batches, env, b + 1)
  }

  /** The results of a mini-batch cannot be recorded: no checkpoint is loaded, or it cannot be saved. */
  predicate Unrecorded(s: Step, retries: nat, keeping: Keeping) {
    && !keeping.NoManager? && |MiniOutcome(s.mini, s.env, retries).results| > 0
    && (keeping.Loaded? ==> s.env.save.temp != Written || s.env.save.renameFault)
  }

  predicate Stops(s: Step, retries: nat, keeping: Keeping) {
    s.env.thrown.Some? || Unrecorded(s, retries, keeping)
  }

  /** The exception of a mini-batch that ends the run. */
  function StopOf(s: Step, keeping: Keeping): Option<Exception> {
    if s.env.thrown.Some? then s.env.thrown else if keeping.Unloaded? then Some(NoCheckpointLoaded) else Some(s.env.saveError)
  }

  /** `q` is where the run ends: behind the last mini-batch, or with the first one that stops it. */
  ghost predicate RunsTo(steps: seq<Step>, retries: nat, keeping: Keeping, q: nat) {
    && q <= |steps| && (forall k :: 0 <= k < q ==> !Stops(steps[k], retries, keeping))
    && (q < |steps| ==> Stops(steps[q], retries, keeping))
  }

  /** How many mini-batches come to a result: one whose results cannot be recorded still does. */
  function Reported(steps: seq<Step>, q: nat): nat
    requires q <= |steps|
  {
    if q < |steps| && steps[q].env.thrown.None? then q + 1 else q
  }

  ghost predicate Describes(p: Progression, steps: seq<Step>, retries: nat, keeping: Keeping, q: nat) {
    && RunsTo(steps, retries, keeping, q)
    && p.thrown == (if q < |steps| then StopOf(steps[q], keeping) else None)
    && |p.processed| == Reported(steps, q)
    && forall k :: 0 <= k < |p.processed| ==> p.processed[k] == MiniOutcome(steps[k].mini, steps[k].env, retries)
  }

  lemma DescribesMore(a: seq<MiniBatchResult>, before: seq<Step>, p: Progression, steps: seq<Step>, retries: nat, keeping: Keeping, q: nat, whole: Progression)
    requires |a| == |before| && forall k :: 0 <= k < |a| ==> !Stops(before[k], retries, keeping) && a[k] == MiniOutcome(before[k].mini, before[k].env, retries)
    requires Describes(p, steps, retries, keeping, q)
    requires whole.processed == a + p.processed && whole.thrown == p.thrown
    ensures Describes(whole, before + steps, retries, keeping, |before| + q)
  {
    hide MiniOutcome, Stops, StopOf;
  }

  lemma StopsIff(s: Step, retries: nat, keeping: Keeping)
    ensures var r := MiniOutcome(s.mini, s.env, retries);
      && (Stops(s, retries, keeping) <==> s.env.thrown.Some? || FlushError(r, s.env, keeping).Some?)
      && (s.env.thrown.None? && FlushError(r, s.env, keeping).Some? ==> StopOf(s, keeping) == FlushError(r, s.env, keeping))
  {
    hide MiniOutcome;
  }

  lemma NoMinis(minis: seq<MiniBatch>, env: nat -> MiniEnv, retries: nat, keeping: Keeping)
    ensures Describes(RunMinis(minis, env, retries, keeping, |minis|), StepsFrom(minis, env, |minis|), retries, keeping, 0)
  {
    hide MiniOutcome, Stops, StopOf;
  }

  lemma StopsHere(minis: seq<MiniBatch>, env: nat -> MiniEnv, retries: nat, keeping: Keeping, i: nat)
    requires i < |minis| && Stops(Step(minis[i], env(i)), retries, keeping)
    ensures Describes(RunMinis(minis, env, retries, keeping, i), StepsFrom(minis, env, i), retries, keeping, 0)
  {
    hide MiniOutcome, Stops, FlushError, ActsFor;
    StopsIff(Step(minis[i], env(i)), retries, keeping);
  }

  lemma GoesOn(minis: seq<MiniBatch>, env: nat -> MiniEnv, retries: nat, keeping: Keeping, i: nat)
    requires i < |minis| && !Stops(Step(minis[i], env(i)), retries, keeping)
    ensures var p, rest := RunMinis(minis, env, retries, keeping, i), RunMinis(minis, env, retries, keeping, i + 1);
      p.processed == [MiniOutcome(minis[i], env(i), retries)] + rest.processed && p.thrown == rest.thrown
  {
    hide MiniOutcome, Stops, FlushError, ActsFor;
    StopsIff(Step(minis[i], env(i)), retries, keeping);
  }

  lemma {:induction false} MinisAre(minis: seq<MiniBatch>, env: nat -> MiniEnv, retries: nat, keeping: Keeping, i: nat) returns (q: nat)
    requires i <= |minis|
    ensures Describes(RunMinis(minis, env, retries, keeping, i), StepsFrom(minis, env, i), retries, keeping, q)
    decreases |minis| - i
  {
    hide MiniOutcome, Stops, RunMinis, Describes;
    q := 0;
    if i == |minis| {
      NoMinis(minis, env, retries, keeping);
    } else if Stops(Step(minis[i], env(i)), retries, keeping) {
      StopsHere(minis, env, retries, keeping, i);
    } else {
      var rest := MinisAre(minis, env, retries, keeping, i + 1);
      GoesOn(minis, env, retries, keeping, i);
      DescribesMore([MiniOutcome(minis[i], env(i), retries)], [Step(minis[i], env(i))], RunMinis(minis, env, retries, keeping, i + 1),
        StepsFrom(minis, env, i + 1), retries, keeping, rest, RunMinis(minis, env, retries, keeping, i));
      q := 1 + rest;
    }
  }

  lemma {:induction false} BatchesAre(batches: seq<Batch>, env: nat -> nat -> MiniEnv, retries: nat, keeping: Keeping, b: nat) returns (q: nat)
    requires b <= |batches|
    ensures Describes(RunAll(batches, env, retries, keeping, b), AllSteps(batches, env, b), retries, keeping, q)
    decreases |batches| - b
  {
    hide MiniOutcome, RunMinis, Stops, StopOf;
    q := 0;
    if b < |batches| {
      var steps := StepsFrom(batches[b].miniBatches, env(b), 0);
      var p := RunMinis(batches[b].miniBatches, env(b), retries, keeping, 0);
      q := MinisAre(batches[b].miniBatches, env(b), retries, keeping, 0);
      if q < |steps| {
        StopIs(steps[q], retries, keeping);
        DescribesLess(p, steps, retries, keeping, q, AllSteps(batches, env, b + 1));
      } else {
        var rest := BatchesAre(batches, env, retries, keeping, b + 1);
        DescribesMore(p.processed, steps, RunAll(batches, env, retries, keeping, b + 1), AllSteps(batches, env, b + 1), retries, keeping, rest, RunAll(batches, env, retries, keeping, b));
        q := |steps| + rest;
      }
    }
  }

  lemma DescribesLess(p: Progression, steps: seq<Step>, retries: nat, keeping: Keeping, q: nat, more: seq<Step>)
    requires Describes(p, steps, retries, keeping, q) && q < |steps|
    ensures Describes(p, steps + more, retries, keeping, q)
  {
    hide MiniOutcome, Stops, StopOf;
  }

  lemma StopIs(s: Step, retries: nat, keeping: Keeping)
    requires Stops(s, retries, keeping)
    ensures StopOf(s, keeping).Some?
  {}

  /** A whole run: nothing before the browser is started; then the mini-batches of all batches in order, up
      to the first one that throws or whose results cannot be recorded; and what each of those before it
      comes to is decided, scan by scan, by its downloads and attempts. */
  lemma RunMeans(batches: seq<Batch>, env: RunEnv, retries: nat, keeping: Keeping) returns (q: nat)
    ensures var p, steps := Process(batches, env, retries, keeping), AllSteps(batches, env.mini, 0);
      && RunsTo(steps, retries, keeping, q)
      && (p.thrown.None? <==> env.initThrown.None? && env.closeThrown.None? && q == |steps|)
      && |p.processed| == (if env.initThrown.Some? then 0 else Reported(steps, q))
      && (forall k :: 0 <= k < |p.processed| ==> Accounts(steps[k].mini, steps[k].env, retries, p.processed[k]))
      && p.thrown == (
           if env.initThrown.Some? then env.initThrown
           else if env.closeThrown.Some? then env.closeThrown
           else if q < |steps| then StopOf(steps[q], keeping)
           else None)
  {
    hide MiniOutcome, RunAll, Accounts, Stops, StopOf;
    q := BatchesAre(batches, env.mini, retries, keeping, 0);
    var p, steps := Process(batches, env, retries, keeping), AllSteps(batches, env.mini, 0);
    if q < |steps| { StopIs(steps[q], retries, keeping); }
    forall k | 0 <= k < |p.processed| ensures Accounts(steps[k].mini, steps[k].env, retries, p.processed[k]) {
      MiniOutcomeMeans(steps[k].mini, steps[k].env, retries);
    }
  }
}

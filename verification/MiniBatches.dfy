/** Downloading and analysing the scans of the mini-batches, and accounting for every one of them. */
module MiniBatches {
  import opened Wrappers
  import opened Sequences
  import opened Disk
  import opened Retry
  import opened ScanCheckpoint
  import opened BatchOrganizer

  datatype ScanResult = ScanResult(scanId: string, url: string, body: string)

  datatype FailureType = UrlUnreachable | InvalidOutput

  datatype FailedScan = FailedScan(scanId: string, url: string, errorType: FailureType, errorMessage: string)

  datatype MiniBatchResult = MiniBatchResult(miniBatchNumber: nat, results: seq<ScanResult>, failedScans: seq<FailedScan>)

  /** What one attempt at a site comes to: an exception, a failed invocation, or the results parsed
      from its output. */
  datatype Attempt = Threw | Failing(errorType: ErrorType) | Replied(parsed: seq<ScanResult>)

  datatype Exception = Error(message: string) | NoCheckpointLoaded

  function MessageOf(e: Exception): string {
    match e
    case Error(message) => message
    case NoCheckpointLoaded => "Cannot flush: no checkpoint loaded. Call loadCheckpoint() or initCheckpoint() first."
  }

  /** What the outside decides for a mini-batch: an exception out of the downloader, if any; the error of
      each download, if any; the attempts at each downloaded site; the fate of the checkpoint save. */
  datatype MiniEnv = MiniEnv(
    thrown: Option<Exception>,
    download: nat -> Option<string>,
    attempts: nat -> (nat -> Attempt),
    save: SaveEnv,
    saveError: Exception)

  /** And for a whole run: exceptions while the browser is started or closed. */
  datatype RunEnv = RunEnv(initThrown: Option<Exception>, mini: nat -> nat -> MiniEnv, closeThrown: Option<Exception>)

  // ---- One site -------------------------------------------------------------------------------

  function Find(parsed: seq<ScanResult>, scanId: string): (r: Option<ScanResult>)
    ensures r.Some? ==> r.value in parsed && r.value.scanId == scanId
    ensures r.None? ==> forall x :: x in parsed ==> x.scanId != scanId
  {
    if parsed == [] then None else if parsed[0].scanId == scanId then Some(parsed[0]) else Find(parsed[1..], scanId)
  }

  /** The result with the site's id, or else the first one under the site's id and URL. */
  function Pick(parsed: seq<ScanResult>, site: Scan): (r: Option<ScanResult>)
    ensures r.Some? <==> parsed != []
    ensures r.Some? ==> r.value.scanId == site.scanId
  {
    var found := Find(parsed, site.scanId);
    if found.Some? then found
    else if parsed != [] then Some(parsed[0].(scanId := site.scanId, url := site.url))
    else None
  }

  function DelayAfter(a: Attempt, retryCount: nat): (d: nat)
    ensures d <= 60000 * Pow2(retryCount)
  {
    match a
    case Threw => RetryDelay(ProcessCrash, retryCount + 1)
    case Failing(e) => RetryDelay(e, retryCount + 1)
    case Replied(_) => 5000
  }

  predicate Settles(a: Attempt) {
    a.Replied? && a.parsed != []
  }

  function Analyze(site: Scan, attempts: nat -> Attempt, retryCount: nat, retries: nat): (u: Use<Option<ScanResult>>)
    requires retryCount <= retries
    ensures u.result.Some? ==> u.result.value.scanId == site.scanId
    decreases retries - retryCount
  {
    var a := attempts(retryCount);
    if Settles(a) then Use(Pick(a.parsed, site), retryCount + 1, 0)
    else if retryCount == retries then Use(None, retryCount + 1, 0)
    else
      var u := Analyze(site, attempts, retryCount + 1, retries);
      u.(slept := u.slept + DelayAfter(a, retryCount))
  }

  /** At most one attempt more than there are retries, with exponential delays between them; the first
      attempt that yields results decides, and failure means that every attempt failed. */
  lemma {:induction false} AnalyzeMeans(site: Scan, attempts: nat -> Attempt, retryCount: nat, retries: nat)
    requires retryCount <= retries
    ensures var u := Analyze(site, attempts, retryCount, retries);
      && retryCount < u.next <= retries + 1
      && u.slept <= 60000 * (Pow2(retries) - Pow2(retryCount))
      && (forall k :: retryCount <= k < u.next - 1 ==> !Settles(attempts(k)))
      && (u.result.Some? <==> Settles(attempts(u.next - 1)))
      && (u.result.Some? ==> u.result == Pick(attempts(u.next - 1).parsed, site))
      && (u.result.None? ==> u.next == retries + 1)
    decreases retries - retryCount
  {
    hide Pick, DelayAfter;
    PowMonotone(retryCount, retries);
    if !Settles(attempts(retryCount)) && retryCount < retries { AnalyzeMeans(site, attempts, retryCount + 1, retries); }
  }

  method AnalyzeSiteWithRetry(site: Scan, attempts: nat -> Attempt, retries: nat) returns (r: Option<ScanResult>, used: nat, slept: nat)
    ensures Use(r, used, slept) == Analyze(site, attempts, 0, retries)
  {
    hide Find, DelayAfter;
    var retryCount := 0;
    slept := 0;
    while retryCount <= retries
      invariant retryCount <= retries
      invariant var u := Analyze(site, attempts, retryCount, retries);
        u.(slept := u.slept + slept) == Analyze(site, attempts, 0, retries)
    {
      var a := attempts(retryCount);
      if a.Replied? && a.parsed != [] {
        var scanResult := Find(a.parsed, site.scanId);
        if scanResult.Some? {
          return scanResult, retryCount + 1, slept;
        }
        return Some(a.parsed[0].(scanId := site.scanId, url := site.url)), retryCount + 1, slept;
      }
      if retryCount == retries {
        return None, retryCount + 1, slept;
      }
      slept := slept + DelayAfter(a, retryCount);
      retryCount := retryCount + 1;
    }
  }

  // ---- One mini-batch -------------------------------------------------------------------------

  function Unreachable(scan: Scan, error: string): FailedScan {
    FailedScan(scan.scanId, scan.url, UrlUnreachable, if error == "" then "Failed to download website" else error)
  }

  function Unanalysed(site: Scan): FailedScan {
    FailedScan(site.scanId, site.url, InvalidOutput, "Failed to analyze website with Claude after retries")
  }

  /** The sites that were downloaded, in order. */
  function Sites(scans: seq<Scan>, download: nat -> Option<string>): seq<Scan> {
    if scans == [] then [] else
      var n := |scans| - 1;
      Sites(scans[..n], download) + if download(n).None? then [scans[n]] else []
  }

  function NotDownloaded(scans: seq<Scan>, download: nat -> Option<string>): seq<FailedScan> {
    if scans == [] then [] else
      var n := |scans| - 1;
      NotDownloaded(scans[..n], download) + if download(n).None? then [] else [Unreachable(scans[n], download(n).value)]
  }

  function Analysed(sites: seq<Scan>, attempts: nat -> (nat -> Attempt), retries: nat): seq<ScanResult> {
    if sites == [] then [] else
      var n := |sites| - 1;
      var r := Analyze(sites[n], attempts(n), 0, retries).result;
      Analysed(sites[..n], attempts, retries) + if r.Some? then [r.value] else []
  }

  function NotAnalysed(sites: seq<Scan>, attempts: nat -> (nat -> Attempt), retries: nat): seq<FailedScan> {
    if sites == [] then [] else
      var n := |sites| - 1;
      var r := Analyze(sites[n], attempts(n), 0, retries).result;
      NotAnalysed(sites[..n], attempts, retries) + if r.Some? then [] else [Unanalysed(sites[n])]
  }

  function MiniOutcome(m: MiniBatch, env: MiniEnv, retries: nat): MiniBatchResult {
    var sites := Sites(m.scans, env.download);
    MiniBatchResult(
      m.miniBatchNumber,
      Analysed(sites, env.attempts, retries),
      NotDownloaded(m.scans, env.download) + NotAnalysed(sites, env.attempts, retries))
  }

  lemma DownloadStep(scans: seq<Scan>, download: nat -> Option<string>, i: nat)
    requires i < |scans|
    ensures Sites(scans[..i + 1], download) == Sites(scans[..i], download) + (if download(i).None? then [scans[i]] else [])
    ensures NotDownloaded(scans[..i + 1], download)
      == NotDownloaded(scans[..i], download) + (if download(i).None? then [] else [Unreachable(scans[i], download(i).value)])
  {
    hide Unreachable;
    assert scans[..i + 1][..i] == scans[..i];
  }

  lemma AnalyseStep(sites: seq<Scan>, attempts: nat -> (nat -> Attempt), retries: nat, i: nat)
    requires i < |sites|
    ensures var r := Analyze(sites[i], attempts(i), 0, retries).result;
      && Analysed(sites[..i + 1], attempts, retries) == Analysed(sites[..i], attempts, retries) + (if r.Some? then [r.value] else [])
      && NotAnalysed(sites[..i + 1], attempts, retries) == NotAnalysed(sites[..i], attempts, retries) + (if r.Some? then [] else [Unanalysed(sites[i])])
  {
    hide Analyze, Unanalysed;
    assert sites[..i + 1][..i] == sites[..i];
  }

  lemma NoSites(download: nat -> Option<string>, attempts: nat -> (nat -> Attempt), retries: nat)
    ensures Sites([], download) == [] && NotDownloaded([], download) == []
    ensures Analysed([], attempts, retries) == [] && NotAnalysed([], attempts, retries) == []
  {}

  /** Err: the downloader threw. */
  method ProcessMiniBatch(m: MiniBatch, env: MiniEnv, retries: nat) returns (r: Result<MiniBatchResult, Exception>)
    ensures r == if env.thrown.Some? then Err(env.thrown.value) else Result.Ok(MiniOutcome(m, env, retries))
  {
    hide Analyze, Unreachable, Unanalysed, Sites, NotDownloaded, Analysed, NotAnalysed;
    NoSites(env.download, env.attempts, retries);
    if env.thrown.Some? { return Err(env.thrown.value); }
    var results: seq<ScanResult> := [];
    var failedScans: seq<FailedScan> := [];
    var downloadedSites: seq<Scan> := [];
    for i := 0 to |m.scans|
      invariant downloadedSites == Sites(m.scans[..i], env.download)
      invariant failedScans == NotDownloaded(m.scans[..i], env.download)
    {
      DownloadStep(m.scans, env.download, i);
      var scan := m.scans[i];
      var error := env.download(i);
      if error.None? {
        downloadedSites := downloadedSites + [scan];
      } else {
        failedScans := failedScans + [Unreachable(scan, error.value)];
      }
    }
    assert m.scans[..|m.scans|] == m.scans;
    ghost var unreachable := failedScans;
    for i := 0 to |downloadedSites|
      invariant results == Analysed(downloadedSites[..i], env.attempts, retries)
      invariant failedScans == unreachable + NotAnalysed(downloadedSites[..i], env.attempts, retries)
    {
      AnalyseStep(downloadedSites, env.attempts, retries, i);
      var site := downloadedSites[i];
      var scanResult, _, _ := AnalyzeSiteWithRetry(site, env.attempts(i), retries);
      if scanResult.Some? {
        results := results + [scanResult.value];
      } else {
        failedScans := failedScans + [Unanalysed(site)];
      }
    }
    assert downloadedSites[..|downloadedSites|] == downloadedSites;
    r := Result.Ok(MiniBatchResult(m.miniBatchNumber, results, failedScans));
  }

  function ScanIds(scans: seq<Scan>): seq<string> {
    seq(|scans|, i requires 0 <= i < |scans| => scans[i].scanId)
  }

  function ResultIds(rs: seq<ScanResult>): seq<string> {
    seq(|rs|, i requires 0 <= i < |rs| => rs[i].scanId)
  }

  function FailedIds(fs: seq<FailedScan>): seq<string> {
    seq(|fs|, i requires 0 <= i < |fs| => fs[i].scanId)
  }

  lemma ScanIdsAppend(a: seq<Scan>, b: seq<Scan>)
    ensures ScanIds(a + b) == ScanIds(a) + ScanIds(b)
  {}

  lemma ResultIdsAppend(a: seq<ScanResult>, b: seq<ScanResult>)
    ensures ResultIds(a + b) == ResultIds(a) + ResultIds(b)
  {}

  lemma FailedIdsAppend(a: seq<FailedScan>, b: seq<FailedScan>)
    ensures FailedIds(a + b) == FailedIds(a) + FailedIds(b)
  {}

  lemma SingleIds(s: Scan, r: ScanResult, f: FailedScan)
    ensures ScanIds([s]) == [s.scanId] && ResultIds([r]) == [r.scanId] && FailedIds([f]) == [f.scanId]
  {}

  lemma NoIds()
    ensures ScanIds([]) == [] && ResultIds([]) == [] && FailedIds([]) == []
  {}

  lemma {:induction false} DownloadsConserve(scans: seq<Scan>, download: nat -> Option<string>)
    ensures multiset(ScanIds(Sites(scans, download))) + multiset(FailedIds(NotDownloaded(scans, download))) == multiset(ScanIds(scans))
  {
    hide ScanIds, FailedIds, ResultIds, Sites, NotDownloaded;
    NoIds();
    NoSites(download, _ => _ => Attempt.Threw, 0);
    if scans != [] {
      var n := |scans| - 1;
      DownloadsConserve(scans[..n], download);
      DownloadStep(scans, download, n);
      assert scans == scans[..n] + [scans[n]] && scans[..n + 1] == scans;
      ScanIdsAppend(scans[..n], [scans[n]]);
      var f := Unreachable(scans[n], if download(n).None? then "" else download(n).value);
      SingleIds(scans[n], ScanResult("", "", ""), f);
      if download(n).None? {
        ScanIdsAppend(Sites(scans[..n], download), [scans[n]]);
        assert NotDownloaded(scans[..n], download) + [] == NotDownloaded(scans[..n], download);
      } else {
        FailedIdsAppend(NotDownloaded(scans[..n], download), [f]);
        assert Sites(scans[..n], download) + [] == Sites(scans[..n], download);
      }
    }
  }

  lemma {:induction false} AnalysesConserve(sites: seq<Scan>, attempts: nat -> (nat -> Attempt), retries: nat)
    ensures multiset(ResultIds(Analysed(sites, attempts, retries))) + multiset(FailedIds(NotAnalysed(sites, attempts, retries))) == multiset(ScanIds(sites))
  {
    hide Analyze, ScanIds, FailedIds, ResultIds, Analysed, NotAnalysed;
    NoIds();
    NoSites(_ => None, attempts, retries);
    if sites != [] {
      var n := |sites| - 1;
      AnalysesConserve(sites[..n], attempts, retries);
      AnalyseStep(sites, attempts, retries, n);
      assert sites == sites[..n] + [sites[n]] && sites[..n + 1] == sites;
      ScanIdsAppend(sites[..n], [sites[n]]);
      var r := Analyze(sites[n], attempts(n), 0, retries).result;
      SingleIds(sites[n], if r.Some? then r.value else ScanResult("", "", ""), Unanalysed(sites[n]));
      if r.Some? {
        ResultIdsAppend(Analysed(sites[..n], attempts, retries), [r.value]);
        assert NotAnalysed(sites[..n], attempts, retries) + [] == NotAnalysed(sites[..n], attempts, retries);
      } else {
        FailedIdsAppend(NotAnalysed(sites[..n], attempts, retries), [Unanalysed(sites[n])]);
        assert Analysed(sites[..n], attempts, retries) + [] == Analysed(sites[..n], attempts, retries);
      }
    }
  }

  /** Each scan of a mini-batch ends as one result or one failure. */
  lemma MiniConserves(m: MiniBatch, env: MiniEnv, retries: nat)
    ensures var r := MiniOutcome(m, env, retries);
      multiset(ResultIds(r.results)) + multiset(FailedIds(r.failedScans)) == multiset(ScanIds(m.scans))
  {
    hide Sites, NotDownloaded, Analysed, NotAnalysed, ScanIds, ResultIds, FailedIds;
    var sites := Sites(m.scans, env.download);
    DownloadsConserve(m.scans, env.download);
    AnalysesConserve(sites, env.attempts, retries);
    FailedIdsAppend(NotDownloaded(m.scans, env.download), NotAnalysed(sites, env.attempts, retries));
  }

  // ---- All batches ----------------------------------------------------------------------------

  /** The mini-batches that came to a result, the exception that ended the run early, if any, and what
      was done to the checkpoint. */
  datatype Progression = Progression(processed: seq<MiniBatchResult>, thrown: Option<Exception>, acts: seq<Act>)

  /** How the checkpoint is kept: not at all, or by a manager that has or has not loaded one. */
  datatype Keeping = NoManager | Unloaded | Loaded

  function ActsFor(r: MiniBatchResult, env: MiniEnv, keeping: Keeping): seq<Act> {
    if keeping.NoManager? || r.results == [] then [] else [Mark(ResultIds(r.results)), Flush(env.save)]
  }

  function FlushError(r: MiniBatchResult, env: MiniEnv, keeping: Keeping): Option<Exception> {
    if keeping.NoManager? || r.results == [] then None
    else if keeping.Unloaded? then Some(NoCheckpointLoaded)
    else if Succeeds(env.save) then None
    else Some(env.saveError)
  }

  function RunMinis(minis: seq<MiniBatch>, env: nat -> MiniEnv, retries: nat, keeping: Keeping, i: nat): Progression
    requires i <= |minis|
    decreases |minis| - i
  {
    if i == |minis| then Progression([], None, [])
    else if env(i).thrown.Some? then Progression([], env(i).thrown, [])
    else
      var r := MiniOutcome(minis[i], env(i), retries);
      var acts, error := ActsFor(r, env(i), keeping), FlushError(r, env(i), keeping);
      if error.Some? then Progression([r], error, acts)
      else
        var rest := RunMinis(minis, env, retries, keeping, i + 1);
        Progression([r] + rest.processed, rest.thrown, acts + rest.acts)
  }

  function RunAll(batches: seq<Batch>, env: nat -> nat -> MiniEnv, retries: nat, keeping: Keeping, b: nat): Progression
    requires b <= |batches|
    decreases |batches| - b
  {
    if b == |batches| then Progression([], None, [])
    else
      var p := RunMinis(batches[b].miniBatches, env(b), retries, keeping, 0);
      if p.thrown.Some? then p
      else
        var rest := RunAll(batches, env, retries, keeping, b + 1);
        Progression(p.processed + rest.processed, rest.thrown, p.acts + rest.acts)
  }

  /** The run between the start and the end of the browser, which is closed in any case. */
  function Process(batches: seq<Batch>, env: RunEnv, retries: nat, keeping: Keeping): Progression {
    if env.initThrown.Some? then Progression([], env.initThrown, [])
    else
      var p := RunAll(batches, env.mini, retries, keeping, 0);
      if env.closeThrown.Some? then p.(thrown := env.closeThrown) else p
  }

  function Results(rs: seq<MiniBatchResult>): seq<ScanResult> {
    if rs == [] then [] else rs[0].results + Results(rs[1..])
  }

  function Failures(rs: seq<MiniBatchResult>): seq<FailedScan> {
    if rs == [] then [] else rs[0].failedScans + Failures(rs[1..])
  }

  lemma {:induction false} ResultsAppend(a: seq<MiniBatchResult>, b: seq<MiniBatchResult>)
    ensures Results(a + b) == Results(a) + Results(b) && Failures(a + b) == Failures(a) + Failures(b)
  {
    if a == [] {
      assert a + b == b;
    } else {
      assert (a + b)[1..] == a[1..] + b;
      ResultsAppend(a[1..], b);
    }
  }

  /** The ids of results and failures together. */
  function Accounted(rs: seq<MiniBatchResult>): multiset<string> {
    multiset(ResultIds(Results(rs))) + multiset(FailedIds(Failures(rs)))
  }

  lemma AccountedAppend(a: seq<MiniBatchResult>, b: seq<MiniBatchResult>)
    ensures Accounted(a + b) == Accounted(a) + Accounted(b)
  {
    hide Results, Failures, ResultIds, FailedIds;
    ResultsAppend(a, b);
    ResultIdsAppend(Results(a), Results(b));
    FailedIdsAppend(Failures(a), Failures(b));
  }

  lemma AccountedOne(r: MiniBatchResult)
    ensures Accounted([r]) == multiset(ResultIds(r.results)) + multiset(FailedIds(r.failedScans))
  {
    hide ResultIds, FailedIds;
    assert [r][1..] == [];
    assert r.results + [] == r.results && r.failedScans + [] == r.failedScans;
    assert Results([r]) == r.results + Results([]);
    assert Failures([r]) == r.failedScans + Failures([]);
  }

  /** The mini-batches that came to a result account for their scans; if nothing was thrown, for all. */
  lemma {:induction false} MinisConserve(minis: seq<MiniBatch>, env: nat -> MiniEnv, retries: nat, keeping: Keeping, i: nat)
    requires i <= |minis|
    ensures var p := RunMinis(minis, env, retries, keeping, i);
      var ids := multiset(ScanIds(MiniScans(minis[i..])));
      Accounted(p.processed) <= ids && (p.thrown.None? ==> Accounted(p.processed) == ids)
    decreases |minis| - i
  {
    hide MiniOutcome, ScanIds, Accounted, FlushError, ActsFor;
    NothingAccounted();
    if i < |minis| && env(i).thrown.None? {
      var r := MiniOutcome(minis[i], env(i), retries);
      MinisConserve(minis, env, retries, keeping, i + 1);
      MiniConserves(minis[i], env(i), retries);
      AccountedOne(r);
      assert minis[i..][0] == minis[i] && minis[i..][1..] == minis[i + 1..];
      ScanIdsAppend(minis[i].scans, MiniScans(minis[i + 1..]));
      AccountedAppend([r], RunMinis(minis, env, retries, keeping, i + 1).processed);
    }
  }

  lemma NothingAccounted()
    ensures Accounted([]) == multiset{} && ScanIds([]) == []
  {}

  lemma {:induction false} BatchesConserve(batches: seq<Batch>, env: nat -> nat -> MiniEnv, retries: nat, keeping: Keeping, b: nat)
    requires b <= |batches|
    ensures var p := RunAll(batches, env, retries, keeping, b);
      var ids := multiset(ScanIds(AllScans(batches[b..])));
      Accounted(p.processed) <= ids && (p.thrown.None? ==> Accounted(p.processed) == ids)
    decreases |batches| - b
  {
    hide RunMinis, ScanIds, Accounted;
    NothingAccounted();
    if b < |batches| {
      var p := RunMinis(batches[b].miniBatches, env(b), retries, keeping, 0);
      MinisConserve(batches[b].miniBatches, env(b), retries, keeping, 0);
      assert batches[b].miniBatches[0..] == batches[b].miniBatches;
      assert batches[b..][0] == batches[b] && batches[b..][1..] == batches[b + 1..];
      ScanIdsAppend(MiniScans(batches[b].miniBatches), AllScans(batches[b + 1..]));
      BatchesConserve(batches, env, retries, keeping, b + 1);
      AccountedAppend(p.processed, RunAll(batches, env, retries, keeping, b + 1).processed);
    }
  }

  /** From input to output: when all batches of an input are processed, the ids of the results and of
      the failed scans are together the ids of the input, each as often as it was there; when an
      exception ends the run early, no id is accounted for more often than that. */
  lemma EveryScanIsAccountedFor(scans: seq<Scan>, batchSize: nat, miniBatchSize: int, env: RunEnv, retries: nat, keeping: Keeping)
    requires batchSize > 0
    ensures var p := Process(Organized(Chunks(scans, batchSize), Constrained(miniBatchSize)), env, retries, keeping);
      && Accounted(p.processed) <= multiset(ScanIds(scans))
      && (p.thrown.None? ==>
            && multiset(ResultIds(Results(p.processed))) + multiset(FailedIds(Failures(p.processed))) == multiset(ScanIds(scans))
            && |Results(p.processed)| + |Failures(p.processed)| == |scans|)
  {
    hide RunAll, AllScans, Chunks, ScanIds, ResultIds, FailedIds, Results, Failures;
    var batches := Organized(Chunks(scans, batchSize), Constrained(miniBatchSize));
    var p := RunAll(batches, env.mini, retries, keeping, 0);
    BatchesConserve(batches, env.mini, retries, keeping, 0);
    OrganizeConserves(scans, batchSize, miniBatchSize);
    assert batches[0..] == batches;
    AccountedNone();
    if p.thrown.None? { CountsOf(Results(p.processed), Failures(p.processed), scans); }
  }

  lemma AccountedNone()
    ensures Accounted([]) == multiset{}
  {}

  lemma CountsOf(rs: seq<ScanResult>, fs: seq<FailedScan>, scans: seq<Scan>)
    requires multiset(ResultIds(rs)) + multiset(FailedIds(fs)) == multiset(ScanIds(scans))
    ensures |rs| + |fs| == |scans|
  {
    assert |multiset(ResultIds(rs))| == |rs| && |multiset(FailedIds(fs))| == |fs| && |multiset(ScanIds(scans))| == |scans|;
    assert |multiset(ResultIds(rs)) + multiset(FailedIds(fs))| == |rs| + |fs|;
  }
}

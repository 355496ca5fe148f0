/** Directory mode: one input file after the other, and the statistics over all of them. */
module Directory {
  import opened Wrappers
  import opened Sequences
  import opened ScanCheckpoint
  import opened BatchOrganizer
  import opened MiniBatches
  import opened MiniBatchProcessor

  const RETRIES := 3

  datatype Parsed = Parsed(scans: seq<Scan>, skipped: nat)

  /** What the outside decides for a file: its rows or a parse error; what happens while it is processed;
      the output files or an error in writing them; the error of each move of the file, if any, in the
      order the moves are tried. */
  datatype InputFile = InputFile(
    name: string,
    parsed: Result<Parsed, string>,
    env: RunEnv,
    output: Result<string, string>,
    failedCsv: Result<string, string>,
    move: nat -> Option<string>)

  datatype Stats = Stats(
    filesProcessed: nat,
    filesSucceeded: nat,
    filesFailed: nat,
    totalUrls: nat,
    totalSuccessful: nat,
    totalFailed: nat,
    totalSkipped: nat,
    outputFiles: seq<string>,
    failedFiles: seq<string>,
    errors: seq<string>)

  const ZERO := Stats(0, 0, 0, 0, 0, 0, 0, [], [], [])

  datatype Settings = Settings(batchSize: nat, miniBatchSize: int)

  function Complain(st: Stats, f: InputFile, error: string): Stats {
    st.(errors := st.errors + [f.name + ": " + error])
  }

  /** How the inner block of a file ends: with the next file, or by moving this one after `moves`
      earlier attempts. */
  datatype Ending = NextFile | Move(successful: bool, moves: nat)

  function Processed(f: InputFile, scans: seq<Scan>, s: Settings): Progression
    requires s.batchSize > 0
  {
    Process(Organized(Chunks(scans, s.batchSize), Constrained(s.miniBatchSize)), f.env, RETRIES, NoManager)
  }

  function Inner(st: Stats, f: InputFile, s: Settings): (Stats, Ending)
    requires s.batchSize > 0
  {
    match f.parsed
    case Err(e) => (Complain(st, f, e), Move(false, 0))
    case Ok(p) =>
      if p.scans == [] then
        var st1 := Complain(st, f, "No valid scans found");
        match f.move(0)
        case None => (st1.(filesFailed := st1.filesFailed + 1), NextFile)
        case Some(e) => (Complain(st1, f, e), Move(false, 1))
      else
        var r := Processed(f, p.scans, s);
        match r.thrown
        case Some(e) => (Complain(st, f, MessageOf(e)), Move(false, 0))
        case None => Written(st, f, p, Results(r.processed), Failures(r.processed))
  }

  /** The totals are added only after both output files are written. */
  function Written(st: Stats, f: InputFile, p: Parsed, results: seq<ScanResult>, failed: seq<FailedScan>): (Stats, Ending) {
    match f.output
    case Err(e) => (Complain(st, f, e), Move(false, 0))
    case Ok(path) =>
      var st1 := st.(outputFiles := st.outputFiles + [path]);
      if failed != [] && f.failedCsv.Err? then (Complain(st1, f, f.failedCsv.error), Move(false, 0))
      else
        var st2 := if failed != [] then st1.(failedFiles := st1.failedFiles + [f.failedCsv.value]) else st1;
        (st2.(totalUrls := st2.totalUrls + |p.scans|,
              totalSuccessful := st2.totalSuccessful + |results|,
              totalFailed := st2.totalFailed + |failed|,
              totalSkipped := st2.totalSkipped + p.skipped),
         Move(results != [], 0))
  }

  function Tally(st: Stats, f: InputFile, s: Settings): Stats
    requires s.batchSize > 0
  {
    var (st1, ending) := Inner(st, f, s);
    match ending
    case NextFile => st1
    case Move(successful, k) => Moved(st1, f, successful, k)
  }

  function Moved(st: Stats, f: InputFile, successful: bool, k: nat): Stats {
    match f.move(k)
    case None =>
      var st1 := if successful then st.(filesSucceeded := st.filesSucceeded + 1) else st.(filesFailed := st.filesFailed + 1);
      st1.(filesProcessed := st1.filesProcessed + 1)
    case Some(e) =>
      var st1 := Complain(st, f, e);
      st1.(filesFailed := st1.filesFailed + 1, filesProcessed := st1.filesProcessed + 1)
  }

  function TallyAll(files: seq<InputFile>, s: Settings): Stats
    requires s.batchSize > 0
  {
    if files == [] then ZERO else Tally(TallyAll(files[..|files| - 1], s), files[|files| - 1], s)
  }

  method ProcessDirectory(files: seq<InputFile>, s: Settings) returns (st: Stats)
    requires s.batchSize > 0
    ensures st == TallyAll(files, s)
  {
    hide Process, Chunks, Organized, Results, Failures, TallyAll, PerformAll;
    TallyNothing(s);
    st := ZERO;
    for i := 0 to |files|
      invariant st == TallyAll(files[..i], s)
    {
      TallyNext(files, s, i);
      ghost var before := st;
      var file := files[i];
      var fileSuccessful := false;
      var moves := 0;
      match file.parsed {
        case Err(e) => st := Complain(st, file, e);
        case Ok(p) =>
          if |p.scans| == 0 {
            st := Complain(st, file, "No valid scans found");
            var moveError := file.move(0);
            if moveError.None? {
              st := st.(filesFailed := st.filesFailed + 1);
              continue;
            }
            moves := 1;
            st := Complain(st, file, moveError.value);
          } else {
            st, fileSuccessful := ProcessScans(st, file, p, s);
          }
      }
      assert Inner(before, file, s) == (st, Move(fileSuccessful, moves));
      var error := file.move(moves);
      if error.None? {
        if fileSuccessful {
          st := st.(filesSucceeded := st.filesSucceeded + 1);
        } else {
          st := st.(filesFailed := st.filesFailed + 1);
        }
        st := st.(filesProcessed := st.filesProcessed + 1);
      } else {
        st := Complain(st, file, error.value);
        st := st.(filesFailed := st.filesFailed + 1);
        st := st.(filesProcessed := st.filesProcessed + 1);
      }
    }
    assert files[..|files|] == files;
  }

  method ProcessScans(before: Stats, file: InputFile, p: Parsed, s: Settings) returns (st: Stats, fileSuccessful: bool)
    requires s.batchSize > 0 && file.parsed == Result.Ok(p) && p.scans != []
    ensures Inner(before, file, s) == (st, Move(fileSuccessful, 0))
  {
    hide Process, Chunks, Organized, Results, Failures, PerformAll, MessageOf;
    st, fileSuccessful := before, false;
    var batches := OrganizeBatches(p.scans, s.batchSize, s.miniBatchSize);
    var processor := new MiniBatchProcessor(RETRIES, null);
    var miniBatchResults := processor.ProcessAllBatches(batches, file.env);
    if miniBatchResults.Err? {
      return Complain(st, file, MessageOf(miniBatchResults.error)), false;
    }
    var allResults, allFailedScans := Results(miniBatchResults.value), Failures(miniBatchResults.value);
    if file.output.Err? {
      return Complain(st, file, file.output.error), false;
    }
    st := st.(outputFiles := st.outputFiles + [file.output.value]);
    if |allFailedScans| > 0 {
      if file.failedCsv.Err? {
        return Complain(st, file, file.failedCsv.error), false;
      }
      st := st.(failedFiles := st.failedFiles + [file.failedCsv.value]);
    }
    fileSuccessful := |allResults| > 0;
    st := st.(totalUrls := st.totalUrls + |p.scans|);
    st := st.(totalSuccessful := st.totalSuccessful + |allResults|);
    st := st.(totalFailed := st.totalFailed + |allFailedScans|);
    st := st.(totalSkipped := st.totalSkipped + p.skipped);
  }

  lemma TallyNothing(s: Settings)
    requires s.batchSize > 0
    ensures TallyAll([], s) == ZERO
  {}

  lemma TallyNext(files: seq<InputFile>, s: Settings, i: nat)
    requires s.batchSize > 0 && i < |files|
    ensures TallyAll(files[..i + 1], s) == Tally(TallyAll(files[..i], s), files[i], s)
  {
    hide Tally;
    assert files[..i + 1][..i] == files[..i];
  }

  // ---- Accounting -----------------------------------------------------------------------------

  /** A file without scans that could be moved away at once is failed but not processed. */
  predicate Passed(f: InputFile) {
    f.parsed.Ok? && f.parsed.value.scans == [] && f.move(0).None?
  }

  function PassedCount(files: seq<InputFile>): nat {
    if files == [] then 0 else PassedCount(files[..|files| - 1]) + if Passed(files[|files| - 1]) then 1 else 0
  }

  ghost predicate Balanced(st: Stats, handled: nat, passed: nat) {
    && st.totalUrls == st.totalSuccessful + st.totalFailed
    && st.filesSucceeded + st.filesFailed == handled
    && st.filesProcessed + passed == handled
    && st.filesFailed <= |st.errors| + |st.outputFiles|
    && st.filesSucceeded <= |st.outputFiles|
  }

  lemma InnerBalances(st: Stats, f: InputFile, s: Settings)
    requires s.batchSize > 0 && st.totalUrls == st.totalSuccessful + st.totalFailed
    ensures var (st1, ending) := Inner(st, f, s);
      && st1.totalUrls == st1.totalSuccessful + st1.totalFailed
      && st1.filesSucceeded == st.filesSucceeded && st1.filesProcessed == st.filesProcessed
      && st1.filesFailed == st.filesFailed + (if ending.NextFile? then 1 else 0)
      && (ending.NextFile? <==> Passed(f))
      && |st1.errors| + |st1.outputFiles| > |st.errors| + |st.outputFiles|
      && |st1.outputFiles| >= |st.outputFiles| + (if ending.Move? && ending.successful then 1 else 0)
  {
    hide Process, Chunks, Organized, Results, Failures, ScanIds, ResultIds, FailedIds;
    if f.parsed.Ok? {
      EveryScanIsAccountedFor(f.parsed.value.scans, s.batchSize, s.miniBatchSize, f.env, RETRIES, NoManager);
    }
  }

  lemma FileBalances(st: Stats, f: InputFile, s: Settings, handled: nat, passed: nat)
    requires s.batchSize > 0 && Balanced(st, handled, passed)
    ensures Balanced(Tally(st, f, s), handled + 1, passed + if Passed(f) then 1 else 0)
  {
    hide Inner, Passed, Moved;
    InnerBalances(st, f, s);
    var (st1, ending) := Inner(st, f, s);
    if ending.Move? {
      MovedMeans(st1, f, ending.successful, ending.moves);
    }
  }

  lemma MovedMeans(st: Stats, f: InputFile, successful: bool, k: nat)
    ensures var r := Moved(st, f, successful, k);
      && r.totalUrls == st.totalUrls && r.totalSuccessful == st.totalSuccessful && r.totalFailed == st.totalFailed
      && r.filesProcessed == st.filesProcessed + 1 && r.outputFiles == st.outputFiles && |r.errors| >= |st.errors|
      && r.filesSucceeded == st.filesSucceeded + (if successful && f.move(k).None? then 1 else 0)
      && r.filesFailed == st.filesFailed + (if successful && f.move(k).None? then 0 else 1)
  {}

  /** After every file, whatever went wrong with it: the URLs counted are the successful and the failed
      ones, and every file is counted once as succeeded or failed, and leaves an output or an error. */
  lemma {:induction false} DirectoryBalances(files: seq<InputFile>, s: Settings)
    requires s.batchSize > 0
    ensures Balanced(TallyAll(files, s), |files|, PassedCount(files))
  {
    hide Tally, Passed;
    if files != [] {
      var n := |files| - 1;
      DirectoryBalances(files[..n], s);
      FileBalances(TallyAll(files[..n], s), files[n], s, n, PassedCount(files[..n]));
    }
  }

  // ---- What each file adds --------------------------------------------------------------------

  /** The run over the file's scans came to an end. */
  predicate Ran(f: InputFile, s: Settings)
    requires s.batchSize > 0
  {
    f.parsed.Ok? && |f.parsed.value.scans| > 0 && Processed(f, f.parsed.value.scans, s).thrown.None?
  }

  function ResultsOf(f: InputFile, s: Settings): seq<ScanResult>
    requires s.batchSize > 0
  {
    if Ran(f, s) then Results(Processed(f, f.parsed.value.scans, s).processed) else []
  }

  function FailuresOf(f: InputFile, s: Settings): seq<FailedScan>
    requires s.batchSize > 0
  {
    if Ran(f, s) then Failures(Processed(f, f.parsed.value.scans, s).processed) else []
  }

  /** All its output is written: only then does the file count. */
  predicate Counts(f: InputFile, s: Settings)
    requires s.batchSize > 0
  {
    Ran(f, s) && f.output.Ok? && (|FailuresOf(f, s)| > 0 ==> f.failedCsv.Ok?)
  }

  /** It ends in the directory for successes. */
  predicate Succeeds(f: InputFile, s: Settings)
    requires s.batchSize > 0
  {
    Counts(f, s) && |ResultsOf(f, s)| > 0 && f.move(0).None?
  }

  /** What goes wrong with it, in order: the reason it does not count, and the errors of moving it. */
  function Complaints(f: InputFile, s: Settings): seq<string>
    requires s.batchSize > 0
  {
    var moved := if f.move(0).Some? then [f.move(0).value] else [];
    match f.parsed
    case Err(e) => [e] + moved
    case Ok(p) =>
      if p.scans == [] then
        ["No valid scans found"] + moved + if f.move(0).Some? && f.move(1).Some? then [f.move(1).value] else []
      else if !Ran(f, s) then [MessageOf(Processed(f, p.scans, s).thrown.value)] + moved
      else if f.output.Err? then [f.output.error] + moved
      else if |FailuresOf(f, s)| > 0 && f.failedCsv.Err? then [f.failedCsv.error] + moved
      else moved
  }

  function Named(name: string, complaints: seq<string>): seq<string> {
    seq(|complaints|, i requires 0 <= i < |complaints| => name + ": " + complaints[i])
  }

  /** One file more: a file whose output is written adds its scans, results, failures and skipped rows to the
      totals, any other adds nothing; and it is one more success or one more failure. */
  lemma FileTotals(st: Stats, f: InputFile, s: Settings)
    requires s.batchSize > 0
    ensures var r := Tally(st, f, s);
      && r.totalSuccessful == st.totalSuccessful + (if Counts(f, s) then |ResultsOf(f, s)| else 0)
      && r.totalFailed == st.totalFailed + (if Counts(f, s) then |FailuresOf(f, s)| else 0)
      && r.totalUrls == st.totalUrls + (if Counts(f, s) then |f.parsed.value.scans| else 0)
      && r.totalSkipped == st.totalSkipped + (if Counts(f, s) then f.parsed.value.skipped else 0)
      && r.outputFiles == st.outputFiles + (if Ran(f, s) && f.output.Ok? then [f.output.value] else [])
      && r.failedFiles == st.failedFiles + (if Counts(f, s) && |FailuresOf(f, s)| > 0 then [f.failedCsv.value] else [])
      && r.filesSucceeded == st.filesSucceeded + (if Succeeds(f, s) then 1 else 0)
      && r.filesFailed == st.filesFailed + (if Succeeds(f, s) then 0 else 1)
      && r.filesProcessed == st.filesProcessed + (if Passed(f) then 0 else 1)
  {
    hide Process, Chunks, Organized, Results, Failures, MessageOf;
    assert st.outputFiles + [] == st.outputFiles && st.failedFiles + [] == st.failedFiles;
  }

  lemma FileErrors(st: Stats, f: InputFile, s: Settings)
    requires s.batchSize > 0
    ensures Tally(st, f, s).errors == st.errors + Named(f.name, Complaints(f, s))
  {
    hide Process, Chunks, Organized, Results, Failures, MessageOf;
    assert st.errors + [] == st.errors;
  }

  function Sum(files: seq<InputFile>, of: InputFile -> nat): nat {
    if files == [] then 0 else Sum(files[..|files| - 1], of) + of(files[|files| - 1])
  }

  /** Over the whole directory. */
  lemma {:induction false} DirectoryTotals(files: seq<InputFile>, s: Settings)
    requires s.batchSize > 0
    ensures var r := TallyAll(files, s);
      && r.totalSuccessful == Sum(files, (f: InputFile) => if Counts(f, s) then |ResultsOf(f, s)| else 0)
      && r.totalFailed == Sum(files, (f: InputFile) => if Counts(f, s) then |FailuresOf(f, s)| else 0)
      && r.totalUrls == Sum(files, (f: InputFile) => if Counts(f, s) then |f.parsed.value.scans| else 0)
      && r.totalSkipped == Sum(files, (f: InputFile) => if Counts(f, s) then f.parsed.value.skipped else 0)
      && r.filesSucceeded == Sum(files, (f: InputFile) => if Succeeds(f, s) then 1 else 0)
      && r.filesFailed == Sum(files, (f: InputFile) => if Succeeds(f, s) then 0 else 1)
  {
    hide Tally, Succeeds, ResultsOf, FailuresOf, Passed, Ran;
    if files != [] {
      var n := |files| - 1;
      DirectoryTotals(files[..n], s);
      FileTotals(TallyAll(files[..n], s), files[n], s);
    }
  }
}

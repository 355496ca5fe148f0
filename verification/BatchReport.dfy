/** The input of a batch's PDF report: totals, the five worst pages, issues by impact. */
module BatchReport {
  import opened Wrappers
  import opened Sequences
  import opened JsonValue
  import Ascii

  /** An issue as it is stored; the nodes may be missing. */
  datatype Issue = Issue(
    id: string,
    ruleId: string,
    impact: string,
    description: string,
    helpText: string,
    helpUrl: string,
    wcagCriteria: seq<string>,
    htmlSnippet: string,
    cssSelector: string,
    nodes: Option<Value>)

  datatype EnrichedIssue = EnrichedIssue(
    id: string,
    ruleId: string,
    impact: string,
    description: string,
    helpText: string,
    helpUrl: string,
    wcagCriteria: seq<string>,
    htmlSnippet: string,
    cssSelector: string,
    nodes: Value)

  datatype Counts = Counts(total: nat, critical: nat, serious: nat, moderate: nat, minor: nat, passed: nat)

  datatype Scan = Scan(url: string, pageTitle: Option<string>, result: Option<Found>)

  datatype Found = Found(counts: Counts, issues: seq<Issue>)

  datatype Metadata = Metadata(
    batchId: string,
    homepageUrl: string,
    totalUrls: nat,
    completedCount: nat,
    failedCount: nat,
    wcagLevel: string,
    createdAt: nat,
    completedAt: Option<nat>,
    status: string)

  /** A batch as it is stored: what the report copies, and its scans. */
  datatype Batch = Batch(metadata: Metadata, scans: seq<Scan>)

  datatype TopUrl = TopUrl(url: string, pageTitle: Option<string>, criticalCount: nat)

  datatype Buckets = Buckets(critical: seq<EnrichedIssue>, serious: seq<EnrichedIssue>, moderate: seq<EnrichedIssue>, minor: seq<EnrichedIssue>)

  datatype Breakdown = Breakdown(url: string, pageTitle: Option<string>, summary: Counts, issuesByImpact: Buckets)

  datatype PdfInput = PdfInput(metadata: Metadata, aggregate: Counts, urlsScanned: nat, topCriticalUrls: seq<TopUrl>, urlBreakdowns: seq<Breakdown>)

  // ---- Totals ---------------------------------------------------------------------------------

  function Plus(a: Counts, b: Counts): Counts {
    Counts(a.total + b.total, a.critical + b.critical, a.serious + b.serious, a.moderate + b.moderate, a.minor + b.minor, a.passed + b.passed)
  }

  const NO_COUNTS := Counts(0, 0, 0, 0, 0, 0)

  /** The sum over the breakdowns that are reported. */
  function SumOf(bs: seq<Breakdown>): Counts {
    if bs == [] then NO_COUNTS else Plus(SumOf(bs[..|bs| - 1]), bs[|bs| - 1].summary)
  }

  method Aggregate(scans: seq<Scan>) returns (r: Counts)
    ensures r == SumOf(Breakdowns(scans))
  {
    hide Grouped;
    var totalIssues: nat, criticalCount: nat, seriousCount: nat := 0, 0, 0;
    var moderateCount: nat, minorCount: nat, passedChecks: nat := 0, 0, 0;
    for i := 0 to |scans|
      invariant Counts(totalIssues, criticalCount, seriousCount, moderateCount, minorCount, passedChecks) == SumOf(Breakdowns(scans[..i]))
    {
      assert scans[..i + 1][..i] == scans[..i];
      if scans[i].result.Some? {
        var c := scans[i].result.value.counts;
        totalIssues := totalIssues + c.total;
        criticalCount := criticalCount + c.critical;
        seriousCount := seriousCount + c.serious;
        moderateCount := moderateCount + c.moderate;
        minorCount := minorCount + c.minor;
        passedChecks := passedChecks + c.passed;
      }
    }
    assert scans[..|scans|] == scans;
    r := Counts(totalIssues, criticalCount, seriousCount, moderateCount, minorCount, passedChecks);
  }

  // ---- Issues by impact -----------------------------------------------------------------------

  /** The impact in capitals, and an empty list for missing nodes. */
  function Enriched(i: Issue): EnrichedIssue {
    EnrichedIssue(
      i.id, i.ruleId, Ascii.Upper(i.impact), i.description, i.helpText, i.helpUrl, i.wcagCriteria, i.htmlSnippet, i.cssSelector,
      if i.nodes.None? then VArr([]) else i.nodes.value)
  }

  function Key(i: Issue): string {
    Ascii.Lower(i.impact)
  }

  function EnrichAll(issues: seq<Issue>): seq<EnrichedIssue> {
    seq(|issues|, i requires 0 <= i < |issues| => Enriched(issues[i]))
  }

  function HasKey(key: string): Issue -> bool {
    (i: Issue) => Key(i) == key
  }

  /** The issues of one impact, however it is spelled, in order. */
  function Bucket(issues: seq<Issue>, key: string): seq<EnrichedIssue> {
    EnrichAll(Filter(HasKey(key), issues))
  }

  function Grouped(issues: seq<Issue>): Buckets {
    Buckets(Bucket(issues, "critical"), Bucket(issues, "serious"), Bucket(issues, "moderate"), Bucket(issues, "minor"))
  }

  lemma BucketStep(issues: seq<Issue>, i: Issue, key: string)
    ensures Bucket(issues + [i], key) == Bucket(issues, key) + if Key(i) == key then [Enriched(i)] else []
  {
    FilterSnoc(HasKey(key), issues, i);
  }

  method GroupIssues(issues: seq<Issue>) returns (b: Buckets)
    ensures b == Grouped(issues)
  {
    hide Bucket, Key, Enriched;
    b := Buckets([], [], [], []);
    NoBucket("critical");
    NoBucket("serious");
    NoBucket("moderate");
    NoBucket("minor");
    for i := 0 to |issues|
      invariant b == Grouped(issues[..i])
    {
      var issue := issues[i];
      assert issues[..i + 1] == issues[..i] + [issue];
      BucketStep(issues[..i], issue, "critical");
      BucketStep(issues[..i], issue, "serious");
      BucketStep(issues[..i], issue, "moderate");
      BucketStep(issues[..i], issue, "minor");
      KeysDiffer();
      var enrichedIssue := Enriched(issue);
      var impactKey := Key(issue);
      if impactKey == "critical" {
        b := b.(critical := b.critical + [enrichedIssue]);
      } else if impactKey == "serious" {
        b := b.(serious := b.serious + [enrichedIssue]);
      } else if impactKey == "moderate" {
        b := b.(moderate := b.moderate + [enrichedIssue]);
      } else if impactKey == "minor" {
        b := b.(minor := b.minor + [enrichedIssue]);
      }
    }
    assert issues[..|issues|] == issues;
  }

  lemma NoBucket(key: string)
    ensures Bucket([], key) == []
  {}

  lemma KeysDiffer()
    ensures "critical" != "serious" && "critical" != "moderate" && "critical" != "minor"
    ensures "serious" != "moderate" && "serious" != "minor" && "moderate" != "minor"
  {
    assert |"critical"| == 8 && |"serious"| == 7 && |"moderate"| == 8 && |"minor"| == 5 && "critical"[0] == 'c';
  }

  predicate Known(i: Issue) {
    Key(i) == "critical" || Key(i) == "serious" || Key(i) == "moderate" || Key(i) == "minor"
  }

  /** The four buckets together hold the issues of known impact, each once. */
  lemma {:induction false} BucketsPartition(issues: seq<Issue>)
    ensures var b := Grouped(issues);
      multiset(b.critical) + multiset(b.serious) + multiset(b.moderate) + multiset(b.minor)
        == multiset(EnrichAll(Filter((i: Issue) => Known(i), issues)))
  {
    hide Bucket, Key, Enriched;
    var known := (i: Issue) => Known(i);
    if issues == [] {
      NoBucket("critical");
      NoBucket("serious");
      NoBucket("moderate");
      NoBucket("minor");
      FilterNothing(known);
    } else {
      var n := |issues| - 1;
      assert issues == issues[..n] + [issues[n]];
      BucketsPartition(issues[..n]);
      BucketStep(issues[..n], issues[n], "critical");
      BucketStep(issues[..n], issues[n], "serious");
      BucketStep(issues[..n], issues[n], "moderate");
      BucketStep(issues[..n], issues[n], "minor");
      KeysDiffer();
      FilterSnoc(known, issues[..n], issues[n]);
      EnrichSnoc(Filter(known, issues[..n]), issues[n]);
    }
  }

  lemma SameInCapitals(a: string, b: string)
    requires Ascii.Lower(a) == Ascii.Lower(b)
    ensures Ascii.Upper(a) == Ascii.Upper(b)
  {
    assert |Ascii.Lower(a)| == |a| && |Ascii.Lower(b)| == |b|;
    forall i | 0 <= i < |a| ensures Ascii.Upper(a)[i] == Ascii.Upper(b)[i] {
      assert Ascii.Lower(a)[i] == Ascii.Lower(b)[i];
    }
  }

  /** Every issue of a bucket carries the impact of that bucket in capitals, and is one of the input with
      that impact in some spelling; with all its other fields unchanged. */
  lemma BucketMeans(issues: seq<Issue>, key: string, e: EnrichedIssue)
    requires Ascii.Lower(key) == key
    ensures e in Bucket(issues, key) <==> ComesFrom(issues, key, e)
    ensures e in Bucket(issues, key) ==> e.impact == Ascii.Upper(key)
  {
    var kept := Filter(HasKey(key), issues);
    hide Filter;
    if e in Bucket(issues, key) {
      var k :| 0 <= k < |kept| && Enriched(kept[k]) == e;
      assert kept[k] in kept;
      SameInCapitals(kept[k].impact, key);
    }
    forall i | i in issues && Ascii.Lower(i.impact) == key && IsEnriched(i, e) ensures e in Bucket(issues, key) {
      assert i in kept;
      var k :| 0 <= k < |kept| && kept[k] == i;
      assert EnrichAll(kept)[k] == e;
    }
  }

  /** The impact in capitals, an empty list for missing nodes, everything else as it was. */
  predicate IsEnriched(i: Issue, e: EnrichedIssue) {
    && e.id == i.id && e.ruleId == i.ruleId && e.impact == Ascii.Upper(i.impact) && e.description == i.description
    && e.helpText == i.helpText && e.helpUrl == i.helpUrl && e.wcagCriteria == i.wcagCriteria
    && e.htmlSnippet == i.htmlSnippet && e.cssSelector == i.cssSelector
    && e.nodes == match i.nodes case Some(v) => v case None => VArr([])
  }

  lemma InCapitals()
    ensures Ascii.Upper("critical") == "CRITICAL" && Ascii.Upper("serious") == "SERIOUS"
    ensures Ascii.Upper("moderate") == "MODERATE" && Ascii.Upper("minor") == "MINOR"
    ensures Ascii.Lower("critical") == "critical" && Ascii.Lower("serious") == "serious"
    ensures Ascii.Lower("moderate") == "moderate" && Ascii.Lower("minor") == "minor"
  {}

  /** The bucket has exactly the issues of that impact. */
  ghost predicate Holds(bucket: seq<EnrichedIssue>, issues: seq<Issue>, key: string, capitals: string) {
    forall e :: (e in bucket <==> ComesFrom(issues, key, e)) && (e in bucket ==> e.impact == capitals)
  }

  ghost predicate ComesFrom(issues: seq<Issue>, key: string, e: EnrichedIssue) {
    exists i :: i in issues && Ascii.Lower(i.impact) == key && IsEnriched(i, e)
  }

  /** The four buckets by name: each holds the issues of its impact, all of them and no others. */
  lemma BucketsMean(issues: seq<Issue>)
    ensures var b := Grouped(issues);
      && Holds(b.critical, issues, "critical", "CRITICAL") && Holds(b.serious, issues, "serious", "SERIOUS")
      && Holds(b.moderate, issues, "moderate", "MODERATE") && Holds(b.minor, issues, "minor", "MINOR")
  {
    hide Bucket, Holds;
    InCapitals();
    hide Ascii.Upper, Ascii.Lower;
    BucketHolds(issues, "critical");
    BucketHolds(issues, "serious");
    BucketHolds(issues, "moderate");
    BucketHolds(issues, "minor");
  }

  lemma BucketHolds(issues: seq<Issue>, key: string)
    requires Ascii.Lower(key) == key
    ensures Holds(Bucket(issues, key), issues, key, Ascii.Upper(key))
  {
    hide Bucket, ComesFrom;
    forall e ensures (e in Bucket(issues, key) <==> ComesFrom(issues, key, e)) && (e in Bucket(issues, key) ==> e.impact == Ascii.Upper(key)) {
      BucketMeans(issues, key, e);
    }
  }

  lemma EnrichSnoc(issues: seq<Issue>, i: Issue)
    ensures EnrichAll(issues + [i]) == EnrichAll(issues) + [Enriched(i)]
  {}

  // ---- Breakdowns -----------------------------------------------------------------------------

  function Breakdowns(scans: seq<Scan>): seq<Breakdown> {
    if scans == [] then [] else
      var s := scans[|scans| - 1];
      var front := Breakdowns(scans[..|scans| - 1]);
      if s.result.None? then front
      else front + [Breakdown(s.url, s.pageTitle, s.result.value.counts, Grouped(s.result.value.issues))]
  }

  function HasResult(): Scan -> bool {
    (s: Scan) => s.result.Some?
  }

  /** The report breaks down exactly the scans with a result, in order. */
  lemma {:induction false} BreakdownsMean(scans: seq<Scan>)
    ensures var bs, done := Breakdowns(scans), Filter(HasResult(), scans);
      && |bs| == |done|
      && forall k :: 0 <= k < |bs| ==>
           var s := done[k];
           s.result.Some? && bs[k] == Breakdown(s.url, s.pageTitle, s.result.value.counts, Grouped(s.result.value.issues))
  {
    hide Filter, Grouped;
    FilterNothing(HasResult());
    if scans != [] {
      var n := |scans| - 1;
      BreakdownsMean(scans[..n]);
      assert scans == scans[..n] + [scans[n]];
      FilterSnoc(HasResult(), scans[..n], scans[n]);
    }
  }

  /** One count summed over the breakdowns. */
  function Total(bs: seq<Breakdown>, count: Counts -> nat): nat {
    if bs == [] then 0 else count(bs[0].summary) + Total(bs[1..], count)
  }

  lemma {:induction false} TotalLast(bs: seq<Breakdown>, count: Counts -> nat)
    requires bs != []
    ensures Total(bs, count) == Total(bs[..|bs| - 1], count) + count(bs[|bs| - 1].summary)
  {
    if |bs| > 1 {
      var n := |bs| - 1;
      TotalLast(bs[1..], count);
      assert bs[1..][..n - 1] == bs[..n][1..] && bs[1..][n - 1] == bs[n];
    } else {
      assert bs[1..] == [] && bs[..0] == [];
    }
  }

  /** Each of the six counts of the report is the sum of that count over the breakdowns. */
  lemma {:induction false} SumMeans(bs: seq<Breakdown>)
    ensures SumOf(bs) == Counts(
      Total(bs, (c: Counts) => c.total), Total(bs, (c: Counts) => c.critical), Total(bs, (c: Counts) => c.serious),
      Total(bs, (c: Counts) => c.moderate), Total(bs, (c: Counts) => c.minor), Total(bs, (c: Counts) => c.passed))
  {
    hide Total;
    if bs == [] {
      NoTotal((c: Counts) => c.total);
      NoTotal((c: Counts) => c.critical);
      NoTotal((c: Counts) => c.serious);
      NoTotal((c: Counts) => c.moderate);
      NoTotal((c: Counts) => c.minor);
      NoTotal((c: Counts) => c.passed);
    } else {
      SumMeans(bs[..|bs| - 1]);
      TotalLast(bs, (c: Counts) => c.total);
      TotalLast(bs, (c: Counts) => c.critical);
      TotalLast(bs, (c: Counts) => c.serious);
      TotalLast(bs, (c: Counts) => c.moderate);
      TotalLast(bs, (c: Counts) => c.minor);
      TotalLast(bs, (c: Counts) => c.passed);
    }
  }

  lemma NoTotal(count: Counts -> nat)
    ensures Total([], count) == 0
  {}

  // ---- The worst pages ------------------------------------------------------------------------

  function Critical(s: Scan): nat {
    if s.result.None? then 0 else s.result.value.counts.critical
  }

  function HasCritical(): Scan -> bool {
    (s: Scan) => Critical(s) > 0
  }

  /** The order handed to `sort`: the higher count is not after the lower. */
  function Worse(): (Scan, Scan) -> bool {
    (a: Scan, b: Scan) => Critical(a) >= Critical(b)
  }

  function FirstFive(scans: seq<Scan>): seq<Scan> {
    if |scans| <= 5 then scans else scans[..5]
  }

  function TopScans(scans: seq<Scan>): seq<Scan> {
    FirstFive(Sort(Worse(), Filter(HasCritical(), scans)))
  }

  function TopUrls(scans: seq<Scan>): seq<TopUrl> {
    var top := TopScans(scans);
    seq(|top|, i requires 0 <= i < |top| => TopUrl(top[i].url, top[i].pageTitle, Critical(top[i])))
  }

  lemma WorseIsOrder()
    ensures IsOrder(Worse())
  {}

  /** The pages with critical issues that are not listed. */
  function Omitted(scans: seq<Scan>): seq<Scan> {
    var sorted := Sort(Worse(), Filter(HasCritical(), scans));
    if |sorted| <= 5 then [] else sorted[5..]
  }

  /** Listed and omitted pages are together the pages with critical issues; at most five are listed, the
      worst first; no omitted page has more critical issues than a listed one, and none is omitted
      while there is room. */
  lemma TopScansMeans(scans: seq<Scan>)
    ensures var top, omitted := TopScans(scans), Omitted(scans);
      && multiset(top) + multiset(omitted) == multiset(Filter(HasCritical(), scans))
      && |top| <= 5 && (omitted != [] ==> |top| == 5)
      && (forall i, j :: 0 <= i < j < |top| ==> Critical(top[i]) >= Critical(top[j]))
      && (forall i, j :: 0 <= i < |top| && 0 <= j < |omitted| ==> Critical(top[i]) >= Critical(omitted[j]))
  {
    hide Filter, Sort;
    var sorted := Sort(Worse(), Filter(HasCritical(), scans));
    var top, omitted := TopScans(scans), Omitted(scans);
    WorseIsOrder();
    SortSorts(Worse(), Filter(HasCritical(), scans));
    assert sorted == top + omitted;
    forall i, j | 0 <= i < j < |sorted| ensures Critical(sorted[i]) >= Critical(sorted[j]) {
      assert Worse()(sorted[i], sorted[j]);
    }
    forall i, j | 0 <= i < |top| && 0 <= j < |omitted| ensures Critical(top[i]) >= Critical(omitted[j]) {
      assert top[i] == sorted[i] && omitted[j] == sorted[|top| + j];
    }
  }

  /** Pages with equally many critical issues are listed in the order of the input. */
  lemma TiesKeepOrder(scans: seq<Scan>, s: Scan)
    ensures Filter(Tied(Worse(), s), TopScans(scans)) <= Filter(Tied(Worse(), s), Filter(HasCritical(), scans))
  {
    hide Filter, Sort;
    var all := Filter(HasCritical(), scans);
    var sorted := Sort(Worse(), all);
    WorseIsOrder();
    SortStable(Worse(), all, s);
    if |sorted| > 5 {
      assert sorted == sorted[..5] + sorted[5..];
      FilterAppend(Tied(Worse(), s), sorted[..5], sorted[5..]);
    }
  }

  lemma {:induction false} FilterAppend(p: Scan -> bool, a: seq<Scan>, b: seq<Scan>)
    ensures Filter(p, a + b) == Filter(p, a) + Filter(p, b)
    decreases |b|
  {
    if b == [] {
      assert a + b == a;
    } else {
      assert (a + b)[..|a + b| - 1] == a + b[..|b| - 1];
      FilterAppend(p, a, b[..|b| - 1]);
    }
  }

  method TransformToBatchPdfInput(batch: Batch) returns (r: PdfInput)
    ensures r.metadata == batch.metadata && r.urlsScanned == batch.metadata.completedCount
    ensures r.urlBreakdowns == Breakdowns(batch.scans)
    ensures r.aggregate == SumOf(r.urlBreakdowns)
    ensures r.topCriticalUrls == TopUrls(batch.scans)
  {
    hide TopUrls, SumOf, Grouped;
    var scans := batch.scans;
    var aggregate := Aggregate(scans);
    var urlBreakdowns: seq<Breakdown> := [];
    for i := 0 to |scans|
      invariant urlBreakdowns == Breakdowns(scans[..i])
    {
      assert scans[..i + 1][..i] == scans[..i];
      if scans[i].result.Some? {
        var issuesByImpact := GroupIssues(scans[i].result.value.issues);
        urlBreakdowns := urlBreakdowns + [Breakdown(scans[i].url, scans[i].pageTitle, scans[i].result.value.counts, issuesByImpact)];
      }
    }
    assert scans[..|scans|] == scans;
    r := PdfInput(batch.metadata, aggregate, batch.metadata.completedCount, TopUrls(scans), urlBreakdowns);
  }
}

/** Every run of sessions and crashes: what the disk holds, and where it comes from. */
module CrashSafety {
  import opened Wrappers
  import opened Sequences
  import opened Disk
  import opened JsonValue
  import opened Criteria
  import opened Cache
  import opened Checkpoint
  import opened BatchProcessor

  /** The disk, and the accepted replies so far. */
  datatype World = World(files: Files, heard: seq<Reply>)

  function Step(w: World, e: Event): World {
    match e
    case Hear(r) => w.(heard := w.heard + [r])
    case Io(op) => w.(files := Apply(w.files, op))
  }

  function After(w: World, events: seq<Event>): World
    decreases |events|
  {
    if events == [] then w else After(Step(w, events[0]), events[1..])
  }

  // ---- What a checkpoint records --------------------------------------------------------------

  /** The replies a checkpoint stands for, in the order in which their batches were completed, under the
      URL and level the scan had when the checkpoint was opened. */
  datatype Book = Book(url: string, wcagLevel: Level, ledger: seq<Reply>, startedAt: nat, updatedAt: nat)

  predicate AllAccepted(ledger: seq<Reply>) {
    forall r :: r in ledger ==> Accepted(r)
  }

  function BatchesOf(ledger: seq<Reply>): (bs: seq<nat>)
    ensures |bs| == |ledger|
  {
    seq(|ledger|, i requires 0 <= i < |ledger| => ledger[i].batch)
  }

  function Collected(ledger: seq<Reply>): (vs: seq<Value>)
    requires AllAccepted(ledger)
    ensures AllPrintable(vs)
  {
    if ledger == [] then [] else Collected(ledger[..|ledger| - 1]) + VerificationsOf(ledger[|ledger| - 1])
  }

  function Tokens(ledger: seq<Reply>): nat {
    if ledger == [] then 0 else Tokens(ledger[..|ledger| - 1]) + TokensOfReply(ledger[|ledger| - 1])
  }

  function Recorded(id: string, total: nat, book: Book): (c: CriteriaCheckpoint)
    requires AllAccepted(book.ledger)
    ensures AllPrintable(c.partialVerifications)
  {
    CriteriaCheckpoint(
      id, book.url, book.wcagLevel, total,
      Sort(Ascending(), BatchesOf(book.ledger)), Collected(book.ledger), false,
      book.startedAt, book.updatedAt, Tokens(book.ledger))
  }

  /** Every reply was heard for this scan, was accepted, and is the only one of its batch. */
  ghost predicate LedgerOk(id: string, total: nat, heard: seq<Reply>, ledger: seq<Reply>) {
    && AllAccepted(ledger)
    && (forall r :: r in ledger ==> r in heard && r.scanId == id && r.batch < total)
    && (forall i, j :: 0 <= i < j < |ledger| ==> ledger[i].batch != ledger[j].batch)
  }

  lemma InBatchesOf(ledger: seq<Reply>, b: nat)
    ensures b in BatchesOf(ledger) <==> exists r :: r in ledger && r.batch == b
    ensures b in Sort(Ascending(), BatchesOf(ledger)) <==> b in BatchesOf(ledger)
  {
    if b in BatchesOf(ledger) {
      var i :| 0 <= i < |ledger| && BatchesOf(ledger)[i] == b;
      assert ledger[i] in ledger;
    }
    if r :| r in ledger && r.batch == b {
      var i :| 0 <= i < |ledger| && ledger[i] == r;
      assert BatchesOf(ledger)[i] == b;
    }
    assert b in Sort(Ascending(), BatchesOf(ledger)) <==> b in multiset(Sort(Ascending(), BatchesOf(ledger)));
    assert b in BatchesOf(ledger) <==> b in multiset(BatchesOf(ledger));
  }

  lemma AscendingIsOrder()
    ensures IsOrder(Ascending())
  {}

  /** What the record means: its batches are strictly ascending, in range, and those of its replies. */
  lemma RecordedMeans(id: string, total: nat, heard: seq<Reply>, book: Book)
    requires LedgerOk(id, total, heard, book.ledger)
    ensures var c := Recorded(id, total, book);
      && (forall i, j :: 0 <= i < j < |c.completedBatches| ==> c.completedBatches[i] < c.completedBatches[j])
      && (forall b :: b in c.completedBatches ==> b < c.totalBatches)
      && (forall b: nat :: b in c.completedBatches <==> exists r :: r in book.ledger && r.batch == b)
      && |c.completedBatches| == |book.ledger|
  {
    hide Sort;
    var s, bs := Sort(Ascending(), BatchesOf(book.ledger)), BatchesOf(book.ledger);
    AscendingIsOrder();
    SortSorts(Ascending(), bs);
    forall b: nat ensures b in s <==> exists r :: r in book.ledger && r.batch == b { InBatchesOf(book.ledger, b); }
    assert |multiset(s)| == |multiset(bs)|;
    NoRepeats(bs);
    forall i, j | 0 <= i < j < |s| ensures s[i] < s[j] {
      if s[i] == s[j] { Twice(s, i, j); }
    }
  }

  lemma {:induction false} NoRepeats(bs: seq<nat>)
    requires forall i, j :: 0 <= i < j < |bs| ==> bs[i] != bs[j]
    ensures forall b :: multiset(bs)[b] <= 1
  {
    if bs != [] {
      var n := |bs| - 1;
      NoRepeats(bs[..n]);
      assert bs == bs[..n] + [bs[n]];
      assert bs[n] !in multiset(bs[..n]);
    }
  }

  lemma Twice(s: seq<nat>, i: nat, j: nat)
    requires i < j < |s| && s[i] == s[j]
    ensures multiset(s)[s[i]] >= 2
  {
    assert s == s[..j] + s[j..];
    assert s[i] in multiset(s[..j]) && s[j] in multiset(s[j..]) by { assert s[..j][i] == s[i] && s[j..][0] == s[j]; }
  }

  // ---- What the disk may hold -----------------------------------------------------------------

  /** The number of batches of every scan; and a list of replies that the checkpoint of one of the
      scans is known to continue. */
  datatype View = View(totals: string -> nat, scanId: string, base: seq<Reply>)

  function BaseOf(v: View, id: string): seq<Reply> {
    if id == v.scanId then v.base else []
  }

  ghost predicate CheckpointIs(v: View, id: string, heard: seq<Reply>, content: string, book: Book) {
    && LedgerOk(id, v.totals(id), heard, book.ledger)
    && BaseOf(v, id) <= book.ledger
    && content == Stringify(CheckpointValue(Recorded(id, v.totals(id), book)))
  }

  /** Where the content of a cache entry comes from. */
  datatype Origin = Origin(reply: Reply, now: nat, expiry: nat, outcome: WriteOutcome)

  function EntryText(o: Origin): string
    requires Accepted(o.reply)
  {
    Stringify(EntryValue(KeyOfReply(o.reply), VerificationsOf(o.reply), TokensOfReply(o.reply), o.now, o.expiry))
  }

  /** A whole entry for a heard reply, or what an error or a crash left of one. */
  ghost predicate EntryIs(v: View, heard: seq<Reply>, path: string, content: string, o: Origin) {
    && o.reply in heard && Accepted(o.reply) && o.reply.batch < v.totals(o.reply.scanId)
    && path == EntryPath(KeyOfReply(o.reply))
    && Arrived(EntryText(o), o.outcome) == Some(content)
  }

  /** Every checkpoint is whole, and continues its base; every cache entry stems from a heard reply. */
  ghost predicate WorldOk(v: View, w: World) {
    && (forall id :: CheckpointPath(id) in w.files ==>
          exists book :: CheckpointIs(v, id, w.heard, w.files[CheckpointPath(id)], book))
    && (forall path :: path in w.files && InEntries(path) ==>
          exists o :: EntryIs(v, w.heard, path, w.files[path], o))
  }

  /** A crash during an event. */
  ghost predicate Cut(w: World, e: Event, w': World) {
    w'.heard == w.heard && if e.Io? then Interrupted(w.files, e.op, w'.files) else w'.files == w.files
  }

  /** All is well before, within and after each of the events. */
  ghost predicate Safe(v: View, w: World, events: seq<Event>)
    decreases |events|
  {
    && WorldOk(v, w)
    && (events != [] ==>
          && (forall w' :: Cut(w, events[0], w') ==> WorldOk(v, w'))
          && Safe(v, Step(w, events[0]), events[1..]))
  }

  lemma {:induction false} AfterAppend(w: World, a: seq<Event>, b: seq<Event>)
    ensures After(w, a + b) == After(After(w, a), b)
    decreases |a|
  {
    if a == [] {
      assert a + b == b;
    } else {
      assert (a + b)[1..] == a[1..] + b;
      AfterAppend(Step(w, a[0]), a[1..], b);
    }
  }

  lemma {:induction false} AfterFiles(w: World, events: seq<Event>)
    ensures After(w, events).files == ApplyAll(w.files, Ops(events))
    decreases |events|
  {
    if events != [] {
      hide Apply;
      AfterFiles(Step(w, events[0]), events[1..]);
      if events[0].Io? {
        assert ([events[0].op] + Ops(events[1..]))[1..] == Ops(events[1..]);
      } else {
        assert [] + Ops(events[1..]) == Ops(events[1..]);
      }
    }
  }

  lemma {:induction false} SafeAppend(v: View, w: World, a: seq<Event>, b: seq<Event>)
    requires Safe(v, w, a) && Safe(v, After(w, a), b)
    ensures Safe(v, w, a + b)
    decreases |a|
  {
    hide WorldOk, Cut, Step;
    if a == [] {
      assert a + b == b;
    } else {
      assert (a + b)[1..] == a[1..] + b;
      SafeAppend(v, Step(w, a[0]), a[1..], b);
    }
  }

  lemma {:induction false} SafeAt(v: View, w: World, events: seq<Event>, k: nat)
    requires Safe(v, w, events) && k <= |events|
    ensures WorldOk(v, After(w, events[..k]))
    ensures k < |events| ==> forall w' :: Cut(After(w, events[..k]), events[k], w') ==> WorldOk(v, w')
    decreases k
  {
    hide WorldOk, Cut, Step;
    if k == 0 {
      assert events[..0] == [];
    } else {
      assert events[..k][1..] == events[1..][..k - 1];
      SafeAt(v, Step(w, events[0]), events[1..], k - 1);
    }
  }

  // ---- Steps that keep it so ------------------------------------------------------------------

  lemma HearingIsSafe(v: View, w: World, r: Reply)
    requires WorldOk(v, w)
    ensures WorldOk(v, w.(heard := w.heard + [r]))
  {
    hide CheckpointPath, InEntries, EntryText, Stringify, CheckpointValue, Recorded, EntryPath;
    var w' := w.(heard := w.heard + [r]);
    forall id | CheckpointPath(id) in w.files ensures exists book :: CheckpointIs(v, id, w'.heard, w.files[CheckpointPath(id)], book) {
      var book :| CheckpointIs(v, id, w.heard, w.files[CheckpointPath(id)], book);
      assert CheckpointIs(v, id, w'.heard, w.files[CheckpointPath(id)], book);
    }
    forall path | path in w.files && InEntries(path) ensures exists o :: EntryIs(v, w'.heard, path, w.files[path], o) {
      var o :| EntryIs(v, w.heard, path, w.files[path], o);
      assert EntryIs(v, w'.heard, path, w.files[path], o);
    }
  }

  /** A write to a file that is neither a checkpoint nor an entry is invisible. */
  lemma OtherFileIsSafe(v: View, w: World, path: string, content: string)
    requires WorldOk(v, w) && (forall id :: path != CheckpointPath(id)) && !InEntries(path)
    ensures WorldOk(v, w.(files := w.files[path := content]))
  {
    hide CheckpointIs, EntryIs, InEntries, CheckpointPath;
  }

  lemma EntryWriteIsSafe(v: View, w: World, path: string, content: string, o: Origin)
    requires WorldOk(v, w) && EntryIs(v, w.heard, path, content, o)
    ensures WorldOk(v, w.(files := w.files[path := content]))
  {
    hide CheckpointIs, InEntries, CheckpointPath, EntryText, EntryPath;
    assert InEntries(path);
    forall id ensures path != CheckpointPath(id) { PathsApart(id, path); }
    hide EntryIs;
  }

  lemma CheckpointReplaced(v: View, id: string, w: World, content: string, book: Book)
    requires WorldOk(v, w) && CheckpointIs(v, id, w.heard, content, book)
    ensures WorldOk(v, w.(files := w.files[CheckpointPath(id) := content]))
  {
    hide CheckpointIs, EntryIs, InEntries, CheckpointPath;
    forall path | InEntries(path) ensures path != CheckpointPath(id) { PathsApart(id, path); }
    forall other | CheckpointPath(other) == CheckpointPath(id) ensures other == id { ScansApart(other, id); }
  }

  lemma RemovalIsSafe(v: View, w: World, path: string)
    requires WorldOk(v, w)
    ensures WorldOk(v, w.(files := w.files - {path}))
  {
    hide CheckpointIs, EntryIs, InEntries, CheckpointPath;
  }

  lemma TornTwice(text: string, outcome: WriteOutcome, content: string, n: nat, cut: bool)
    requires Arrived(text, outcome) == Some(content) && n < |content|
    ensures n < |text| ==> Arrived(text, WriteOutcome.Partial(n, cut)) == Some(Torn(content, n, cut))
    ensures n < |text|
  {
    if outcome.Partial? && outcome.n < |text| {
      assert Torn(text, outcome.n, outcome.cut)[..n] == text[..n];
    }
  }

  lemma {:induction false} AfterIos(w: World, ops: seq<FileOp>)
    ensures After(w, Ios(ops)) == World(ApplyAll(w.files, ops), w.heard)
    decreases |ops|
  {
    if ops != [] {
      hide Apply;
      assert Ios(ops)[1..] == Ios(ops[1..]);
      AfterIos(World(Apply(w.files, ops[0]), w.heard), ops[1..]);
    }
  }

  lemma SafeNothing(v: View, w: World)
    requires WorldOk(v, w)
    ensures Safe(v, w, []) && After(w, []) == w
  {}

  lemma SafeOne(v: View, w: World, e: Event)
    requires WorldOk(v, w) && WorldOk(v, Step(w, e)) && forall w' :: Cut(w, e, w') ==> WorldOk(v, w')
    ensures Safe(v, w, [e]) && After(w, [e]) == Step(w, e)
  {
    hide WorldOk, Cut, Step;
    assert [e][1..] == [];
    SafeNothing(v, Step(w, e));
  }

  lemma TempWriteIsSafe(v: View, id: string, w: World, content: string)
    requires WorldOk(v, w)
    ensures var e := Io(WriteFile(TempOf(CheckpointPath(id)), content));
      Safe(v, w, [e]) && WorldOk(v, Step(w, e))
  {
    hide WorldOk, InEntries, CheckpointPath, TempOf, Safe, After;
    var path := TempOf(CheckpointPath(id));
    if InEntries(path) { PathsApart(id, path); }
    var e := Io(WriteFile(path, content));
    forall other ensures path != CheckpointPath(other) { ScansApart(id, other); }
    OtherFileIsSafe(v, w, path, content);
    forall w' | Cut(w, e, w') ensures WorldOk(v, w') {
      if w'.files == w.files {
        assert w' == w;
      } else {
        var n: nat, cut: bool :| n < |content| && w'.files == w.files[path := Torn(content, n, cut)];
        OtherFileIsSafe(v, w, path, Torn(content, n, cut));
        assert w' == w.(files := w.files[path := Torn(content, n, cut)]);
      }
    }
    SafeOne(v, w, e);
  }

  lemma RenameIsSafe(v: View, id: string, w: World, book: Book)
    requires WorldOk(v, w) && TempOf(CheckpointPath(id)) in w.files
    requires CheckpointIs(v, id, w.heard, w.files[TempOf(CheckpointPath(id))], book)
    ensures Safe(v, w, [Io(Rename(TempOf(CheckpointPath(id)), CheckpointPath(id)))])
  {
    var temp, path := TempOf(CheckpointPath(id)), CheckpointPath(id);
    var e := Io(Rename(temp, path));
    hide WorldOk, CheckpointIs, CheckpointPath, TempOf, Safe, After;
    var content := w.files[temp];
    RemovalIsSafe(v, w, temp);
    CheckpointReplaced(v, id, w.(files := w.files - {temp}), content, book);
    forall w' | Cut(w, e, w') ensures WorldOk(v, w') { assert w' == w; }
    SafeOne(v, w, e);
  }

  lemma SavedTextIs(v: View, id: string, heard: seq<Reply>, book: Book, now: nat)
    requires LedgerOk(id, v.totals(id), heard, book.ledger) && BaseOf(v, id) <= book.ledger
    ensures CheckpointIs(v, id, heard, CheckpointText(Recorded(id, v.totals(id), book), now), book.(updatedAt := now))
  {
    hide Stringify, CheckpointValue, Sort, Collected, Tokens, BatchesOf;
  }

  /** Saving a record of heard replies is safe. */
  lemma SaveIsSafe(v: View, id: string, w: World, book: Book, env: SaveEnv)
    requires WorldOk(v, w) && LedgerOk(id, v.totals(id), w.heard, book.ledger) && BaseOf(v, id) <= book.ledger
    ensures Safe(v, w, Ios(SaveOps(Recorded(id, v.totals(id), book), env)))
  {
    hide WorldOk, CheckpointIs, CheckpointPath, TempOf, AtomicSave, CheckpointText, Safe, After, Sort, Collected, Tokens, BatchesOf, BaseOf;
    var c := Recorded(id, v.totals(id), book);
    var ops, temp, path, text := SaveOps(c, env), TempOf(CheckpointPath(id)), CheckpointPath(id), CheckpointText(c, env.now);
    SaveShape(path, text, env);
    var book' := book.(updatedAt := env.now);
    SavedTextIs(v, id, w.heard, book, env.now);
    if Succeeds(env) {
      var w' := w.(files := w.files[temp := text]);
      TempWriteIsSafe(v, id, w, text);
      assert Step(w, Io(WriteFile(temp, text))) == w';
      RenameIsSafe(v, id, w', book');
      AfterOne(w, Io(WriteFile(temp, text)));
      SafeAppend(v, w, [Io(WriteFile(temp, text))], [Io(Rename(temp, path))]);
      assert Ios(ops) == [Io(WriteFile(temp, text))] + [Io(Rename(temp, path))];
    } else if ops == [] {
      SafeNothing(v, w);
      assert Ios(ops) == [];
    } else {
      var part :| ops == [WriteFile(temp, part)];
      TempWriteIsSafe(v, id, w, part);
      assert Ios(ops) == [Io(WriteFile(temp, part))];
    }
  }

  lemma AfterOne(w: World, e: Event)
    ensures After(w, [e]) == Step(w, e)
  {
    assert [e][1..] == [];
  }

  lemma EntryStoreIsSafe(v: View, w: World, path: string, content: string, o: Origin)
    requires WorldOk(v, w) && EntryIs(v, w.heard, path, content, o)
    ensures Safe(v, w, [Io(WriteFile(path, content))])
  {
    hide WorldOk, EntryPath, EntryText, Safe, After;
    var e := Io(WriteFile(path, content));
    EntryWriteIsSafe(v, w, path, content, o);
    assert Step(w, e) == w.(files := w.files[path := content]);
    forall w' | Cut(w, e, w') ensures WorldOk(v, w') {
      if w'.files == w.files {
        assert w' == w;
      } else {
        var n: nat, cut: bool :| n < |content| && w'.files == w.files[path := Torn(content, n, cut)];
        var o' := o.(outcome := WriteOutcome.Partial(n, cut));
        SameText(o, o');
        TornTwice(EntryText(o), o.outcome, content, n, cut);
        EntryWriteIsSafe(v, w, path, Torn(content, n, cut), o');
        assert w' == w.(files := w.files[path := Torn(content, n, cut)]);
      }
    }
    SafeOne(v, w, e);
  }

  lemma SameText(o: Origin, o': Origin)
    requires Accepted(o.reply) && o' == o.(outcome := o'.outcome)
    ensures EntryText(o) == EntryText(o')
  {
    hide Stringify, EntryValue;
  }

  function OriginOf(job: Job, r: Reply, env: BatchEnv): Origin {
    Origin(r, env.storedAt, env.storedAt + job.ttlDays * DAY_MS, env.cacheWrite)
  }

  /** Storing a heard reply in the cache is safe, and leaves every checkpoint alone. */
  lemma CacheStoreIsSafe(v: View, job: Job, w: World, r: Reply, env: BatchEnv)
    requires WorldOk(v, w) && r in w.heard && Accepted(r) && r.batch < v.totals(r.scanId)
    ensures Safe(v, w, Ios(CacheOps(job, r, env)))
  {
    hide WorldOk, EntryPath, EntryText, Safe, Accepted, CacheOps;
    var path, ops := EntryPath(KeyOfReply(r)), CacheOps(job, r, env);
    var o := OriginOf(job, r, env);
    EntryTextIs(job, r, env);
    if env.cacheWrite == Refused {
      SafeNothing(v, w);
      assert Ios(ops) == [];
    } else {
      var content := Arrived(EntryText(o), env.cacheWrite).value;
      assert ops == [WriteFile(path, content)] && Ios(ops) == [Io(WriteFile(path, content))];
      EntryStoreIsSafe(v, w, path, content, o);
    }
  }

  lemma EntryTextIs(job: Job, r: Reply, env: BatchEnv)
    requires Accepted(r)
    ensures CacheOps(job, r, env) == WriteOps(EntryPath(KeyOfReply(r)), EntryText(OriginOf(job, r, env)), env.cacheWrite)
  {
    hide VerificationsOf, TokensOfReply, EntryPath, Stringify, EntryValue, Accepted;
  }

  lemma CacheSparesCheckpoints(job: Job, fs: Files, r: Reply, env: BatchEnv, id: string, fault: bool)
    requires Accepted(r)
    ensures LoadCheckpoint(ApplyAll(fs, CacheOps(job, r, env)), id, fault) == LoadCheckpoint(fs, id, fault)
  {
    hide EntryPath, EntryText, CheckpointPath, ReadCheckpoint, ApplyAll, Accepted, CacheOps, InEntries;
    var path, ops := EntryPath(KeyOfReply(r)), CacheOps(job, r, env);
    EntryTextIs(job, r, env);
    PathsApart(id, path);
    ApplyNothing(fs);
    if env.cacheWrite != Refused {
      var content := Arrived(EntryText(OriginOf(job, r, env)), env.cacheWrite).value;
      assert ops == [WriteFile(path, content)];
      ApplyOne(fs, WriteFile(path, content));
    }
  }

  // ---- Marking --------------------------------------------------------------------------------

  /** What can be loaded is the record of the book. */
  lemma LoadedIsRecorded(v: View, id: string, w: World, fault: bool) returns (book: Book)
    requires WorldOk(v, w) && LoadCheckpoint(w.files, id, fault).Some?
    ensures CheckpointIs(v, id, w.heard, w.files[CheckpointPath(id)], book)
    ensures LoadCheckpoint(w.files, id, fault) == Some(Recorded(id, v.totals(id), book))
    ensures id != "" && book.url != ""
  {
    hide CheckpointPath, ReadCheckpoint, Sort, BatchesOf, Collected, Tokens, CheckpointValue, Stringify, InEntries, EntryIs;
    book :| CheckpointIs(v, id, w.heard, w.files[CheckpointPath(id)], book);
    CheckpointRoundTrip(Recorded(id, v.totals(id), book));
  }

  lemma LedgerGrows(id: string, total: nat, heard: seq<Reply>, ledger: seq<Reply>, r: Reply)
    requires LedgerOk(id, total, heard, ledger) && r in heard && Accepted(r) && r.scanId == id && r.batch < total
    requires r.batch !in BatchesOf(ledger)
    ensures LedgerOk(id, total, heard, ledger + [r]) && ledger <= ledger + [r]
  {
    hide Accepted;
    forall i | 0 <= i < |ledger| ensures ledger[i].batch != r.batch {
      assert BatchesOf(ledger)[i] == ledger[i].batch;
    }
  }

  /** Marking a batch that is not in the record adds its reply to the end of the ledger. */
  lemma MarkedIsRecorded(id: string, total: nat, heard: seq<Reply>, book: Book, r: Reply)
    requires LedgerOk(id, total, heard, book.ledger) && r in heard && Accepted(r) && r.scanId == id && r.batch < total
    requires r.batch !in Recorded(id, total, book).completedBatches
    ensures var book' := book.(ledger := book.ledger + [r]);
      && LedgerOk(id, total, heard, book'.ledger) && book.ledger <= book'.ledger
      && Marked(Recorded(id, total, book), r.batch, VerificationsOf(r), TokensOfReply(r)) == Recorded(id, total, book')
      && (forall b: nat :: b in Recorded(id, total, book').completedBatches <==> b in Recorded(id, total, book).completedBatches || b == r.batch)
  {
    hide VerificationsOf, TokensOfReply, Accepted, Sort, Insert, BatchesOf;
    InBatchesOf(book.ledger, r.batch);
    LedgerGrows(id, total, heard, book.ledger, r);
    LedgerSnoc(book.ledger, r);
    SortSnoc(BatchesOf(book.ledger), r.batch);
    forall b: nat ensures b in Sort(Ascending(), BatchesOf(book.ledger + [r])) <==> b in Sort(Ascending(), BatchesOf(book.ledger)) || b == r.batch {
      InBatchesOf(book.ledger, b);
      InBatchesOf(book.ledger + [r], b);
    }
  }

  lemma LedgerSnoc(ledger: seq<Reply>, r: Reply)
    requires AllAccepted(ledger) && Accepted(r)
    ensures AllAccepted(ledger + [r])
    ensures BatchesOf(ledger + [r]) == BatchesOf(ledger) + [r.batch]
    ensures Collected(ledger + [r]) == Collected(ledger) + VerificationsOf(r)
    ensures Tokens(ledger + [r]) == Tokens(ledger) + TokensOfReply(r)
  {
    hide VerificationsOf, TokensOfReply, Accepted;
    assert (ledger + [r])[..|ledger|] == ledger;
  }

  lemma SortSnoc(bs: seq<nat>, b: nat)
    ensures Sort(Ascending(), Sort(Ascending(), bs) + [b]) == Sort(Ascending(), bs + [b])
  {
    var s := Sort(Ascending(), bs);
    AscendingIsOrder();
    SortSorts(Ascending(), bs);
    SortOfSorted(Ascending(), s);
    assert (s + [b])[..|s|] == s && (bs + [b])[..|bs|] == bs;
  }

  /** The batches the checkpoint on disk has are those of the session's start and those below `b`. */
  ghost predicate NotYet(id: string, fs: Files, skip: seq<nat>, b: nat) {
    var c := LoadCheckpoint(fs, id, false);
    c.Some? ==> forall x :: x in c.value.completedBatches ==> x in skip || x < b
  }

  lemma LoadFaulty(fs: Files, scanId: string, fault: bool)
    ensures LoadCheckpoint(fs, scanId, fault).Some? ==> LoadCheckpoint(fs, scanId, fault) == LoadCheckpoint(fs, scanId, false)
  {}

  lemma MarkIsSafe(v: View, w: World, r: Reply, fault: bool, env: SaveEnv, skip: seq<nat>)
    requires WorldOk(v, w) && r in w.heard && Accepted(r) && r.batch < v.totals(r.scanId)
    requires NotYet(r.scanId, w.files, skip, r.batch) && r.batch !in skip
    ensures var ops := MarkOps(w.files, r.scanId, r.batch, VerificationsOf(r), TokensOfReply(r), fault, env);
      Safe(v, w, Ios(ops)) && NotYet(r.scanId, ApplyAll(w.files, ops), skip, r.batch + 1)
  {
    hide WorldOk, Safe, SaveOps, LoadCheckpoint, ApplyAll, LedgerOk, Recorded, Marked, VerificationsOf, TokensOfReply, Accepted;
    var loaded := LoadCheckpoint(w.files, r.scanId, fault);
    if loaded.None? {
      ApplyNothing(w.files);
      SafeNothing(v, w);
      assert Ios([]) == [];
    } else {
      LoadFaulty(w.files, r.scanId, fault);
      MarkOfLoadedIsSafe(v, w, r, fault, env, skip);
    }
  }

  lemma MarkOfLoadedIsSafe(v: View, w: World, r: Reply, fault: bool, env: SaveEnv, skip: seq<nat>)
    requires WorldOk(v, w) && r in w.heard && Accepted(r) && r.batch < v.totals(r.scanId)
    requires NotYet(r.scanId, w.files, skip, r.batch) && r.batch !in skip
    requires LoadCheckpoint(w.files, r.scanId, fault).Some? && LoadCheckpoint(w.files, r.scanId, fault) == LoadCheckpoint(w.files, r.scanId, false)
    ensures var c := LoadCheckpoint(w.files, r.scanId, fault).value;
      var ops := SaveOps(Marked(c, r.batch, VerificationsOf(r), TokensOfReply(r)), env);
      Safe(v, w, Ios(ops)) && NotYet(r.scanId, ApplyAll(w.files, ops), skip, r.batch + 1)
  {
    hide WorldOk, Safe, SaveOps, LoadCheckpoint, ApplyAll, Sort, BatchesOf, Collected, Tokens, CheckpointValue, Stringify, Marked, VerificationsOf, TokensOfReply, Accepted;
    var book := LoadedIsRecorded(v, r.scanId, w, fault);
    MarkedIsRecorded(r.scanId, v.totals(r.scanId), w.heard, book, r);
    var book' := book.(ledger := book.ledger + [r]);
    SaveIsSafe(v, r.scanId, w, book', env);
    SaveLoads(w.files, Recorded(r.scanId, v.totals(r.scanId), book'), env);
  }

  lemma SaveLoads(fs: Files, c: CriteriaCheckpoint, env: SaveEnv)
    requires AllPrintable(c.partialVerifications)
    ensures var l := LoadCheckpoint(ApplyAll(fs, SaveOps(c, env)), c.scanId, false);
      l == LoadCheckpoint(fs, c.scanId, false) || l == None || l == Some(c.(updatedAt := env.now))
  {
    hide ReadCheckpoint, CheckpointPath, AtomicSave, ApplyAll, CheckpointValue, Stringify;
    SaveApplied(fs, CheckpointPath(c.scanId), CheckpointText(c, env.now), env);
    CheckpointRoundTrip(c.(updatedAt := env.now));
  }
}

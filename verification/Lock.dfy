/** The lock file that keeps two processes from scanning at once, as a step system: every interleaving
    of creating, writing, reading, judging, unlinking, releasing and dying. */
module Lock {
  import opened Wrappers
  import opened JsonValue
  import opened Disk
  import JsonParser
  import BraceScanner
  import ResultParser

  const TWENTY_FOUR_HOURS_MS := 86400000

  datatype LockInfo = LockInfo(pid: nat, startedAt: nat)

  /** The lock file, and the process that created it. */
  datatype LockFile = LockFile(owner: nat, content: string)

  /** Where a process is: out of the protocol; about to create the file; writing it; holding the lock;
      told that the file exists; having read it; having found it stale; or no longer running. */
  datatype Place =
    | Idle
    | Trying(startedAt: nat)
    | Writing(startedAt: nat)
    | Holding(startedAt: nat)
    | Blocked
    | Judging(info: LockInfo)
    | Stealing
    | Dead

  datatype State = State(file: Option<LockFile>, places: map<nat, Place>, now: nat)

  datatype Step =
    | Start(p: nat)
    | Create(p: nat)
    | WritePart(p: nat, n: nat, cut: bool)
    | WriteDone(p: nat)
    | WriteFailed(p: nat)
    | Read(p: nat, fault: bool)
    | Judge(p: nat)
    | Steal(p: nat, fault: bool)
    | Release(p: nat, fault: bool)
    | Die(p: nat)
    | Tick(ms: nat)

  // ---- The content of the file ----------------------------------------------------------------

  function LockValue(p: nat, startedAt: nat): (v: Value)
    ensures Printable(v) && v.VObj?
  {
    VObj([
      Member("pid", VNum(p as real)),
      Member("startedAt", VNum(startedAt as real)),
      Member("hostname", VStr("host"))])
  }

  function LockText(p: nat, startedAt: nat): string {
    Stringify(LockValue(p, startedAt))
  }

  /** A file that does not parse tells nothing. */
  function ReadLock(content: string): Option<LockInfo> {
    match Parse(content)
    case None => None
    case Some(v) =>
      match (Get(v, "pid"), Get(v, "startedAt"))
      case (Some(VNum(p)), Some(VNum(s))) => if p >= 0.0 && s >= 0.0 then Some(LockInfo(p.Floor, s.Floor)) else None
      case _ => None
  }

  lemma LockReadsBack(p: nat, startedAt: nat)
    ensures ReadLock(LockText(p, startedAt)) == Some(LockInfo(p, startedAt))
  {
    hide Stringify, Lookup;
    var v := LockValue(p, startedAt);
    StringifyRoundTrip(v);
    assert |v.members[0].key| == 3 && |v.members[1].key| == 9 && |v.members[2].key| == 8;
    ResultParser.LookupAt(v.members, 0);
    ResultParser.LookupAt(v.members, 1);
  }

  lemma TornLockIsUnreadable(p: nat, startedAt: nat, n: nat, cut: bool)
    requires n < |LockText(p, startedAt)|
    ensures ReadLock(Torn(LockText(p, startedAt), n, cut)) == None
  {
    hide Layout, JsonParser.ParseJson;
    var v := LockValue(p, startedAt);
    BraceScanner.TornObjectIsNotJson(Layout(v, 0), n);
    var text := Stringify(v)[..n];
    assert text + [] == text;
  }

  // ---- Steps ----------------------------------------------------------------------------------

  predicate Runs(s: State, p: nat) {
    p in s.places && !s.places[p].Dead?
  }

  predicate Stale(s: State, info: LockInfo) {
    !Runs(s, info.pid) || s.now - info.startedAt > TWENTY_FOUR_HOURS_MS
  }

  predicate Enabled(s: State, step: Step) {
    match step
    case Start(p) => p in s.places && s.places[p].Idle?
    case Create(p) => p in s.places && s.places[p].Trying?
    case WritePart(p, n, _) => p in s.places && s.places[p].Writing? && s.file.Some? && n < |LockText(p, s.places[p].startedAt)|
    case WriteDone(p) => p in s.places && s.places[p].Writing? && s.file.Some?
    case WriteFailed(p) => p in s.places && s.places[p].Writing?
    case Read(p, _) => p in s.places && s.places[p].Blocked?
    case Judge(p) => p in s.places && s.places[p].Judging?
    case Steal(p, _) => p in s.places && s.places[p].Stealing?
    case Release(p, _) => p in s.places && s.places[p].Holding?
    case Die(p) => Runs(s, p)
    case Tick(_) => true
  }

  function Put(s: State, p: nat, place: Place): State {
    s.(places := s.places[p := place])
  }

  /** `wx` creates the file or finds it there; a takeover unlinks whatever is there and starts over.
      An error in a write or an unlink is thrown to the caller, who gives up. */
  function Next(s: State, step: Step): State
    requires Enabled(s, step)
  {
    match step
    case Start(p) => Put(s, p, Trying(s.now))
    case Create(p) =>
      if s.file.Some? then Put(s, p, Blocked)
      else Put(s, p, Writing(s.places[p].startedAt)).(file := Some(LockFile(p, "")))
    case WritePart(p, n, cut) => s.(file := Some(s.file.value.(content := Torn(LockText(p, s.places[p].startedAt), n, cut))))
    case WriteDone(p) =>
      Put(s, p, Holding(s.places[p].startedAt)).(file := Some(s.file.value.(content := LockText(p, s.places[p].startedAt))))
    case WriteFailed(p) => Put(s, p, Idle)
    case Read(p, fault) =>
      var info := if fault || s.file.None? then None else ReadLock(s.file.value.content);
      Put(s, p, if info.None? then Idle else Judging(info.value))
    case Judge(p) => Put(s, p, if Stale(s, s.places[p].info) then Stealing else Idle)
    case Steal(p, fault) => if fault then Put(s, p, Idle) else Put(s, p, Trying(s.now)).(file := None)
    case Release(p, fault) => Put(s, p, Idle).(file := if fault then s.file else None)
    case Die(p) => Put(s, p, Dead)
    case Tick(ms) => s.(now := s.now + ms)
  }

  predicate Follows(s: State, steps: seq<Step>)
    decreases |steps|
  {
    steps == [] || (Enabled(s, steps[0]) && Follows(Next(s, steps[0]), steps[1..]))
  }

  function Reach(s: State, steps: seq<Step>): State
    requires Follows(s, steps)
    decreases |steps|
  {
    if steps == [] then s else Reach(Next(s, steps[0]), steps[1..])
  }

  predicate Initial(s: State) {
    s.file.None? && forall p :: p in s.places ==> s.places[p].Idle?
  }

  // ---- Assumptions ----------------------------------------------------------------------------

  /** Having read the lock of a process that no longer runs, and not yet removed it. */
  predicate TakingOver(s: State, q: nat) {
    q in s.places && (s.places[q].Stealing? || (s.places[q].Judging? && !Runs(s, s.places[q].info.pid)))
  }

  /** One takeover at a time. */
  predicate OneTakeover(s: State) {
    forall p, q :: p in s.places && q in s.places && TakingOver(s, p) && TakingOver(s, q) ==> p == q
  }

  /** A lock that is being judged belongs to a dead process or is not older than 24 hours. */
  predicate NoOldLocks(s: State) {
    forall q :: q in s.places && s.places[q].Judging? && Runs(s, s.places[q].info.pid) ==>
      s.now - s.places[q].info.startedAt <= TWENTY_FOUR_HOURS_MS
  }

  /** A process does not end while another still judges a lock that it has given up. */
  predicate NoEarlyExit(s: State, step: Step) {
    step.Die? ==> forall q :: q in s.places && q != step.p && s.places[q].Judging? && s.places[q].info.pid == step.p ==>
      s.file.Some? && s.file.value.owner == step.p
  }

  /** Which of the three a run is held to. */
  datatype Assumed = Assumed(oneTakeover: bool, noOldLocks: bool, noEarlyExit: bool)

  const ALL := Assumed(true, true, true)

  predicate Allowed(a: Assumed, s: State, step: Step) {
    && (a.oneTakeover ==> OneTakeover(s))
    && (a.noOldLocks ==> NoOldLocks(s))
    && (a.noEarlyExit ==> NoEarlyExit(s, step))
  }

  predicate AllAllowed(a: Assumed, s: State, steps: seq<Step>)
    requires Follows(s, steps)
    decreases |steps|
  {
    steps == [] || (Allowed(a, s, steps[0]) && AllAllowed(a, Next(s, steps[0]), steps[1..]))
  }

  // ---- Mutual exclusion -----------------------------------------------------------------------

  predicate MutualExclusion(s: State) {
    forall p, q :: p in s.places && q in s.places && s.places[p].Holding? && s.places[q].Holding? ==> p == q
  }

  predicate HasFile(s: State, p: nat) {
    s.file.Some? && s.file.value.owner == p
  }

  /** What a reader gets from the file is its creator's, or nothing. */
  predicate FileTells(f: LockFile) {
    var info := ReadLock(f.content);
    info.Some? ==> info.value.pid == f.owner
  }

  predicate OwnersHaveFile(s: State) {
    forall p :: p in s.places && (s.places[p].Holding? || s.places[p].Writing?) ==> HasFile(s, p)
  }

  predicate FileIsKnown(s: State) {
    s.file.Some? ==> s.file.value.owner in s.places && FileTells(s.file.value)
  }

  /** Only the file of a dead process is ever taken over. */
  ghost predicate TakeoversAreSafe(s: State) {
    forall q :: TakingOver(s, q) ==> s.file.Some? && !Runs(s, s.file.value.owner)
  }

  ghost predicate Inv(s: State) {
    OwnersHaveFile(s) && FileIsKnown(s) && TakeoversAreSafe(s)
  }

  lemma EmptyIsUnreadable()
    ensures ReadLock("") == None
  {
    BraceScanner.NothingIsNotJson();
  }

  lemma OwnersKeepFile(s: State, step: Step)
    requires Inv(s) && Enabled(s, step) && Allowed(ALL, s, step)
    ensures OwnersHaveFile(Next(s, step))
  {
    hide ReadLock, LockText;
    if step.Steal? { assert TakingOver(s, step.p); }
  }

  lemma FileStaysKnown(s: State, step: Step)
    requires Inv(s) && Enabled(s, step)
    ensures FileIsKnown(Next(s, step))
  {
    hide ReadLock, LockText;
    EmptyIsUnreadable();
    if step.WritePart? { TornLockIsUnreadable(step.p, s.places[step.p].startedAt, step.n, step.cut); }
    if step.WriteDone? { LockReadsBack(step.p, s.places[step.p].startedAt); }
  }

  lemma TakeoversStaySafe(s: State, step: Step)
    requires Inv(s) && Enabled(s, step) && Allowed(ALL, s, step)
    ensures TakeoversAreSafe(Next(s, step))
  {
    hide ReadLock, LockText;
    var t := Next(s, step);
    forall q | TakingOver(t, q) ensures t.file.Some? && !Runs(t, t.file.value.owner) {
      if step.Die? && !TakingOver(s, q) {
        assert q in s.places && q != step.p && HasFile(s, step.p);
      } else if !(step.Read? && q == step.p) {
        assert TakingOver(s, q);
      }
    }
  }

  lemma StepKeepsInv(s: State, step: Step)
    requires Inv(s) && Enabled(s, step) && Allowed(ALL, s, step)
    ensures Inv(Next(s, step))
  {
    OwnersKeepFile(s, step);
    FileStaysKnown(s, step);
    TakeoversStaySafe(s, step);
  }

  lemma {:induction false} RunKeepsInv(s: State, steps: seq<Step>)
    requires Inv(s) && Follows(s, steps) && AllAllowed(ALL, s, steps)
    ensures Inv(Reach(s, steps))
    decreases |steps|
  {
    hide Inv, Allowed, Enabled, Next;
    if steps != [] {
      StepKeepsInv(s, steps[0]);
      RunKeepsInv(Next(s, steps[0]), steps[1..]);
    }
  }

  /** In every run that keeps the assumptions, at most one process holds the lock. */
  lemma AtMostOneHolder(s: State, steps: seq<Step>)
    requires Initial(s) && Follows(s, steps) && AllAllowed(ALL, s, steps)
    ensures MutualExclusion(Reach(s, steps))
  {
    hide Follows, Reach, AllAllowed, ReadLock;
    RunKeepsInv(s, steps);
  }

  /** What a crash or a slow write leaves in the file is never taken over: its reader goes away. */
  lemma UnwrittenIsNotTaken(s: State, q: nat, p: nat, startedAt: nat, n: nat, cut: bool, fault: bool)
    requires Enabled(s, Read(q, fault)) && s.file.Some? && n < |LockText(p, startedAt)|
    requires s.file.value.content == "" || s.file.value.content == Torn(LockText(p, startedAt), n, cut)
    ensures Next(s, Read(q, fault)) == Put(s, q, Idle)
  {
    hide ReadLock, LockText;
    EmptyIsUnreadable();
    TornLockIsUnreadable(p, startedAt, n, cut);
  }

  // ---- Nobody gets past a torn file -----------------------------------------------------------

  /** An unreadable file is there, and no process is writing, holding, judging or taking over. */
  predicate Stuck(s: State) {
    && s.file.Some? && ReadLock(s.file.value.content).None?
    && (forall q :: q in s.places ==> s.places[q].Idle? || s.places[q].Trying? || s.places[q].Blocked? || s.places[q].Dead?)
  }

  lemma StuckStays(s: State, step: Step)
    requires Stuck(s) && Enabled(s, step)
    ensures Stuck(Next(s, step)) && Next(s, step).file == s.file
  {
    hide ReadLock, LockText;
  }

  /** Such a file outlives every run, with no assumption at all, and nobody holds the lock again. */
  lemma {:induction false} StuckIsForever(s: State, steps: seq<Step>)
    requires Stuck(s) && Follows(s, steps)
    ensures Stuck(Reach(s, steps)) && Reach(s, steps).file == s.file
    ensures forall q :: q in Reach(s, steps).places ==> !Reach(s, steps).places[q].Holding?
    decreases |steps|
  {
    hide Enabled, Next, ReadLock;
    if steps != [] {
      hide Stuck;
      StuckStays(s, steps[0]);
      StuckIsForever(Next(s, steps[0]), steps[1..]);
    }
  }

  // ---- Runs that are built step by step -------------------------------------------------------

  /** A run from `s0` that has come to `s`, all steps being allowed. */
  ghost predicate RunTo(a: Assumed, s0: State, steps: seq<Step>, s: State) {
    Follows(s0, steps) && Reach(s0, steps) == s && AllAllowed(a, s0, steps)
  }

  lemma StartHere(a: Assumed, s: State)
    ensures RunTo(a, s, [], s)
  {}

  lemma {:induction false} FollowOn(a: Assumed, s: State, steps: seq<Step>, step: Step)
    requires Follows(s, steps) && AllAllowed(a, s, steps)
    requires Enabled(Reach(s, steps), step) && Allowed(a, Reach(s, steps), step)
    ensures Follows(s, steps + [step]) && AllAllowed(a, s, steps + [step])
    ensures Reach(s, steps + [step]) == Next(Reach(s, steps), step)
    decreases |steps|
  {
    hide Enabled, Next, Allowed;
    if steps == [] {
      assert [] + [step] == [step] && [step][1..] == [];
    } else {
      assert (steps + [step])[1..] == steps[1..] + [step];
      FollowOn(a, Next(s, steps[0]), steps[1..], step);
    }
  }

  lemma Go(a: Assumed, s0: State, steps: seq<Step>, s: State, step: Step) returns (steps': seq<Step>, t: State)
    requires RunTo(a, s0, steps, s) && Enabled(s, step) && Allowed(a, s, step)
    ensures t == Next(s, step) && RunTo(a, s0, steps', t)
  {
    hide Enabled, Next, Allowed;
    FollowOn(a, s0, steps, step);
    steps', t := steps + [step], Next(s, step);
  }

  /** No process but `j` judges a lock or takes one over. */
  predicate OnlyJudge(s: State, j: nat) {
    forall q :: q in s.places && (s.places[q].Judging? || s.places[q].Stealing?) ==> q == j
  }

  predicate Calm(a: Assumed, s: State, j: nat) {
    (a.oneTakeover ==> OnlyJudge(s, j)) && (a.noOldLocks ==> NoOldLocks(s))
  }

  lemma CalmIsAllowed(a: Assumed, s: State, j: nat, step: Step)
    requires Calm(a, s, j) && !step.Die?
    ensures Allowed(a, s, step)
  {}

  /** From outside the protocol, and no file, to holding the lock. */
  lemma Acquire(a: Assumed, s0: State, steps: seq<Step>, s: State, p: nat, j: nat) returns (steps': seq<Step>, t: State)
    requires RunTo(a, s0, steps, s) && Calm(a, s, j)
    requires p in s.places && (s.places[p].Idle? || s.places[p].Trying?) && s.file.None?
    ensures RunTo(a, s0, steps', t) && Calm(a, t, j)
    ensures var started := if s.places[p].Idle? then s.now else s.places[p].startedAt;
      t == Put(s, p, Holding(started)).(file := Some(LockFile(p, LockText(p, started))))
  {
    hide LockText, RunTo, Allowed;
    steps', t := steps, s;
    if t.places[p].Idle? {
      CalmIsAllowed(a, t, j, Start(p));
      steps', t := Go(a, s0, steps', t, Start(p));
    }
    CalmIsAllowed(a, t, j, Create(p));
    steps', t := Go(a, s0, steps', t, Create(p));
    CalmIsAllowed(a, t, j, WriteDone(p));
    steps', t := Go(a, s0, steps', t, WriteDone(p));
  }

  /** From outside the protocol, and a readable lock, to having read it. */
  lemma Look(a: Assumed, s0: State, steps: seq<Step>, s: State, q: nat, info: LockInfo, j: nat) returns (steps': seq<Step>, t: State)
    requires RunTo(a, s0, steps, s) && Calm(a, s, j) && (a.oneTakeover ==> q == j)
    requires q in s.places && s.places[q].Idle? && s.file.Some? && ReadLock(s.file.value.content) == Some(info)
    requires a.noOldLocks && Runs(s, info.pid) ==> s.now - info.startedAt <= TWENTY_FOUR_HOURS_MS
    ensures RunTo(a, s0, steps', t) && Calm(a, t, j)
    ensures t == Put(s, q, Judging(info))
  {
    hide LockText, ReadLock, RunTo, Allowed;
    CalmIsAllowed(a, s, j, Start(q));
    steps', t := Go(a, s0, steps, s, Start(q));
    CalmIsAllowed(a, t, j, Create(q));
    steps', t := Go(a, s0, steps', t, Create(q));
    CalmIsAllowed(a, t, j, Read(q, false));
    steps', t := Go(a, s0, steps', t, Read(q, false));
  }

  /** From having read a lock that is stale to having taken its place. */
  lemma TakeOver(a: Assumed, s0: State, steps: seq<Step>, s: State, q: nat, j: nat) returns (steps': seq<Step>, t: State)
    requires RunTo(a, s0, steps, s) && Calm(a, s, j) && (a.oneTakeover ==> q == j)
    requires q in s.places && (s.places[q].Stealing? || (s.places[q].Judging? && Stale(s, s.places[q].info)))
    ensures RunTo(a, s0, steps', t) && Calm(a, t, j)
    ensures t == Put(s, q, Holding(s.now)).(file := Some(LockFile(q, LockText(q, s.now))))
  {
    hide LockText, ReadLock, RunTo, Allowed;
    steps', t := steps, s;
    if t.places[q].Judging? {
      CalmIsAllowed(a, t, j, Judge(q));
      steps', t := Go(a, s0, steps', t, Judge(q));
    }
    CalmIsAllowed(a, t, j, Steal(q, false));
    steps', t := Go(a, s0, steps', t, Steal(q, false));
    steps', t := Acquire(a, s0, steps', t, q, j);
  }

  // ---- When a lock that was left behind can be taken ------------------------------------------

  /** Every process is outside the protocol or has ended. */
  predicate Quiet(s: State) {
    forall q :: q in s.places ==> s.places[q].Idle? || s.places[q].Dead?
  }

  /** A process that ends, or whose write fails, while it writes the file leaves everyone stuck; and such
      a run keeps all assumptions. */
  lemma TornWriteSticks(s: State, p: nat, n: nat, cut: bool, dies: bool) returns (steps: seq<Step>, t: State)
    requires Quiet(s) && s.file.None? && p in s.places && s.places[p].Idle? && n < |LockText(p, s.now)|
    ensures RunTo(ALL, s, steps, t) && Stuck(t)
    ensures t.places == s.places[p := if dies then Dead else Idle]
  {
    StartHere(ALL, s);
    hide LockText, ReadLock, RunTo;
    TornLockIsUnreadable(p, s.now, n, cut);
    steps, t := Go(ALL, s, [], s, Start(p));
    steps, t := Go(ALL, s, steps, t, Create(p));
    steps, t := Go(ALL, s, steps, t, WritePart(p, n, cut));
    steps, t := Go(ALL, s, steps, t, if dies then Die(p) else WriteFailed(p));
  }

  /** The lock of a process that has ended can be taken at once by any process, all assumptions kept. */
  lemma DeadOwnersLockIsTaken(s: State, p: nat, info: LockInfo) returns (steps: seq<Step>, t: State)
    requires Quiet(s) && p in s.places && s.places[p].Idle?
    requires s.file.Some? && ReadLock(s.file.value.content) == Some(info) && !Runs(s, info.pid)
    ensures RunTo(ALL, s, steps, t) && t == Put(s, p, Holding(s.now)).(file := Some(LockFile(p, LockText(p, s.now))))
  {
    StartHere(ALL, s);
    hide LockText, ReadLock, RunTo;
    steps, t := Look(ALL, s, [], s, p, info, p);
    steps, t := TakeOver(ALL, s, steps, t, p, p);
  }

  /** Some continuation in which somebody comes to hold the lock. */
  ghost predicate CanBeHeld(s: State) {
    exists steps :: Follows(s, steps) && exists q :: q in Reach(s, steps).places && Reach(s, steps).places[q].Holding?
  }

  /** A lock that was left behind, by whomever, can ever be held again if and only if its file is readable. */
  lemma LeftLockIsTakenIff(s: State, p: nat)
    requires Quiet(s) && s.file.Some? && p in s.places && s.places[p].Idle?
    ensures CanBeHeld(s) <==> ReadLock(s.file.value.content).Some?
  {
    hide LockText, ReadLock, Follows, Reach;
    if ReadLock(s.file.value.content).Some? {
      var info := ReadLock(s.file.value.content).value;
      var a := Assumed(false, false, false);
      var ms := TWENTY_FOUR_HOURS_MS + 1 + info.startedAt;
      StartHere(a, s);
      var steps, t := Go(a, s, [], s, Tick(ms));
      steps, t := Look(a, s, steps, t, p, info, p);
      steps, t := TakeOver(a, s, steps, t, p, p);
      assert t.places[p].Holding?;
    } else {
      forall steps | Follows(s, steps) ensures forall q :: q in Reach(s, steps).places ==> !Reach(s, steps).places[q].Holding? {
        StuckIsForever(s, steps);
      }
    }
  }

  // ---- Each assumption is needed --------------------------------------------------------------

  function ThreeIdle(): State {
    State(None, map[1 := Idle, 2 := Idle, 3 := Idle], 0)
  }

  /** With two takeovers at once, two processes come to hold the lock, though all else is kept ... */
  lemma TwoTakeoversBreakIt() returns (steps: seq<Step>, s: State)
    ensures RunTo(Assumed(false, true, true), ThreeIdle(), steps, s) && !MutualExclusion(s)
  {
    var a, s0 := Assumed(false, true, true), ThreeIdle();
    StartHere(a, s0);
    hide LockText, ReadLock, RunTo, OneTakeover;
    LockReadsBack(1, 0);
    steps, s := Acquire(a, s0, [], s0, 1, 2);
    steps, s := Go(a, s0, steps, s, Die(1));
    steps, s := Look(a, s0, steps, s, 2, LockInfo(1, 0), 2);
    steps, s := Look(a, s0, steps, s, 3, LockInfo(1, 0), 2);
    CalmIsAllowed(a, s, 2, Judge(3));
    steps, s := Go(a, s0, steps, s, Judge(3));
    steps, s := TakeOver(a, s0, steps, s, 2, 2);
    steps, s := TakeOver(a, s0, steps, s, 3, 2);
    assert s.places[2].Holding? && s.places[3].Holding?;
  }

  /** ... so they do when a holder outlives the 24 hours ... */
  lemma OldLockBreaksIt() returns (steps: seq<Step>, s: State)
    ensures RunTo(Assumed(true, false, true), ThreeIdle(), steps, s) && !MutualExclusion(s)
  {
    var a, s0 := Assumed(true, false, true), ThreeIdle();
    StartHere(a, s0);
    hide LockText, ReadLock, RunTo;
    LockReadsBack(1, 0);
    steps, s := Acquire(a, s0, [], s0, 1, 2);
    CalmIsAllowed(a, s, 2, Tick(TWENTY_FOUR_HOURS_MS + 1));
    steps, s := Go(a, s0, steps, s, Tick(TWENTY_FOUR_HOURS_MS + 1));
    steps, s := Look(a, s0, steps, s, 2, LockInfo(1, 0), 2);
    steps, s := TakeOver(a, s0, steps, s, 2, 2);
    assert s.places[1].Holding? && s.places[2].Holding?;
  }

  /** ... and when a holder releases and ends while its lock is still being judged. */
  lemma EarlyExitBreaksIt() returns (steps: seq<Step>, s: State)
    ensures RunTo(Assumed(true, true, false), ThreeIdle(), steps, s) && !MutualExclusion(s)
  {
    var a, s0 := Assumed(true, true, false), ThreeIdle();
    StartHere(a, s0);
    hide LockText, ReadLock, RunTo;
    LockReadsBack(1, 0);
    steps, s := Acquire(a, s0, [], s0, 1, 2);
    steps, s := Look(a, s0, steps, s, 2, LockInfo(1, 0), 2);
    CalmIsAllowed(a, s, 2, Release(1, false));
    steps, s := Go(a, s0, steps, s, Release(1, false));
    steps, s := Acquire(a, s0, steps, s, 3, 2);
    steps, s := Go(a, s0, steps, s, Die(1));
    steps, s := TakeOver(a, s0, steps, s, 2, 2);
    assert s.places[2].Holding? && s.places[3].Holding?;
  }
}

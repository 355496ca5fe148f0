/** Selecting, ordering and batching the WCAG criteria of a conformance level. */
module Criteria {
  import opened Sequences
  import JsonGrammar
  import JsonValue

  datatype Level = A | AA | AAA

  datatype Criterion = Criterion(id: string, level: Level)

  /** Levels are cumulative. */
  predicate Included(target: Level, level: Level) {
    match target
    case A => level == A
    case AA => level == A || level == AA
    case AAA => true
  }

  function LevelText(l: Level): string {
    match l case A => "A" case AA => "AA" case AAA => "AAA"
  }

  // ---- The order of dotted ids ----------------------------------------------------------------

  /** `Number` of a part made of digits; the empty part counts as 0. */
  function Number(part: string): nat {
    if JsonGrammar.AllDigits(part) then JsonValue.DigitsValue(part) else 0
  }

  function Parts(id: string): seq<nat> {
    var parts := Split(id, (c: char) => c == '.');
    seq(|parts|, i requires 0 <= i < |parts| => Number(parts[i]))
  }

  function Part(a: seq<nat>, i: nat): nat {
    if i < |a| then a[i] else 0
  }

  function Longer(a: seq<nat>, b: seq<nat>): nat {
    if |a| < |b| then |b| else |a|
  }

  function CompareFrom(a: seq<nat>, b: seq<nat>, i: nat): int
    decreases Longer(a, b) - i
  {
    if i >= Longer(a, b) then 0
    else if Part(a, i) != Part(b, i) then Part(a, i) - Part(b, i)
    else CompareFrom(a, b, i + 1)
  }

  function CompareIds(a: string, b: string): int {
    CompareFrom(Parts(a), Parts(b), 0)
  }

  /** The comparator handed to `sort`. */
  method Compare(a: string, b: string) returns (r: int)
    ensures r == CompareIds(a, b)
  {
    var aParts, bParts := Parts(a), Parts(b);
    var i := 0;
    while i < Longer(aParts, bParts)
      invariant i <= Longer(aParts, bParts)
      invariant CompareIds(a, b) == CompareFrom(aParts, bParts, i)
    {
      var aVal: int, bVal: int := Part(aParts, i), Part(bParts, i);
      if aVal != bVal {
        return aVal - bVal;
      }
      i := i + 1;
    }
    return 0;
  }

  /** The first differing part decides, missing parts counting as 0. */
  predicate FirstDifference(a: seq<nat>, b: seq<nat>, k: nat) {
    Part(a, k) != Part(b, k) && forall j :: 0 <= j < k ==> Part(a, j) == Part(b, j)
  }

  lemma {:induction false} CompareFromMeans(a: seq<nat>, b: seq<nat>, i: nat)
    requires forall j :: 0 <= j < i ==> Part(a, j) == Part(b, j)
    ensures CompareFrom(a, b, i) == 0 ==> forall j: nat :: Part(a, j) == Part(b, j)
    ensures CompareFrom(a, b, i) != 0 ==>
      exists k :: FirstDifference(a, b, k) && CompareFrom(a, b, i) == Part(a, k) - Part(b, k)
    decreases Longer(a, b) - i
  {
    if i < Longer(a, b) {
      if Part(a, i) == Part(b, i) {
        CompareFromMeans(a, b, i + 1);
      } else {
        assert FirstDifference(a, b, i);
      }
    }
  }

  lemma CompareIdsIff(a: string, b: string)
    ensures CompareIds(a, b) < 0 <==>
      exists k :: FirstDifference(Parts(a), Parts(b), k) && Part(Parts(a), k) < Part(Parts(b), k)
    ensures CompareIds(a, b) > 0 <==>
      exists k :: FirstDifference(Parts(a), Parts(b), k) && Part(Parts(a), k) > Part(Parts(b), k)
  {
    CompareFromMeans(Parts(a), Parts(b), 0);
  }

  function NotAfter(): (Criterion, Criterion) -> bool {
    (x: Criterion, y: Criterion) => CompareIds(x.id, y.id) <= 0
  }

  lemma {:induction false} CompareTransitive(a: seq<nat>, b: seq<nat>, c: seq<nat>, i: nat)
    requires CompareFrom(a, b, i) <= 0 && CompareFrom(b, c, i) <= 0
    ensures CompareFrom(a, c, i) <= 0
    decreases Longer(a, b) + |c| - i
  {
    if i < Longer(a, b) + |c| && Part(a, i) == Part(b, i) == Part(c, i) {
      CompareTransitive(a, b, c, i + 1);
    }
  }

  lemma {:induction false} CompareAntisymmetric(a: seq<nat>, b: seq<nat>, i: nat)
    ensures CompareFrom(a, b, i) == -CompareFrom(b, a, i)
    decreases Longer(a, b) - i
  {
    if i < Longer(a, b) { CompareAntisymmetric(a, b, i + 1); }
  }

  /** The comparator is a strict weak order. */
  lemma CompareIsOrder()
    ensures IsOrder(NotAfter())
  {
    var le := NotAfter();
    forall x, y ensures le(x, y) || le(y, x) { CompareAntisymmetric(Parts(x.id), Parts(y.id), 0); }
    forall x, y, z | le(x, y) && le(y, z) ensures le(x, z) {
      CompareTransitive(Parts(x.id), Parts(y.id), Parts(z.id), 0);
    }
  }

  // ---- Filtering, sorting, batching -----------------------------------------------------------

  function AtLevel(target: Level): Criterion -> bool {
    (c: Criterion) => Included(target, c.level)
  }

  function CriteriaForLevel(all: seq<Criterion>, target: Level): seq<Criterion> {
    Sort(NotAfter(), Filter(AtLevel(target), all))
  }

  method FilterCriteriaByLevel(all: seq<Criterion>, target: Level) returns (result: seq<Criterion>)
    ensures result == CriteriaForLevel(all, target)
  {
    hide Filter, Sort;
    FilterNothing(AtLevel(target));
    result := [];
    for i := 0 to |all|
      invariant result == Filter(AtLevel(target), all[..i])
    {
      assert all[..i + 1] == all[..i] + [all[i]];
      FilterSnoc(AtLevel(target), all[..i], all[i]);
      if Included(target, all[i].level) {
        result := result + [all[i]];
      }
    }
    assert all[..|all|] == all;
    result := Sort(NotAfter(), result);
  }

  method CreateBatches(all: seq<Criterion>, target: Level, batchSize: nat) returns (batches: seq<seq<Criterion>>)
    requires batchSize > 0
    ensures batches == Chunks(CriteriaForLevel(all, target), batchSize)
  {
    hide Chunks;
    var criteria := FilterCriteriaByLevel(all, target);
    ChunksNothing<Criterion>(batchSize);
    batches := [];
    var i := 0;
    while i < |criteria|
      invariant i == |batches| * batchSize
      invariant batches == Chunks(criteria[..Min(i, |criteria|)], batchSize)
    {
      ChunkStep(criteria, batchSize, |batches|, i);
      batches := batches + [criteria[i..Min(i + batchSize, |criteria|)]];
      i := i + batchSize;
    }
    assert criteria[..|criteria|] == criteria;
  }

  /** A level ranks by the number of letters in its name. */
  predicate Reaches(target: Level, level: Level) {
    |LevelText(level)| <= |LevelText(target)|
  }

  /** The list of a level has exactly the criteria of that rank or a lower one, each as often as the input has it. */
  lemma MembersByRank(all: seq<Criterion>, target: Level, x: Criterion)
    ensures x in CriteriaForLevel(all, target) <==> x in all && Reaches(target, x.level)
    ensures multiset(CriteriaForLevel(all, target))[x] == if Reaches(target, x.level) then multiset(all)[x] else 0
  {
    hide Filter, Sort;
    CompareIsOrder();
    var filtered, result := Filter(AtLevel(target), all), CriteriaForLevel(all, target);
    SortSorts(NotAfter(), filtered);
    FilterCounts(AtLevel(target), all, x);
    assert x in result <==> x in multiset(result);
    assert x in all <==> x in multiset(all);
  }

  lemma {:induction false} FilterCounts(p: Criterion -> bool, s: seq<Criterion>, x: Criterion)
    ensures multiset(Filter(p, s))[x] == if p(x) then multiset(s)[x] else 0
  {
    if s != [] {
      var n := |s| - 1;
      FilterCounts(p, s[..n], x);
      assert s[..n] + [s[n]] == s;
      FilterSnoc(p, s[..n], s[n]);
    }
  }

  /** The list of a lower level is exactly what a higher level's list has of its rank, in the same order. */
  lemma LevelsNest(all: seq<Criterion>, lower: Level, higher: Level)
    requires Reaches(higher, lower)
    ensures CriteriaForLevel(all, lower) == Filter((c: Criterion) => Reaches(lower, c.level), CriteriaForLevel(all, higher))
  {
    hide Filter, Sort;
    CompareIsOrder();
    var ranked := (c: Criterion) => Reaches(lower, c.level);
    FilterSort(AtLevel(lower), NotAfter(), Filter(AtLevel(higher), all));
    FilterTwice(AtLevel(lower), AtLevel(higher), all);
    FilterSame(ranked, AtLevel(lower), CriteriaForLevel(all, higher));
  }

  lemma {:induction false} FilterSame(p: Criterion -> bool, q: Criterion -> bool, s: seq<Criterion>)
    requires forall x :: p(x) <==> q(x)
    ensures Filter(p, s) == Filter(q, s)
  {
    if s != [] { FilterSame(p, q, s[..|s| - 1]); }
  }

  /** A within AA within AAA: the A list is what the AA list has at level A, the AA list what the AAA list
      has below AAA, and the AAA list has the whole input. */
  lemma LevelsAreCumulative(all: seq<Criterion>)
    ensures CriteriaForLevel(all, A) == Filter((c: Criterion) => c.level == A, CriteriaForLevel(all, AA))
    ensures CriteriaForLevel(all, AA) == Filter((c: Criterion) => c.level == A || c.level == AA, CriteriaForLevel(all, AAA))
    ensures multiset(CriteriaForLevel(all, A)) <= multiset(CriteriaForLevel(all, AA)) <= multiset(CriteriaForLevel(all, AAA))
    ensures multiset(CriteriaForLevel(all, AAA)) == multiset(all)
  {
    hide Filter, Sort, CriteriaForLevel;
    LevelsNest(all, A, AA);
    LevelsNest(all, AA, AAA);
    FilterSame((c: Criterion) => c.level == A, (c: Criterion) => Reaches(A, c.level), CriteriaForLevel(all, AA));
    FilterSame((c: Criterion) => c.level == A || c.level == AA, (c: Criterion) => Reaches(AA, c.level), CriteriaForLevel(all, AAA));
    forall x
      ensures multiset(CriteriaForLevel(all, A))[x] <= multiset(CriteriaForLevel(all, AA))[x] <= multiset(CriteriaForLevel(all, AAA))[x]
      ensures multiset(CriteriaForLevel(all, AAA))[x] == multiset(all)[x]
    {
      MembersByRank(all, A, x);
      MembersByRank(all, AA, x);
      MembersByRank(all, AAA, x);
    }
  }

  // ---- The parts of an id ---------------------------------------------------------------------

  /** Numbers in decimal with dots between them. */
  function Dotted(ns: seq<nat>): string
    requires ns != []
  {
    if |ns| == 1 then JsonValue.Digits(ns[0]) else JsonValue.Digits(ns[0]) + "." + Dotted(ns[1..])
  }

  /** What is compared are the numbers that the id writes. */
  lemma {:induction false} PartsOfDotted(ns: seq<nat>)
    requires ns != []
    ensures Parts(Dotted(ns)) == ns
  {
    hide Split, JsonValue.Digits, JsonValue.DigitsValue;
    var dot := (c: char) => c == '.';
    var d := JsonValue.Digits(ns[0]);
    assert forall c :: c in d ==> !dot(c);
    if |ns| == 1 {
      SplitNone(d, dot);
    } else {
      PartsOfDotted(ns[1..]);
      SplitFirst(d, '.', Dotted(ns[1..]), dot);
      assert d + ['.'] + Dotted(ns[1..]) == Dotted(ns);
      var rest := Split(Dotted(ns[1..]), dot);
      assert |Parts(Dotted(ns[1..]))| == |rest|;
      assert Split(Dotted(ns), dot) == [d] + rest;
      forall i | 0 <= i < |ns| ensures Parts(Dotted(ns))[i] == ns[i] {
        if i > 0 { assert Parts(Dotted(ns[1..]))[i - 1] == ns[1..][i - 1]; }
      }
    }
  }

  lemma {:induction false} FilterTwice(p: Criterion -> bool, q: Criterion -> bool, s: seq<Criterion>)
    requires forall x :: p(x) ==> q(x)
    ensures Filter(p, Filter(q, s)) == Filter(p, s)
  {
    if s != [] {
      var n := |s| - 1;
      FilterTwice(p, q, s[..n]);
      assert s[..n] + [s[n]] == s;
      FilterSnoc(q, s[..n], s[n]);
      FilterSnoc(p, Filter(q, s[..n]), s[n]);
    }
  }

  /** Every criterion of the level is in exactly one batch, in id order, and ties keep their order. */
  lemma BatchesCoverLevel(all: seq<Criterion>, target: Level, batchSize: nat)
    requires batchSize > 0
    ensures var batches := Chunks(CriteriaForLevel(all, target), batchSize);
      && Sorted(NotAfter(), Flatten(batches))
      && multiset(Flatten(batches)) == multiset(Filter(AtLevel(target), all))
      && (forall x :: Filter(Tied(NotAfter(), x), Flatten(batches)) == Filter(Tied(NotAfter(), x), Filter(AtLevel(target), all)))
      && (forall i :: 0 <= i < |batches| - 1 ==> |batches[i]| == batchSize)
      && (forall i :: 0 <= i < |batches| ==> batches[i] != [])
      && |Flatten(batches)| <= |batches| * batchSize
      && (Flatten(batches) != [] ==> (|batches| - 1) * batchSize < |Flatten(batches)|)
      && (Flatten(batches) == [] ==> batches == [])
  {
    CompareIsOrder();
    ChunksPartition(CriteriaForLevel(all, target), batchSize);
    SortIsTheStableSort(NotAfter(), Filter(AtLevel(target), all), CriteriaForLevel(all, target));
  }
}

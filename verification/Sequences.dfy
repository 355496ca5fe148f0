/** Filtering, chunking and the stable sort of ECMA-262 (2023), section 23.1.3.30. */
module Sequences {

  function Filter<T(!new)>(p: T -> bool, s: seq<T>): (r: seq<T>)
    ensures forall x :: x in r <==> x in s && p(x)
  {
    if s == [] then []
    else if p(s[|s| - 1]) then Filter(p, s[..|s| - 1]) + [s[|s| - 1]]
    else Filter(p, s[..|s| - 1])
  }

  function Flatten<T>(ss: seq<seq<T>>): seq<T> {
    if ss == [] then [] else ss[0] + Flatten(ss[1..])
  }

  lemma {:induction false} FlattenAppend<T>(ss: seq<seq<T>>, t: seq<T>)
    ensures Flatten(ss + [t]) == Flatten(ss) + t
  {
    if ss == [] {
      assert [t][1..] == [];
    } else {
      assert (ss + [t])[1..] == ss[1..] + [t];
      FlattenAppend(ss[1..], t);
    }
  }

  // ---- Splitting ------------------------------------------------------------------------------

  function Split<T>(s: seq<T>, separates: T -> bool): (r: seq<seq<T>>)
    ensures |r| >= 1
  {
    if s == [] then [[]]
    else
      var rest := Split(s[1..], separates);
      if separates(s[0]) then [[]] + rest else [[s[0]] + rest[0]] + rest[1..]
  }

  /** No part holds a separator, and the parts are the text between the separators. */
  lemma {:induction false} SplitMeans<T(!new)>(s: seq<T>, separates: T -> bool)
    ensures var r := Split(s, separates);
      && (forall i, x :: 0 <= i < |r| && x in r[i] ==> !separates(x))
      && |r| == 1 + |Filter(separates, s)|
      && Flatten(r) == Filter((x: T) => !separates(x), s)
  {
    hide Filter, Flatten;
    var keep := (x: T) => !separates(x);
    FilterNothing(separates);
    FilterNothing(keep);
    FlattenNothing<T>();
    if s == [] {
      var none: seq<seq<T>> := [];
      FlattenCons([], none);
      assert [[]] + none == Split(s, separates);
    } else {
      var rest := Split(s[1..], separates);
      SplitMeans(s[1..], separates);
      assert s == [s[0]] + s[1..];
      FilterCons(separates, s[0], s[1..]);
      FilterCons(keep, s[0], s[1..]);
      assert [rest[0]] + rest[1..] == rest;
      FlattenCons([], rest);
      FlattenCons(rest[0], rest[1..]);
      FlattenCons([s[0]] + rest[0], rest[1..]);
    }
  }

  lemma {:induction false} SplitNone<T(!new)>(s: seq<T>, separates: T -> bool)
    requires forall x :: x in s ==> !separates(x)
    ensures Split(s, separates) == [s]
  {
    if s != [] {
      SplitNone(s[1..], separates);
      assert [s[0]] + s[1..] == s;
    }
  }

  lemma {:induction false} SplitFirst<T(!new)>(part: seq<T>, sep: T, rest: seq<T>, separates: T -> bool)
    requires separates(sep) && forall x :: x in part ==> !separates(x)
    ensures Split(part + [sep] + rest, separates) == [part] + Split(rest, separates)
  {
    var s := part + [sep] + rest;
    if part == [] {
      assert s == [sep] + rest && s[1..] == rest;
    } else {
      SplitFirst(part[1..], sep, rest, separates);
      assert s[1..] == part[1..] + [sep] + rest;
      assert ([part[1..]] + Split(rest, separates))[1..] == Split(rest, separates);
      assert [part[0]] + part[1..] == part;
    }
  }

  /** Parts with a separator between each two of them. */
  function Interleave<T>(parts: seq<seq<T>>, seps: seq<T>): seq<T>
    requires |parts| == |seps| + 1
  {
    if seps == [] then parts[0] else parts[0] + [seps[0]] + Interleave(parts[1..], seps[1..])
  }

  /** Splitting undoes putting separators between parts without any, whichever separators they are. */
  lemma {:induction false} SplitInterleaved<T(!new)>(parts: seq<seq<T>>, seps: seq<T>, separates: T -> bool)
    requires |parts| == |seps| + 1
    requires forall x :: x in seps ==> separates(x)
    requires forall i, x :: 0 <= i < |parts| && x in parts[i] ==> !separates(x)
    ensures Split(Interleave(parts, seps), separates) == parts
  {
    if seps == [] {
      SplitNone(parts[0], separates);
      assert parts == [parts[0]];
    } else {
      hide Split;
      forall i, x | 0 <= i < |parts[1..]| && x in parts[1..][i] ensures !separates(x) { assert parts[1..][i] == parts[i + 1]; }
      SplitInterleaved(parts[1..], seps[1..], separates);
      SplitFirst(parts[0], seps[0], Interleave(parts[1..], seps[1..]), separates);
      assert [parts[0]] + parts[1..] == parts;
    }
  }

  /** And putting the separators back undoes splitting. */
  lemma {:induction false} InterleaveSplit<T(!new)>(s: seq<T>, separates: T -> bool)
    ensures |Split(s, separates)| == |Filter(separates, s)| + 1
    ensures Interleave(Split(s, separates), Filter(separates, s)) == s
  {
    hide Filter;
    FilterNothing(separates);
    if s != [] {
      InterleaveSplit(s[1..], separates);
      assert s == [s[0]] + s[1..];
      FilterCons(separates, s[0], s[1..]);
      var rest, seps := Split(s[1..], separates), Filter(separates, s[1..]);
      if separates(s[0]) {
        var all: seq<T> := [s[0]] + seps;
        var parts: seq<seq<T>> := [[]] + rest;
        assert all[1..] == seps && parts[1..] == rest;
        assert Interleave(parts, all) == [] + [s[0]] + s[1..];
      } else {
        var parts := [[s[0]] + rest[0]] + rest[1..];
        assert [] + seps == seps;
        InterleavePrefix(s[0], rest, seps);
      }
    }
  }

  lemma InterleavePrefix<T>(x: T, parts: seq<seq<T>>, seps: seq<T>)
    requires |parts| == |seps| + 1
    ensures Interleave([[x] + parts[0]] + parts[1..], seps) == [x] + Interleave(parts, seps)
  {
    var longer := [[x] + parts[0]] + parts[1..];
    assert longer[1..] == parts[1..];
    if seps != [] {
      assert [x] + parts[0] + [seps[0]] + Interleave(parts[1..], seps[1..]) == [x] + (parts[0] + [seps[0]] + Interleave(parts[1..], seps[1..]));
    }
  }

  lemma FlattenCons<T>(s: seq<T>, ss: seq<seq<T>>)
    ensures Flatten([s] + ss) == s + Flatten(ss)
  {
    assert ([s] + ss)[1..] == ss;
  }

  lemma FlattenNothing<T>()
    ensures Flatten<T>([]) == []
  {}

  // ---- Chunks ---------------------------------------------------------------------------------

  function Chunks<T>(s: seq<T>, size: nat): (r: seq<seq<T>>)
    requires size > 0
  {
    if |s| == 0 then [] else if |s| <= size then [s] else [s[..size]] + Chunks(s[size..], size)
  }

  /** The chunks concatenate back to the list, none is empty or too long, and only the last is short. */
  lemma {:induction false} ChunksPartition<T>(s: seq<T>, size: nat)
    requires size > 0
    ensures var r := Chunks(s, size);
      && Flatten(r) == s
      && (forall i :: 0 <= i < |r| ==> 1 <= |r[i]| <= size)
      && (forall i :: 0 <= i < |r| - 1 ==> |r[i]| == size)
      && (|r| - 1) * size < |s| + size && |s| <= |r| * size && (s == [] <==> r == [])
      && (s != [] ==> (|r| - 1) * size < |s|)
  {
    if |s| > size {
      ChunksPartition(s[size..], size);
      var rest := Chunks(s[size..], size);
      assert Chunks(s, size)[1..] == rest;
      assert s[..size] + s[size..] == s;
      assert (|rest| + 1) * size == |rest| * size + size && (|rest| - 1) * size == |rest| * size - size;
    } else if s != [] {
      assert [s][1..] == [] && s + [] == s;
    }
  }

  function Min(a: int, b: int): int {
    if a < b then a else b
  }

  /** One step of a chunking loop: chunk number `k`, which begins at `i`, is appended to the chunks of
      what came before. */
  lemma {:induction false} ChunksSnoc<T>(s: seq<T>, size: nat, k: nat, i: nat, e: nat)
    requires size > 0 && i == k * size && i < |s| && e == Min(i + size, |s|)
    ensures Chunks(s[..e], size) == Chunks(s[..i], size) + [s[i..e]]
    decreases k
  {
    if k == 0 {
      assert s[..e] == s[0..e];
    } else {
      hide Chunks;
      OneLess(k, size);
      ChunksSnoc(s[size..], size, k - 1, i - size, e - size);
      CutAt(s, size, i, e);
      ChunksFirst(s[..e], size);
      ChunksFirst(s[..i], size);
    }
  }

  lemma OneLess(k: nat, size: nat)
    requires k > 0
    ensures (k - 1) * size == k * size - size && k * size >= size
  {
    assert (k - 1) * size >= 0;
  }

  /** Prefixes and slices behind the first `size` elements, seen from there. */
  lemma CutAt<T>(s: seq<T>, size: nat, i: nat, e: nat)
    requires size <= i <= e <= |s|
    ensures var t := s[size..];
      && s[..i][..size] == s[..size] && s[..i][size..] == t[..i - size]
      && s[..e][..size] == s[..size] && s[..e][size..] == t[..e - size]
      && t[i - size..e - size] == s[i..e]
  {}

  /** The same as the loop sees it, with `i` the index it has reached. */
  lemma ChunkStep<T>(s: seq<T>, size: nat, k: nat, i: nat)
    requires size > 0 && i == k * size && i < |s|
    ensures i + size == (k + 1) * size
    ensures Chunks(s[..Min(i + size, |s|)], size) == Chunks(s[..Min(i, |s|)], size) + [s[i..Min(i + size, |s|)]]
  {
    ChunksSnoc(s, size, k, i, Min(i + size, |s|));
  }

  lemma ChunksNothing<T>(size: nat)
    requires size > 0
    ensures Chunks<T>([], size) == []
  {}

  lemma ChunksFirst<T>(s: seq<T>, size: nat)
    requires size > 0 && |s| >= size
    ensures Chunks(s, size) == [s[..size]] + Chunks(s[size..], size)
  {
    if |s| == size { assert s[..size] == s && s[size..] == []; }
  }

  // ---- Stable sort ----------------------------------------------------------------------------

  /** A strict weak order, given as "not after". */
  ghost predicate IsOrder<T(!new)>(le: (T, T) -> bool) {
    && (forall x, y :: le(x, y) || le(y, x))
    && (forall x, y, z :: le(x, y) && le(y, z) ==> le(x, z))
  }

  ghost predicate Sorted<T>(le: (T, T) -> bool, s: seq<T>) {
    forall i, j :: 0 <= i < j < |s| ==> le(s[i], s[j])
  }

  function Insert<T>(le: (T, T) -> bool, s: seq<T>, x: T): (r: seq<T>)
    ensures multiset(r) == multiset(s) + multiset{x}
  {
    if s == [] || le(s[|s| - 1], x) then s + [x]
    else
      var last := s[|s| - 1];
      assert s == s[..|s| - 1] + [last];
      Insert(le, s[..|s| - 1], x) + [last]
  }

  /** Elements are placed behind everything they are not before. */
  function Sort<T>(le: (T, T) -> bool, s: seq<T>): (r: seq<T>)
    ensures multiset(r) == multiset(s)
  {
    if s == [] then []
    else
      assert s == s[..|s| - 1] + [s[|s| - 1]];
      Insert(le, Sort(le, s[..|s| - 1]), s[|s| - 1])
  }

  lemma {:induction false} InsertSorted<T(!new)>(le: (T, T) -> bool, s: seq<T>, x: T)
    requires IsOrder(le) && Sorted(le, s)
    ensures Sorted(le, Insert(le, s, x))
  {
    if s != [] {
      var n := |s| - 1;
      if le(s[n], x) {
        assert forall i :: 0 <= i <= n ==> le(s[i], s[n]);
      } else {
        InsertSorted(le, s[..n], x);
        var r := Insert(le, s[..n], x);
        forall i | 0 <= i < |r| ensures le(r[i], s[n]) {
          assert r[i] in multiset(r);
          assert r[i] == x || r[i] in s[..n];
        }
      }
    }
  }

  lemma {:induction false} SortSorts<T(!new)>(le: (T, T) -> bool, s: seq<T>)
    requires IsOrder(le)
    ensures Sorted(le, Sort(le, s))
  {
    if s != [] {
      SortSorts(le, s[..|s| - 1]);
      InsertSorted(le, Sort(le, s[..|s| - 1]), s[|s| - 1]);
    }
  }

  lemma {:induction false} FilterInsert<T(!new)>(p: T -> bool, le: (T, T) -> bool, s: seq<T>, x: T)
    requires IsOrder(le) && Sorted(le, s)
    ensures Filter(p, Insert(le, s, x)) == if p(x) then Insert(le, Filter(p, s), x) else Filter(p, s)
  {
    hide Filter, Insert, Sorted;
    FilterNothing(p);
    if s == [] {
      InsertLast(le, [], x);
      FilterSnoc(p, [], x);
    } else {
      var n := |s| - 1;
      var f, front := Filter(p, s), Filter(p, s[..n]);
      assert s == s[..n] + [s[n]];
      FilterSnoc(p, s[..n], s[n]);
      if le(s[n], x) {
        FilterSnoc(p, s, x);
        if f != [] { LastOfFilter(p, le, s, x); }
        InsertLast(le, s, x);
        InsertLast(le, f, x);
      } else {
        SortedFront(le, s);
        FilterInsert(p, le, s[..n], x);
        FilterSnoc(p, Insert(le, s[..n], x), s[n]);
        InsertBefore(le, s[..n], s[n], x);
        if p(s[n]) { InsertBefore(le, front, s[n], x); }
      }
    }
  }

  lemma SortedFront<T>(le: (T, T) -> bool, s: seq<T>)
    requires Sorted(le, s) && s != []
    ensures Sorted(le, s[..|s| - 1])
  {
    var front := s[..|s| - 1];
    forall i, j | 0 <= i < j < |front| ensures le(front[i], front[j]) {
      assert front[i] == s[i] && front[j] == s[j];
    }
  }

  lemma InsertBefore<T>(le: (T, T) -> bool, s: seq<T>, last: T, x: T)
    requires !le(last, x)
    ensures Insert(le, s + [last], x) == Insert(le, s, x) + [last]
  {
    assert (s + [last])[..|s|] == s;
  }

  lemma LastOfFilter<T(!new)>(p: T -> bool, le: (T, T) -> bool, s: seq<T>, x: T)
    requires IsOrder(le) && Sorted(le, s) && s != [] && le(s[|s| - 1], x) && Filter(p, s) != []
    ensures var f := Filter(p, s); le(f[|f| - 1], x)
  {
    hide Filter;
    var f := Filter(p, s);
    assert f[|f| - 1] in s;
    var i :| 0 <= i < |s| && s[i] == f[|f| - 1];
    assert i < |s| - 1 ==> le(s[i], s[|s| - 1]);
  }

  /** Filtering and sorting commute: the sort is stable and looks at nothing but the order. */
  lemma {:induction false} FilterSort<T(!new)>(p: T -> bool, le: (T, T) -> bool, s: seq<T>)
    requires IsOrder(le)
    ensures Filter(p, Sort(le, s)) == Sort(le, Filter(p, s))
  {
    if s != [] {
      var n := |s| - 1;
      FilterSort(p, le, s[..n]);
      SortSorts(le, s[..n]);
      FilterInsert(p, le, Sort(le, s[..n]), s[n]);
      if p(s[n]) {
        var f := Filter(p, s);
        assert f[..|f| - 1] == Filter(p, s[..n]) && f[|f| - 1] == s[n];
      }
    }
  }

  lemma {:induction false} SortOfSorted<T(!new)>(le: (T, T) -> bool, s: seq<T>)
    requires Sorted(le, s)
    ensures Sort(le, s) == s
  {
    if s != [] {
      var n := |s| - 1;
      SortOfSorted(le, s[..n]);
      InsertLast(le, s[..n], s[n]);
      assert s[..n] + [s[n]] == s;
    }
  }

  lemma InsertLast<T>(le: (T, T) -> bool, s: seq<T>, x: T)
    requires s == [] || le(s[|s| - 1], x)
    ensures Insert(le, s, x) == s + [x]
  {}

  /** The elements that `x` is neither before nor after. */
  function Tied<T>(le: (T, T) -> bool, x: T): T -> bool {
    y => le(x, y) && le(y, x)
  }

  lemma SortStable<T(!new)>(le: (T, T) -> bool, s: seq<T>, x: T)
    requires IsOrder(le)
    ensures Filter(Tied(le, x), Sort(le, s)) == Filter(Tied(le, x), s)
  {
    FilterSort(Tied(le, x), le, s);
    var f := Filter(Tied(le, x), s);
    forall i, j | 0 <= i < j < |f| ensures le(f[i], f[j]) {
      assert f[i] in f && f[j] in f;
    }
    SortOfSorted(le, f);
  }

  lemma FilterSnoc<T(!new)>(p: T -> bool, s: seq<T>, x: T)
    ensures Filter(p, s + [x]) == Filter(p, s) + if p(x) then [x] else []
    ensures !p(x) ==> Filter(p, s + [x]) == Filter(p, s)
  {
    assert (s + [x])[..|s|] == s;
  }

  lemma {:induction false} FilterCons<T(!new)>(p: T -> bool, x: T, s: seq<T>)
    ensures Filter(p, [x] + s) == (if p(x) then [x] else []) + Filter(p, s)
  {
    hide Filter;
    if s == [] {
      FilterSnoc(p, [], x);
      FilterNothing(p);
      assert [x] + s == [] + [x];
    } else {
      var n := |s| - 1;
      FilterCons(p, x, s[..n]);
      FilterSnoc(p, [x] + s[..n], s[n]);
      FilterSnoc(p, s[..n], s[n]);
      assert [x] + s == ([x] + s[..n]) + [s[n]] && s == s[..n] + [s[n]];
    }
  }

  lemma FilterNothing<T(!new)>(p: T -> bool)
    ensures Filter(p, []) == []
  {}

  /** Two sorted lists with the same tied elements in the same order are the same list ... */
  lemma {:induction false} SortedUnique<T(!new)>(le: (T, T) -> bool, r: seq<T>, s: seq<T>)
    requires IsOrder(le) && Sorted(le, r) && Sorted(le, s)
    requires forall x :: Filter(Tied(le, x), r) == Filter(Tied(le, x), s)
    ensures r == s
    decreases |r|
  {
    hide Filter;
    if r == [] {
      if s != [] { HeadIn(le, s, r); }
    } else {
      HeadIn(le, r, s);
      HeadIn(le, s, r);
      SortedHead(le, r, s[0]);
      SortedHead(le, s, r[0]);
      FilterCons(Tied(le, r[0]), r[0], r[1..]);
      FilterCons(Tied(le, r[0]), s[0], s[1..]);
      assert r == [r[0]] + r[1..] && s == [s[0]] + s[1..];
      assert Filter(Tied(le, r[0]), r)[0] == r[0] && Filter(Tied(le, r[0]), s)[0] == s[0];
      forall x ensures Filter(Tied(le, x), r[1..]) == Filter(Tied(le, x), s[1..]) {
        FilterCons(Tied(le, x), r[0], r[1..]);
        FilterCons(Tied(le, x), s[0], s[1..]);
        var a := if Tied(le, x)(r[0]) then [r[0]] else [];
        assert Filter(Tied(le, x), r) == a + Filter(Tied(le, x), r[1..]);
        assert Filter(Tied(le, x), s) == a + Filter(Tied(le, x), s[1..]);
        assert (a + Filter(Tied(le, x), r[1..]))[|a|..] == Filter(Tied(le, x), r[1..]);
        assert (a + Filter(Tied(le, x), s[1..]))[|a|..] == Filter(Tied(le, x), s[1..]);
      }
      SortedUnique(le, r[1..], s[1..]);
    }
  }

  lemma HeadIn<T(!new)>(le: (T, T) -> bool, r: seq<T>, s: seq<T>)
    requires IsOrder(le) && r != [] && Filter(Tied(le, r[0]), r) == Filter(Tied(le, r[0]), s)
    ensures r[0] in s
  {
    assert r[0] in Filter(Tied(le, r[0]), r);
  }

  lemma SortedHead<T(!new)>(le: (T, T) -> bool, s: seq<T>, x: T)
    requires IsOrder(le) && Sorted(le, s) && x in s
    ensures le(s[0], x)
  {
    var i :| 0 <= i < |s| && s[i] == x;
  }

  /** ... so `Sort` is the only stable sort there is. */
  lemma SortIsTheStableSort<T(!new)>(le: (T, T) -> bool, s: seq<T>, r: seq<T>)
    requires IsOrder(le)
    ensures r == Sort(le, s) <==> Sorted(le, r) && forall x :: Filter(Tied(le, x), r) == Filter(Tied(le, x), s)
  {
    SortSorts(le, s);
    forall x ensures Filter(Tied(le, x), Sort(le, s)) == Filter(Tied(le, x), s) { SortStable(le, s, x); }
    if Sorted(le, r) && forall x :: Filter(Tied(le, x), r) == Filter(Tied(le, x), s) {
      SortedUnique(le, r, Sort(le, s));
    }
  }
}

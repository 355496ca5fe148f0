/** Reading a list of URLs that a user typed in: validated, normalised, without repetitions, at most 50. */
module ManualUrls {
  import opened Wrappers
  import opened Sequences
  import FencedJson

  datatype ParsedUrl = ParsedUrl(id: string, url: string, source: string)

  datatype ValidationError = ValidationError(url: string, message: string)

  const MAX_URLS := 50

  /** The rules for a single URL: whether it is valid, and its normal form or the exception's message. */
  datatype Rules = Rules(validate: string -> bool, normalize: string -> Result<string, string>)

  // ---- The lines of the input -----------------------------------------------------------------

  /** Each line trimmed. */
  function TrimAll(lines: seq<string>): seq<string> {
    if lines == [] then [] else [FencedJson.Trim(lines[0])] + TrimAll(lines[1..])
  }

  function Cuts(): char -> bool {
    (c: char) => c == ';' || c == '\n'
  }

  function NonEmpty(): string -> bool {
    (line: string) => line != ""
  }

  /** The text cut at semicolons and line ends, each piece trimmed, empty pieces dropped. */
  function Pieces(text: string): seq<string> {
    Filter(NonEmpty(), TrimAll(Split(text, Cuts())))
  }

  /** The pieces of the trimmed input. */
  function Lines(input: string): seq<string> {
    Pieces(FencedJson.Trim(input))
  }

  // ---- Where the input is cut -----------------------------------------------------------------

  lemma TrimFirst(c: char, s: string)
    requires FencedJson.IsSpace(c)
    ensures FencedJson.Trim([c] + s) == FencedJson.Trim(s)
  {
    hide FencedJson.IsSpace, FencedJson.TrimEnd;
    var longer := [c] + s;
    var i, j := FencedJson.SkipSpaces(longer, 0), FencedJson.SkipSpaces(s, 0);
    assert longer[0] == c && forall k :: 0 <= k < |s| ==> longer[k + 1] == s[k];
    assert i == j + 1;
    assert longer[i..] == s[j..];
  }

  lemma TrimLast(s: string, c: char)
    requires FencedJson.IsSpace(c)
    ensures FencedJson.Trim(s + [c]) == FencedJson.Trim(s)
  {
    hide FencedJson.IsSpace;
    var longer := s + [c];
    var i, j := FencedJson.SkipSpaces(longer, 0), FencedJson.SkipSpaces(s, 0);
    assert longer[|s|] == c && forall k :: 0 <= k < |s| ==> longer[k] == s[k];
    if j < |s| {
      assert i == j;
      assert longer[i..] == s[j..] + [c];
      assert (s[j..] + [c])[..|s| - j] == s[j..];
    } else {
      assert i == |s| + 1;
      assert longer[i..] == "" && s[j..] == "";
    }
  }

  lemma {:induction false} TrimAllAppend(a: seq<string>, b: seq<string>)
    ensures TrimAll(a + b) == TrimAll(a) + TrimAll(b)
  {
    hide FencedJson.Trim;
    if a == [] {
      assert a + b == b;
    } else {
      assert (a + b)[1..] == a[1..] + b;
      TrimAllAppend(a[1..], b);
    }
  }

  lemma TrimOne(line: string)
    ensures TrimAll([line]) == [FencedJson.Trim(line)]
  {
    hide FencedJson.Trim;
    assert [line][1..] == [];
    assert TrimAll([]) == [];
  }

  lemma TrimNothing()
    ensures FencedJson.Trim("") == ""
  {}

  function Extended(parts: seq<string>, c: char): seq<string>
    requires parts != []
  {
    parts[..|parts| - 1] + [parts[|parts| - 1] + [c]]
  }

  lemma ExtendedFirst(x: char, rest: seq<string>, c: char)
    requires rest != []
    ensures var longer := Extended(rest, c);
      [[x] + longer[0]] + longer[1..] == Extended([[x] + rest[0]] + rest[1..], c)
  {
    if |rest| == 1 {
      assert [x] + (rest[0] + [c]) == [x] + rest[0] + [c];
    }
  }

  lemma SplitNext(x: char, rest: string, cuts: char -> bool)
    ensures var parts := Split(rest, cuts); Split([x] + rest, cuts) == if cuts(x) then [[]] + parts else [[x] + parts[0]] + parts[1..]
  {
    assert ([x] + rest)[1..] == rest;
  }

  lemma SplitEmpty(cuts: char -> bool)
    ensures Split([], cuts) == [[]]
  {}

  lemma {:induction false} SplitLast(s: string, c: char, cuts: char -> bool)
    ensures var parts := Split(s, cuts); Split(s + [c], cuts) == if cuts(c) then parts + [[]] else Extended(parts, c)
  {
    hide Split;
    SplitEmpty(cuts);
    if s == [] {
      SplitNext(c, [], cuts);
      assert s + [c] == [c] + [] && [c] + [] == [c];
      assert Extended([[]], c) == [[c]];
    } else {
      hide Extended;
      var x, parts := s[0], Split(s[1..], cuts);
      assert s == [x] + s[1..] && s + [c] == [x] + (s[1..] + [c]);
      SplitLast(s[1..], c, cuts);
      SplitNext(x, s[1..], cuts);
      SplitNext(x, s[1..] + [c], cuts);
      ExtendedFirst(x, parts, c);
      ExtendedAppend([[]], parts, c);
      assert [[]] + (parts + [[]]) == [[]] + parts + [[]];
    }
  }

  lemma ExtendedAppend(a: seq<string>, b: seq<string>, c: char)
    requires b != []
    ensures a + Extended(b, c) == Extended(a + b, c)
  {}

  /** White space at either end changes nothing. */
  lemma PiecesAfterSpace(c: char, s: string)
    requires FencedJson.IsSpace(c)
    ensures Pieces([c] + s) == Pieces(s)
  {
    hide FencedJson.IsSpace, FencedJson.Trim, Filter, TrimAll;
    var parts := Split(s, Cuts());
    assert ([c] + s)[1..] == s;
    if Cuts()(c) {
      var none: string := [];
      TrimAllAppend([none], parts);
      TrimOne(none);
      TrimNothing();
      FilterCons(NonEmpty(), "", TrimAll(parts));
      assert [] + Filter(NonEmpty(), TrimAll(parts)) == Filter(NonEmpty(), TrimAll(parts));
    } else {
      TrimFirst(c, parts[0]);
      assert parts == [parts[0]] + parts[1..];
      TrimAllAppend([parts[0]], parts[1..]);
      TrimAllAppend([[c] + parts[0]], parts[1..]);
      TrimOne(parts[0]);
      TrimOne([c] + parts[0]);
    }
  }

  lemma PiecesBeforeSpace(s: string, c: char)
    requires FencedJson.IsSpace(c)
    ensures Pieces(s + [c]) == Pieces(s)
  {
    hide FencedJson.IsSpace, FencedJson.Trim, Filter, TrimAll, Split;
    var parts := Split(s, Cuts());
    SplitLast(s, c, Cuts());
    if Cuts()(c) {
      TrimAllAppend(parts, [[]]);
      TrimOne([]);
      TrimNothing();
      FilterSnoc(NonEmpty(), TrimAll(parts), "");
    } else {
      var n := |parts| - 1;
      assert Extended(parts, c) == parts[..n] + [parts[n] + [c]];
      TrimLast(parts[n], c);
      assert parts == parts[..n] + [parts[n]];
      TrimAllAppend(parts[..n], [parts[n]]);
      TrimAllAppend(parts[..n], [parts[n] + [c]]);
      TrimOne(parts[n]);
      TrimOne(parts[n] + [c]);
    }
  }

  lemma {:induction false} PiecesFrom(s: string, i: nat)
    requires i <= |s| && forall j :: 0 <= j < i ==> FencedJson.IsSpace(s[j])
    ensures Pieces(s[i..]) == Pieces(s)
  {
    hide FencedJson.IsSpace, Pieces;
    if i == 0 {
      assert s[0..] == s;
    } else {
      PiecesFrom(s, i - 1);
      assert s[i - 1..] == [s[i - 1]] + s[i..];
      PiecesAfterSpace(s[i - 1], s[i..]);
    }
  }

  lemma {:induction false} PiecesOfEnd(s: string)
    ensures Pieces(FencedJson.TrimEnd(s)) == Pieces(s)
  {
    hide FencedJson.IsSpace, Pieces;
    if s != [] && FencedJson.IsSpace(s[|s| - 1]) {
      assert s == s[..|s| - 1] + [s[|s| - 1]];
      PiecesBeforeSpace(s[..|s| - 1], s[|s| - 1]);
      PiecesOfEnd(s[..|s| - 1]);
    }
  }

  lemma LinesArePieces(input: string)
    ensures Lines(input) == Pieces(input)
  {
    hide Pieces, FencedJson.IsSpace, FencedJson.TrimEnd, FencedJson.SkipSpaces;
    var i := FencedJson.SkipSpaces(input, 0);
    PiecesFrom(input, i);
    PiecesOfEnd(input[i..]);
  }

  /** The input is cut at every semicolon and line end and nowhere else: lines joined by any of them come
      back trimmed, without the empty ones. */
  lemma LinesOfJoined(lines: seq<string>, seps: string)
    requires |lines| == |seps| + 1
    requires forall c :: c in seps ==> c == ';' || c == '\n'
    requires forall i, c :: 0 <= i < |lines| && c in lines[i] ==> c != ';' && c != '\n'
    ensures Lines(Interleave(lines, seps)) == Filter(NonEmpty(), TrimAll(lines))
    ensures (forall i :: 0 <= i < |lines| ==> lines[i] != "" && FencedJson.Trim(lines[i]) == lines[i]) ==> Lines(Interleave(lines, seps)) == lines
  {
    hide Filter, TrimAll, FencedJson.Trim, Interleave, Split;
    LinesArePieces(Interleave(lines, seps));
    SplitInterleaved(lines, seps, Cuts());
    if forall i :: 0 <= i < |lines| ==> lines[i] != "" && FencedJson.Trim(lines[i]) == lines[i] { TrimmedStay(lines); }
  }

  lemma {:induction false} TrimmedStay(lines: seq<string>)
    requires forall i :: 0 <= i < |lines| ==> lines[i] != "" && FencedJson.Trim(lines[i]) == lines[i]
    ensures Filter(NonEmpty(), TrimAll(lines)) == lines
  {
    hide Filter, FencedJson.Trim;
    FilterNothing(NonEmpty());
    if lines != [] {
      TrimmedStay(lines[1..]);
      assert lines == [lines[0]] + lines[1..];
      FilterCons(NonEmpty(), lines[0], TrimAll(lines[1..]));
    }
  }

  // ---- What the list should come to -----------------------------------------------------------

  function Candidate(r: Rules, line: string): Option<string> {
    if !r.validate(line) then None else match r.normalize(line) case Ok(u) => Some(u) case Err(_) => None
  }

  /** The normal forms of the valid lines, in order. */
  function Candidates(r: Rules, lines: seq<string>): seq<string> {
    if lines == [] then [] else
      var n := |lines| - 1;
      Candidates(r, lines[..n]) + match Candidate(r, lines[n]) case None => [] case Some(u) => [u]
  }

  /** Every element at its first occurrence. */
  function Dedup(us: seq<string>): seq<string> {
    if us == [] then [] else
      var n := |us| - 1;
      Dedup(us[..n]) + if us[n] in us[..n] then [] else [us[n]]
  }

  function First(us: seq<string>, limit: nat): seq<string> {
    if |us| <= limit then us else us[..limit]
  }

  function Wanted(r: Rules, lines: seq<string>): seq<string> {
    First(Dedup(Candidates(r, lines)), MAX_URLS)
  }

  function LimitMessage(): string {
    "Maximum limit of 50 URLs reached. This URL was not processed."
  }

  function InvalidMessage(): string {
    "Invalid URL format. Please provide a valid http or https URL."
  }

  function DuplicateMessage(): string {
    "Duplicate URL. This URL has already been added."
  }

  /** What is said of the last of some lines, if it is not taken. */
  function Verdict(r: Rules, before: seq<string>, line: string): Option<string> {
    if |Wanted(r, before)| == MAX_URLS then Some(LimitMessage())
    else if !r.validate(line) then Some(InvalidMessage())
    else
      match r.normalize(line)
      case Err(message) => Some(message)
      case Ok(u) => if u in Candidates(r, before) then Some(DuplicateMessage()) else None
  }

  function Errors(r: Rules, lines: seq<string>): seq<ValidationError> {
    if lines == [] then [] else
      var n := |lines| - 1;
      var v := Verdict(r, lines[..n], lines[n]);
      Errors(r, lines[..n]) + if v.Some? then [ValidationError(lines[n], v.value)] else []
  }

  function Urls(vs: seq<ParsedUrl>): seq<string> {
    seq(|vs|, i requires 0 <= i < |vs| => vs[i].url)
  }

  predicate Distinct(us: seq<string>) {
    forall i, j :: 0 <= i < j < |us| ==> us[i] != us[j]
  }

  /** `x` occurs before the first `y`. */
  ghost predicate Before(us: seq<string>, x: string, y: string) {
    exists k :: 0 <= k < |us| && x in us[..k] && y !in us[..k]
  }

  /** The deduplicated list has the same elements, each once, in the order in which they first occur. */
  lemma {:induction false} DedupMeans(us: seq<string>)
    ensures var d := Dedup(us);
      && (forall u :: u in d <==> u in us)
      && Distinct(d)
      && (forall i, j :: 0 <= i < j < |d| ==> Before(us, d[i], d[j]))
  {
    if us != [] {
      var n := |us| - 1;
      var front, d := Dedup(us[..n]), Dedup(us);
      DedupMeans(us[..n]);
      assert us == us[..n] + [us[n]];
      assert forall u :: u in us <==> u in us[..n] || u == us[n];
      assert forall i :: 0 <= i < |front| ==> front[i] in us[..n];
      forall i, j | 0 <= i < j < |d| ensures d[i] != d[j] && Before(us, d[i], d[j]) {
        assert d[i] == front[i];
        if j < |front| {
          assert d[j] == front[j];
          assert Before(us[..n], front[i], front[j]);
          var k :| 0 <= k < n && front[i] in us[..n][..k] && front[j] !in us[..n][..k];
          assert us[..n][..k] == us[..k];
          assert d[i] in us[..k] && d[j] !in us[..k];
        } else {
          assert d[i] in us[..n] && d[j] !in us[..n];
        }
      }
    }
  }

  /** One more line: either it is taken, and the wanted list grows by it, or it draws an error. */
  lemma LineStep(r: Rules, before: seq<string>, line: string)
    ensures var lines := before + [line];
      var v := Verdict(r, before, line);
      && Errors(r, lines) == Errors(r, before) + (if v.Some? then [ValidationError(line, v.value)] else [])
      && (v.Some? ==> Wanted(r, lines) == Wanted(r, before))
      && (v.None? ==> Candidate(r, line).Some? && Wanted(r, lines) == Wanted(r, before) + [Candidate(r, line).value] && |Wanted(r, before)| < MAX_URLS)
      && (|Wanted(r, before)| < MAX_URLS ==> forall u :: u in Wanted(r, before) <==> u in Candidates(r, before))
  {
    hide Dedup, LimitMessage, InvalidMessage, DuplicateMessage;
    var lines := before + [line];
    assert lines[..|before|] == before;
    var cs := Candidates(r, before);
    DedupMeans(cs);
    if Candidate(r, line).Some? { DedupStep(cs, Candidate(r, line).value); } else { assert cs + [] == cs; }
  }

  lemma DedupStep(us: seq<string>, u: string)
    ensures Dedup(us + [u]) == Dedup(us) + if u in us then [] else [u]
  {
    assert (us + [u])[..|us|] == us;
  }

  method ParseManualUrls(r: Rules, input: string, ids: nat -> string) returns (validUrls: seq<ParsedUrl>, errors: seq<ValidationError>)
    ensures Urls(validUrls) == Wanted(r, Lines(input))
    ensures errors == Errors(r, Lines(input))
    ensures forall i :: 0 <= i < |validUrls| ==> validUrls[i].id == ids(i) && validUrls[i].source == "manual"
    ensures |validUrls| + |errors| == |Lines(input)|
  {
    hide Wanted, Errors, Candidates, Lines, Verdict, Candidate, LimitMessage, InvalidMessage, DuplicateMessage;
    validUrls, errors := [], [];
    StartEmpty(r);
    var lines := Lines(input);
    var seen: set<string> := {};
    for i := 0 to |lines|
      invariant Urls(validUrls) == Wanted(r, lines[..i]) && errors == Errors(r, lines[..i])
      invariant forall k :: 0 <= k < |validUrls| ==> validUrls[k].id == ids(k) && validUrls[k].source == "manual"
      invariant |validUrls| + |errors| == i
      invariant forall u :: u in seen <==> u in Urls(validUrls)
    {
      var line := lines[i];
      LineStep(r, lines[..i], line);
      VerdictMeans(r, lines[..i], line);
      assert lines[..i] + [line] == lines[..i + 1];
      if |validUrls| >= MAX_URLS {
        errors := errors + [ValidationError(line, LimitMessage())];
        continue;
      }
      if !r.validate(line) {
        errors := errors + [ValidationError(line, InvalidMessage())];
        continue;
      }
      var normalizedUrl := r.normalize(line);
      if normalizedUrl.Err? {
        errors := errors + [ValidationError(line, normalizedUrl.error)];
        continue;
      }
      if normalizedUrl.value in seen {
        errors := errors + [ValidationError(line, DuplicateMessage())];
        continue;
      }
      seen := seen + {normalizedUrl.value};
      UrlsAppend(validUrls, ParsedUrl(ids(|validUrls|), normalizedUrl.value, "manual"));
      validUrls := validUrls + [ParsedUrl(ids(|validUrls|), normalizedUrl.value, "manual")];
    }
    assert lines[..|lines|] == lines;
  }

  lemma StartEmpty(r: Rules)
    ensures Wanted(r, []) == [] && Errors(r, []) == []
  {}

  lemma UrlsAppend(vs: seq<ParsedUrl>, v: ParsedUrl)
    ensures Urls(vs + [v]) == Urls(vs) + [v.url]
  {}

  lemma VerdictMeans(r: Rules, before: seq<string>, line: string)
    ensures |Wanted(r, before)| <= MAX_URLS
    ensures Verdict(r, before, line) ==
      if |Wanted(r, before)| == MAX_URLS then Some(LimitMessage())
      else if !r.validate(line) then Some(InvalidMessage())
      else if r.normalize(line).Err? then Some(r.normalize(line).error)
      else if r.normalize(line).value in Wanted(r, before) then Some(DuplicateMessage())
      else None
    ensures r.validate(line) && r.normalize(line).Ok? ==> Candidate(r, line) == Some(r.normalize(line).value)
  {
    hide Dedup, Candidates, LimitMessage, InvalidMessage, DuplicateMessage;
    DedupMeans(Candidates(r, before));
  }

  /** The accepted URLs are distinct, at most 50, normal forms of valid lines; and a distinct candidate
      is left out only if there are 50 accepted ones, all of which come before it. */
  lemma WantedMeans(r: Rules, lines: seq<string>)
    ensures var w, cs := Wanted(r, lines), Candidates(r, lines);
      && |w| <= 50
      && Distinct(w)
      && (forall u :: u in w ==> u in cs)
      && (forall u :: u in cs && u !in w ==> |w| == 50)
      && (forall x, u :: x in w && u in cs && u !in w ==> Before(cs, x, u))
  {
    hide Dedup, Candidates;
    var cs := Candidates(r, lines);
    DedupMeans(cs);
    var d, w := Dedup(cs), Wanted(r, lines);
    assert forall i :: 0 <= i < |w| ==> w[i] == d[i];
    forall u | u in cs && u !in w ensures |w| == MAX_URLS {
      assert u in d;
    }
    forall x, u | x in w && u in cs && u !in w ensures Before(cs, x, u) {
      var i :| 0 <= i < |w| && w[i] == x;
      var j :| 0 <= j < |d| && d[j] == u;
      assert d[i] == x && i < j;
    }
    forall u | u in w ensures u in cs {
      var i :| 0 <= i < |w| && w[i] == u;
      assert d[i] == u;
    }
  }
}

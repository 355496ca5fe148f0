/** JSON inside markdown fences, and the three strategies that recover JSON from a model's reply. */
module FencedJson {
  import opened Wrappers
  import opened JsonGrammar
  import opened JsonParser
  import opened BraceScanner

  // ---- Searching ------------------------------------------------------------------------------

  /** The white space of `\s` and of `trim` in ECMAScript. */
  predicate IsSpace(c: char) {
    c == ' ' || '\t' <= c <= '\r' || c == '\U{A0}' || c == '\U{1680}' || '\U{2000}' <= c <= '\U{200A}' ||
    c == '\U{2028}' || c == '\U{2029}' || c == '\U{202F}' || c == '\U{205F}' || c == '\U{3000}' || c == '\U{FEFF}'
  }

  predicate At(s: string, pat: string, i: int) {
    0 <= i && i + |pat| <= |s| && s[i..i + |pat|] == pat
  }

  predicate Contains(s: string, pat: string) {
    exists i :: 0 <= i <= |s| && At(s, pat, i)
  }

  function IndexOf(s: string, pat: string, i: nat): (r: Option<nat>)
    requires i <= |s|
    ensures r.Some? ==> i <= r.value && At(s, pat, r.value) && forall j :: i <= j < r.value ==> !At(s, pat, j)
    ensures r.None? ==> forall j :: i <= j ==> !At(s, pat, j)
    decreases |s| - i
  {
    if At(s, pat, i) then Some(i) else if i == |s| then None else IndexOf(s, pat, i + 1)
  }

  function LastIndexOf(s: string, pat: string, i: nat): (r: Option<nat>)
    requires i <= |s|
    ensures r.Some? ==> r.value <= i && At(s, pat, r.value) && forall j :: r.value < j <= i ==> !At(s, pat, j)
    ensures r.None? ==> forall j :: j <= i ==> !At(s, pat, j)
  {
    if At(s, pat, i) then Some(i) else if i == 0 then None else LastIndexOf(s, pat, i - 1)
  }

  function SkipSpaces(s: string, i: nat): (r: nat)
    requires i <= |s|
    ensures i <= r <= |s| && (forall j :: i <= j < r ==> IsSpace(s[j])) && (r < |s| ==> !IsSpace(s[r]))
    decreases |s| - i
  {
    if i == |s| || !IsSpace(s[i]) then i else SkipSpaces(s, i + 1)
  }

  function TrimEnd(s: string): (r: string)
    ensures r <= s && (r != [] ==> !IsSpace(r[|r| - 1])) && forall i :: |r| <= i < |s| ==> IsSpace(s[i])
  {
    if s == [] || !IsSpace(s[|s| - 1]) then s else TrimEnd(s[..|s| - 1])
  }

  function Trim(s: string): string {
    TrimEnd(s[SkipSpaces(s, 0)..])
  }

  // ---- extractJsonFromMarkdown ----------------------------------------------------------------

  const FENCE := "```"
  const JSON_FENCE := "```json"
  const CLOSING_FENCE := "\n```"

  /** A match of ```` ```json\s*\n ```` at `p`: the white space run is taken greedily, so the block
      begins behind the last newline of the run. */
  function BlockAt(s: string, p: nat): (r: Option<nat>)
    requires p <= |s|
    ensures r.Some? ==> p + 7 < r.value <= |s|
  {
    if !At(s, JSON_FENCE, p) then None else
      var run := s[p + 7..SkipSpaces(s, p + 7)];
      match LastIndexOf(run, "\n", |run|)
      case None => None
      case Some(i) => Some(p + 7 + i + 1)
  }

  /** The leftmost match. */
  function BlockStart(s: string, p: nat): (r: Option<nat>)
    requires p <= |s|
    ensures r.Some? ==> r.value <= |s|
    ensures r.None? ==> forall j :: p <= j <= |s| ==> BlockAt(s, j).None?
    decreases |s| - p
  {
    if BlockAt(s, p).Some? then BlockAt(s, p) else if p == |s| then None else BlockStart(s, p + 1)
  }

  /** The block up to its last closing fence, if that is JSON. */
  function JsonBlock(output: string): Option<string> {
    match BlockStart(output, 0)
    case None => None
    case Some(start) =>
      var content := output[start..];
      match LastIndexOf(content, CLOSING_FENCE, |content|)
      case None => None
      case Some(last) =>
        var candidate := Trim(content[..last]);
        if IsJson(candidate) then Some(candidate) else None
  }

  /** ```` /```\s*\n?([\s\S]*?)```/ ````: the newline is part of the white space run, so the optional
      `\n?` never takes anything. */
  function GenericBlock(output: string): Option<string> {
    match IndexOf(output, FENCE, 0)
    case None => None
    case Some(p) =>
      var start := SkipSpaces(output, p + 3);
      match IndexOf(output, FENCE, start)
      case None => None
      case Some(end) =>
        var candidate := Trim(output[start..end]);
        if candidate != [] && (candidate[0] == '{' || candidate[0] == '[') then Some(candidate) else None
  }

  function ExtractFromMarkdown(output: string): Option<string> {
    match JsonBlock(output)
    case Some(candidate) => Some(candidate)
    case None => GenericBlock(output)
  }

  // ---- The strategies of parseBatchVerificationOutput, in order -------------------------------

  function RecoverByBraces(output: string): Option<Tree> {
    match ExtractByBraces(output)
    case None => None
    case Some(text) => match ParseJson(text) case Doc(_, t, _) => Some(t) case NotJson => None
  }

  function Recover(output: string): Option<Tree> {
    match ParseJson(output)
    case Doc(_, t, _) => Some(t)
    case NotJson =>
      match ExtractFromMarkdown(output)
      case None => RecoverByBraces(output)
      case Some(text) =>
        match ParseJson(text) case Doc(_, t, _) => Some(t) case NotJson => RecoverByBraces(output)
  }

  // ---- No JSON text holds a newline followed by a backtick -------------------------------------

  predicate NoFence(s: string) {
    forall i :: 0 <= i < |s| - 1 && s[i] == '\n' ==> s[i + 1] != '`'
  }

  predicate Plainly(k: string) {
    NoFence(k) && (k == [] || k[0] != '`')
  }

  lemma {:induction false} PlainlyRun(w: string, k: string)
    requires Plainly(k)
    requires forall i :: 0 <= i < |w| ==> w[i] != '`'
    ensures Plainly(w + k)
  {
    assert forall i :: |w| <= i < |w + k| ==> (w + k)[i] == k[i - |w|];
  }

  lemma NoFenceInItem(i: Item, k: string)
    requires ItemOk(i) && NoFence(k)
    ensures NoFence(WriteItem(i, k))
  {
    var w := WriteItem(i, []);
    assert WriteItem(i, k) == w + k;
    assert forall j :: 0 <= j < |w| ==> w[j] != '\n';
    assert forall j :: |w| <= j < |w + k| ==> (w + k)[j] == k[j - |w|];
  }

  lemma {:induction false} NoFenceInItems(items: seq<Item>, k: string)
    requires ItemsOk(items) && Plainly(k)
    ensures NoFence(WriteItems(items, k))
  {
    if items == [] {
      PlainlyRun(['"'], k);
    } else {
      NoFenceInItems(items[1..], k);
      NoFenceInItem(items[0], WriteItems(items[1..], k));
    }
  }

  lemma PlainlyString(items: seq<Item>, k: string)
    requires ItemsOk(items) && Plainly(k)
    ensures Plainly(WriteString(items, k))
  {
    NoFenceInItems(items, k);
    var r := WriteItems(items, k);
    assert forall j :: 1 <= j < |['"'] + r| ==> (['"'] + r)[j] == r[j - 1];
  }

  lemma PlainlyNumeral(n: Numeral, k: string)
    requires NumeralOk(n) && Plainly(k)
    ensures Plainly(WriteNumeral(n, k))
  {
    hide Plainly;
    var x := WriteExp(n.exp, k);
    if n.exp.Exp? {
      PlainlyRun(n.exp.digits, k);
      if n.exp.sign.Plus? { PlainlyRun(['+'], n.exp.digits + k); }
      if n.exp.sign.Minus? { PlainlyRun(['-'], n.exp.digits + k); }
      PlainlyRun([n.exp.e], WriteSign(n.exp.sign, n.exp.digits + k));
    }
    if n.frac != [] {
      PlainlyRun(n.frac, x);
      PlainlyRun(['.'], n.frac + x);
    }
    PlainlyRun(n.whole, WriteFrac(n.frac, x));
    if n.negative { PlainlyRun(['-'], WriteUnsigned(n, k)); }
  }

  lemma {:induction false} PlainlyValue(t: Tree, k: string)
    requires Wf(t) && Plainly(k)
    ensures Plainly(Write(t, k))
    decreases t
  {
    hide Plainly;
    match t
    case TNull => PlainlyRun("null", k);
    case TTrue => PlainlyRun("true", k);
    case TFalse => PlainlyRun("false", k);
    case TNumber(n) => PlainlyNumeral(n, k);
    case TString(items) => PlainlyString(items, k);
    case TEmptyArray(ws) => PlainlyRun([']'], k); PlainlyRun(ws, [']'] + k); PlainlyRun(['['], ws + ([']'] + k));
    case TEmptyObject(ws) => PlainlyRun(['}'], k); PlainlyRun(ws, ['}'] + k); PlainlyRun(['{'], ws + (['}'] + k));
    case TArray(ws, elems) =>
      PlainlyElems(elems, k);
      PlainlyRun(ws, WriteElems(elems, k));
      PlainlyRun(['['], ws + WriteElems(elems, k));
    case TObject(ws, members) =>
      PlainlyMembers(members, k);
      PlainlyRun(ws, WriteMembers(members, k));
      PlainlyRun(['{'], ws + WriteMembers(members, k));
  }

  lemma {:induction false} PlainlyElems(e: Elems, k: string)
    requires WfElems(e) && Plainly(k)
    ensures Plainly(WriteElems(e, k))
    decreases e
  {
    hide Plainly;
    var sep := if e.LastElem? then ']' else ',';
    var tail := if e.LastElem? then k else e.before + WriteElems(e.rest, k);
    if e.MoreElems? {
      PlainlyElems(e.rest, k);
      PlainlyRun(e.before, WriteElems(e.rest, k));
    }
    PlainlyRun([sep], tail);
    PlainlyRun(e.after, [sep] + tail);
    PlainlyValue(e.v, e.after + ([sep] + tail));
  }

  lemma {:induction false} PlainlyMembers(m: Members, k: string)
    requires WfMembers(m) && Plainly(k)
    ensures Plainly(WriteMembers(m, k))
    decreases m
  {
    hide Plainly;
    var sep := if m.LastMember? then '}' else ',';
    var tail := if m.LastMember? then k else m.before + WriteMembers(m.rest, k);
    if m.MoreMembers? {
      PlainlyMembers(m.rest, k);
      PlainlyRun(m.before, WriteMembers(m.rest, k));
    }
    PlainlyRun([sep], tail);
    PlainlyRun(m.after, [sep] + tail);
    PlainlyValue(m.v, m.after + ([sep] + tail));
    PlainlyKey(m.key, Write(m.v, m.after + ([sep] + tail)));
  }

  lemma PlainlyKey(key: Key, k: string)
    requires KeyOk(key) && Plainly(k)
    ensures Plainly(WriteKey(key, k))
  {
    hide Plainly;
    PlainlyRun(key.before, k);
    PlainlyRun([':'], key.before + k);
    PlainlyRun(key.after, [':'] + (key.before + k));
    PlainlyString(key.items, key.after + ([':'] + (key.before + k)));
  }

  /** Section 7 of RFC 8259 forbids raw newlines in strings, so a closing fence never lies inside JSON. */
  lemma JsonHoldsNoFence(s: string)
    requires IsJson(s)
    ensures !Contains(s, CLOSING_FENCE)
  {
    hide ParseValue, Write;
    var d := ParseJson(s);
    assert Plainly(d.after);
    PlainlyValue(d.tree, d.after);
    PlainlyRun(d.before, Write(d.tree, d.after));
    forall i | 0 <= i <= |s| ensures !At(s, CLOSING_FENCE, i) {
      if At(s, CLOSING_FENCE, i) { ClosingFenceAt(s, i); }
    }
  }

  lemma ClosingFenceAt(s: string, i: nat)
    ensures At(s, CLOSING_FENCE, i) <==>
      i + 4 <= |s| && s[i] == '\n' && s[i + 1] == '`' && s[i + 2] == '`' && s[i + 3] == '`'
  {
    if i + 4 <= |s| {
      var w := s[i..i + 4];
      assert w[0] == s[i] && w[1] == s[i + 1] && w[2] == s[i + 2] && w[3] == s[i + 3];
    }
  }

  lemma JsonFenceAt(s: string, i: nat)
    ensures At(s, JSON_FENCE, i) <==>
      i + 7 <= |s| && s[i] == '`' && s[i + 1] == '`' && s[i + 2] == '`' &&
      s[i + 3] == 'j' && s[i + 4] == 's' && s[i + 5] == 'o' && s[i + 6] == 'n'
  {
    if i + 7 <= |s| {
      var w := s[i..i + 7];
      assert w[0] == s[i] && w[1] == s[i + 1] && w[2] == s[i + 2];
      assert w[3] == s[i + 3] && w[4] == s[i + 4] && w[5] == s[i + 5] && w[6] == s[i + 6];
    }
  }

  lemma FenceAt(s: string, i: nat)
    ensures At(s, FENCE, i) <==> i + 3 <= |s| && s[i] == '`' && s[i + 1] == '`' && s[i + 2] == '`'
  {
    if i + 3 <= |s| {
      var w := s[i..i + 3];
      assert w[0] == s[i] && w[1] == s[i + 1] && w[2] == s[i + 2];
    }
  }

  // ---- A reply that wraps an object in a json fence --------------------------------------------

  function Wrapped(p: string, t: Tree, z: string): string {
    p + ("```json\n" + (TextOf(t) + ("\n```" + z)))
  }

  lemma ObjectEnds(t: Tree)
    requires IsObjectTree(t)
    ensures var s := TextOf(t); |s| >= 2 && s[0] == '{' && s[|s| - 1] == '}'
  {
    ObjectCloses(t, "");
    ClosedByBrace(OPENED, TextOf(t)[1..]);
  }

  /** The shape of a wrapped reply, character by character. */
  lemma WrappedShape(p: string, t: Tree, z: string)
    requires IsObjectTree(t)
    ensures var out, n, m := Wrapped(p, t, z), |p|, |TextOf(t)|;
      && m >= 2 && |out| == n + 8 + m + 4 + |z| && out[..n] == p
      && At(out, JSON_FENCE, n) && out[n + 7] == '\n'
      && out[n + 8..] == TextOf(t) + ("\n```" + z)
      && TextOf(t)[0] == '{' && TextOf(t)[m - 1] == '}'
  {
    var out, n := Wrapped(p, t, z), |p|;
    ObjectEnds(t);
    hide Write, TextOf;
    assert out[n..] == "```json\n" + (TextOf(t) + ("\n```" + z));
    assert out[n..][..7] == JSON_FENCE;
  }

  lemma {:induction false} ClosedByBrace(s: Scan, text: string)
    requires s.depth >= 1 && Closing(s, text).Some?
    ensures text[|text| - |Closing(s, text).value| - 1] == '}'
    decreases text
  {
    if Step(s, text[0]).depth != 0 { ClosedByBrace(Step(s, text[0]), text[1..]); }
  }

  /** A json fence that the prefix alone does not match is not matched early in the whole reply. */
  lemma NoEarlierBlock(p: string, out: string, i: nat)
    requires |p| < |out| && out[..|p|] == p && At(out, JSON_FENCE, |p|)
    requires i < |p| && BlockAt(p, i) == None
    ensures BlockAt(out, i) == None
  {
    hide LastIndexOf, SkipSpaces;
    JsonFenceAt(out, i);
    JsonFenceAt(out, |p|);
    if At(out, JSON_FENCE, i) {
      assert i + 7 <= |p|;
      AtTake(out, JSON_FENCE, |p|, i);
      SameRun(p, out, i + 7);
      var e := SkipSpaces(p, i + 7);
      SliceTake(out, |p|, i + 7, e);
    }
  }

  lemma {:induction false} SameRun(p: string, out: string, i: nat)
    requires i <= |p| < |out| && out[..|p|] == p && !IsSpace(out[|p|])
    ensures SkipSpaces(p, i) == SkipSpaces(out, i)
    decreases |p| - i
  {
    if i < |p| {
      assert out[i] == out[..|p|][i];
      if IsSpace(p[i]) { SameRun(p, out, i + 1); }
    }
  }

  lemma {:induction false} BlockStartIs(s: string, i: nat, q: nat)
    requires i <= q <= |s| && BlockAt(s, q).Some? && forall j :: i <= j < q ==> BlockAt(s, j).None?
    ensures BlockStart(s, i) == BlockAt(s, q)
    decreases q - i
  {
    if i < q { BlockStartIs(s, i + 1, q); }
  }

  lemma WrappedBlock(p: string, t: Tree, z: string)
    requires IsObjectTree(t) && BlockStart(p, 0) == None
    ensures |p| + 8 <= |Wrapped(p, t, z)| && BlockStart(Wrapped(p, t, z), 0) == Some(|p| + 8)
  {
    hide Write, BlockStart;
    var out, n := Wrapped(p, t, z), |p|;
    WrappedShape(p, t, z);
    assert out[n + 8] == out[n + 8..][0] == '{';
    assert SkipSpaces(out, n + 8) == n + 8;
    assert SkipSpaces(out, n + 7) == n + 8;
    var run := out[n + 7..n + 8];
    assert run == "\n";
    assert At(run, "\n", 0) && !At(run, "\n", 1);
    assert LastIndexOf(run, "\n", 1) == Some(0);
    assert BlockAt(out, n) == Some(n + 8);
    forall i | 0 <= i < n ensures BlockAt(out, i).None? { NoEarlierBlock(p, out, i); }
    BlockStartIs(out, 0, n);
  }

  lemma TrimmedText(s: string)
    requires s != [] && !IsSpace(s[0]) && !IsSpace(s[|s| - 1])
    ensures Trim(s) == s
  {
    assert SkipSpaces(s, 0) == 0 && s[0..] == s;
  }

  lemma TrimKeepsFence(s: string, i: nat)
    requires s != [] && !IsSpace(s[0]) && At(s, CLOSING_FENCE, i)
    ensures At(Trim(s), CLOSING_FENCE, i)
  {
    hide TrimEnd;
    ClosingFenceAt(s, i);
    assert SkipSpaces(s, 0) == 0 && s[0..] == s;
    var r := TrimEnd(s);
    assert i + 3 < |r|;
    ClosingFenceAt(r, i);
  }

  lemma SliceTake(s: string, n: nat, a: nat, b: nat)
    requires a <= b <= n <= |s|
    ensures s[..n][a..b] == s[a..b]
  {}

  lemma AtTake(s: string, pat: string, n: nat, j: nat)
    requires n <= |s| && j + |pat| <= n
    ensures At(s[..n], pat, j) <==> At(s, pat, j)
  {
    SliceTake(s, n, j, j + |pat|);
  }

  lemma AtDrop(s: string, pat: string, k: nat, j: nat)
    requires k <= |s|
    ensures At(s[k..], pat, j) <==> At(s, pat, k + j)
  {
    if j + |pat| <= |s| - k { assert s[k..][j..j + |pat|] == s[k + j..k + j + |pat|]; }
  }

  lemma ObjectTextIsJson(t: Tree)
    requires IsObjectTree(t)
    ensures IsJson(TextOf(t))
  {
    ParseObjectText(t);
  }

  lemma FencesDoNotOverlap(s: string, m: nat, n: nat)
    requires At(s, CLOSING_FENCE, m) && At(s, CLOSING_FENCE, n) && m < n
    ensures m + 4 <= n
  {
    ClosingFenceAt(s, m);
    ClosingFenceAt(s, n);
  }

  /** Where the last closing fence of a block lies, given the one at `m` behind the object. */
  lemma LastFence(content: string, m: nat)
    requires At(content, CLOSING_FENCE, m)
    ensures var last := LastIndexOf(content, CLOSING_FENCE, |content|);
      && last.Some? && m <= last.value && At(content, CLOSING_FENCE, last.value)
      && (last.value == m <==> !Contains(content[m + 4..], CLOSING_FENCE))
      && (m < last.value ==> m + 4 <= last.value)
  {
    hide LastIndexOf, At;
    AtFits(content, CLOSING_FENCE, m);
    var z := content[m + 4..];
    var last := LastIndexOf(content, CLOSING_FENCE, |content|).value;
    if last > m {
      FencesDoNotOverlap(content, m, last);
      AtDrop(content, CLOSING_FENCE, m + 4, last - m - 4);
    } else {
      forall j | 0 <= j <= |z| ensures !At(z, CLOSING_FENCE, j) { AtDrop(content, CLOSING_FENCE, m + 4, j); }
    }
  }

  lemma AtFits(s: string, pat: string, i: nat)
    ensures At(s, pat, i) ==> i + |pat| <= |s|
  {}

  /** The block strategy alone: it finds the object exactly when no later line opens with a fence. */
  lemma JsonBlockOfWrapped(p: string, t: Tree, z: string)
    requires IsObjectTree(t) && BlockStart(p, 0) == None
    ensures JsonBlock(Wrapped(p, t, z)) == if Contains(z, CLOSING_FENCE) then None else Some(TextOf(t))
  {
    hide Write, BlockStart, IsJson, Trim, LastIndexOf, Contains;
    var out, m := Wrapped(p, t, z), |TextOf(t)|;
    WrappedBlock(p, t, z);
    WrappedShape(p, t, z);
    var content := out[|p| + 8..];
    assert content[m..m + 4] == CLOSING_FENCE && content[m + 4..] == z && content[..m] == TextOf(t);
    LastFence(content, m);
    var last := LastIndexOf(content, CLOSING_FENCE, |content|).value;
    if last == m {
      TrimmedText(TextOf(t));
      ObjectTextIsJson(t);
    } else {
      var s := content[..last];
      assert s[0] == content[..m][0];
      assert s[m..m + 4] == content[m..m + 4];
      TrimKeepsFence(s, m);
      JsonHoldsNoFenceThere(Trim(s), m);
    }
  }

  lemma JsonHoldsNoFenceThere(s: string, i: nat)
    requires At(s, CLOSING_FENCE, i)
    ensures !IsJson(s)
  {
    if IsJson(s) { JsonHoldsNoFence(s); }
  }

  /** Fenced round trip: however many fences the strings of the object hold. */
  lemma FencedRoundTrip(p: string, t: Tree, z: string)
    requires IsObjectTree(t) && BlockStart(p, 0) == None && !Contains(z, CLOSING_FENCE)
    ensures ExtractFromMarkdown(Wrapped(p, t, z)) == Some(TextOf(t))
  {
    hide JsonBlock;
    JsonBlockOfWrapped(p, t, z);
  }

  lemma NoFenceNoBlock(p: string)
    requires !Contains(p, FENCE)
    ensures BlockStart(p, 0) == None
  {
    forall i | 0 <= i <= |p| ensures BlockAt(p, i).None? {
      JsonFenceAt(p, i);
      FenceAt(p, i);
    }
    NoBlockFrom(p, 0);
  }

  lemma {:induction false} NoBlockFrom(s: string, i: nat)
    requires i <= |s| && forall j :: i <= j <= |s| ==> BlockAt(s, j).None?
    ensures BlockStart(s, i) == None
    decreases |s| - i
  {
    if i < |s| { NoBlockFrom(s, i + 1); }
  }

  /** With no fence in front of it, the generic strategy sees a block that opens with the word json. */
  lemma GenericBlockOfWrapped(p: string, t: Tree, z: string)
    requires IsObjectTree(t) && !Contains(p, FENCE)
    ensures GenericBlock(Wrapped(p, t, z)) == None
  {
    hide Write, IndexOf, TrimEnd;
    var out, n := Wrapped(p, t, z), |p|;
    WrappedShape(p, t, z);
    JsonFenceAt(out, n);
    FenceAt(out, n);
    var first := IndexOf(out, FENCE, 0).value;
    FenceAt(out, first);
    FenceAt(p, first);
    assert forall j :: 0 <= j < n ==> out[j] == out[..n][j] == p[j];
    assert first <= n;
    assert first + 3 > n by {
      assert first + 3 <= n ==> At(p, FENCE, first);
    }
    var start := SkipSpaces(out, first + 3);
    assert out[first + 3] == '`' || out[first + 3] == 'j';
    assert start == first + 3;
    match IndexOf(out, FENCE, start)
    case None =>
    case Some(end) =>
      var block := out[start..end];
      if block != [] {
        assert block[0] == out[start];
        assert SkipSpaces(block, 0) == 0 && block[0..] == block;
        assert Trim(block) != [] ==> Trim(block)[0] == block[0];
      }
  }

  /** Exactly when the markdown strategies find the object behind a fence-free prefix. */
  lemma FencedIff(p: string, t: Tree, z: string)
    requires IsObjectTree(t) && !Contains(p, FENCE)
    ensures ExtractFromMarkdown(Wrapped(p, t, z)) == if Contains(z, CLOSING_FENCE) then None else Some(TextOf(t))
  {
    hide JsonBlock, GenericBlock, BlockStart;
    NoFenceNoBlock(p);
    JsonBlockOfWrapped(p, t, z);
    GenericBlockOfWrapped(p, t, z);
  }

  lemma WrappedIsNotJson(p: string, t: Tree, z: string)
    requires IsObjectTree(t)
    ensures !IsJson(Wrapped(p, t, z))
  {
    hide Write, IsJson;
    var out, i := Wrapped(p, t, z), |p| + 8 + |TextOf(t)|;
    WrappedShape(p, t, z);
    assert out[|p| + 8..][|TextOf(t)|..] == "\n```" + z;
    assert out[i..] == "\n```" + z;
    assert out[i..][..4] == CLOSING_FENCE;
    JsonHoldsNoFenceThere(out, i);
  }

  /** A reply with one json fence parses to the fenced object, whatever follows the closing fence. */
  lemma RecoverWrapped(p: string, t: Tree, z: string)
    requires IsObjectTree(t) && '{' !in p && !Contains(p, FENCE)
    ensures Recover(Wrapped(p, t, z)) == Some(t)
  {
    hide Write, ParseJson, ExtractFromMarkdown, ExtractByBraces;
    WrappedIsNotJson(p, t, z);
    ParseObjectText(t);
    FencedIff(p, t, z);
    var q := p + "```json\n";
    assert Wrapped(p, t, z) == q + TextOf(t) + ("\n```" + z);
    ExtractionComplete(q, t, "\n```" + z);
  }

  /** The same for a clean closing fence behind any prefix that does not itself open a json fence. */
  lemma RecoverFenced(p: string, t: Tree, z: string)
    requires IsObjectTree(t) && BlockStart(p, 0) == None && !Contains(z, CLOSING_FENCE)
    ensures Recover(Wrapped(p, t, z)) == Some(t)
  {
    hide Write, ParseJson, ExtractFromMarkdown, ExtractByBraces;
    WrappedIsNotJson(p, t, z);
    ParseObjectText(t);
    FencedRoundTrip(p, t, z);
  }

  // ---- A reply that wraps an object in a plain fence -------------------------------------------

  function PlainlyWrapped(p: string, t: Tree, z: string): string {
    p + ("```\n" + (TextOf(t) + ("\n```" + z)))
  }

  /** The opening fence is the first one of the reply, and the closing one the second. */
  predicate OnlyFence(p: string, t: Tree) {
    !Contains(p, FENCE) && (p == "" || p[|p| - 1] != '`') && !Contains(TextOf(t), FENCE)
  }

  lemma PlainlyWrappedShape(p: string, t: Tree, z: string)
    requires IsObjectTree(t)
    ensures var out, n, m := PlainlyWrapped(p, t, z), |p|, |TextOf(t)|;
      && m >= 2 && |out| == n + 4 + m + 4 + |z| && out[..n] == p
      && At(out, FENCE, n) && out[n + 3] == '\n'
      && out[n + 4..n + 4 + m] == TextOf(t) && TextOf(t)[0] == '{' && TextOf(t)[m - 1] == '}'
      && At(out, CLOSING_FENCE, n + 4 + m) && out[n + 4 + m + 4..] == z
  {
    var out, n, m := PlainlyWrapped(p, t, z), |p|, |TextOf(t)|;
    ObjectEnds(t);
    hide Write, TextOf;
    var tail := TextOf(t) + ("\n```" + z);
    assert out[n..] == "```\n" + tail;
    assert out[n..][..3] == FENCE;
    assert out[n + 4..] == tail;
    assert tail[..m] == TextOf(t);
    assert tail[m..] == "\n```" + z;
    assert out[n + 4 + m..] == "\n```" + z;
    assert out[n + 4 + m..][..4] == CLOSING_FENCE;
  }

  lemma NoFenceBefore(p: string, t: Tree, z: string, j: nat)
    requires IsObjectTree(t) && OnlyFence(p, t)
    requires At(PlainlyWrapped(p, t, z), FENCE, j) && j < |p| + 4 + |TextOf(t)| + 1
    ensures j == |p|
  {
    hide Write, PlainlyWrapped;
    var out, n, text := PlainlyWrapped(p, t, z), |p|, TextOf(t);
    PlainlyWrappedShape(p, t, z);
    ClosingFenceAt(out, n + 4 + |text|);
    FenceAt(out, j);
    assert forall k :: 0 <= k < n ==> out[k] == out[..n][k] == p[k];
    assert forall k :: 0 <= k < |text| ==> out[n + 4 + k] == out[n + 4..n + 4 + |text|][k] == text[k];
    if j < n {
      FenceAt(p, j);
    } else if j >= n + 4 {
      FenceAt(text, j - n - 4);
    }
  }

  lemma TrimLineEnd(text: string)
    requires text != "" && !IsSpace(text[0]) && !IsSpace(text[|text| - 1])
    ensures Trim(text + "\n") == text
  {
    var s := text + "\n";
    assert s[0] == text[0] && SkipSpaces(s, 0) == 0 && s[0..] == s;
    assert s[..|s| - 1] == text;
  }

  lemma GenericBlockOfPlain(p: string, t: Tree, z: string)
    requires IsObjectTree(t) && OnlyFence(p, t)
    ensures GenericBlock(PlainlyWrapped(p, t, z)) == Some(TextOf(t))
  {
    hide Write, IndexOf, Trim, PlainlyWrapped, OnlyFence;
    var out, n, text := PlainlyWrapped(p, t, z), |p|, TextOf(t);
    PlainlyWrappedShape(p, t, z);
    var c := n + 4 + |text| + 1;
    ClosingFenceAt(out, c - 1);
    FenceAt(out, c);
    var first := IndexOf(out, FENCE, 0).value;
    NoFenceBefore(p, t, z, first);
    assert out[n + 4] == out[n + 4..n + 4 + |text|][0] == '{';
    assert SkipSpaces(out, n + 4) == n + 4;
    assert SkipSpaces(out, n + 3) == n + 4;
    var end := IndexOf(out, FENCE, n + 4).value;
    if end < c { NoFenceBefore(p, t, z, end); }
    assert out[n + 4..c] == text + "\n";
    TrimLineEnd(text);
  }

  lemma {:induction false} BlockStartWhere(s: string, i: nat) returns (j: nat)
    requires i <= |s| && BlockStart(s, i).Some?
    ensures i <= j <= |s| && BlockAt(s, j) == BlockStart(s, i)
    decreases |s| - i
  {
    if BlockAt(s, i).Some? { j := i; } else { j := BlockStartWhere(s, i + 1); }
  }

  /** A json block can only open behind the object. */
  lemma PlainBlockStart(p: string, t: Tree, z: string)
    requires IsObjectTree(t) && OnlyFence(p, t)
    ensures var out := PlainlyWrapped(p, t, z);
      BlockStart(out, 0).Some? ==> |p| + 4 + |TextOf(t)| + 4 <= BlockStart(out, 0).value <= |out|
  {
    hide Write, PlainlyWrapped, OnlyFence, BlockStart, LastIndexOf;
    var out, n, text := PlainlyWrapped(p, t, z), |p|, TextOf(t);
    PlainlyWrappedShape(p, t, z);
    if BlockStart(out, 0).Some? {
      var j := BlockStartWhere(out, 0);
      JsonFenceAt(out, j);
      FenceAt(out, j);
      if j < n + 4 + |text| + 1 { NoFenceBefore(p, t, z, j); }
    }
  }

  lemma NoJsonBlockInPlain(p: string, t: Tree, z: string)
    requires IsObjectTree(t) && OnlyFence(p, t) && !Contains(z, CLOSING_FENCE)
    ensures JsonBlock(PlainlyWrapped(p, t, z)) == None
  {
    hide Write, IsJson, Trim, LastIndexOf, Contains, PlainlyWrapped, OnlyFence, BlockStart, At;
    var out, e := PlainlyWrapped(p, t, z), |p| + 4 + |TextOf(t)| + 4;
    PlainlyWrappedShape(p, t, z);
    PlainBlockStart(p, t, z);
    if BlockStart(out, 0).Some? {
      var start := BlockStart(out, 0).value;
      var last := LastIndexOf(out[start..], CLOSING_FENCE, |out[start..]|);
      if last.Some? {
        AtDrop(out, CLOSING_FENCE, start, last.value);
        AtDrop(out, CLOSING_FENCE, e, start + last.value - e);
        AtIsContained(z, CLOSING_FENCE, start + last.value - e);
      }
    }
  }

  lemma AtIsContained(s: string, pat: string, i: nat)
    requires At(s, pat, i)
    ensures Contains(s, pat)
  {}

  /** An object in a fence without a language is recovered, whatever text without a fence stands before it,
      braces included, as long as its own strings hold no fence and no later line opens with one. */
  lemma RecoverPlainFence(p: string, t: Tree, z: string)
    requires IsObjectTree(t) && OnlyFence(p, t) && !Contains(z, CLOSING_FENCE)
    ensures Recover(PlainlyWrapped(p, t, z)) == Some(t)
  {
    hide Write, ParseJson, JsonBlock, GenericBlock, ExtractByBraces, OnlyFence, Contains;
    var out := PlainlyWrapped(p, t, z);
    PlainlyWrappedShape(p, t, z);
    JsonHoldsNoFenceThere(out, |p| + 4 + |TextOf(t)|);
    ParseObjectText(t);
    NoJsonBlockInPlain(p, t, z);
    GenericBlockOfPlain(p, t, z);
  }

  /** A reply without fences: an object in prose is found behind brace-free text. */
  lemma RecoverProse(p: string, t: Tree, z: string)
    requires IsObjectTree(t) && '{' !in p
    requires var out := p + TextOf(t) + z; !IsJson(out) && !Contains(out, FENCE)
    ensures Recover(p + TextOf(t) + z) == Some(t)
  {
    hide Write, ParseJson, ExtractByBraces, BlockStart;
    var out := p + TextOf(t) + z;
    NoFenceNoBlock(out);
    ParseObjectText(t);
    ExtractionComplete(p, t, z);
  }

  /** A bare object text, with or without white space around it, is its own reply. */
  lemma RecoverBare(before: string, t: Tree, after: string)
    requires AllWs(before) && Wf(t) && AllWs(after)
    ensures Recover(before + Write(t, after)) == Some(t)
  {
    ParseJsonOf(before, t, after);
  }

  /** Whatever is recovered derives from a well-formed tree. */
  lemma RecoverSound(output: string)
    ensures Recover(output).Some? ==> Wf(Recover(output).value)
  {}
}

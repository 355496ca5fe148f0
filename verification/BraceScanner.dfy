/** Brace matching: the scanner that cuts a JSON object out of surrounding prose.

    The method is the loop of the program, with its three variables; the function
    `ExtractByBraces` is the one-candidate specification it is proved equal to. */
module BraceScanner {
  import opened Wrappers
  import opened JsonGrammar
  import opened JsonParser

  datatype Scan = Scan(depth: int, inString: bool, escapeNext: bool)

  function Step(s: Scan, c: char): Scan {
    if s.escapeNext then s.(escapeNext := false)
    else if c == '\\' then s.(escapeNext := true)
    else if c == '"' then s.(inString := !s.inString)
    else if s.inString then s
    else if c == '{' then s.(depth := s.depth + 1)
    else if c == '}' then s.(depth := s.depth - 1)
    else s
  }

  /** What follows the first character that brings the depth back to 0. */
  function Closing(s: Scan, text: string): (r: Option<string>)
    decreases text
    ensures r.Some? ==> |r.value| < |text| && text[|text| - |r.value|..] == r.value
  {
    if text == [] then None
    else if Step(s, text[0]).depth == 0 then Some(text[1..])
    else Closing(Step(s, text[0]), text[1..])
  }

  const OPENED := Scan(1, false, false)

  function FirstBrace(s: string): (i: nat)
    ensures i <= |s| && '{' !in s[..i] && (i < |s| ==> s[i] == '{')
  {
    if s == [] || s[0] == '{' then 0 else
      assert s[..1 + FirstBrace(s[1..])] == [s[0]] + s[1..][..FirstBrace(s[1..])];
      1 + FirstBrace(s[1..])
  }

  /** The index behind that character, for a scan that starts at index `i` of the text. */
  function ClosingIndex(s: Scan, text: string, i: nat): (r: Option<nat>)
    requires i <= |text|
    ensures r.Some? ==> i < r.value <= |text|
  {
    match Closing(s, text[i..]) case None => None case Some(rest) => Some(|text| - |rest|)
  }

  /** The text from the first opening brace to the character that closes it. */
  function Candidate(output: string): Option<string> {
    var start := FirstBrace(output);
    if start == |output| then None else
      match ClosingIndex(OPENED, output, start + 1)
      case None => None
      case Some(end) => Some(output[start..end])
  }

  function ExtractByBraces(output: string): Option<string> {
    match Candidate(output)
    case Some(c) => if IsJson(c) then Some(c) else None
    case None => None
  }

  // ---- The scanner against the grammar --------------------------------------------------------

  lemma ClosingAt(s: Scan, text: string, i: nat)
    requires i < |text|
    ensures var next := Step(s, text[i]);
      ClosingIndex(s, text, i) == if next.depth == 0 then Some(i + 1) else ClosingIndex(next, text, i + 1)
  {
    assert text[i..][0] == text[i] && text[i..][1..] == text[i + 1..];
  }

  lemma ClosingStep(s: Scan, c: char, k: string)
    requires Step(s, c).depth != 0
    ensures Closing(s, [c] + k) == Closing(Step(s, c), k)
  {
    assert ([c] + k)[1..] == k;
  }

  lemma {:induction false} ClosingOverPlain(s: Scan, w: string, k: string)
    requires s.depth != 0 && !s.escapeNext
    requires forall i :: 0 <= i < |w| ==> w[i] != '\\' && w[i] != '"' && w[i] != '{' && w[i] != '}'
    ensures Closing(s, w + k) == Closing(s, k)
  {
    if w == [] {
      assert w + k == k;
    } else {
      assert w + k == [w[0]] + (w[1..] + k);
      ClosingStep(s, w[0], w[1..] + k);
      ClosingOverPlain(s, w[1..], k);
    }
  }

  lemma ClosingOverItem(d: int, i: Item, k: string)
    requires d != 0 && ItemOk(i)
    ensures Closing(Scan(d, true, false), WriteItem(i, k)) == Closing(Scan(d, true, false), k)
  {
    hide Closing;
    var s := Scan(d, true, false);
    match i
    case Plain(c) => ClosingStep(s, c, k);
    case Short(e) =>
      assert WriteItem(i, k) == ['\\'] + ([e] + k);
      ClosingStep(s, '\\', [e] + k);
      ClosingStep(s.(escapeNext := true), e, k);
    case Hex(h0, h1, h2, h3) =>
      var t := [h0] + ([h1] + ([h2] + ([h3] + k)));
      assert WriteItem(i, k) == ['\\'] + (['u'] + t);
      ClosingStep(s, '\\', ['u'] + t);
      ClosingStep(s.(escapeNext := true), 'u', t);
      ClosingStep(s, h0, [h1] + ([h2] + ([h3] + k)));
      ClosingStep(s, h1, [h2] + ([h3] + k));
      ClosingStep(s, h2, [h3] + k);
      ClosingStep(s, h3, k);
  }

  lemma {:induction false} ClosingOverItems(d: int, items: seq<Item>, k: string)
    requires d != 0 && ItemsOk(items)
    ensures Closing(Scan(d, true, false), WriteItems(items, k)) == Closing(Scan(d, false, false), k)
  {
    hide Closing;
    if items == [] {
      ClosingStep(Scan(d, true, false), '"', k);
    } else {
      ClosingOverItem(d, items[0], WriteItems(items[1..], k));
      ClosingOverItems(d, items[1..], k);
    }
  }

  lemma ClosingOverString(d: int, items: seq<Item>, k: string)
    requires d != 0 && ItemsOk(items)
    ensures Closing(Scan(d, false, false), WriteString(items, k)) == Closing(Scan(d, false, false), k)
  {
    hide Closing;
    ClosingStep(Scan(d, false, false), '"', WriteItems(items, k));
    ClosingOverItems(d, items, k);
  }

  lemma ClosingOverNumeral(d: int, n: Numeral, k: string)
    requires d != 0 && NumeralOk(n)
    ensures Closing(Scan(d, false, false), WriteNumeral(n, k)) == Closing(Scan(d, false, false), k)
  {
    hide Closing;
    var s := Scan(d, false, false);
    var x := WriteExp(n.exp, k);
    if n.exp.Exp? {
      ClosingStep(s, n.exp.e, WriteSign(n.exp.sign, n.exp.digits + k));
      if n.exp.sign.Plus? { ClosingStep(s, '+', n.exp.digits + k); }
      if n.exp.sign.Minus? { ClosingStep(s, '-', n.exp.digits + k); }
      ClosingOverPlain(s, n.exp.digits, k);
    }
    if n.frac != [] {
      ClosingStep(s, '.', n.frac + x);
      ClosingOverPlain(s, n.frac, x);
    }
    ClosingOverPlain(s, n.whole, WriteFrac(n.frac, x));
    if n.negative { ClosingStep(s, '-', WriteUnsigned(n, k)); }
  }

  /** Below an open brace the scanner passes over any value and is in the same state behind it. */
  lemma {:induction false} ClosingOverValue(d: int, t: Tree, k: string)
    requires d >= 1 && Wf(t)
    ensures Closing(Scan(d, false, false), Write(t, k)) == Closing(Scan(d, false, false), k)
    decreases t, 1
  {
    hide Closing;
    var s := Scan(d, false, false);
    match t
    case TNull => ClosingOverPlain(s, "null", k);
    case TTrue => ClosingOverPlain(s, "true", k);
    case TFalse => ClosingOverPlain(s, "false", k);
    case TNumber(n) => ClosingOverNumeral(d, n, k);
    case TString(items) => ClosingOverString(d, items, k);
    case TEmptyArray(ws) =>
      ClosingStep(s, '[', ws + ([']'] + k));
      ClosingOverPlain(s, ws, [']'] + k);
      ClosingStep(s, ']', k);
    case TArray(ws, elems) =>
      ClosingStep(s, '[', ws + WriteElems(elems, k));
      ClosingOverPlain(s, ws, WriteElems(elems, k));
      ClosingOverElems(d, elems, k);
    case _ =>
      var inner := ObjectInner(t, k);
      ClosingStep(s, '{', inner);
      ClosingOfObject(d + 1, t, k);
      ClosingStep(Scan(d + 1, false, false), '}', k);
  }

  lemma {:induction false} ClosingOverElems(d: int, e: Elems, k: string)
    requires d >= 1 && WfElems(e)
    ensures Closing(Scan(d, false, false), WriteElems(e, k)) == Closing(Scan(d, false, false), k)
    decreases e
  {
    hide Closing;
    var s := Scan(d, false, false);
    var sep := if e.LastElem? then ']' else ',';
    var tail := if e.LastElem? then k else e.before + WriteElems(e.rest, k);
    ClosingOverValue(d, e.v, e.after + ([sep] + tail));
    ClosingOverPlain(s, e.after, [sep] + tail);
    ClosingStep(s, sep, tail);
    if e.MoreElems? {
      ClosingOverPlain(s, e.before, WriteElems(e.rest, k));
      ClosingOverElems(d, e.rest, k);
    }
  }

  function ObjectInner(t: Tree, k: string): (r: string)
    requires IsObjectTree(t)
    ensures Write(t, k) == ['{'] + r
  {
    if t.TEmptyObject? then t.ws + (['}'] + k) else t.ws + WriteMembers(t.members, k)
  }

  /** Behind the opening brace of an object, the scanner is next stopped by that object's own brace. */
  lemma {:induction false} ClosingOfObject(d: int, t: Tree, k: string)
    requires d >= 1 && IsObjectTree(t)
    ensures Closing(Scan(d, false, false), ObjectInner(t, k)) == Closing(Scan(d, false, false), ['}'] + k)
    decreases t, 0
  {
    hide Closing;
    var s := Scan(d, false, false);
    if t.TEmptyObject? {
      ClosingOverPlain(s, t.ws, ['}'] + k);
    } else {
      ClosingOverPlain(s, t.ws, WriteMembers(t.members, k));
      ClosingOfMembers(d, t.members, k);
    }
  }

  lemma ClosingOverKey(d: int, key: Key, k: string)
    requires d != 0 && KeyOk(key)
    ensures Closing(Scan(d, false, false), WriteKey(key, k)) == Closing(Scan(d, false, false), k)
  {
    hide Closing;
    var s := Scan(d, false, false);
    ClosingOverString(d, key.items, key.after + ([':'] + (key.before + k)));
    ClosingOverPlain(s, key.after, [':'] + (key.before + k));
    ClosingStep(s, ':', key.before + k);
    ClosingOverPlain(s, key.before, k);
  }

  lemma {:induction false} ClosingOfMembers(d: int, m: Members, k: string)
    requires d >= 1 && WfMembers(m)
    ensures Closing(Scan(d, false, false), WriteMembers(m, k)) == Closing(Scan(d, false, false), ['}'] + k)
    decreases m
  {
    hide Closing;
    var s := Scan(d, false, false);
    var tail := if m.LastMember? then ['}'] + k else [','] + (m.before + WriteMembers(m.rest, k));
    ClosingOverKey(d, m.key, Write(m.v, m.after + tail));
    ClosingOverValue(d, m.v, m.after + tail);
    ClosingOverPlain(s, m.after, tail);
    if m.MoreMembers? {
      ClosingStep(s, ',', m.before + WriteMembers(m.rest, k));
      ClosingOverPlain(s, m.before, WriteMembers(m.rest, k));
      ClosingOfMembers(d, m.rest, k);
    }
  }

  /** The brace that first returns an object text to depth 0 is its last character. */
  lemma ObjectCloses(t: Tree, k: string)
    requires IsObjectTree(t)
    ensures Write(t, k) != [] && Write(t, k)[0] == '{' && Closing(OPENED, Write(t, k)[1..]) == Some(k)
  {
    assert Write(t, k)[1..] == ObjectInner(t, k);
    ClosingOfObject(1, t, k);
    assert (['}'] + k)[1..] == k;
  }

  lemma {:induction false} ClosingAppend(s: Scan, text: string, z: string)
    ensures Closing(s, text).Some? ==> Closing(s, text + z) == Some(Closing(s, text).value + z)
    decreases text
  {
    if text != [] {
      assert (text + z)[0] == text[0] && (text + z)[1..] == text[1..] + z;
      ClosingAppend(Step(s, text[0]), text[1..], z);
    }
  }

  // ---- Texts that open with a brace -----------------------------------------------------------

  /** JSON that opens with a brace is an object text and white space, and closes where the scan says. */
  lemma BracedJson(s: string)
    requires s != [] && s[0] == '{' && IsJson(s)
    ensures var d := ParseJson(s);
      IsObjectTree(d.tree) && s == Write(d.tree, d.after) && Closing(OPENED, s[1..]) == Some(d.after)
  {
    hide Closing, ParseValue, Write, Wf;
    var d := ParseJson(s);
    assert TakeWs(s) == ([], s);
    assert d.before == [] && s == Write(d.tree, d.after);
    ValueStart(d.tree, d.after);
    ObjectCloses(d.tree, d.after);
  }

  /** Every proper non-empty prefix of an object text leaves a brace open ... */
  lemma PrefixStaysOpen(t: Tree, n: nat)
    requires IsObjectTree(t) && 0 < n < |TextOf(t)|
    ensures Closing(OPENED, TextOf(t)[..n][1..]) == None
  {
    hide Closing, Write;
    var s := TextOf(t);
    ObjectCloses(t, "");
    assert s[1..] == s[..n][1..] + s[n..];
    ClosingAppend(OPENED, s[..n][1..], s[n..]);
  }

  lemma {:induction false} ClosingIgnoresLast(s: Scan, text: string, c: char)
    requires s.depth >= 1 && c != '}' && Closing(s, text) == None
    ensures Closing(s, text + [c]) == None
    decreases text
  {
    if text == [] {
      assert text + [c] == [c];
    } else {
      assert (text + [c])[0] == text[0] && (text + [c])[1..] == text[1..] + [c];
      ClosingIgnoresLast(Step(s, text[0]), text[1..], c);
    }
  }

  lemma NothingIsNotJson()
    ensures !IsJson([]) && !IsJson(['\U{FFFD}'])
  {
    assert TakeWs(['\U{FFFD}']) == ([], ['\U{FFFD}']);
  }

  /** ... so what a torn write leaves behind never parses: a proper prefix of the text, possibly with
      a replacement character where a multi-byte character was cut. */
  lemma TornObjectIsNotJson(t: Tree, n: nat)
    requires IsObjectTree(t) && n < |TextOf(t)|
    ensures !IsJson(TextOf(t)[..n])
    ensures !IsJson(TextOf(t)[..n] + ['\U{FFFD}'])
  {
    hide Closing, Write, ParseJson;
    var p := TextOf(t)[..n];
    ValueStart(t, "");
    if n == 0 {
      NothingIsNotJson();
      assert p == [] && p + ['\U{FFFD}'] == ['\U{FFFD}'];
    } else {
      PrefixStaysOpen(t, n);
      assert p[0] == '{';
      ClosingIgnoresLast(OPENED, p[1..], '\U{FFFD}');
      assert (p + ['\U{FFFD}'])[1..] == p[1..] + ['\U{FFFD}'];
      if IsJson(p) { BracedJson(p); }
      if IsJson(p + ['\U{FFFD}']) { BracedJson(p + ['\U{FFFD}']); }
    }
  }

  /** If the first text that closes is not JSON, no longer one can be. */
  lemma FirstCandidateDecides(s: string, j: nat, m: nat)
    requires s != [] && s[0] == '{' && j < m <= |s|
    requires Closing(OPENED, s[1..]) == Some(s[j..]) && !IsJson(s[..j])
    ensures !IsJson(s[..m])
  {
    hide Closing, ParseJson, Write;
    var p := s[..m];
    if IsJson(p) {
      BracedJson(p);
      var d := ParseJson(p);
      assert s[1..] == p[1..] + s[m..];
      ClosingAppend(OPENED, p[1..], s[m..]);
      assert s[j..] == d.after + s[m..];
      WriteAppend(d.tree, "", d.after);
      assert "" + d.after == d.after;
      assert p == TextOf(d.tree) + d.after;
      assert j == |TextOf(d.tree)|;
      assert s[..j] == p[..j] == TextOf(d.tree);
      ParseObjectText(d.tree);
    }
  }

  // ---- The loop -------------------------------------------------------------------------------

  method ExtractJsonByBraceMatching(output: string) returns (r: Option<string>)
    ensures r == ExtractByBraces(output)
  {
    hide ClosingIndex, FirstBrace, IsJson;
    var startIdx := FirstBrace(output);
    if startIdx == |output| { return None; }
    var depth, inString, escapeNext := 0, false, false;
    ghost var closing := ClosingIndex(OPENED, output, startIdx + 1);
    ghost var rejected := false;  // the first candidate has been seen and is not JSON
    var i := startIdx;
    while i < |output|
      invariant startIdx <= i <= |output|
      invariant i == startIdx ==> Scan(depth, inString, escapeNext) == Scan(0, false, false) && !rejected
      invariant i > startIdx && !rejected ==>
        depth >= 1 && closing == ClosingIndex(Scan(depth, inString, escapeNext), output, i)
      invariant rejected ==> closing.Some? && startIdx < closing.value <= i
      invariant rejected ==> !IsJson(output[startIdx..closing.value])
    {
      ghost var before := Scan(depth, inString, escapeNext);
      var c := output[i];
      ClosingAt(before, output, i);
      i := i + 1;
      if escapeNext {
        escapeNext := false;
      } else if c == '\\' {
        escapeNext := true;
      } else if c == '"' {
        inString := !inString;
      } else if inString {
      } else if c == '{' {
        depth := depth + 1;
      } else if c == '}' {
        depth := depth - 1;
        if depth == 0 {
          var candidate := output[startIdx..i];
          if rejected { LaterCandidatesFail(output, startIdx, closing.value, i); }
          if IsJson(candidate) {
            return Some(candidate);
          }
          rejected := true;
        }
      }
      assert Step(before, c) == Scan(depth, inString, escapeNext);
    }
    NothingCloses(Scan(depth, inString, escapeNext), output);
    return None;
  }

  lemma NothingCloses(s: Scan, text: string)
    ensures ClosingIndex(s, text, |text|) == None
  {}

  lemma LaterCandidatesFail(output: string, start: nat, first: nat, end: nat)
    requires start < first < end <= |output| && output[start] == '{'
    requires ClosingIndex(OPENED, output, start + 1) == Some(first) && !IsJson(output[start..first])
    ensures !IsJson(output[start..end])
  {
    hide Closing, IsJson;
    var s := output[start..];
    var j := first - start;
    assert s[1..] == output[start + 1..];
    assert s[j..] == output[first..];
    var rest := Closing(OPENED, s[1..]).value;
    assert rest == s[1..][|s| - 1 - |rest|..] == s[j..];
    assert s[..j] == output[start..first];
    FirstCandidateDecides(s, j, end - start);
    assert s[..end - start] == output[start..end];
  }

  // ---- What the extraction means --------------------------------------------------------------

  /** Exactly when a text is returned: it is an object text, and no brace stands in front of it. */
  lemma ExtractionIff(output: string, r: string)
    ensures ExtractByBraces(output) == Some(r) <==>
      exists p: string, z: string :: output == p + r + z && '{' !in p && IsObjectText(r)
  {
    if ExtractByBraces(output) == Some(r) {
      ExtractionSound(output, r);
    }
    if p: string, z: string :| output == p + r + z && '{' !in p && IsObjectText(r) {
      var t: Tree :| IsObjectTree(t) && r == TextOf(t);
      ExtractionComplete(p, t, z);
    }
  }

  lemma ExtractionComplete(p: string, t: Tree, z: string)
    requires '{' !in p && IsObjectTree(t)
    ensures ExtractByBraces(p + TextOf(t) + z) == Some(TextOf(t))
  {
    hide Closing, ParseJson, Write, FirstBrace;
    var output := p + TextOf(t) + z;
    ObjectCloses(t, z);
    WriteAppend(t, "", z);
    assert "" + z == z;
    assert output == p + Write(t, z);
    assert output[..|p|] == p;
    FirstBraceIs(output, |p|);
    assert output[|p| + 1..] == Write(t, z)[1..];
    assert output[|p|..|output| - |z|] == TextOf(t);
    ParseObjectText(t);
  }

  lemma FirstBraceIs(s: string, i: nat)
    requires i < |s| && s[i] == '{' && '{' !in s[..i]
    ensures FirstBrace(s) == i
  {
    var f := FirstBrace(s);
    assert f < |s| ==> s[f] == '{';
    assert forall j :: 0 <= j < f ==> s[..f][j] == s[j];
    assert forall j :: 0 <= j < i ==> s[..i][j] == s[j];
  }

  lemma ExtractionSound(output: string, r: string)
    requires ExtractByBraces(output) == Some(r)
    ensures exists p: string, z: string :: output == p + r + z && '{' !in p && IsObjectText(r)
  {
    hide Closing, ParseJson, Write, FirstBrace, IsObjectText;
    var start := FirstBrace(output);
    var end := ClosingIndex(OPENED, output, start + 1).value;
    var rest := Closing(OPENED, output[start + 1..]).value;
    assert output[start + 1..][|output| - start - 1 - |rest|..] == rest;
    assert rest == output[end..];
    assert r == output[start..end] && r[0] == '{';
    assert output[start + 1..] == r[1..] + rest;
    ClosesAtItsEnd(r, rest);
    assert output == output[..start] + r + rest;
  }

  /** JSON that opens with a brace and is cut off where the scan closes is an object text exactly. */
  lemma ClosesAtItsEnd(r: string, rest: string)
    requires r != [] && r[0] == '{' && IsJson(r)
    requires Closing(OPENED, r[1..] + rest) == Some(rest)
    ensures IsObjectText(r)
  {
    hide Closing, ParseJson, Write;
    BracedJson(r);
    var d := ParseJson(r);
    ClosingAppend(OPENED, r[1..], rest);
    assert |d.after + rest| == |rest|;
    assert r == TextOf(d.tree);
  }
}

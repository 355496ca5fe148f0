/** `JSON.parse` as a recursive-descent parser that returns the derivation tree of its input.

    Soundness is in the contracts (whatever is accepted is the text of a well-formed tree) and
    completeness in the lemmas (every text of a well-formed tree is accepted, with that tree), so
    acceptance is exactly the grammar of RFC 8259 and no text has two readings. */
module JsonParser {
  import opened JsonGrammar

  datatype Parsed<+T> = Fail | Ok(v: T, rest: string) {
    predicate IsFailure() { Fail? }
    function PropagateFailure<U>(): Parsed<U> requires Fail? { Fail }
    function Extract(): (T, string) requires Ok? { (v, rest) }
  }

  // ---- Runs of white space and of digits ------------------------------------------------------

  function TakeWs(s: string): (r: (string, string))
    ensures s == r.0 + r.1 && AllWs(r.0) && (r.1 != [] ==> !IsWs(r.1[0]))
  {
    if s == [] || !IsWs(s[0]) then ([], s) else
      var (w, rest) := TakeWs(s[1..]);
      ([s[0]] + w, rest)
  }

  lemma {:induction false} TakeWsOf(w: string, k: string)
    requires AllWs(w) && (k != [] ==> !IsWs(k[0]))
    ensures TakeWs(w + k) == (w, k)
  {
    if w == [] {
      assert w + k == k;
    } else {
      assert (w + k)[0] == w[0] && (w + k)[1..] == w[1..] + k;
      TakeWsOf(w[1..], k);
      assert [w[0]] + w[1..] == w;
    }
  }

  function TakeDigits(s: string): (r: (string, string))
    ensures s == r.0 + r.1 && AllDigits(r.0) && (r.1 != [] ==> !IsDigit(r.1[0]))
  {
    if s == [] || !IsDigit(s[0]) then ([], s) else
      var (d, rest) := TakeDigits(s[1..]);
      ([s[0]] + d, rest)
  }

  lemma {:induction false} TakeDigitsOf(d: string, k: string)
    requires AllDigits(d) && (k != [] ==> !IsDigit(k[0]))
    ensures TakeDigits(d + k) == (d, k)
  {
    if d == [] {
      assert d + k == k;
    } else {
      assert (d + k)[0] == d[0] && (d + k)[1..] == d[1..] + k;
      TakeDigitsOf(d[1..], k);
      assert [d[0]] + d[1..] == d;
    }
  }

  // ---- Strings --------------------------------------------------------------------------------

  function ParseItem(s: string): (r: Parsed<Item>)
    ensures r.Ok? ==> ItemOk(r.v) && s == WriteItem(r.v, r.rest) && |r.rest| < |s|
  {
    if s == [] then Fail
    else if s[0] != '\\' then
      if IsUnescaped(s[0]) then Ok(Plain(s[0]), s[1..]) else Fail
    else if |s| >= 2 && IsShortEscape(s[1]) then Ok(Short(s[1]), s[2..])
    else if |s| >= 6 && s[1] == 'u' && IsHexDigit(s[2]) && IsHexDigit(s[3]) && IsHexDigit(s[4]) && IsHexDigit(s[5]) then
      Ok(Hex(s[2], s[3], s[4], s[5]), s[6..])
    else Fail
  }

  /** Items up to and including the closing quotation mark. */
  function ParseItems(s: string): (r: Parsed<seq<Item>>)
    ensures r.Ok? ==> ItemsOk(r.v) && s == WriteItems(r.v, r.rest) && |r.rest| < |s|
    decreases |s|
  {
    if s != [] && s[0] == '"' then Ok([], s[1..]) else
      var (i, s1) :- ParseItem(s);
      var (tail, s2) :- ParseItems(s1);
      assert ([i] + tail)[1..] == tail;
      Ok([i] + tail, s2)
  }

  function ParseString(s: string): (r: Parsed<seq<Item>>)
    ensures r.Ok? ==> ItemsOk(r.v) && s == WriteString(r.v, r.rest) && |r.rest| < |s|
  {
    if s == [] || s[0] != '"' then Fail else ParseItems(s[1..])
  }

  lemma ParseItemOf(i: Item, k: string)
    requires ItemOk(i)
    ensures ParseItem(WriteItem(i, k)) == Ok(i, k)
  {
    match i
    case Plain(c) => assert ([c] + k)[1..] == k;
    case Short(e) => assert (['\\', e] + k)[2..] == k;
    case Hex(a, b, c, d) => assert (['\\', 'u', a, b, c, d] + k)[6..] == k;
  }

  lemma {:induction false} ParseItemsOf(items: seq<Item>, k: string)
    requires ItemsOk(items)
    ensures ParseItems(WriteItems(items, k)) == Ok(items, k)
  {
    if items == [] {
      assert (['"'] + k)[1..] == k;
    } else {
      var r := WriteItems(items[1..], k);
      ParseItemOf(items[0], r);
      ParseItemsOf(items[1..], k);
      assert [items[0]] + items[1..] == items;
    }
  }

  lemma ParseStringOf(items: seq<Item>, k: string)
    requires ItemsOk(items)
    ensures ParseString(WriteString(items, k)) == Ok(items, k)
  {
    ParseItemsOf(items, k);
    assert WriteString(items, k)[1..] == WriteItems(items, k);
  }

  // ---- Numbers --------------------------------------------------------------------------------

  function ParseWhole(s: string): (r: Parsed<string>)
    ensures r.Ok? ==> WholeOk(r.v) && s == r.v + r.rest && |r.rest| < |s|
  {
    if s == [] then Fail
    else if s[0] == '0' then Ok("0", s[1..])
    else
      var (d, rest) := TakeDigits(s);
      if d == [] then Fail else Ok(d, rest)
  }

  function ParseFrac(s: string): (r: Parsed<string>)
    ensures r.Ok? ==> AllDigits(r.v) && s == WriteFrac(r.v, r.rest) && |r.rest| <= |s|
  {
    if s == [] || s[0] != '.' then Ok([], s) else
      var (d, rest) := TakeDigits(s[1..]);
      if d == [] then Fail else Ok(d, rest)
  }

  function ParseSign(s: string): (r: (Sign, string))
    ensures s == WriteSign(r.0, r.1) && |r.1| <= |s|
  {
    if s != [] && s[0] == '+' then (Plus, s[1..])
    else if s != [] && s[0] == '-' then (Minus, s[1..])
    else (Unsigned, s)
  }

  function ParseExp(s: string): (r: Parsed<Exponent>)
    ensures r.Ok? ==> ExpOk(r.v) && s == WriteExp(r.v, r.rest) && |r.rest| <= |s|
  {
    if s == [] || (s[0] != 'e' && s[0] != 'E') then Ok(NoExp, s) else
      var (sign, s1) := ParseSign(s[1..]);
      var (d, rest) := TakeDigits(s1);
      if d == [] then Fail else Ok(Exp(s[0], sign, d), rest)
  }

  function ParseUnsigned(negative: bool, s: string): (r: Parsed<Numeral>)
    ensures r.Ok? ==> NumeralOk(r.v) && r.v.negative == negative && s == WriteUnsigned(r.v, r.rest) && |r.rest| < |s|
  {
    var (w, s1) :- ParseWhole(s);
    var (f, s2) :- ParseFrac(s1);
    var (x, s3) :- ParseExp(s2);
    Ok(Numeral(negative, w, f, x), s3)
  }

  function ParseNumeral(s: string): (r: Parsed<Numeral>)
    ensures r.Ok? ==> NumeralOk(r.v) && s == WriteNumeral(r.v, r.rest) && |r.rest| < |s|
  {
    if s != [] && s[0] == '-' then ParseUnsigned(true, s[1..]) else ParseUnsigned(false, s)
  }

  /** A continuation that cannot lengthen a number. */
  predicate EndsNumber(k: string) {
    k == [] || (!IsDigit(k[0]) && k[0] != '.' && k[0] != 'e' && k[0] != 'E')
  }

  lemma ParseExpOf(x: Exponent, k: string)
    requires ExpOk(x) && EndsNumber(k)
    ensures ParseExp(WriteExp(x, k)) == Ok(x, k)
    ensures WriteExp(x, k) == [] || (!IsDigit(WriteExp(x, k)[0]) && WriteExp(x, k)[0] != '.')
  {
    if x.Exp? {
      var r := x.digits + k;
      TakeDigitsOf(x.digits, k);
      var s := WriteSign(x.sign, r);
      assert WriteExp(x, k)[1..] == s;
      assert ParseSign(s) == (x.sign, r) by {
        if !x.sign.Unsigned? { assert s[1..] == r; } else { assert r[0] == x.digits[0]; }
      }
    }
  }

  lemma ParseUnsignedOf(n: Numeral, k: string)
    requires NumeralOk(n) && EndsNumber(k)
    ensures ParseUnsigned(n.negative, WriteUnsigned(n, k)) == Ok(n, k)
  {
    var s2 := WriteExp(n.exp, k);
    ParseExpOf(n.exp, k);
    var s1 := WriteFrac(n.frac, s2);
    assert ParseFrac(s1) == Ok(n.frac, s2) by {
      if n.frac != [] {
        assert s1[1..] == n.frac + s2;
        TakeDigitsOf(n.frac, s2);
      }
    }
    assert s1 == [] || !IsDigit(s1[0]);
    var s := n.whole + s1;
    assert s[0] == n.whole[0];
    assert ParseWhole(s) == Ok(n.whole, s1) by {
      if n.whole[0] == '0' { assert s[1..] == s1; assert n.whole == "0"; } else { TakeDigitsOf(n.whole, s1); }
    }
  }

  lemma ParseNumeralOf(n: Numeral, k: string)
    requires NumeralOk(n) && EndsNumber(k)
    ensures ParseNumeral(WriteNumeral(n, k)) == Ok(n, k)
  {
    ParseUnsignedOf(n, k);
    if n.negative {
      assert WriteNumeral(n, k)[1..] == WriteUnsigned(n, k);
    } else {
      assert WriteUnsigned(n, k)[0] == n.whole[0];
    }
  }

  // ---- Values ---------------------------------------------------------------------------------

  function ParseLiteral(s: string): (r: Parsed<Tree>)
    ensures r.Ok? ==> Wf(r.v) && s == Write(r.v, r.rest) && |r.rest| < |s|
  {
    if "null" <= s then assert s == "null" + s[4..]; Ok(TNull, s[4..])
    else if "true" <= s then assert s == "true" + s[4..]; Ok(TTrue, s[4..])
    else if "false" <= s then assert s == "false" + s[5..]; Ok(TFalse, s[5..])
    else Fail
  }

  function ParseValue(s: string): (r: Parsed<Tree>)
    ensures r.Ok? ==> Wf(r.v) && s == Write(r.v, r.rest) && |r.rest| < |s|
    decreases |s|, 2
  {
    if s == [] then Fail
    else if s[0] == '{' then assert s == ['{'] + s[1..]; ParseObject(s[1..])
    else if s[0] == '[' then assert s == ['['] + s[1..]; ParseArray(s[1..])
    else if s[0] == '"' then
      var (items, s1) :- ParseString(s);
      Ok(TString(items), s1)
    else if s[0] == 'n' || s[0] == 't' || s[0] == 'f' then ParseLiteral(s)
    else
      var (n, s1) :- ParseNumeral(s);
      Ok(TNumber(n), s1)
  }

  /** The rest of an object, behind its opening brace. */
  function ParseObject(s: string): (r: Parsed<Tree>)
    ensures r.Ok? ==> (r.v.TEmptyObject? || r.v.TObject?) && AllWs(r.v.ws) && |r.rest| < |s|
    ensures r.Ok? && r.v.TEmptyObject? ==> s == r.v.ws + (['}'] + r.rest)
    ensures r.Ok? && r.v.TObject? ==> WfMembers(r.v.members) && s == r.v.ws + WriteMembers(r.v.members, r.rest)
    decreases |s|, 4
  {
    var (ws, s1) := TakeWs(s);
    if s1 != [] && s1[0] == '}' then
      assert s1 == ['}'] + s1[1..];
      Ok(TEmptyObject(ws), s1[1..])
    else
      match ParseMembers(s1)
      case Fail => Fail
      case Ok(m, s2) => Ok(TObject(ws, m), s2)
  }

  /** The rest of an array, behind its opening bracket. */
  function ParseArray(s: string): (r: Parsed<Tree>)
    ensures r.Ok? ==> (r.v.TEmptyArray? || r.v.TArray?) && AllWs(r.v.ws) && |r.rest| < |s|
    ensures r.Ok? && r.v.TEmptyArray? ==> s == r.v.ws + ([']'] + r.rest)
    ensures r.Ok? && r.v.TArray? ==> WfElems(r.v.elems) && s == r.v.ws + WriteElems(r.v.elems, r.rest)
    decreases |s|, 4
  {
    var (ws, s1) := TakeWs(s);
    if s1 != [] && s1[0] == ']' then
      assert s1 == [']'] + s1[1..];
      Ok(TEmptyArray(ws), s1[1..])
    else
      match ParseElems(s1)
      case Fail => Fail
      case Ok(e, s2) => Ok(TArray(ws, e), s2)
  }

  /** What may follow a member or an element: the closing bracket, or a comma and more. */
  datatype Separator = Close(after: string) | Comma(after: string, before: string)

  function ParseSeparator(close: char, s: string): (r: Parsed<Separator>)
    ensures r.Ok? ==> AllWs(r.v.after) && |r.rest| < |s|
    ensures r.Ok? && r.v.Close? ==> s == r.v.after + ([close] + r.rest)
    ensures r.Ok? && r.v.Comma? ==> AllWs(r.v.before) && s == r.v.after + ([','] + (r.v.before + r.rest))
  {
    var (after, s1) := TakeWs(s);
    if s1 == [] then Fail
    else
      assert s1 == [s1[0]] + s1[1..];
      if s1[0] == close then Ok(Close(after), s1[1..])
      else if s1[0] == ',' then
        var (before, s2) := TakeWs(s1[1..]);
        Ok(Comma(after, before), s2)
      else Fail
  }

  function ParseElems(s: string): (r: Parsed<Elems>)
    ensures r.Ok? ==> WfElems(r.v) && s == WriteElems(r.v, r.rest) && |r.rest| < |s|
    decreases |s|, 3
  {
    var (v, s1) :- ParseValue(s);
    match ParseSeparator(']', s1)
    case Fail => Fail
    case Ok(Close(after), s2) => Ok(LastElem(v, after), s2)
    case Ok(Comma(after, before), s2) =>
      match ParseElems(s2)
      case Fail => Fail
      case Ok(rest, s3) => Ok(MoreElems(v, after, before, rest), s3)
  }

  /** A name separator with the white space around it. */
  function ParseColon(s: string): (r: Parsed<(string, string)>)
    ensures r.Ok? ==> AllWs(r.v.0) && AllWs(r.v.1) && s == r.v.0 + ([':'] + (r.v.1 + r.rest)) && |r.rest| < |s|
  {
    var (after, s2) := TakeWs(s);
    if s2 == [] || s2[0] != ':' then Fail
    else
      var (before, s3) := TakeWs(s2[1..]);
      assert s2 == [':'] + (before + s3);
      Ok((after, before), s3)
  }

  function ParseKey(s: string): (r: Parsed<Key>)
    ensures r.Ok? ==> KeyOk(r.v) && s == WriteKey(r.v, r.rest) && |r.rest| < |s|
  {
    var (items, s1) :- ParseString(s);
    var (ws, s2) :- ParseColon(s1);
    Ok(Key(items, ws.0, ws.1), s2)
  }

  function ParseMembers(s: string): (r: Parsed<Members>)
    ensures r.Ok? ==> WfMembers(r.v) && s == WriteMembers(r.v, r.rest) && |r.rest| < |s|
    decreases |s|, 3
  {
    var (key, s1) :- ParseKey(s);
    var (v, s2) :- ParseValue(s1);
    match ParseSeparator('}', s2)
    case Fail => Fail
    case Ok(Close(after), s3) => Ok(LastMember(key, v, after), s3)
    case Ok(Comma(after, before), s3) =>
      match ParseMembers(s3)
      case Fail => Fail
      case Ok(rest, s4) => Ok(MoreMembers(key, v, after, before, rest), s4)
  }

  /** `JSON.parse`: one value with white space on either side and nothing else. */
  datatype Doc = NotJson | Doc(before: string, tree: Tree, after: string)

  function ParseJson(s: string): (d: Doc)
    ensures d.Doc? ==> AllWs(d.before) && Wf(d.tree) && AllWs(d.after) && s == d.before + Write(d.tree, d.after)
  {
    var (before, s1) := TakeWs(s);
    var r := ParseValue(s1);
    if r.Fail? then NotJson else
      var (after, s2) := TakeWs(r.rest);
      if s2 == [] then assert after == r.rest; Doc(before, r.v, after) else NotJson
  }

  predicate IsJson(s: string) {
    ParseJson(s).Doc?
  }

  // ---- Completeness: every derivation is found ------------------------------------------------

  /** A value starts with a character that is neither white space nor a closing bracket. */
  lemma ValueStart(t: Tree, k: string)
    requires Wf(t)
    ensures Write(t, k) != []
    ensures !IsWs(Write(t, k)[0]) && Write(t, k)[0] != ']' && Write(t, k)[0] != '}' && Write(t, k)[0] != '`'
    ensures Write(t, k)[0] == '{' <==> IsObjectTree(t)
  {
    if t.TNumber? && !t.n.negative {
      assert WriteNumeral(t.n, k)[0] == t.n.whole[0];
    }
  }

  lemma WsEndsNumber(w: string, k: string)
    requires AllWs(w) && k != [] && EndsNumber(k)
    ensures EndsNumber(w + k)
  {
    if w == [] { assert w + k == k; } else { assert (w + k)[0] == w[0]; }
  }

  lemma ParseLiteralOf(t: Tree, k: string)
    requires t.TNull? || t.TTrue? || t.TFalse?
    ensures ParseValue(Write(t, k)) == Ok(t, k)
  {
    var s := Write(t, k);
    assert s[if t.TFalse? then 5 else 4..] == k;
  }

  lemma ParseNumberOf(n: Numeral, k: string)
    requires NumeralOk(n) && EndsNumber(k)
    ensures ParseValue(WriteNumeral(n, k)) == Ok(TNumber(n), k)
  {
    var s := WriteNumeral(n, k);
    ParseNumeralOf(n, k);
    assert s[0] == '-' || IsDigit(s[0]) by {
      if !n.negative { assert s[0] == n.whole[0]; }
    }
  }

  lemma {:induction false} ParseValueOf(t: Tree, k: string)
    requires Wf(t) && EndsNumber(k)
    ensures ParseValue(Write(t, k)) == Ok(t, k)
    decreases t, 1
  {
    match t
    case TNumber(n) => ParseNumberOf(n, k);
    case TString(items) => ParseStringOf(items, k);
    case TNull => ParseLiteralOf(t, k);
    case TTrue => ParseLiteralOf(t, k);
    case TFalse => ParseLiteralOf(t, k);
    case _ => ParseBracketedOf(t, k);
  }

  lemma {:induction false} ParseBracketedOf(t: Tree, k: string)
    requires Wf(t) && (t.TEmptyArray? || t.TArray? || t.TEmptyObject? || t.TObject?)
    ensures ParseValue(Write(t, k)) == Ok(t, k)
    decreases t, 0
  {
    var s := Write(t, k);
    var inner :=
      if t.TEmptyArray? then [']'] + k
      else if t.TArray? then WriteElems(t.elems, k)
      else if t.TEmptyObject? then ['}'] + k
      else WriteMembers(t.members, k);
    assert s[1..] == t.ws + inner;
    match t
    case TEmptyArray(_) => TakeWsOf(t.ws, inner); assert inner[1..] == k;
    case TEmptyObject(_) => TakeWsOf(t.ws, inner); assert inner[1..] == k;
    case TArray(_, elems) =>
      ElemsStart(elems, k);
      TakeWsOf(t.ws, inner);
      ParseElemsOf(elems, k);
    case TObject(_, members) =>
      TakeWsOf(t.ws, inner);
      ParseMembersOf(members, k);
  }

  lemma ElemsStart(e: Elems, k: string)
    requires WfElems(e)
    ensures WriteElems(e, k) != [] && !IsWs(WriteElems(e, k)[0]) && WriteElems(e, k)[0] != ']'
  {
    match e
    case LastElem(v, after) => ValueStart(v, after + ([']'] + k));
    case MoreElems(v, after, before, rest) => ValueStart(v, after + ([','] + (before + WriteElems(rest, k))));
  }

  lemma ParseCloseOf(close: char, after: string, k: string)
    requires AllWs(after) && !IsWs(close)
    ensures ParseSeparator(close, after + ([close] + k)) == Ok(Close(after), k)
  {
    TakeWsOf(after, [close] + k);
    assert ([close] + k)[1..] == k;
  }

  lemma ParseCommaOf(close: char, after: string, before: string, k: string)
    requires AllWs(after) && AllWs(before) && close != ',' && k != [] && !IsWs(k[0])
    ensures ParseSeparator(close, after + ([','] + (before + k))) == Ok(Comma(after, before), k)
  {
    TakeWsOf(after, [','] + (before + k));
    assert ([','] + (before + k))[1..] == before + k;
    TakeWsOf(before, k);
  }

  lemma {:induction false} ParseElemsOf(e: Elems, k: string)
    requires WfElems(e)
    ensures ParseElems(WriteElems(e, k)) == Ok(e, k)
    decreases e
  {
    var tail := if e.LastElem? then [']'] + k else [','] + (e.before + WriteElems(e.rest, k));
    WsEndsNumber(e.after, tail);
    ParseValueOf(e.v, e.after + tail);
    if e.LastElem? {
      ParseCloseOf(']', e.after, k);
    } else {
      ElemsStart(e.rest, k);
      ParseCommaOf(']', e.after, e.before, WriteElems(e.rest, k));
      ParseElemsOf(e.rest, k);
    }
  }

  lemma ParseKeyOf(key: Key, k: string)
    requires KeyOk(key) && k != [] && !IsWs(k[0])
    ensures ParseKey(WriteKey(key, k)) == Ok(key, k)
  {
    var r := [':'] + (key.before + k);
    ParseStringOf(key.items, key.after + r);
    TakeWsOf(key.after, r);
    assert r[1..] == key.before + k;
    TakeWsOf(key.before, k);
  }

  lemma {:induction false} ParseMembersOf(m: Members, k: string)
    requires WfMembers(m)
    ensures ParseMembers(WriteMembers(m, k)) == Ok(m, k)
    decreases m
  {
    var tail := if m.LastMember? then ['}'] + k else [','] + (m.before + WriteMembers(m.rest, k));
    WsEndsNumber(m.after, tail);
    ValueStart(m.v, m.after + tail);
    ParseKeyOf(m.key, Write(m.v, m.after + tail));
    ParseValueOf(m.v, m.after + tail);
    if m.LastMember? {
      ParseCloseOf('}', m.after, k);
    } else {
      ParseCommaOf('}', m.after, m.before, WriteMembers(m.rest, k));
      ParseMembersOf(m.rest, k);
    }
  }

  /** Completeness and unambiguity of `JSON.parse`. */
  lemma ParseJsonOf(before: string, t: Tree, after: string)
    requires AllWs(before) && Wf(t) && AllWs(after)
    ensures ParseJson(before + Write(t, after)) == Doc(before, t, after)
  {
    ValueStart(t, after);
    TakeWsOf(before, Write(t, after));
    assert EndsNumber(after);
    ParseValueOf(t, after);
    assert after + [] == after;
    TakeWsOf(after, []);
  }

  /** `JSON.parse` accepts exactly the texts the grammar derives. */
  lemma IsJsonIffDerived(s: string)
    ensures IsJson(s) <==>
      exists before: string, t: Tree, after: string ::
        AllWs(before) && Wf(t) && AllWs(after) && s == before + Write(t, after)
  {
    if IsJson(s) {
      var d := ParseJson(s);
      assert AllWs(d.before) && Wf(d.tree) && AllWs(d.after) && s == d.before + Write(d.tree, d.after);
    }
    if before: string, t: Tree, after: string :|
        AllWs(before) && Wf(t) && AllWs(after) && s == before + Write(t, after) {
      ParseJsonOf(before, t, after);
    }
  }

  lemma ParseObjectText(t: Tree)
    requires Wf(t)
    ensures ParseJson(TextOf(t)) == Doc("", t, "")
  {
    ParseJsonOf("", t, "");
    assert "" + Write(t, "") == TextOf(t);
  }
}

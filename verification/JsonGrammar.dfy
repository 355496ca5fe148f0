/** The JSON grammar of RFC 8259, as derivation trees together with the text each tree stands for.

    A tree keeps every character of the text it derives (white space, the spelling of numbers and
    of escapes included), so a text has at most one tree and the tree has exactly one text.
    `Write(t, k)` is the text of `t` followed by `k`; writing in front of a continuation keeps the
    proofs about concatenation short. */
module JsonGrammar {

  // Section 2: insignificant white space.
  predicate IsWs(c: char) {
    c == ' ' || c == '\t' || c == '\n' || c == '\r'
  }

  predicate AllWs(s: string) {
    forall i :: 0 <= i < |s| ==> IsWs(s[i])
  }

  predicate IsDigit(c: char) {
    '0' <= c <= '9'
  }

  predicate AllDigits(s: string) {
    forall i :: 0 <= i < |s| ==> IsDigit(s[i])
  }

  predicate IsHexDigit(c: char) {
    IsDigit(c) || 'a' <= c <= 'f' || 'A' <= c <= 'F'
  }

  // Section 7: strings. An item is one unescaped character, a two-character escape, or \uXXXX.
  datatype Item = Plain(c: char) | Short(e: char) | Hex(h0: char, h1: char, h2: char, h3: char)

  predicate IsUnescaped(c: char) {
    c >= ' ' && c != '"' && c != '\\'
  }

  predicate IsShortEscape(e: char) {
    e == '"' || e == '\\' || e == '/' || e == 'b' || e == 'f' || e == 'n' || e == 'r' || e == 't'
  }

  predicate ItemOk(i: Item) {
    match i
    case Plain(c) => IsUnescaped(c)
    case Short(e) => IsShortEscape(e)
    case Hex(a, b, c, d) => IsHexDigit(a) && IsHexDigit(b) && IsHexDigit(c) && IsHexDigit(d)
  }

  predicate ItemsOk(items: seq<Item>) {
    forall i :: 0 <= i < |items| ==> ItemOk(items[i])
  }

  function WriteItem(i: Item, k: string): string {
    match i
    case Plain(c) => [c] + k
    case Short(e) => ['\\', e] + k
    case Hex(a, b, c, d) => ['\\', 'u', a, b, c, d] + k
  }

  /** The items of a string, then the closing quotation mark, then `k`. */
  function WriteItems(items: seq<Item>, k: string): string {
    if items == [] then ['"'] + k else WriteItem(items[0], WriteItems(items[1..], k))
  }

  function WriteString(items: seq<Item>, k: string): string {
    ['"'] + WriteItems(items, k)
  }

  // Section 6: numbers.
  datatype Sign = Unsigned | Plus | Minus

  datatype Exponent = NoExp | Exp(e: char, sign: Sign, digits: string)

  /** An absent fraction is the empty string; a fraction that is present has a digit. */
  datatype Numeral = Numeral(negative: bool, whole: string, frac: string, exp: Exponent)

  predicate WholeOk(w: string) {
    |w| > 0 && AllDigits(w) && (w[0] == '0' ==> |w| == 1)
  }

  predicate ExpOk(x: Exponent) {
    x.Exp? ==> (x.e == 'e' || x.e == 'E') && |x.digits| > 0 && AllDigits(x.digits)
  }

  predicate NumeralOk(n: Numeral) {
    WholeOk(n.whole) && AllDigits(n.frac) && ExpOk(n.exp)
  }

  function WriteSign(s: Sign, k: string): string {
    match s case Unsigned => k case Plus => ['+'] + k case Minus => ['-'] + k
  }

  function WriteExp(x: Exponent, k: string): string {
    match x case NoExp => k case Exp(e, sign, digits) => [e] + WriteSign(sign, digits + k)
  }

  function WriteFrac(frac: string, k: string): string {
    if frac == [] then k else ['.'] + (frac + k)
  }

  function WriteUnsigned(n: Numeral, k: string): string {
    n.whole + WriteFrac(n.frac, WriteExp(n.exp, k))
  }

  function WriteNumeral(n: Numeral, k: string): string {
    if n.negative then ['-'] + WriteUnsigned(n, k) else WriteUnsigned(n, k)
  }

  // Sections 3 to 5: values, objects and arrays.
  datatype Tree =
    | TNull
    | TTrue
    | TFalse
    | TNumber(n: Numeral)
    | TString(items: seq<Item>)
    | TEmptyArray(ws: string)
    | TArray(ws: string, elems: Elems)
    | TEmptyObject(ws: string)
    | TObject(ws: string, members: Members)

  datatype Elems =
    | LastElem(v: Tree, after: string)
    | MoreElems(v: Tree, after: string, before: string, rest: Elems)

  datatype Key = Key(items: seq<Item>, after: string, before: string)

  datatype Members =
    | LastMember(key: Key, v: Tree, after: string)
    | MoreMembers(key: Key, v: Tree, after: string, before: string, rest: Members)

  predicate KeyOk(k: Key) {
    ItemsOk(k.items) && AllWs(k.after) && AllWs(k.before)
  }

  predicate Wf(t: Tree) {
    match t
    case TNumber(n) => NumeralOk(n)
    case TString(items) => ItemsOk(items)
    case TEmptyArray(ws) => AllWs(ws)
    case TArray(ws, elems) => AllWs(ws) && WfElems(elems)
    case TEmptyObject(ws) => AllWs(ws)
    case TObject(ws, members) => AllWs(ws) && WfMembers(members)
    case _ => true
  }

  predicate WfElems(e: Elems) {
    Wf(e.v) && AllWs(e.after) && (e.MoreElems? ==> AllWs(e.before) && WfElems(e.rest))
  }

  predicate WfMembers(m: Members) {
    KeyOk(m.key) && Wf(m.v) && AllWs(m.after) && (m.MoreMembers? ==> AllWs(m.before) && WfMembers(m.rest))
  }

  function Write(t: Tree, k: string): string {
    match t
    case TNull => "null" + k
    case TTrue => "true" + k
    case TFalse => "false" + k
    case TNumber(n) => WriteNumeral(n, k)
    case TString(items) => WriteString(items, k)
    case TEmptyArray(ws) => ['['] + (ws + ([']'] + k))
    case TArray(ws, elems) => ['['] + (ws + WriteElems(elems, k))
    case TEmptyObject(ws) => ['{'] + (ws + (['}'] + k))
    case TObject(ws, members) => ['{'] + (ws + WriteMembers(members, k))
  }

  function WriteElems(e: Elems, k: string): string {
    match e
    case LastElem(v, after) => Write(v, after + ([']'] + k))
    case MoreElems(v, after, before, rest) => Write(v, after + ([','] + (before + WriteElems(rest, k))))
  }

  function WriteKey(key: Key, k: string): string {
    WriteString(key.items, key.after + ([':'] + (key.before + k)))
  }

  function WriteMembers(m: Members, k: string): string {
    match m
    case LastMember(key, v, after) => WriteKey(key, Write(v, after + (['}'] + k)))
    case MoreMembers(key, v, after, before, rest) =>
      WriteKey(key, Write(v, after + ([','] + (before + WriteMembers(rest, k)))))
  }

  function TextOf(t: Tree): string {
    Write(t, "")
  }

  /** An object text: what the grammar calls an object, with no white space around it. */
  ghost predicate IsObjectText(s: string) {
    exists t: Tree :: IsObjectTree(t) && s == TextOf(t)
  }

  predicate IsObjectTree(t: Tree) {
    Wf(t) && (t.TObject? || t.TEmptyObject?)
  }

  // ---- Facts about the notation -------------------------------------------------------------

  lemma {:induction false} WriteItemsAppend(items: seq<Item>, k: string, z: string)
    ensures WriteItems(items, k) + z == WriteItems(items, k + z)
  {
    if items == [] {
      assert (['"'] + k) + z == ['"'] + (k + z);
    } else {
      WriteItemsAppend(items[1..], k, z);
      var r := WriteItems(items[1..], k);
      assert WriteItem(items[0], r) + z == WriteItem(items[0], r + z);
    }
  }

  lemma WriteNumeralAppend(n: Numeral, k: string, z: string)
    ensures WriteNumeral(n, k) + z == WriteNumeral(n, k + z)
  {
    if n.exp.Exp? {
      assert WriteSign(n.exp.sign, n.exp.digits + k) + z == WriteSign(n.exp.sign, n.exp.digits + (k + z));
    }
    var x := WriteExp(n.exp, k);
    assert x + z == WriteExp(n.exp, k + z);
    assert WriteFrac(n.frac, x) + z == WriteFrac(n.frac, x + z);
    assert WriteUnsigned(n, k) + z == WriteUnsigned(n, k + z);
  }

  /** The continuation is a plain suffix: `Write(t, k)` is the text of `t` followed by `k`. */
  lemma {:induction false} WriteAppend(t: Tree, k: string, z: string)
    ensures Write(t, k) + z == Write(t, k + z)
    decreases t
  {
    match t
    case TNumber(n) => WriteNumeralAppend(n, k, z);
    case TString(items) => WriteItemsAppend(items, k, z);
      assert (['"'] + WriteItems(items, k)) + z == ['"'] + WriteItems(items, k + z);
    case TEmptyArray(ws) => assert (['['] + (ws + ([']'] + k))) + z == ['['] + (ws + ([']'] + (k + z)));
    case TArray(ws, elems) => WriteElemsAppend(elems, k, z);
      assert (['['] + (ws + WriteElems(elems, k))) + z == ['['] + (ws + (WriteElems(elems, k) + z));
    case TEmptyObject(ws) => assert (['{'] + (ws + (['}'] + k))) + z == ['{'] + (ws + (['}'] + (k + z)));
    case TObject(ws, members) => WriteMembersAppend(members, k, z);
      assert (['{'] + (ws + WriteMembers(members, k))) + z == ['{'] + (ws + (WriteMembers(members, k) + z));
    case _ =>
  }

  lemma {:induction false} WriteElemsAppend(e: Elems, k: string, z: string)
    ensures WriteElems(e, k) + z == WriteElems(e, k + z)
    decreases e
  {
    match e
    case LastElem(v, after) =>
      WriteAppend(v, after + ([']'] + k), z);
      assert (after + ([']'] + k)) + z == after + ([']'] + (k + z));
    case MoreElems(v, after, before, rest) =>
      var r := WriteElems(rest, k);
      WriteElemsAppend(rest, k, z);
      WriteAppend(v, after + ([','] + (before + r)), z);
      assert (after + ([','] + (before + r))) + z == after + ([','] + (before + (r + z)));
  }

  lemma WriteKeyAppend(key: Key, k: string, z: string)
    ensures WriteKey(key, k) + z == WriteKey(key, k + z)
  {
    var r := key.after + ([':'] + (key.before + k));
    WriteItemsAppend(key.items, r, z);
    assert r + z == key.after + ([':'] + (key.before + (k + z)));
    assert (['"'] + WriteItems(key.items, r)) + z == ['"'] + (WriteItems(key.items, r) + z);
  }

  lemma {:induction false} WriteMembersAppend(m: Members, k: string, z: string)
    ensures WriteMembers(m, k) + z == WriteMembers(m, k + z)
    decreases m
  {
    match m
    case LastMember(key, v, after) =>
      var r := after + (['}'] + k);
      WriteAppend(v, r, z);
      assert r + z == after + (['}'] + (k + z));
      WriteKeyAppend(key, Write(v, r), z);
    case MoreMembers(key, v, after, before, rest) =>
      var q := WriteMembers(rest, k);
      WriteMembersAppend(rest, k, z);
      var r := after + ([','] + (before + q));
      WriteAppend(v, r, z);
      assert r + z == after + ([','] + (before + (q + z)));
      WriteKeyAppend(key, Write(v, r), z);
  }
}

/** The values JSON texts denote, and `JSON.stringify(value, null, 2)` as its right inverse. */
module JsonValue {
  import opened Wrappers
  import opened JsonGrammar
  import opened JsonParser

  datatype Value =
    | VNull
    | VBool(b: bool)
    | VNum(r: real)
    | VStr(s: string)
    | VArr(elems: seq<Value>)
    | VObj(members: seq<Member>)

  datatype Member = Member(key: string, value: Value)

  // ---- Reading --------------------------------------------------------------------------------

  function HexValue(c: char): (n: nat)
    requires IsHexDigit(c)
    ensures n < 16
  {
    if IsDigit(c) then c as int - '0' as int
    else if 'a' <= c <= 'f' then c as int - 'a' as int + 10
    else c as int - 'A' as int + 10
  }

  /** A surrogate has no scalar value of its own and reads as the replacement character. */
  function UnitChar(n: nat): char
    requires n < 0x1_0000
  {
    if 0xD800 <= n < 0xE000 then '\U{FFFD}' else n as char
  }

  function ItemChar(i: Item): char
    requires ItemOk(i)
  {
    match i
    case Plain(c) => c
    case Short(e) =>
      (match e case 'b' => '\U{8}' case 'f' => '\U{C}' case 'n' => '\n' case 'r' => '\r' case 't' => '\t' case _ => e)
    case Hex(a, b, c, d) => UnitChar(((HexValue(a) * 16 + HexValue(b)) * 16 + HexValue(c)) * 16 + HexValue(d))
  }

  function StringValue(items: seq<Item>): string
    requires ItemsOk(items)
  {
    if items == [] then [] else [ItemChar(items[0])] + StringValue(items[1..])
  }

  function DigitsValue(d: string): nat
    requires AllDigits(d)
  {
    if d == [] then 0 else DigitsValue(d[..|d| - 1]) * 10 + HexValue(d[|d| - 1])
  }

  function Pow10(n: nat): (p: real)
    ensures p >= 1.0
  {
    if n == 0 then 1.0 else 10.0 * Pow10(n - 1)
  }

  function Scaled(m: real, e: int): real {
    if e >= 0 then m * Pow10(e) else m / Pow10(-e)
  }

  function ExpValue(x: Exponent): int
    requires ExpOk(x)
  {
    if x.NoExp? then 0 else if x.sign.Minus? then 0 - DigitsValue(x.digits) else DigitsValue(x.digits)
  }

  function NumeralValue(n: Numeral): real
    requires NumeralOk(n)
  {
    var m := DigitsValue(n.whole + n.frac) as real;
    Scaled(if n.negative then -m else m, ExpValue(n.exp) - |n.frac|)
  }

  function ValueOf(t: Tree): Value
    requires Wf(t)
  {
    match t
    case TNull => VNull
    case TTrue => VBool(true)
    case TFalse => VBool(false)
    case TNumber(n) => VNum(NumeralValue(n))
    case TString(items) => VStr(StringValue(items))
    case TEmptyArray(_) => VArr([])
    case TArray(_, elems) => VArr(ElemValues(elems))
    case TEmptyObject(_) => VObj([])
    case TObject(_, members) => VObj(MemberValues(members))
  }

  function ElemValues(e: Elems): seq<Value>
    requires WfElems(e)
  {
    [ValueOf(e.v)] + if e.LastElem? then [] else ElemValues(e.rest)
  }

  function MemberValues(m: Members): seq<Member>
    requires WfMembers(m)
  {
    [Member(StringValue(m.key.items), ValueOf(m.v))] + if m.LastMember? then [] else MemberValues(m.rest)
  }

  /** `JSON.parse` as a value. */
  function Parse(s: string): Option<Value> {
    match ParseJson(s) case NotJson => None case Doc(_, t, _) => Some(ValueOf(t))
  }

  /** A property of a parsed object: of members with one name, the last one stays. */
  function Get(v: Value, key: string): Option<Value> {
    if v.VObj? then Lookup(v.members, key) else None
  }

  function Lookup(members: seq<Member>, key: string): Option<Value> {
    if members == [] then None
    else if members[|members| - 1].key == key then Some(members[|members| - 1].value)
    else Lookup(members[..|members| - 1], key)
  }

  // ---- Writing --------------------------------------------------------------------------------

  function Digit(n: nat): (c: char)
    requires n < 10
    ensures IsDigit(c) && HexValue(c) == n
  {
    (n + '0' as nat) as char
  }

  /** Decimal printing. */
  function Digits(n: nat): (d: string)
    ensures WholeOk(d) && DigitsValue(d) == n && (n > 0 ==> d[0] != '0')
  {
    if n < 10 then [Digit(n)] else
      var d := Digits(n / 10);
      assert (d + [Digit(n % 10)])[..|d|] == d;
      d + [Digit(n % 10)]
  }

  lemma DigitsInjective(m: nat, n: nat)
    requires Digits(m) == Digits(n)
    ensures m == n
  {
    assert DigitsValue(Digits(m)) == m;
  }

  function HexDigit(n: nat): (c: char)
    requires n < 16
    ensures IsHexDigit(c) && HexValue(c) == n
  {
    if n < 10 then Digit(n) else ((n - 10) + 'a' as nat) as char
  }

  function QuoteItem(c: char): (i: Item)
    ensures ItemOk(i) && ItemChar(i) == c
  {
    if c == '"' || c == '\\' then Short(c)
    else if c == '\U{8}' then Short('b')
    else if c == '\U{C}' then Short('f')
    else if c == '\n' then Short('n')
    else if c == '\r' then Short('r')
    else if c == '\t' then Short('t')
    else if c < ' ' then Hex('0', '0', HexDigit(c as nat / 16), HexDigit(c as nat % 16))
    else Plain(c)
  }

  function Quote(s: string): (items: seq<Item>)
    ensures ItemsOk(items) && StringValue(items) == s
  {
    if s == [] then [] else
      var items := [QuoteItem(s[0])] + Quote(s[1..]);
      assert items[1..] == Quote(s[1..]);
      items
  }

  /** Numbers are written as naturals; every number this program stores is one. */
  predicate Printable(v: Value) {
    match v
    case VNum(r) => r >= 0.0 && r == r.Floor as real
    case VArr(elems) => forall e :: e in elems ==> Printable(e)
    case VObj(members) => forall m :: m in members ==> Printable(m.value)
    case _ => true
  }

  function NewLine(depth: nat): (ws: string)
    ensures AllWs(ws)
  {
    if depth == 0 then "\n" else NewLine(depth - 1) + "  "
  }

  function Layout(v: Value, depth: nat): (t: Tree)
    requires Printable(v)
    ensures Wf(t) && ValueOf(t) == v && (v.VObj? ==> IsObjectTree(t))
    decreases v
  {
    match v
    case VNull => TNull
    case VBool(b) => if b then TTrue else TFalse
    case VNum(r) => LayoutNumber(r.Floor)
    case VStr(s) => TString(Quote(s))
    case VArr(elems) => if elems == [] then TEmptyArray("") else TArray(NewLine(depth + 1), LayoutElems(elems, depth))
    case VObj(members) => if members == [] then TEmptyObject("") else TObject(NewLine(depth + 1), LayoutMembers(members, depth))
  }

  function LayoutNumber(n: nat): (t: Tree)
    ensures Wf(t) && ValueOf(t) == VNum(n as real)
  {
    var t := TNumber(Numeral(false, Digits(n), "", NoExp));
    assert Digits(n) + "" == Digits(n);
    t
  }

  function LayoutElems(elems: seq<Value>, depth: nat): (e: Elems)
    requires elems != [] && forall x :: x in elems ==> Printable(x)
    ensures WfElems(e) && ElemValues(e) == elems
    decreases elems
  {
    var first := Layout(elems[0], depth + 1);
    if |elems| == 1 then LastElem(first, NewLine(depth))
    else MoreElems(first, "", NewLine(depth + 1), LayoutElems(elems[1..], depth))
  }

  function LayoutMembers(members: seq<Member>, depth: nat): (m: Members)
    requires members != [] && forall x :: x in members ==> Printable(x.value)
    ensures WfMembers(m) && MemberValues(m) == members
    decreases members
  {
    var key := Key(Quote(members[0].key), "", " ");
    var first := Layout(members[0].value, depth + 1);
    if |members| == 1 then LastMember(key, first, NewLine(depth))
    else MoreMembers(key, first, "", NewLine(depth + 1), LayoutMembers(members[1..], depth))
  }

  /** `JSON.stringify(v, null, 2)`. */
  function Stringify(v: Value): string
    requires Printable(v)
  {
    TextOf(Layout(v, 0))
  }

  /** `JSON.parse(JSON.stringify(v, null, 2))` is `v`. */
  lemma StringifyRoundTrip(v: Value)
    requires Printable(v)
    ensures Parse(Stringify(v)) == Some(v)
  {
    ParseObjectText(Layout(v, 0));
  }

  // ---- What numerals and escapes denote -------------------------------------------------------

  lemma DigitsLast(d: string, c: char)
    requires AllDigits(d) && IsDigit(c)
    ensures AllDigits(d + [c]) && DigitsValue(d + [c]) == DigitsValue(d) * 10 + HexValue(c)
  {
    assert (d + [c])[..|d|] == d;
  }

  /** `c` is `a` moved up by the factor `p`, plus `b`. */
  predicate Joins(a: nat, b: nat, p: real, c: nat) {
    c as real == a as real * p + b as real
  }

  lemma JoinsStep(a: nat, b: nat, p: real, c: nat, d: nat)
    requires Joins(a, b, p, c)
    ensures Joins(a, b * 10 + d, 10.0 * p, c * 10 + d)
  {
    var x, y, z, w := a as real, b as real, c as real, d as real;
    assert x * (10.0 * p) == 10.0 * (x * p);
    assert (b * 10 + d) as real == y * 10.0 + w && (c * 10 + d) as real == z * 10.0 + w;
  }

  lemma PowStep(k: nat)
    ensures Pow10(k + 1) == 10.0 * Pow10(k) && Pow10(0) == 1.0
  {}

  lemma {:induction false} DigitsAppend(a: string, b: string)
    requires AllDigits(a) && AllDigits(b)
    ensures AllDigits(a + b) && Joins(DigitsValue(a), DigitsValue(b), Pow10(|b|), DigitsValue(a + b))
    decreases |b|
  {
    hide Pow10, HexValue;
    PowStep(0);
    if b == [] {
      assert a + b == a;
    } else {
      hide DigitsValue, Joins;
      var n := |b| - 1;
      DigitsAppend(a, b[..n]);
      assert a + b == (a + b[..n]) + [b[n]] && b == b[..n] + [b[n]];
      DigitsLast(a + b[..n], b[n]);
      DigitsLast(b[..n], b[n]);
      PowStep(n);
      JoinsStep(DigitsValue(a), DigitsValue(b[..n]), Pow10(n), DigitsValue(a + b[..n]), HexValue(b[n]));
    }
  }

  /** Each step of the exponent is a factor of ten, in both directions. */
  lemma ScaledStep(m: real, e: int)
    ensures Scaled(m, 0) == m && Scaled(m, e + 1) == 10.0 * Scaled(m, e)
  {
    hide Pow10;
    PowStep(0);
    if e >= 0 {
      PowStep(e);
      Regroup(m, Pow10(e));
    } else {
      PowStep(-e - 1);
      Cancel(m, Pow10(-e - 1));
      if e == -1 { assert Scaled(m, 0) == m; }
    }
  }

  lemma Regroup(m: real, p: real)
    ensures m * (10.0 * p) == 10.0 * (m * p) && (10.0 * m) * p == 10.0 * (m * p)
  {}

  lemma Cancel(m: real, p: real)
    requires p >= 1.0
    ensures m / p == 10.0 * (m / (10.0 * p)) && (10.0 * m) / p == 10.0 * (m / p)
  {
    var q := m / (10.0 * p);
    assert q * (10.0 * p) == m;
    Regroup(q, p);
    assert (10.0 * q) * p == m;
    assert (m / p) * p == m;
    Regroup(m / p, p);
  }

  lemma ScaledTimes(m: real, e: int)
    ensures Scaled(10.0 * m, e) == 10.0 * Scaled(m, e)
  {
    hide Pow10;
    if e >= 0 { Regroup(m, Pow10(e)); } else { Cancel(m, Pow10(-e)); }
  }

  lemma {:induction false} ScaledDown(m: real, e: int, k: nat)
    ensures Scaled(m, e - k) == Scaled(m / Pow10(k), e)
    decreases k
  {
    hide Pow10, Scaled;
    PowStep(0);
    if k == 0 {
      assert m / Pow10(0) == m / 1.0 == m;
    } else {
      PowStep(k - 1);
      ScaledDown(m, e - 1, k - 1);
      ScaledStep(m / Pow10(k), e - 1);
      ScaledTimes(m / Pow10(k), e - 1);
      Cancel(m, Pow10(k - 1));
    }
  }

  lemma Divide(a: nat, b: nat, p: real, c: nat)
    requires p >= 1.0 && Joins(a, b, p, c)
    ensures var m := a as real + b as real / p; c as real / p == m && (-(c as real)) / p == -m
  {
    var m, y := a as real + b as real / p, b as real;
    assert (y / p) * p == y;
    assert m * p == c as real;
    assert (-m) * p == -(c as real);
  }

  /** A numeral denotes its whole part plus its fraction, with its sign, times a power of ten. */
  lemma NumeralMeans(n: Numeral)
    requires NumeralOk(n)
    ensures var m := DigitsValue(n.whole) as real + DigitsValue(n.frac) as real / Pow10(|n.frac|);
      NumeralValue(n) == Scaled(if n.negative then -m else m, ExpValue(n.exp))
  {
    hide Pow10, Scaled, DigitsValue, Joins, ExpValue;
    var k, c := |n.frac|, DigitsValue(n.whole + n.frac) as real;
    DigitsAppend(n.whole, n.frac);
    Divide(DigitsValue(n.whole), DigitsValue(n.frac), Pow10(k), DigitsValue(n.whole + n.frac));
    ScaledDown(c, ExpValue(n.exp), k);
    ScaledDown(-c, ExpValue(n.exp), k);
    assert NumeralValue(n) == if n.negative then Scaled(-c, ExpValue(n.exp) - k) else Scaled(c, ExpValue(n.exp) - k);
  }

  /** The exponent is the number its digits write, with its sign. */
  lemma ExponentMeans(e: char, k: nat)
    requires e == 'e' || e == 'E'
    ensures ExpValue(Exp(e, Minus, Digits(k))) + k == 0
    ensures ExpValue(Exp(e, Plus, Digits(k))) == k && ExpValue(Exp(e, Unsigned, Digits(k))) == k
  {}

  /** A `\u` escape with the four hexadecimal digits of a code unit denotes that unit. */
  lemma EscapeMeans(a: nat, b: nat, c: nat, d: nat)
    requires a < 16 && b < 16 && c < 16 && d < 16
    ensures var i := Hex(HexDigit(a), HexDigit(b), HexDigit(c), HexDigit(d));
      var unit := a * 4096 + b * 256 + c * 16 + d;
      ItemOk(i) && ItemChar(i) == if 0xD800 <= unit < 0xE000 then '\U{FFFD}' else unit as char
  {
    hide HexDigit, HexValue;
    assert ((a * 16 + b) * 16 + c) * 16 + d == a * 4096 + b * 256 + c * 16 + d;
  }

  /** Capital hexadecimal digits count like small ones. */
  lemma CapitalDigits(c: char)
    requires 'A' <= c <= 'F'
    ensures HexValue(c) == HexValue((c as int + 32) as char)
  {}
}

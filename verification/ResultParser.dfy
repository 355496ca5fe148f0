/** Normalising the criteria verifications of a model's reply. */
module ResultParser {
  import opened Wrappers
  import opened JsonGrammar
  import opened JsonParser
  import opened JsonValue
  import opened FencedJson
  import Sequences
  import BraceScanner

  datatype Status = AiVerifiedPass | AiVerifiedFail | NotTested

  datatype Verification = Verification(
    criterionId: string,
    status: Status,
    confidence: int,
    reasoning: string,
    relatedIssueIds: Option<seq<string>>)

  /** The five accepted spellings and the three values they stand for. */
  function StatusOf(v: Option<Value>): Option<Status> {
    if v.None? || !v.value.VStr? then None
    else if v.value.s == "PASS" || v.value.s == "AI_VERIFIED_PASS" then Some(AiVerifiedPass)
    else if v.value.s == "FAIL" || v.value.s == "AI_VERIFIED_FAIL" then Some(AiVerifiedFail)
    else if v.value.s == "NOT_TESTED" then Some(NotTested)
    else None
  }

  /** `Math.round` of a confidence between 0 and 100; any other value counts as 70. */
  function ConfidenceOf(v: Option<Value>): (c: int)
    ensures 0 <= c <= 100
  {
    if v.Some? && v.value.VNum? && 0.0 <= v.value.r <= 100.0 then (v.value.r + 0.5).Floor else 70
  }

  function Strings(elems: seq<Value>): seq<string> {
    if elems == [] then []
    else (if elems[0].VStr? then [elems[0].s] else []) + Strings(elems[1..])
  }

  function NormalizeCriteriaVerification(raw: Value): (r: Option<Verification>)
    ensures r.Some? ==> Normal(r.value)
  {
    var id := Get(raw, "criterionId");
    var status := StatusOf(Get(raw, "status"));
    if id.None? || !id.value.VStr? || id.value.s == "" || status.None? then None else
      var reasoning := Get(raw, "reasoning");
      var related := Get(raw, "relatedIssueIds");
      Some(Verification(
        id.value.s,
        status.value,
        ConfidenceOf(Get(raw, "confidence")),
        if reasoning.Some? && reasoning.value.VStr? then reasoning.value.s else "",
        if related.Some? && related.value.VArr? then Some(Strings(related.value.elems)) else None))
  }

  /** What every normalised verification satisfies, and what survives being stored and read again. */
  predicate Normal(v: Verification) {
    v.criterionId != "" && 0 <= v.confidence <= 100
  }

  predicate AllNormal(vs: seq<Verification>) {
    forall v :: v in vs ==> Normal(v)
  }

  // ---- What normalising means -----------------------------------------------------------------

  /** What a reply may write for each status. */
  function Spellings(s: Status): set<string> {
    match s
    case AiVerifiedPass => {"PASS", "AI_VERIFIED_PASS"}
    case AiVerifiedFail => {"FAIL", "AI_VERIFIED_FAIL"}
    case NotTested => {"NOT_TESTED"}
  }

  predicate Spelled(v: Option<Value>, s: Status) {
    v.Some? && v.value.VStr? && v.value.s in Spellings(s)
  }

  lemma SpellingsDiffer()
    ensures forall a: Status, b: Status, text: string :: text in Spellings(a) && text in Spellings(b) ==> a == b
  {
    assert |"PASS"| == 4 && |"FAIL"| == 4 && "PASS"[0] != "FAIL"[0];
    assert |"AI_VERIFIED_PASS"| == 16 && |"AI_VERIFIED_FAIL"| == 16 && "AI_VERIFIED_PASS"[12] != "AI_VERIFIED_FAIL"[12];
    assert |"NOT_TESTED"| == 10;
  }

  lemma StatusOfIff(v: Option<Value>, s: Status)
    ensures StatusOf(v) == Some(s) <==> Spelled(v, s)
  {
    SpellingsDiffer();
    assert StatusOf(v).Some? ==> Spelled(v, StatusOf(v).value);
  }

  /** The integer next to a confidence between 0 and 100, halves rounded up; 70 for anything else. */
  predicate Rounds(v: Option<Value>, c: int) {
    if v.Some? && v.value.VNum? && 0.0 <= v.value.r <= 100.0 then c as real - 0.5 <= v.value.r < c as real + 0.5 else c == 70
  }

  lemma {:induction false} StringsAreFiltered(elems: seq<Value>)
    ensures StringArray(Strings(elems)).elems == Sequences.Filter((e: Value) => e.VStr?, elems)
  {
    hide Sequences.Filter;
    var p := (e: Value) => e.VStr?;
    if elems == [] {
      Sequences.FilterNothing(p);
    } else {
      StringsAreFiltered(elems[1..]);
      Sequences.FilterCons(p, elems[0], elems[1..]);
      assert elems == [elems[0]] + elems[1..];
      var rest := Strings(elems[1..]);
      if elems[0].VStr? {
        assert StringArray([elems[0].s] + rest).elems == [elems[0]] + StringArray(rest).elems;
      } else {
        assert [] + rest == rest;
      }
    }
  }

  /** An entry is kept if and only if it has a non-empty id and a status in one of the accepted
      spellings, and then under that id and with the status that is so spelled; the confidence is the
      nearest integer, the reasoning the given text, the related ids the strings among the given ones. */
  lemma NormalizeMeans(raw: Value)
    ensures var r := NormalizeCriteriaVerification(raw);
      && (forall id: string, s: Status ::
            r.Some? && r.value.criterionId == id && r.value.status == s
            <==> id != "" && Get(raw, "criterionId") == Some(VStr(id)) && Spelled(Get(raw, "status"), s))
      && (r.Some? ==>
            && Rounds(Get(raw, "confidence"), r.value.confidence)
            && r.value.reasoning == (match Get(raw, "reasoning") case Some(VStr(text)) => text case _ => "")
            && (match Get(raw, "relatedIssueIds")
                case Some(VArr(elems)) => r.value.relatedIssueIds.Some?
                  && StringArray(r.value.relatedIssueIds.value).elems == Sequences.Filter((e: Value) => e.VStr?, elems)
                case _ => r.value.relatedIssueIds.None?))
  {
    hide Get, StatusOf, Spelled, StringArray, Strings, Sequences.Filter;
    forall s ensures StatusOf(Get(raw, "status")) == Some(s) <==> Spelled(Get(raw, "status"), s) { StatusOfIff(Get(raw, "status"), s); }
    match Get(raw, "relatedIssueIds") {
      case Some(VArr(elems)) => StringsAreFiltered(elems);
      case _ =>
    }
  }

  /** The indices of the entries that are kept. */
  function Kept(raw: seq<Value>): seq<nat> {
    if raw == [] then []
    else
      var front := Kept(raw[..|raw| - 1]);
      if NormalizeCriteriaVerification(raw[|raw| - 1]).Some? then front + [|raw| - 1] else front
  }

  function NormalizeAll(raw: seq<Value>): (r: seq<Verification>)
    ensures AllNormal(r)
  {
    if raw == [] then []
    else
      var front := NormalizeAll(raw[..|raw| - 1]);
      match NormalizeCriteriaVerification(raw[|raw| - 1]) case None => front case Some(v) => front + [v]
  }

  method ParseCriteriaVerifications(raw: seq<Value>) returns (normalized: seq<Verification>)
    ensures normalized == NormalizeAll(raw)
  {
    normalized := [];
    for i := 0 to |raw|
      invariant normalized == NormalizeAll(raw[..i])
    {
      assert raw[..i + 1][..i] == raw[..i];
      var verification := NormalizeCriteriaVerification(raw[i]);
      if verification.Some? {
        normalized := normalized + [verification.value];
      }
    }
    assert raw[..|raw|] == raw;
  }

  /** The result is the order-preserving image of exactly the valid entries. */
  lemma {:induction false} NormalizeAllIsImage(raw: seq<Value>)
    ensures var kept := Kept(raw);
      && |NormalizeAll(raw)| == |kept|
      && (forall k :: 0 <= k < |kept| ==>
            kept[k] < |raw| && NormalizeCriteriaVerification(raw[kept[k]]) == Some(NormalizeAll(raw)[k]))
      && (forall j, k :: 0 <= j < k < |kept| ==> kept[j] < kept[k])
      && (forall i :: 0 <= i < |raw| && NormalizeCriteriaVerification(raw[i]).Some? ==> i in kept)
  {
    hide NormalizeCriteriaVerification;
    if raw != [] {
      var n := |raw| - 1;
      NormalizeAllIsImage(raw[..n]);
      ImageStep(raw[..n], raw[n]);
      assert raw == raw[..n] + [raw[n]];
    }
  }

  lemma ImageStep(front: seq<Value>, last: Value)
    requires forall k :: 0 <= k < |Kept(front)| ==> Kept(front)[k] < |front|
    ensures var v := NormalizeCriteriaVerification(last);
      && Kept(front + [last]) == Kept(front) + (if v.Some? then [|front|] else [])
      && NormalizeAll(front + [last]) == NormalizeAll(front) + (if v.Some? then [v.value] else [])
  {
    hide NormalizeCriteriaVerification;
    assert (front + [last])[..|front|] == front;
  }

  // ---- parseBatchVerificationOutput -----------------------------------------------------------

  datatype ParseError = NoJsonFound | NotAnObject | MissingArray

  function ParseBatchVerificationOutput(output: string): (r: Result<seq<Verification>, ParseError>)
    ensures r.Ok? ==> AllNormal(r.value)
  {
    match Recover(output)
    case None => Err(NoJsonFound)
    case Some(t) => RecoverSound(output); ReadBatch(ValueOf(t))
  }

  /** An array is an object to JavaScript, but one without the property. */
  function ReadBatch(v: Value): (r: Result<seq<Verification>, ParseError>)
    ensures r.Ok? ==> AllNormal(r.value)
  {
    if !v.VObj? && !v.VArr? then Err(NotAnObject)
    else
      var a := Get(v, "criteriaVerifications");
      if a.None? || !a.value.VArr? then Err(MissingArray) else Result.Ok(NormalizeAll(a.value.elems))
  }

  /** Which error a reply draws: no JSON in it; a value that is neither object nor array; or one whose
      property is missing or no array, as it is for every array. */
  lemma ParseErrorIff(output: string)
    ensures var r, t := ParseBatchVerificationOutput(output), Recover(output);
      && (r == Err(NoJsonFound) <==> t.None?)
      && (r == Err(NotAnObject) <==> t.Some? && (t.value.TNull? || t.value.TTrue? || t.value.TFalse? || t.value.TNumber? || t.value.TString?))
      && (r == Err(MissingArray) <==>
            t.Some? && (t.value.TArray? || t.value.TEmptyArray? || t.value.TObject? || t.value.TEmptyObject?)
            && Wf(t.value) && (match Get(ValueOf(t.value), "criteriaVerifications") case Some(VArr(_)) => false case _ => true))
  {
    hide Recover, NormalizeAll, Lookup;
    RecoverSound(output);
  }

  // ---- Storing verifications and reading them back --------------------------------------------

  function StatusText(s: Status): string {
    match s
    case AiVerifiedPass => "AI_VERIFIED_PASS"
    case AiVerifiedFail => "AI_VERIFIED_FAIL"
    case NotTested => "NOT_TESTED"
  }

  function StringArray(ss: seq<string>): (v: Value)
    ensures Printable(v) && v.VArr?
  {
    VArr(seq(|ss|, i requires 0 <= i < |ss| => VStr(ss[i])))
  }

  /** The object `JSON.stringify` writes; a property whose value is undefined is left out. */
  function VerificationValue(v: Verification): (r: Value)
    requires v.confidence >= 0
    ensures Printable(r)
  {
    VObj([
      Member("criterionId", VStr(v.criterionId)),
      Member("status", VStr(StatusText(v.status))),
      Member("confidence", VNum(v.confidence as real)),
      Member("reasoning", VStr(v.reasoning))]
      + match v.relatedIssueIds case None => [] case Some(ids) => [Member("relatedIssueIds", StringArray(ids))])
  }

  function VerificationValues(vs: seq<Verification>): (r: seq<Value>)
    requires AllNormal(vs)
    ensures forall v :: v in r ==> Printable(v)
  {
    if vs == [] then [] else assert Normal(vs[0]); [VerificationValue(vs[0])] + VerificationValues(vs[1..])
  }

  function BatchValue(vs: seq<Verification>): (r: Value)
    requires AllNormal(vs)
    ensures Printable(r) && r.VObj?
  {
    VObj([Member("criteriaVerifications", VArr(VerificationValues(vs)))])
  }

  lemma {:induction false} StringsOfArray(ss: seq<string>)
    ensures Strings(StringArray(ss).elems) == ss
  {
    if ss != [] {
      assert StringArray(ss).elems[1..] == StringArray(ss[1..]).elems;
      StringsOfArray(ss[1..]);
    }
  }

  /** Looking a name up in a list that holds it once, at index `i`. */
  lemma {:induction false} LookupAt(members: seq<Member>, i: nat)
    requires i < |members| && forall j :: i < j < |members| ==> members[j].key != members[i].key
    ensures Lookup(members, members[i].key) == Some(members[i].value)
    decreases |members|
  {
    if i < |members| - 1 { LookupAt(members[..|members| - 1], i); }
  }

  lemma {:induction false} LookupMissing(members: seq<Member>, key: string)
    requires forall j :: 0 <= j < |members| ==> members[j].key != key
    ensures Lookup(members, key) == None
    decreases |members|
  {
    if members != [] { LookupMissing(members[..|members| - 1], key); }
  }

  lemma VerificationMembers(v: Verification)
    requires v.confidence >= 0
    ensures var r := VerificationValue(v);
      && Get(r, "criterionId") == Some(VStr(v.criterionId))
      && Get(r, "status") == Some(VStr(StatusText(v.status)))
      && Get(r, "confidence") == Some(VNum(v.confidence as real))
      && Get(r, "reasoning") == Some(VStr(v.reasoning))
      && Get(r, "relatedIssueIds") == if v.relatedIssueIds.Some? then Some(StringArray(v.relatedIssueIds.value)) else None
  {
    hide Lookup, StringArray, StatusText;
    var m := VerificationValue(v).members;
    assert |m[0].key| == 11 && |m[1].key| == 6 && |m[2].key| == 10 && |m[3].key| == 9;
    assert |m| > 4 ==> |m[4].key| == 15;
    LookupAt(m, 0);
    LookupAt(m, 1);
    LookupAt(m, 2);
    LookupAt(m, 3);
    if v.relatedIssueIds.Some? { LookupAt(m, 4); } else { LookupMissing(m, "relatedIssueIds"); }
  }

  /** Normalising is idempotent: a normalised verification, stored, normalises to itself. */
  lemma NormalizeStored(v: Verification)
    requires Normal(v)
    ensures NormalizeCriteriaVerification(VerificationValue(v)) == Some(v)
  {
    hide Get, VerificationValue;
    VerificationMembers(v);
    if v.relatedIssueIds.Some? { StringsOfArray(v.relatedIssueIds.value); }
    assert (v.confidence as real + 0.5).Floor == v.confidence;
  }

  lemma NormalizeAllLast(raw: seq<Value>, v: Verification)
    requires raw != [] && NormalizeCriteriaVerification(raw[|raw| - 1]) == Some(v)
    ensures NormalizeAll(raw) == NormalizeAll(raw[..|raw| - 1]) + [v]
  {}

  lemma {:induction false} NormalizeAllStored(vs: seq<Verification>)
    requires AllNormal(vs)
    ensures NormalizeAll(VerificationValues(vs)) == vs
  {
    hide NormalizeCriteriaVerification, VerificationValue;
    if vs != [] {
      hide NormalizeAll, VerificationValues;
      var n := |vs| - 1;
      VerificationValuesLast(vs);
      NormalizeAllStored(vs[..n]);
      NormalizeStored(vs[n]);
      NormalizeAllLast(VerificationValues(vs), vs[n]);
      assert vs[..n] + [vs[n]] == vs;
    }
  }

  lemma {:induction false} VerificationValuesLast(vs: seq<Verification>)
    requires AllNormal(vs) && vs != []
    ensures var r, n := VerificationValues(vs), |vs| - 1;
      |r| == |vs| && r[..n] == VerificationValues(vs[..n]) && Normal(vs[n]) && r[n] == VerificationValue(vs[n])
  {
    hide VerificationValue;
    if |vs| > 1 {
      var n := |vs| - 1;
      VerificationValuesLast(vs[1..]);
      assert vs[1..][..n - 1] == vs[..n][1..];
    }
  }

  /** Re-reading the stored form of any list of normalised verifications gives the list back ... */
  lemma BatchRoundTrip(vs: seq<Verification>)
    requires AllNormal(vs)
    ensures ParseBatchVerificationOutput(Stringify(BatchValue(vs))) == Result.Ok(vs)
  {
    hide NormalizeAll, VerificationValues;
    var v := BatchValue(vs);
    ParseObjectText(Layout(v, 0));
    LookupAt(v.members, 0);
    NormalizeAllStored(vs);
  }

  /** ... in particular the verifications of any reply that parses. */
  lemma ReparseIsIdempotent(output: string)
    requires ParseBatchVerificationOutput(output).Ok?
    ensures var r := ParseBatchVerificationOutput(output);
      ParseBatchVerificationOutput(Stringify(BatchValue(r.value))) == r
  {
    BatchRoundTrip(ParseBatchVerificationOutput(output).value);
  }

  /** A fenced reply says what its object says. */
  lemma FencedReplyParsesAlike(p: string, t: Tree, z: string)
    requires IsObjectTree(t)
    requires (BlockStart(p, 0) == None && !Contains(z, CLOSING_FENCE)) || ('{' !in p && !Contains(p, FENCE))
    ensures ParseBatchVerificationOutput(Wrapped(p, t, z)) == ParseBatchVerificationOutput(TextOf(t))
  {
    hide Recover, BlockStart, Contains, Wrapped, Write;
    if BlockStart(p, 0) == None && !Contains(z, CLOSING_FENCE) {
      RecoverFenced(p, t, z);
    } else {
      RecoverWrapped(p, t, z);
    }
    RecoverBare("", t, "");
    assert "" + Write(t, "") == TextOf(t);
  }

  /** The branch that reports an invalid structure after brace matching is never taken. */
  lemma BracesAlwaysParse(output: string)
    ensures RecoverByBraces(output).None? <==> BraceScanner.ExtractByBraces(output).None?
  {}
}

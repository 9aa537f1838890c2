/**
 * The Rust rewrite of the rule engine: the strict course-code parser built from
 * parser combinators, the internally tagged rule enum whose "type" tags must
 * match the ones the Python side writes, and the flat rule enum of the
 * processed form.
 */
module RustVerifier {
  import opened Wrappers
  import opened PyText
  import opened RawValues
  import AuxFactory
  import AuxRules

  /** The two ways the combinators used here fail. */
  datatype ErrorKind = TakeWhileMNError | Eof

  /** A parser's outcome: the unconsumed rest and the value, or a failure. */
  datatype IResult<T> = Done(rest: string, value: T) | Fail(kind: ErrorKind)

  /** The index of the first character at or after `i` that `p` rejects, or the length. */
  function CountLeading(s: string, p: char -> bool, i: nat): (k: nat)
    requires i <= |s|
    ensures i <= k <= |s| && (k < |s| ==> !p(s[k]))
    ensures forall j :: i <= j < k ==> p(s[j])
    decreases |s| - i
  {
    if i < |s| && p(s[i]) then CountLeading(s, p, i + 1) else i
  }

  /**
   * `take_while_m_n(m, n, p)` on complete input: the longest run of accepted
   * characters, cut at `n`, provided it has at least `m` of them.
   */
  function TakeWhileMN(m: nat, n: nat, p: char -> bool, input: string): (r: IResult<string>)
    ensures r.Done? ==> r.value + r.rest == input && |r.value| <= n && (m <= n ==> m <= |r.value|)
    ensures r.Done? ==> forall j :: 0 <= j < |r.value| ==> p(r.value[j])
    ensures r.Done? && |r.value| < n ==> r.rest == [] || !p(r.rest[0])
    ensures r.Fail? ==> r.kind == TakeWhileMNError && CountLeading(input, p, 0) < m
  {
    var k := CountLeading(input, p, 0);
    if k < m then Fail(TakeWhileMNError)
    else
      var t := if k <= n then k else n;
      assert input[..t] + input[t..] == input;
      Done(input[t..], input[..t])
  }

  /** `pair(first, second)`: the second parser runs on what the first leaves. */
  function Pair<A, B>(first: string -> IResult<A>, second: string -> IResult<B>, input: string): IResult<(A, B)> {
    match first(input)
    case Fail(e) => Fail(e)
    case Done(rest, a) =>
      match second(rest)
      case Fail(e) => Fail(e)
      case Done(rest2, b) => Done(rest2, (a, b))
  }

  /** `all_consuming(p)`: success only when nothing is left. */
  function AllConsuming<T>(p: string -> IResult<T>, input: string): IResult<T> {
    match p(input)
    case Fail(e) => Fail(e)
    case Done(rest, v) => if rest == [] then Done(rest, v) else Fail(Eof)
  }

  /** `map(p, f)`. */
  function Map<A, B>(p: string -> IResult<A>, f: A -> B, input: string): IResult<B> {
    match p(input)
    case Fail(e) => Fail(e)
    case Done(rest, v) => Done(rest, f(v))
  }

  datatype CourseCode = CourseCode(prefix: string, postfix: string)

  function Letters4(input: string): IResult<string> {
    TakeWhileMN(4, 4, IsAsciiAlpha, input)
  }

  function Digits4(input: string): IResult<string> {
    TakeWhileMN(4, 4, IsDigit, input)
  }

  function CodePair(input: string): IResult<(string, string)> {
    Pair(Letters4, Digits4, input)
  }

  function WholeCodePair(input: string): IResult<(string, string)> {
    AllConsuming(CodePair, input)
  }

  function ToCourseCode(parts: (string, string)): CourseCode {
    CourseCode(parts.0, parts.1)
  }

  /** `parse_course_code`. */
  function ParseCourseCode(input: string): IResult<CourseCode> {
    Map(WholeCodePair, ToCourseCode, input)
  }

  /** Exactly four ASCII letters followed by exactly four ASCII digits. */
  predicate IsCourseCode(s: string) {
    && |s| == 8
    && (forall i :: 0 <= i < 4 ==> IsAsciiAlpha(s[i]))
    && (forall i :: 4 <= i < 8 ==> IsDigit(s[i]))
  }

  /** The parser accepts exactly the four-letter, four-digit codes. */
  lemma {:induction false} ParseCourseCodeAccepts(input: string)
    ensures ParseCourseCode(input).Done? <==> IsCourseCode(input)
  {
    var l := Letters4(input);
    if IsCourseCode(input) {
      assert !IsAsciiAlpha(input[4]);
      assert CountLeading(input, IsAsciiAlpha, 0) == 4;
      assert l == Done(input[4..], input[..4]);
      var d := Digits4(input[4..]);
      assert CountLeading(input[4..], IsDigit, 0) == 4;
      assert d.Done? && d.rest == [];
    }
    if ParseCourseCode(input).Done? {
      var d := Digits4(l.rest);
      assert l.value + (d.value + d.rest) == input;
      assert d.rest == [];
      assert input == l.value + d.value;
      assert forall i :: 4 <= i < 8 ==> input[i] == d.value[i - 4];
    }
  }

  /** On success nothing is left, the prefix is the first four characters and the postfix the last four. */
  lemma {:induction false} ParseCourseCodeParts(input: string)
    requires ParseCourseCode(input).Done?
    ensures var r := ParseCourseCode(input);
      && r.rest == []
      && r.value.prefix == input[..4] && r.value.postfix == input[4..]
      && r.value.prefix + r.value.postfix == input
  {
    var l := Letters4(input);
    var d := Digits4(l.rest);
    assert l.value + (d.value + d.rest) == input;
    assert d.rest == [];
    assert |l.value| == 4;
    assert input[..4] == l.value && input[4..] == d.value;
  }

  lemma {:induction false} ParseCourseCodeExample()
    ensures ParseCourseCode("CSSE2310") == Done("", CourseCode("CSSE", "2310"))
  {
    var s := "CSSE2310";
    assert IsCourseCode(s) by {
      assert forall i :: 0 <= i < 4 ==> s[i] in "CSE";
      assert forall i :: 4 <= i < 8 ==> s[i] in "0123";
    }
    ParseCourseCodeAccepts(s);
    ParseCourseCodeParts(s);
    assert s[..4] == "CSSE" && s[4..] == "2310";
  }

  /** A fifth letter leaves a letter where the digits must start. */
  lemma {:induction false} RejectsFiveLetters()
    ensures ParseCourseCode("CSSEE2310") == Fail(TakeWhileMNError)
  {
    var s := "CSSEE2310";
    assert Letters4(s) == Done(s[4..], s[..4]) by {
      assert CountLeading(s, IsAsciiAlpha, 0) == 5;
    }
    assert s[4..] == "E2310";
    assert CountLeading("E2310", IsDigit, 0) == 0;
  }

  /** Three digits are too few. */
  lemma {:induction false} RejectsThreeDigits()
    ensures ParseCourseCode("CSSE231") == Fail(TakeWhileMNError)
  {
    var s := "CSSE231";
    assert Letters4(s) == Done(s[4..], s[..4]) by {
      assert CountLeading(s, IsAsciiAlpha, 0) == 4;
    }
    assert s[4..] == "231";
    assert CountLeading("231", IsDigit, 0) == 3;
  }

  /** Anything after a well-formed code is left over, which `all_consuming` refuses. */
  lemma {:induction false} RejectsTrailing(input: string)
    requires |input| > 8 && IsCourseCode(input[..8])
    ensures ParseCourseCode(input) == Fail(Eof)
  {
    assert forall i :: 0 <= i < 8 ==> input[..8][i] == input[i];
    assert !IsAsciiAlpha(input[4]);
    assert CountLeading(input, IsAsciiAlpha, 0) == 4;
    assert Letters4(input) == Done(input[4..], input[..4]);
    var t := input[4..];
    assert forall i :: 0 <= i < 4 ==> t[i] == input[4 + i];
    assert CountLeading(t, IsDigit, 0) >= 4;
    assert Digits4(t) == Done(t[4..], t[..4]);
    assert t[4..] != [];
  }

  /** A fifth digit is left over. */
  lemma {:induction false} RejectsTrailingExample()
    ensures ParseCourseCode("CSSE23101") == Fail(Eof)
  {
    var s := "CSSE23101";
    assert s[..8] == "CSSE2310";
    assert IsCourseCode(s[..8]) by {
      assert forall i :: 0 <= i < 4 ==> s[i] in "CSE";
      assert forall i :: 4 <= i < 8 ==> s[i] in "0123";
    }
    RejectsTrailing(s);
  }

  /** `LevelSpec`, flattened into the rules that carry it. */
  datatype LevelSpec = LevelSpec(level: int, orHigher: bool)

  /** `AuxiliaryRuleKind`; units and levels are integers, program codes strings. */
  datatype RuleKind =
    | Ar1(n: int, spec: LevelSpec)
    | Ar2(n: int, level: int)
    | Ar3(n: int, spec: LevelSpec)
    | Ar4(n: int, m: int, spec: LevelSpec)
    | Ar5(planList1: seq<string>, planList2: seq<string>)
    | Ar6(planList1: seq<string>, planList2: seq<string>)
    | Ar7(n: int)
    | Ar9(courseList: seq<CourseCode>)
    | Ar10(courseList: seq<CourseCode>, planList: seq<string>)
    | Ar11(courseList: seq<CourseCode>, planList: seq<string>)
    | Ar13(planList: seq<string>, courseList: seq<CourseCode>, programPlanList: seq<string>)
    | Ar15(courseList: seq<CourseCode>, must: bool, programPlanList: seq<string>, lists: seq<string>)
    | Ar16(planList: seq<string>, courseList1: seq<CourseCode>, must: bool, courseList2: seq<CourseCode>,
           programPlanList: seq<string>)
    | Ar17(planList: seq<string>, courseList: seq<CourseCode>, must: bool, programPlanList: seq<string>,
           lists: seq<string>)
    | Ar18(courseList: seq<CourseCode>, program: string)
    | Ar19(planList: seq<string>, courseList: seq<CourseCode>, program: string)
    | Ar20(plan1: string, planList1: seq<string>, courseList: seq<CourseCode>, planList2: seq<string>)
    | ArUnknown(text: string, rawParams: seq<Raw>)

  /** `AuxiliaryRule`: a rule kind under a part label. */
  datatype PartRule = PartRule(part: string, rule: RuleKind)

  /** The variants of the enum, without their fields. */
  datatype Variant =
    | VAr1 | VAr2 | VAr3 | VAr4 | VAr5 | VAr6 | VAr7 | VAr9 | VAr10 | VAr11 | VAr13
    | VAr15 | VAr16 | VAr17 | VAr18 | VAr19 | VAr20 | VArUnknown

  function VariantOf(k: RuleKind): Variant {
    match k
    case Ar1(_, _) => VAr1
    case Ar2(_, _) => VAr2
    case Ar3(_, _) => VAr3
    case Ar4(_, _, _) => VAr4
    case Ar5(_, _) => VAr5
    case Ar6(_, _) => VAr6
    case Ar7(_) => VAr7
    case Ar9(_) => VAr9
    case Ar10(_, _) => VAr10
    case Ar11(_, _) => VAr11
    case Ar13(_, _, _) => VAr13
    case Ar15(_, _, _, _) => VAr15
    case Ar16(_, _, _, _, _) => VAr16
    case Ar17(_, _, _, _, _) => VAr17
    case Ar18(_, _) => VAr18
    case Ar19(_, _, _) => VAr19
    case Ar20(_, _, _, _) => VAr20
    case ArUnknown(_, _) => VArUnknown
  }

  /** The "type" tag of every variant once each carries the rename the Python side uses. */
  function SerdeTag(v: Variant): string {
    match v
    case VAr1 => "AR1"
    case VAr2 => "AR2"
    case VAr3 => "AR3"
    case VAr4 => "AR4"
    case VAr5 => "AR5"
    case VAr6 => "AR6"
    case VAr7 => "AR7"
    case VAr9 => "AR9"
    case VAr10 => "AR10"
    case VAr11 => "AR11"
    case VAr13 => "AR13"
    case VAr15 => "AR15"
    case VAr16 => "AR16"
    case VAr17 => "AR17"
    case VAr18 => "AR18"
    case VAr19 => "AR19"
    case VAr20 => "AR20"
    case VArUnknown => "ARUnknown"
  }

  /** The tags as declared: `Ar7` has no rename, so serde uses the variant name itself. */
  function SerdeTagAsWritten(v: Variant): string {
    if v == VAr7 then "Ar7" else SerdeTag(v)
  }

  const Variants: seq<Variant> := [VAr1, VAr2, VAr3, VAr4, VAr5, VAr6, VAr7, VAr9, VAr10, VAr11, VAr13,
                                   VAr15, VAr16, VAr17, VAr18, VAr19, VAr20, VArUnknown]

  /** The first of `vs` whose tag is `t`. */
  function FindTag(t: string, tag: Variant -> string, vs: seq<Variant>): (r: Option<Variant>)
    ensures r.Some? ==> r.value in vs && tag(r.value) == t
    ensures r.None? ==> forall i :: 0 <= i < |vs| ==> tag(vs[i]) != t
  {
    if vs == [] then None
    else if tag(vs[0]) == t then Some(vs[0])
    else FindTag(t, tag, vs[1..])
  }

  /** The variant the deserialiser picks for a "type" value, if any. */
  function Deserialized(t: string, tag: Variant -> string): Option<Variant> {
    FindTag(t, tag, Variants)
  }

  /** Different variants have different tags. */
  lemma {:induction false} TagInjective(a: Variant, b: Variant)
    requires SerdeTag(a) == SerdeTag(b)
    ensures a == b
  {
    var t := SerdeTag(a);
    assert |t| == |SerdeTag(b)|;
    assert t[|t| - 1] == SerdeTag(b)[|t| - 1];
    assert |t| > 3 ==> t[2] == SerdeTag(b)[2] && t[3] == SerdeTag(b)[3];
  }

  /** Under a tag function that tells the elements of `vs` apart, `FindTag` finds each of them by its tag. */
  lemma {:induction false} FindTagInjective(v: Variant, tag: Variant -> string, vs: seq<Variant>)
    requires v in vs
    requires forall a, b :: a in vs && b in vs && tag(a) == tag(b) ==> a == b
    ensures FindTag(tag(v), tag, vs) == Some(v)
  {
    if vs[0] != v {
      assert v in vs[1..];
      FindTagInjective(v, tag, vs[1..]);
    }
  }

  /** `FindTag` finds a tag some element carries. */
  lemma {:induction false} FindTagSome(t: string, tag: Variant -> string, vs: seq<Variant>, i: nat)
    requires i < |vs| && tag(vs[i]) == t
    ensures FindTag(t, tag, vs).Some?
  {
    if i > 0 && tag(vs[0]) != t {
      FindTagSome(t, tag, vs[1..], i - 1);
    }
  }

  /** `FindTag` returns the first element carrying the tag. */
  lemma {:induction false} FindTagFirst(t: string, tag: Variant -> string, vs: seq<Variant>, i: nat)
    requires i < |vs| && tag(vs[i]) == t
    requires forall j :: 0 <= j < i ==> tag(vs[j]) != t
    ensures FindTag(t, tag, vs) == Some(vs[i])
  {
    if i > 0 {
      FindTagFirst(t, tag, vs[1..], i - 1);
    }
  }

  /** The tags are all different, so each variant's tag reads back as that variant. */
  lemma {:induction false} TagRoundTrip(v: Variant)
    ensures Deserialized(SerdeTag(v), SerdeTag) == Some(v)
  {
    forall a, b | a in Variants && b in Variants && SerdeTag(a) == SerdeTag(b)
      ensures a == b
    {
      TagInjective(a, b);
    }
    FindTagInjective(v, SerdeTag, Variants);
  }

  /** The renamed tags are exactly the tags the Python factory knows. */
  lemma {:induction false} TagsMatchPython(t: string)
    ensures Deserialized(t, SerdeTag).Some? <==> t in AuxFactory.AuxTags
  {
    assert forall i :: 0 <= i < |Variants| ==> SerdeTag(Variants[i]) == AuxFactory.AuxTags[i];
    assert |Variants| == |AuxFactory.AuxTags|;
    if t in AuxFactory.AuxTags {
      var i :| 0 <= i < |AuxFactory.AuxTags| && AuxFactory.AuxTags[i] == t;
      assert SerdeTag(Variants[i]) == t;
    }
  }

  /** As declared, no variant carries the tag "AR7". */
  lemma {:induction false} NotTaggedAR7(v: Variant)
    ensures SerdeTagAsWritten(v) != "AR7"
  {
    if v != VAr7 && SerdeTag(v) == "AR7" {
      TagInjective(v, VAr7);
    }
  }

  /**
   * As declared, the tags that select a variant are the Python factory's tags with
   * "AR7" replaced by "Ar7": the tag the Python side writes for an AR7 rule selects
   * no variant.
   */
  lemma {:induction false} AsWrittenTags(t: string)
    ensures Deserialized(t, SerdeTagAsWritten).Some? <==>
      (t in AuxFactory.AuxTags && t != "AR7") || t == "Ar7"
  {
    AsWrittenSelects(t);
    AsWrittenOthers(t);
    if t == "Ar7" {
      AsWrittenAr7();
    }
  }

  lemma {:induction false} AsWrittenSelects(t: string)
    ensures Deserialized(t, SerdeTagAsWritten).Some? ==>
      (t in AuxFactory.AuxTags && t != "AR7") || t == "Ar7"
  {
    var r := Deserialized(t, SerdeTagAsWritten);
    if r.Some? && r.value != VAr7 {
      assert SerdeTag(r.value) == t;
      TagsMatchPython(t);
      TagRoundTrip(r.value);
      NotTaggedAR7(r.value);
    }
  }

  lemma {:induction false} AsWrittenAr7()
    ensures Deserialized("Ar7", SerdeTagAsWritten) == Some(VAr7)
  {
    assert forall j :: 0 <= j < 6 ==> SerdeTagAsWritten(Variants[j])[1] == 'R';
    FindTagFirst("Ar7", SerdeTagAsWritten, Variants, 6);
  }

  /** Where a variant sits in the declaration order. */
  function Position(v: Variant): (i: nat)
    ensures i < |Variants| && Variants[i] == v
  {
    match v
    case VAr1 => 0
    case VAr2 => 1
    case VAr3 => 2
    case VAr4 => 3
    case VAr5 => 4
    case VAr6 => 5
    case VAr7 => 6
    case VAr9 => 7
    case VAr10 => 8
    case VAr11 => 9
    case VAr13 => 10
    case VAr15 => 11
    case VAr16 => 12
    case VAr17 => 13
    case VAr18 => 14
    case VAr19 => 15
    case VAr20 => 16
    case VArUnknown => 17
  }

  /** As declared, every variant but `Ar7` is still selected by its renamed tag. */
  lemma {:induction false} AsWrittenFinds(v: Variant)
    requires v != VAr7
    ensures Deserialized(SerdeTag(v), SerdeTagAsWritten).Some?
  {
    FindTagSome(SerdeTag(v), SerdeTagAsWritten, Variants, Position(v));
  }

  lemma {:induction false} AsWrittenOthers(t: string)
    ensures t in AuxFactory.AuxTags && t != "AR7" ==> Deserialized(t, SerdeTagAsWritten).Some?
  {
    if t in AuxFactory.AuxTags && t != "AR7" {
      TagsMatchPython(t);
      var v := Deserialized(t, SerdeTag).value;
      assert SerdeTag(v) == t;
      AsWrittenFinds(v);
    }
  }

  /**
   * The keys of a rule's JSON object: "type" first, then the fields in declaration
   * order, with the flattened `LevelSpec` contributing `level` and `or_higher`.
   */
  function SerializedKeys(k: RuleKind): (keys: seq<string>)
    ensures |keys| > 0 && keys[0] == "type"
  {
    var spec := ["level", "or_higher"];
    ["type"] +
    match k
    case Ar1(_, _) => ["n"] + spec
    case Ar2(_, _) => ["n", "level"]
    case Ar3(_, _) => ["n"] + spec
    case Ar4(_, _, _) => ["n", "m"] + spec
    case Ar5(_, _) => ["plan_list_1", "plan_list_2"]
    case Ar6(_, _) => ["plan_list_1", "plan_list_2"]
    case Ar7(_) => ["n"]
    case Ar9(_) => ["course_list"]
    case Ar10(_, _) => ["course_list", "plan_list"]
    case Ar11(_, _) => ["course_list", "plan_list"]
    case Ar13(_, _, _) => ["plan_list", "course_list", "program_plan_list"]
    case Ar15(_, _, _, _) => ["course_list", "must", "program_plan_list", "lists"]
    case Ar16(_, _, _, _, _) => ["plan_list", "course_list_1", "must", "course_list_2", "program_plan_list"]
    case Ar17(_, _, _, _, _) => ["plan_list", "course_list", "must", "program_plan_list", "lists"]
    case Ar18(_, _) => ["course_list", "program"]
    case Ar19(_, _, _) => ["plan_list", "course_list", "program"]
    case Ar20(_, _, _, _) => ["plan_1", "plan_list_1", "course_list", "plan_list_2"]
    case ArUnknown(_, _) => ["text", "raw_params"]
  }

  /** The flat rules of the processed form, Ar1 to Ar6 only. */
  datatype ProcessedRule =
    | PAr1(n: int, level: int, orHigher: bool)
    | PAr2(n: int, level: int)
    | PAr3(n: int, level: int, orHigher: bool)
    | PAr4(n: int, m: int, level: int, orHigher: bool)
    | PAr5(planList1: seq<string>, planList2: seq<string>)
    | PAr6(planList1: seq<string>, planList2: seq<string>)

  function ProcessedFields(r: ProcessedRule): seq<string> {
    match r
    case PAr1(_, _, _) => ["n", "level", "or_higher"]
    case PAr2(_, _) => ["n", "level"]
    case PAr3(_, _, _) => ["n", "level", "or_higher"]
    case PAr4(_, _, _, _) => ["n", "m", "level", "or_higher"]
    case PAr5(_, _) => ["plan_list_1", "plan_list_2"]
    case PAr6(_, _) => ["plan_list_1", "plan_list_2"]
  }

  /** The processed counterpart of a rule kind: the level spec spread into fields; later kinds have none. */
  function Processed(k: RuleKind): Option<ProcessedRule> {
    match k
    case Ar1(n, spec) => Some(PAr1(n, spec.level, spec.orHigher))
    case Ar2(n, level) => Some(PAr2(n, level))
    case Ar3(n, spec) => Some(PAr3(n, spec.level, spec.orHigher))
    case Ar4(n, m, spec) => Some(PAr4(n, m, spec.level, spec.orHigher))
    case Ar5(a, b) => Some(PAr5(a, b))
    case Ar6(a, b) => Some(PAr6(a, b))
    case _ => None
  }

  /**
   * The flattened serde layout is the processed layout: for Ar1 to Ar6 the keys
   * after "type" are the processed fields, and only those six kinds have a
   * processed form. Ar2 has no `or_higher`; Ar4 has both `n` and `m`.
   */
  lemma {:induction false} ProcessedLayout(k: RuleKind)
    ensures Processed(k).Some? <==> VariantOf(k) in [VAr1, VAr2, VAr3, VAr4, VAr5, VAr6]
    ensures Processed(k).Some? ==> SerializedKeys(k)[1..] == ProcessedFields(Processed(k).value)
    ensures k.Ar2? ==> "or_higher" !in SerializedKeys(k)
    ensures k.Ar4? ==> "n" in SerializedKeys(k) && "m" in SerializedKeys(k)
  {
    var keys := SerializedKeys(k);
    assert k.Ar2? ==> keys == ["type", "n", "level"];
    assert k.Ar4? ==> keys[1] == "n" && keys[2] == "m";
  }
}

/**
 * The converter from a scraped degree to a flat degree: tolerant scalar
 * parsing, the coercion of loosely shaped values into reference lists, the
 * code-to-variant dispatch of auxiliary rules, and the walk over a degree's
 * components that gives each rule its part.
 *
 * As written the converter has three construction errors, each a TypeError:
 * AR20 is built with a keyword it does not declare, a programme reference built
 * from a bare code is given two version keywords it does not declare, and the
 * flat degree is constructed with no arguments. `Version` selects either.
 */
module Converter {
  import opened Wrappers
  import opened PyText
  import opened RawValues
  import PyDict
  import opened Params
  import opened SerdeFields
  import opened AuxRules
  import AuxFactory
  import Degrees

  /** The converter as written, or with its three construction errors corrected. */
  datatype Version = AsWritten | Corrected

  // ---------------------------------------------------------------------------
  // Tolerant scalars

  /** The value `int()` gives, or 0 when it raises: the `except` around it. */
  function IntOrZero(r: Result<int>): int {
    match r
    case Ok(v) => v
    case Err(_) => 0
  }

  /** `str.isdigit()` over ASCII. */
  predicate IsDigits(s: string) {
    |s| > 0 && forall k :: 0 <= k < |s| ==> IsDigit(s[k])
  }

  /**
   * `_num`: an int is kept, a bool is taken as the int 1 or 0 it stands for, a
   * string is read as `int()` reads it, and None, a list or a dict gives 0.
   */
  function Num(x: Raw): (n: int)
    ensures x.RInt? ==> n == x.i
    ensures x.RBool? ==> n == (if x.b then 1 else 0)
    ensures x.RStr? ==> n == IntOrZero(ParseInt(x.s))
    ensures x.RNone? || x.RList? || x.RDict? ==> n == 0
  {
    match x
    case RInt(i) => i
    case RBool(b) => if b then 1 else 0
    case RStr(s) =>
      if IsDigits(s) then
        ParseDigits(s);
        DigitsValue(s)
      else
        ParseIntStripped(s);
        IntOrZero(ParseInt(Strip(s)))
    case _ =>
      NotANumber(x);
      IntOrZero(ParseInt(Strip(Str(x))))
  }

  /** Stripping twice strips no more than once. */
  lemma {:induction false} StripTwice(s: string)
    ensures Strip(Strip(s)) == Strip(s)
  {
    var r := Strip(s);
    if r != [] {
      assert SkipLeft(r, 0) == 0;
      assert SkipRight(r, 0, |r|) == |r|;
      assert r[0..|r|] == r;
    }
  }

  /** `int()` strips its argument, so stripping first changes nothing. */
  lemma {:induction false} ParseIntStripped(s: string)
    ensures ParseInt(Strip(s)) == ParseInt(s)
  {
    StripTwice(s);
  }

  /** A text that starts with a non-space keeps its first character when stripped. */
  lemma {:induction false} StripKeepsFirst(s: string)
    requires |s| > 0 && !IsSpace(s[0])
    ensures |Strip(s)| > 0 && Strip(s)[0] == s[0]
  {
    assert SkipLeft(s, 0) == 0;
    var b := SkipRight(s, 0, |s|);
    assert b > 0;
  }

  /** A text that starts with neither a digit nor a sign is no integer. */
  lemma {:induction false} NoDigitStart(s: string)
    requires |s| > 0 && !IsSpace(s[0]) && !IsDigit(s[0]) && s[0] != '-' && s[0] != '+'
    ensures ParseInt(s).Err?
  {
    StripKeepsFirst(s);
  }

  /** The first character of `str()` of None, a list or a dict. */
  lemma {:induction false} StrOpens(x: Raw)
    requires x.RNone? || x.RList? || x.RDict?
    ensures |Str(x)| > 0 && Str(x)[0] in "N[{"
  {
  }

  /** `str()` of None, a list or a dict is no integer. */
  lemma {:induction false} NotANumber(x: Raw)
    requires x.RNone? || x.RList? || x.RDict?
    ensures ParseInt(Strip(Str(x))).Err?
  {
    StrOpens(x);
    NoDigitStart(Str(x));
    ParseIntStripped(Str(x));
  }

  /** `str(i)` read back by `_num` is `i`: the tolerant reading loses no integer. */
  lemma {:induction false} NumOfIntText(i: int)
    ensures Num(RStr(IntToString(i))) == i
  {
    IntToStringParses(i);
  }

  const TrueWords: set<string> := {"true", "t", "yes", "y", "1", "must"}
  const FalseWords: set<string> := {"false", "f", "no", "n", "0", "may"}

  /** The trimmed, lower-cased text `_bool` compares with its word sets. */
  function Word(x: Raw): string {
    Lower(Strip(Str(x)))
  }

  /** `_bool`: a bool is kept, None gives the default, and a recognised word gives its truth value. */
  function Bool(x: Raw, default: bool): bool {
    match x
    case RBool(b) => b
    case RNone => default
    case _ =>
      var w := Word(x);
      if w in TrueWords then true else if w in FalseWords then false else default
  }

  /** The default decides exactly for None and for values whose word is in neither set. */
  lemma {:induction false} BoolDefault(x: Raw)
    ensures Bool(x, true) != Bool(x, false) <==>
      x.RNone? || (!x.RBool? && Word(x) !in TrueWords && Word(x) !in FalseWords)
    ensures TrueWords * FalseWords == {}
  {
  }

  /** The integers 1 and 0 read as true and false; every other integer takes the default. */
  lemma {:induction false} BoolOfInt(i: int, default: bool)
    ensures Bool(RInt(i), default) == if i == 1 then true else if i == 0 then false else default
  {
    WordOfInt(i);
    IntWord(i);
  }

  /** The word of an integer is its decimal text. */
  lemma {:induction false} WordOfInt(i: int)
    ensures Word(RInt(i)) == IntToString(i)
    ensures |IntToString(i)| > 0 && (IsDigit(IntToString(i)[0]) || IntToString(i)[0] == '-')
  {
    var s := IntToString(i);
    var ds := NatToString(if i < 0 then -i else i);
    assert s == if i < 0 then "-" + ds else ds;
    assert forall k :: 0 <= k < |s| ==> IsDigit(s[k]) || s[k] == '-';
    StripNoSpace(s);
    LowerKeeps(s);
  }

  /** The only integer texts among the words are "1" and "0". */
  lemma {:induction false} IntWord(i: int)
    requires |IntToString(i)| > 0 && (IsDigit(IntToString(i)[0]) || IntToString(i)[0] == '-')
    ensures IntToString(i) in TrueWords <==> i == 1
    ensures IntToString(i) in FalseWords <==> i == 0
  {
    var s := IntToString(i);
    if i == 1 {
      assert s == [DigitChar(1)];
    } else if i == 0 {
      assert s == [DigitChar(0)];
    }
  }

  /** Lower-casing changes no digit and no minus sign. */
  lemma {:induction false} LowerKeeps(s: string)
    requires forall k :: 0 <= k < |s| ==> IsDigit(s[k]) || s[k] == '-'
    ensures Lower(s) == s
  {
  }

  // ---------------------------------------------------------------------------
  // Reference coercion

  /** `d.get(key) or ""`: a missing or falsy value gives the empty string. */
  function TextField(d: Entries, key: string): Result<string> {
    AsStr(Or(GetOr(d, key, RNone), RStr("")))
  }

  /** `_to_course_ref`: a scraped curriculum reference, read under its camelCase keys. */
  function ToCourseRef(d: Entries): (r: Result<CourseRef>)
    ensures r.Err? ==> r.error == SerdeError
  {
    var unitsMax :- AsOptInt(GetOr(d, "unitsMaximum", RNone));
    var unitsMin :- AsOptInt(GetOr(d, "unitsMinimum", RNone));
    var code :- TextField(d, "code");
    var orgName :- TextField(d, "orgName");
    var orgCode :- TextField(d, "orgCode");
    var name :- TextField(d, "name");
    Ok(CourseRef(unitsMax, unitsMin, code, orgName, orgCode, name))
  }

  /** `_to_program_ref`: as for a course, with the abbreviation. */
  function ToProgramRef(d: Entries): (r: Result<ProgramRef>)
    ensures r.Err? ==> r.error == SerdeError
  {
    var unitsMax :- AsOptInt(GetOr(d, "unitsMaximum", RNone));
    var unitsMin :- AsOptInt(GetOr(d, "unitsMinimum", RNone));
    var code :- TextField(d, "code");
    var orgName :- TextField(d, "orgName");
    var orgCode :- TextField(d, "orgCode");
    var name :- TextField(d, "name");
    var abbreviation :- TextField(d, "abbreviation");
    Ok(ProgramRef(unitsMax, unitsMin, code, orgName, orgCode, name, abbreviation))
  }

  /**
   * The programme reference built from a bare code. As written it is given
   * `version_minor` and `version_major`, which the class does not declare.
   */
  function ScalarProgram(ver: Version, code: string): (r: Result<ProgramRef>)
    ensures ver == AsWritten <==> r.Err?
    ensures r.Err? ==> r.error == TypeError
    ensures r.Ok? ==> ProgramText(r.value) == code
  {
    if ver == AsWritten then Err(TypeError) else Ok(ProgramRef(None, None, code, "", "", "", ""))
  }

  /** One entry of a course list: a dict field by field, anything else as `code=str(item)`. */
  function CourseItem(item: Raw): (r: Result<CourseRef>)
    ensures r.Err? ==> r.error == SerdeError
  {
    if item.RDict? then ToCourseRef(item.entries) else Ok(MinimalCourseRef(Str(item)))
  }

  function ProgramItemAsWritten(item: Raw): (r: Result<ProgramRef>)
    ensures r.Err? ==> r.error == SerdeError || r.error == TypeError
  {
    if item.RDict? then ToProgramRef(item.entries) else ScalarProgram(AsWritten, Str(item))
  }

  function ProgramItemCorrected(item: Raw): (r: Result<ProgramRef>)
    ensures r.Err? ==> r.error == SerdeError
  {
    if item.RDict? then ToProgramRef(item.entries) else ScalarProgram(Corrected, Str(item))
  }

  /** One entry of a programme list. */
  function ProgramItem(ver: Version): Raw -> Result<ProgramRef> {
    if ver == AsWritten then ProgramItemAsWritten else ProgramItemCorrected
  }

  /** `_list_to_courses`: None, a list of entries, one dict, or one bare code. */
  function CoursesOf(v: Raw): (r: Result<seq<CourseRef>>)
    ensures r.Err? ==> r.error == SerdeError
  {
    match v
    case RNone => Ok([])
    case RList(items) => AllOk(items, CourseItem)
    case RDict(entries) => var c :- ToCourseRef(entries); Ok([c])
    case _ => Ok([MinimalCourseRef(Str(v))])
  }

  /** `_list_to_programs`. */
  function ProgramsOf(ver: Version, v: Raw): (r: Result<seq<ProgramRef>>)
    ensures r.Err? ==> r.error == SerdeError || (ver == AsWritten && r.error == TypeError)
  {
    match v
    case RNone => Ok([])
    case RList(items) => AllOk(items, ProgramItem(ver))
    case RDict(entries) => var p :- ToProgramRef(entries); Ok([p])
    case _ => var p :- ScalarProgram(ver, Str(v)); Ok([p])
  }

  /** `_single_program`: the first programme, or the one with an empty code. */
  function SingleProgram(ver: Version, v: Raw): (r: Result<ProgramRef>)
    ensures r.Err? ==> r.error == SerdeError || (ver == AsWritten && r.error == TypeError)
  {
    var ps :- ProgramsOf(ver, v);
    if ps != [] then Ok(ps[0]) else ScalarProgram(ver, "")
  }

  /** The loop both list converters share: each item in order, stopping at the first that raises. */
  method ConvertItems<T>(items: seq<Raw>, f: Raw -> Result<T>) returns (r: Result<seq<T>>)
    ensures r == AllOk(items, f)
  {
    var out: seq<T> := [];
    for i := 0 to |items|
      invariant AllOk(items[..i], f) == Ok(out)
    {
      assert items[..i + 1][..i] == items[..i];
      var x := f(items[i]);
      if x.Err? {
        AllOkPrefixErr(items, i + 1, f);
        assert items[..i + 1][i] == items[i];
        return Err(x.error);
      }
      out := out + [x.value];
    }
    assert items[..|items|] == items;
    return Ok(out);
  }

  /** `_list_to_courses`, with its loop. */
  method ListToCourses(v: Raw) returns (r: Result<seq<CourseRef>>)
    ensures r == CoursesOf(v)
  {
    if v.RNone? {
      return Ok([]);
    }
    if v.RList? {
      r := ConvertItems(v.items, CourseItem);
      return;
    }
    if v.RDict? {
      var c := ToCourseRef(v.entries);
      if c.Err? {
        return Err(c.error);
      }
      return Ok([c.value]);
    }
    r := Ok([MinimalCourseRef(Str(v))]);
  }

  /** `_list_to_programs`, with its loop. */
  method ListToPrograms(ver: Version, v: Raw) returns (r: Result<seq<ProgramRef>>)
    ensures r == ProgramsOf(ver, v)
  {
    if v.RNone? {
      return Ok([]);
    }
    if v.RList? {
      r := ConvertItems(v.items, ProgramItem(ver));
      return;
    }
    if v.RDict? {
      var p := ToProgramRef(v.entries);
      if p.Err? {
        return Err(p.error);
      }
      return Ok([p.value]);
    }
    var p := ScalarProgram(ver, Str(v));
    if p.Err? {
      return Err(p.error);
    }
    r := Ok([p.value]);
  }

  /** `_single_program`. */
  method ToSingleProgram(ver: Version, v: Raw) returns (r: Result<ProgramRef>)
    ensures r == SingleProgram(ver, v)
  {
    var ps := ListToPrograms(ver, v);
    if ps.Err? {
      return Err(ps.error);
    }
    if ps.value != [] {
      return Ok(ps.value[0]);
    }
    r := ScalarProgram(ver, "");
  }

  /** A course reference as the scraper delivers it, under camelCase keys. */
  function ScrapedCourse(c: CourseRef): Raw {
    RDict([("unitsMaximum", OptIntRaw(c.unitsMax)), ("unitsMinimum", OptIntRaw(c.unitsMin)),
           ("code", RStr(c.code)), ("orgName", RStr(c.orgName)), ("orgCode", RStr(c.orgCode)),
           ("name", RStr(c.name))])
  }

  /** A programme reference as the scraper delivers it. */
  function ScrapedProgram(p: ProgramRef): Raw {
    RDict([("unitsMaximum", OptIntRaw(p.unitsMax)), ("unitsMinimum", OptIntRaw(p.unitsMin)),
           ("code", RStr(p.code)), ("orgName", RStr(p.orgName)), ("orgCode", RStr(p.orgCode)),
           ("name", RStr(p.name)), ("abbreviation", RStr(p.abbreviation))])
  }

  /** `d.get(key) or ""` gives back a string field, the empty one included. */
  lemma {:induction false} TextFieldOf(d: Entries, i: nat)
    requires i < |d| && PyDict.UniqueKeys(d) && d[i].1.RStr?
    ensures TextField(d, d[i].0) == Ok(d[i].1.s)
  {
    PyDict.GetAt(d, i);
  }

  /** A scraped course reference converts back to the reference it describes. */
  lemma {:induction false} ToCourseRefRoundTrip(c: CourseRef)
    ensures ToCourseRef(ScrapedCourse(c).entries) == Ok(c)
  {
    var d := ScrapedCourse(c).entries;
    assert PyDict.UniqueKeys(d);
    PyDict.GetAt(d, 0);
    PyDict.GetAt(d, 1);
    TextFieldOf(d, 2);
    TextFieldOf(d, 3);
    TextFieldOf(d, 4);
    TextFieldOf(d, 5);
  }

  /** A scraped programme reference converts back to the reference it describes. */
  lemma {:induction false} ToProgramRefRoundTrip(p: ProgramRef)
    ensures ToProgramRef(ScrapedProgram(p).entries) == Ok(p)
  {
    var d := ScrapedProgram(p).entries;
    assert PyDict.UniqueKeys(d);
    PyDict.GetAt(d, 0);
    PyDict.GetAt(d, 1);
    TextFieldOf(d, 2);
    TextFieldOf(d, 3);
    TextFieldOf(d, 4);
    TextFieldOf(d, 5);
    TextFieldOf(d, 6);
  }

  /** A list converts entry by entry, in order. */
  lemma {:induction false} CoursesOfList(items: seq<Raw>)
    ensures var r := CoursesOf(RList(items));
      (r.Ok? <==> forall i :: 0 <= i < |items| ==> CourseItem(items[i]).Ok?) &&
      (r.Ok? ==> |r.value| == |items| && forall i :: 0 <= i < |items| ==> CourseItem(items[i]) == Ok(r.value[i]))
  {
    if AllOk(items, CourseItem).Ok? {
      AllOkItems(items, CourseItem);
    } else {
      var e := AllOk(items, CourseItem).error;
      assert exists i :: 0 <= i < |items| && CourseItem(items[i]) == Err(e);
    }
  }

  /** A list of bare codes gives one minimal reference per code, in order. */
  lemma {:induction false} CourseCodesKept(codes: seq<string>)
    ensures CoursesOf(StringsRaw(codes)) == Ok(seq(|codes|, i requires 0 <= i < |codes| => MinimalCourseRef(codes[i])))
  {
    var items := StringsRaw(codes).items;
    var refs := seq(|codes|, i requires 0 <= i < |codes| => MinimalCourseRef(codes[i]));
    AllOkOfDecodable(items, CourseItem, refs);
  }

  /** As written a bare programme code raises; corrected it gives a reference with that code. */
  lemma {:induction false} ProgramCodesKept(codes: seq<string>)
    ensures codes != [] ==> ProgramsOf(AsWritten, StringsRaw(codes)) == Err(TypeError)
    ensures ProgramsOf(Corrected, StringsRaw(codes)) ==
      Ok(seq(|codes|, i requires 0 <= i < |codes| => ProgramRef(None, None, codes[i], "", "", "", "")))
  {
    var items := StringsRaw(codes).items;
    if codes != [] {
      AllOkErrAt(items, ProgramItemAsWritten, 0);
    }
    AllOkOfDecodable(items, ProgramItemCorrected,
      seq(|codes|, i requires 0 <= i < |codes| => ProgramRef(None, None, codes[i], "", "", "", "")));
  }

  /** An item that fails makes the list fail. */
  lemma {:induction false} AllOkErrAt<T>(items: seq<Raw>, f: Raw -> Result<T>, k: nat)
    requires k < |items| && f(items[k]).Err?
    ensures AllOk(items, f).Err?
  {
    var n := |items| - 1;
    if k < n {
      AllOkErrAt(items[..n], f, k);
      assert items[..n][k] == items[k];
    }
  }

  /** `_single_program` takes the first programme; with none, the default programme, which as written raises. */
  lemma {:induction false} SingleProgramFirst(ver: Version, v: Raw)
    ensures var ps := ProgramsOf(ver, v);
      (ps.Ok? && ps.value != [] ==> SingleProgram(ver, v) == Ok(ps.value[0])) &&
      (ps.Ok? && ps.value == [] ==> (SingleProgram(ver, v).Err? <==> ver == AsWritten)) &&
      (ps.Err? ==> SingleProgram(ver, v) == Err(ps.error))
  {
  }

  // ---------------------------------------------------------------------------
  // Parsed rules and their parameters

  datatype ParsedParam = ParsedParam(name: string, ptype: string, value: Raw)

  /** A scraped auxiliary rule; `text` is None where the object has no such attribute. */
  datatype ParsedAuxRule = ParsedAuxRule(code: string, text: Option<string>, params: Option<seq<ParsedParam>>)

  /** `parsed_ar.params or []`. */
  function ParamsOf(ar: ParsedAuxRule): seq<ParsedParam> {
    if ar.params.Some? then ar.params.value else []
  }

  /** The name-value pairs the comprehension `{p.name: p for p in params}` indexes. */
  function Pairs(ps: seq<ParsedParam>): (r: seq<(string, Raw)>)
    ensures |r| == |ps| && forall i :: 0 <= i < |ps| ==> r[i] == (ps[i].name, ps[i].value)
  {
    seq(|ps|, i requires 0 <= i < |ps| => (ps[i].name, ps[i].value))
  }

  /** `get(key, default)`: the value of the parameter indexed under `key`, or the default. */
  function Param(ps: seq<ParsedParam>, key: string, default: Raw): Raw {
    PyDict.GetOr(PyDict.FromPairs(Pairs(ps)), key, default)
  }

  /** Of several parameters with one name, the last one is the one read. */
  lemma {:induction false} ParamLastWins(ps: seq<ParsedParam>, i: nat, default: Raw)
    requires i < |ps| && forall j :: i < j < |ps| ==> ps[j].name != ps[i].name
    ensures Param(ps, ps[i].name, default) == ps[i].value
  {
    PyDict.FromPairsLastWins(Pairs(ps), i);
  }

  /** A name no parameter carries reads as the default. */
  lemma {:induction false} ParamMissing(ps: seq<ParsedParam>, key: string, default: Raw)
    requires forall j :: 0 <= j < |ps| ==> ps[j].name != key
    ensures Param(ps, key, default) == default
  {
    PyDict.FromPairsAbsent(Pairs(ps), key);
  }

  function NumParam(ps: seq<ParsedParam>, key: string): int {
    Num(Param(ps, key, RInt(0)))
  }

  function OrHigherParam(ps: seq<ParsedParam>): bool {
    Bool(Param(ps, "OR_HIGHER", RBool(true)), true)
  }

  /** MUST, falling back to MUST_OR_MAY, then to True. */
  function MustParam(ps: seq<ParsedParam>): bool {
    Bool(Param(ps, "MUST", Param(ps, "MUST_OR_MAY", RBool(true))), true)
  }

  function CoursesParam(ps: seq<ParsedParam>, key: string): Result<seq<CourseRef>> {
    CoursesOf(Param(ps, key, RList([])))
  }

  function ProgramsParam(ver: Version, ps: seq<ParsedParam>, key: string): Result<seq<ProgramRef>> {
    ProgramsOf(ver, Param(ps, key, RList([])))
  }

  /** The LISTS value: `str()` of each item of a list, a singleton for a scalar, nothing for None. */
  function StrList(v: Raw): seq<string> {
    match v
    case RList(items) => seq(|items|, i requires 0 <= i < |items| => Str(items[i]))
    case RNone => []
    case _ => [Str(v)]
  }

  function ListsParam(ps: seq<ParsedParam>): seq<string> {
    StrList(Param(ps, "LISTS", RList([])))
  }

  /** The LISTS loop. */
  method ToStrList(v: Raw) returns (r: seq<string>)
    ensures r == StrList(v)
  {
    if v.RList? {
      r := [];
      for i := 0 to |v.items|
        invariant r == seq(i, k requires 0 <= k < i => Str(v.items[k]))
      {
        r := r + [Str(v.items[i])];
      }
    } else if v.RNone? {
      r := [];
    } else {
      r := [Str(v)];
    }
  }

  /** A list of strings is read back unchanged. */
  lemma {:induction false} StrListOfStrings(xs: seq<string>)
    ensures StrList(StringsRaw(xs)) == xs
  {
  }

  /** The dict an unknown rule keeps for one parameter. */
  function ParamEntry(p: ParsedParam): Entries {
    [("name", RStr(p.name)), ("type", RStr(p.ptype)), ("value", p.value)]
  }

  function RawParams(ps: seq<ParsedParam>): seq<Entries> {
    seq(|ps|, i requires 0 <= i < |ps| => ParamEntry(ps[i]))
  }

  /** The `raw_params` loop. */
  method ToRawParams(ps: seq<ParsedParam>) returns (r: seq<Entries>)
    ensures r == RawParams(ps)
  {
    r := [];
    for i := 0 to |ps|
      invariant r == RawParams(ps[..i])
    {
      r := r + [ParamEntry(ps[i])];
    }
    assert ps[..|ps|] == ps;
  }

  /** Each kept dict gives back its parameter's name, type and value, in the original order. */
  lemma {:induction false} RawParamsKept(ps: seq<ParsedParam>)
    ensures |RawParams(ps)| == |ps|
    ensures forall i :: 0 <= i < |ps| ==>
      Field(RawParams(ps)[i], "name") == Some(RStr(ps[i].name)) &&
      Field(RawParams(ps)[i], "type") == Some(RStr(ps[i].ptype)) &&
      Field(RawParams(ps)[i], "value") == Some(ps[i].value)
  {
    forall i | 0 <= i < |ps|
      ensures Field(RawParams(ps)[i], "name") == Some(RStr(ps[i].name))
      ensures Field(RawParams(ps)[i], "type") == Some(RStr(ps[i].ptype))
      ensures Field(RawParams(ps)[i], "value") == Some(ps[i].value)
    {
      var d := ParamEntry(ps[i]);
      PyDict.GetAt(d, 0);
      PyDict.GetAt(d, 1);
      PyDict.GetAt(d, 2);
    }
  }

  // ---------------------------------------------------------------------------
  // process_ar

  /** The error a conversion may raise: a malformed reference dict, or, as written, a construction TypeError. */
  predicate ConversionError(ver: Version, e: Exception) {
    e == SerdeError || (ver == AsWritten && e == TypeError)
  }

  /** The codes `process_ar` builds a variant for. */
  datatype Code = Code1 | Code2 | Code3 | Code4 | Code5 | Code6 | Code7 | Code9 | Code10 | Code11 | Code13
    | Code15 | Code16 | Code17 | Code18 | Code19 | Code20

  function CodeName(c: Code): string {
    match c
    case Code1 => "AR1"
    case Code2 => "AR2"
    case Code3 => "AR3"
    case Code4 => "AR4"
    case Code5 => "AR5"
    case Code6 => "AR6"
    case Code7 => "AR7"
    case Code9 => "AR9"
    case Code10 => "AR10"
    case Code11 => "AR11"
    case Code13 => "AR13"
    case Code15 => "AR15"
    case Code16 => "AR16"
    case Code17 => "AR17"
    case Code18 => "AR18"
    case Code19 => "AR19"
    case Code20 => "AR20"
  }

  /** The chain of code comparisons in `process_ar`. */
  function CodeOf(code: string): (c: Option<Code>)
    ensures c.Some? ==> CodeName(c.value) == code
  {
    if code == "AR1" then Some(Code1)
    else if code == "AR2" then Some(Code2)
    else if code == "AR3" then Some(Code3)
    else if code == "AR4" then Some(Code4)
    else if code == "AR5" then Some(Code5)
    else if code == "AR6" then Some(Code6)
    else if code == "AR7" then Some(Code7)
    else if code == "AR9" then Some(Code9)
    else if code == "AR10" then Some(Code10)
    else if code == "AR11" then Some(Code11)
    else if code == "AR13" then Some(Code13)
    else if code == "AR15" then Some(Code15)
    else if code == "AR16" then Some(Code16)
    else if code == "AR17" then Some(Code17)
    else if code == "AR18" then Some(Code18)
    else if code == "AR19" then Some(Code19)
    else if code == "AR20" then Some(Code20)
    else None
  }

  /** The codes `process_ar` converts are the factory's type map, less its fallback. */
  lemma {:induction false} CodeOfTags(code: string)
    ensures CodeOf(code).Some? <==> code in AuxFactory.AuxTags && code != "ARUnknown"
  {
  }

  /** The variant a converted code names, its arguments read in the order the constructor call lists them. */
  function Build(ver: Version, c: Code, part: string, ps: seq<ParsedParam>): (r: Result<AuxRule>)
    ensures r.Ok? ==> r.value.part == part && AuxFactory.TagOf(r.value) == CodeName(c)
    ensures r.Err? ==> ConversionError(ver, r.error)
    ensures ver == AsWritten && c == Code20 ==> r.Err?
  {
    match c
    case Code1 | Code2 | Code3 | Code4 | Code7 => Ok(BuildUnits(c, part, ps))
    case Code5 | Code6 => BuildPlans(ver, c, part, ps)
    case Code9 | Code10 | Code11 => BuildCredits(ver, c, part, ps)
    case Code13 | Code15 | Code16 | Code17 => BuildExemptions(ver, c, part, ps)
    case Code18 | Code19 => BuildDuals(ver, c, part, ps)
    case Code20 => BuildAR20(ver, part, ps)
  }

  /** AR1-AR4 and AR7: counts and levels, 0 when missing, OR_HIGHER True when missing. */
  function BuildUnits(c: Code, part: string, ps: seq<ParsedParam>): (r: AuxRule)
    requires c == Code1 || c == Code2 || c == Code3 || c == Code4 || c == Code7
    ensures r.part == part && AuxFactory.TagOf(r) == CodeName(c)
  {
    match c
    case Code1 => AR1(part, NumParam(ps, "N"), NumParam(ps, "LEVEL"), OrHigherParam(ps))
    case Code2 => AR2(part, NumParam(ps, "N"), NumParam(ps, "LEVEL"))
    case Code3 => AR3(part, NumParam(ps, "N"), NumParam(ps, "LEVEL"), OrHigherParam(ps))
    case Code4 => AR4(part, NumParam(ps, "N"), NumParam(ps, "M"), NumParam(ps, "LEVEL"), OrHigherParam(ps))
    case Code7 => AR7(part, NumParam(ps, "N"))
  }

  /** AR5 and AR6: two programme lists. */
  function BuildPlans(ver: Version, c: Code, part: string, ps: seq<ParsedParam>): (r: Result<AuxRule>)
    requires c == Code5 || c == Code6
    ensures r.Ok? ==> r.value.part == part && AuxFactory.TagOf(r.value) == CodeName(c)
    ensures r.Err? ==> ConversionError(ver, r.error)
  {
    match c
    case Code5 =>
      var l1 :- ProgramsParam(ver, ps, "PLAN_LIST_1");
      var l2 :- ProgramsParam(ver, ps, "PLAN_LIST_2");
      Ok(AR5(part, l1, l2))
    case Code6 =>
      var l1 :- ProgramsParam(ver, ps, "PLAN_LIST_1");
      var l2 :- ProgramsParam(ver, ps, "PLAN_LIST_2");
      Ok(AR6(part, l1, l2))
  }

  /** AR9-AR11: a course list, and for AR10 and AR11 a programme list. */
  function BuildCredits(ver: Version, c: Code, part: string, ps: seq<ParsedParam>): (r: Result<AuxRule>)
    requires c == Code9 || c == Code10 || c == Code11
    ensures r.Ok? ==> r.value.part == part && AuxFactory.TagOf(r.value) == CodeName(c)
    ensures r.Err? ==> ConversionError(ver, r.error)
  {
    match c
    case Code9 =>
      var cl :- CoursesParam(ps, "COURSE_LIST");
      Ok(AR9(part, cl))
    case Code10 =>
      var cl :- CoursesParam(ps, "COURSE_LIST");
      var pl :- ProgramsParam(ver, ps, "PLAN_LIST");
      Ok(AR10(part, cl, pl))
    case Code11 =>
      var cl :- CoursesParam(ps, "COURSE_LIST");
      var pl :- ProgramsParam(ver, ps, "PLAN_LIST");
      Ok(AR11(part, cl, pl))
  }

  /** AR13 and AR15-AR17; MUST falls back to MUST_OR_MAY, then to True. */
  function BuildExemptions(ver: Version, c: Code, part: string, ps: seq<ParsedParam>): (r: Result<AuxRule>)
    requires c == Code13 || c == Code15 || c == Code16 || c == Code17
    ensures r.Ok? ==> r.value.part == part && AuxFactory.TagOf(r.value) == CodeName(c)
    ensures r.Err? ==> ConversionError(ver, r.error)
  {
    match c
    case Code13 => BuildAR13(ver, part, ps)
    case Code15 => BuildAR15(ver, part, ps)
    case Code16 => BuildAR16(ver, part, ps)
    case Code17 => BuildAR17(ver, part, ps)
  }

  function BuildAR13(ver: Version, part: string, ps: seq<ParsedParam>): (r: Result<AuxRule>)
    ensures r.Ok? ==> r.value.part == part && AuxFactory.TagOf(r.value) == CodeName(Code13)
    ensures r.Err? ==> ConversionError(ver, r.error)
  {
    var pl :- ProgramsParam(ver, ps, "PLAN_LIST");
    var cl :- CoursesParam(ps, "COURSE_LIST");
    var ppl :- ProgramsParam(ver, ps, "PROGRAM_PLAN_LIST");
    Ok(AR13(part, pl, cl, ppl))
  }

  function BuildAR15(ver: Version, part: string, ps: seq<ParsedParam>): (r: Result<AuxRule>)
    ensures r.Ok? ==> r.value.part == part && AuxFactory.TagOf(r.value) == CodeName(Code15)
    ensures r.Err? ==> ConversionError(ver, r.error)
  {
    var cl :- CoursesParam(ps, "COURSE_LIST");
    var ppl :- ProgramsParam(ver, ps, "PROGRAM_PLAN_LIST");
    Ok(AR15(part, cl, MustParam(ps), ppl, ListsParam(ps)))
  }

  function BuildAR16(ver: Version, part: string, ps: seq<ParsedParam>): (r: Result<AuxRule>)
    ensures r.Ok? ==> r.value.part == part && AuxFactory.TagOf(r.value) == CodeName(Code16)
    ensures r.Err? ==> ConversionError(ver, r.error)
  {
    var pl :- ProgramsParam(ver, ps, "PLAN_LIST");
    var cl1 :- CoursesParam(ps, "COURSE_LIST_1");
    var cl2 :- CoursesParam(ps, "COURSE_LIST_2");
    var ppl :- ProgramsParam(ver, ps, "PROGRAM_PLAN_LIST");
    Ok(AR16(part, pl, cl1, MustParam(ps), cl2, ppl))
  }

  function BuildAR17(ver: Version, part: string, ps: seq<ParsedParam>): (r: Result<AuxRule>)
    ensures r.Ok? ==> r.value.part == part && AuxFactory.TagOf(r.value) == CodeName(Code17)
    ensures r.Err? ==> ConversionError(ver, r.error)
  {
    var pl :- ProgramsParam(ver, ps, "PLAN_LIST");
    var cl :- CoursesParam(ps, "COURSE_LIST");
    var ppl :- ProgramsParam(ver, ps, "PROGRAM_PLAN_LIST");
    Ok(AR17(part, pl, cl, MustParam(ps), ppl, ListsParam(ps)))
  }

  /** AR18 and AR19: one programme and lists. */
  function BuildDuals(ver: Version, c: Code, part: string, ps: seq<ParsedParam>): (r: Result<AuxRule>)
    requires c == Code18 || c == Code19
    ensures r.Ok? ==> r.value.part == part && AuxFactory.TagOf(r.value) == CodeName(c)
    ensures r.Err? ==> ConversionError(ver, r.error)
  {
    match c
    case Code18 =>
      var cl :- CoursesParam(ps, "COURSE_LIST");
      var program :- SingleProgram(ver, Param(ps, "PROGRAM", RNone));
      Ok(AR18(part, cl, program))
    case Code19 =>
      var pl :- ProgramsParam(ver, ps, "PLAN_LIST");
      var cl :- CoursesParam(ps, "COURSE_LIST");
      var program :- SingleProgram(ver, Param(ps, "PROGRAM", RNone));
      Ok(AR19(part, pl, cl, program))
  }

  /**
   * AR20: as written it is given the keyword `plan`, which it does not declare,
   * so it raises once its arguments are read.
   */
  function BuildAR20(ver: Version, part: string, ps: seq<ParsedParam>): (r: Result<AuxRule>)
    ensures r.Ok? ==> r.value.part == part && r.value.AR20?
    ensures r.Err? ==> ConversionError(ver, r.error)
    ensures ver == AsWritten ==> r.Err?
  {
    var plan :- SingleProgram(ver, Param(ps, "PLAN", RNone));
    var pl1 :- ProgramsParam(ver, ps, "PLAN_LIST_1");
    var cl :- CoursesParam(ps, "COURSE_LIST");
    var pl2 :- ProgramsParam(ver, ps, "PLAN_LIST_2");
    if ver == AsWritten then Err(TypeError) else Ok(AR20(part, plan, pl1, cl, pl2))
  }

  /** The fallback for any other code: the rule's text and its parameters as dicts. */
  function UnknownRule(ar: ParsedAuxRule, part: string): (r: AuxRule)
    ensures r.part == part && AuxFactory.TagOf(r) == "ARUnknown"
  {
    ARUnknown(part, ar.text.GetOr(""), RawParams(ParamsOf(ar)))
  }

  /**
   * `process_ar`: the variant the code names, in the given part; any code outside
   * the factory's type map gives ARUnknown, just as the factory's fallback does.
   */
  function ProcessAR(ver: Version, ar: ParsedAuxRule, part: string): (r: Result<AuxRule>)
    ensures r.Ok? ==> r.value.part == part
    ensures r.Ok? ==> AuxFactory.TagOf(r.value) == if ar.code in AuxFactory.AuxTags then ar.code else "ARUnknown"
    ensures r.Err? ==> ConversionError(ver, r.error)
  {
    CodeOfTags(ar.code);
    match CodeOf(ar.code)
    case Some(c) => Build(ver, c, part, ParamsOf(ar))
    case None => Ok(UnknownRule(ar, part))
  }

  /** `process_ar` for AR5 and AR6, with the list loops. */
  method ConvertPlans(ver: Version, c: Code, part: string, ps: seq<ParsedParam>) returns (r: Result<AuxRule>)
    requires c == Code5 || c == Code6
    ensures r == BuildPlans(ver, c, part, ps)
  {
    match c {
      case Code5 =>
        var l1 := ListToPrograms(ver, Param(ps, "PLAN_LIST_1", RList([])));
        if l1.Err? {
          return Err(l1.error);
        }
        var l2 := ListToPrograms(ver, Param(ps, "PLAN_LIST_2", RList([])));
        if l2.Err? {
          return Err(l2.error);
        }
        r := Ok(AR5(part, l1.value, l2.value));
      case Code6 =>
        var l1 := ListToPrograms(ver, Param(ps, "PLAN_LIST_1", RList([])));
        if l1.Err? {
          return Err(l1.error);
        }
        var l2 := ListToPrograms(ver, Param(ps, "PLAN_LIST_2", RList([])));
        if l2.Err? {
          return Err(l2.error);
        }
        r := Ok(AR6(part, l1.value, l2.value));
    }
  }

  /** `process_ar` for AR9-AR11, with the list loops. */
  method ConvertCredits(ver: Version, c: Code, part: string, ps: seq<ParsedParam>) returns (r: Result<AuxRule>)
    requires c == Code9 || c == Code10 || c == Code11
    ensures r == BuildCredits(ver, c, part, ps)
  {
    match c {
      case Code9 =>
        var cl := ListToCourses(Param(ps, "COURSE_LIST", RList([])));
        if cl.Err? {
          return Err(cl.error);
        }
        r := Ok(AR9(part, cl.value));
      case Code10 =>
        var cl := ListToCourses(Param(ps, "COURSE_LIST", RList([])));
        if cl.Err? {
          return Err(cl.error);
        }
        var pl := ListToPrograms(ver, Param(ps, "PLAN_LIST", RList([])));
        if pl.Err? {
          return Err(pl.error);
        }
        r := Ok(AR10(part, cl.value, pl.value));
      case Code11 =>
        var cl := ListToCourses(Param(ps, "COURSE_LIST", RList([])));
        if cl.Err? {
          return Err(cl.error);
        }
        var pl := ListToPrograms(ver, Param(ps, "PLAN_LIST", RList([])));
        if pl.Err? {
          return Err(pl.error);
        }
        r := Ok(AR11(part, cl.value, pl.value));
    }
  }

  /** `process_ar` for AR13 and AR15-AR17, with the list loops. */
  method ConvertExemptions(ver: Version, c: Code, part: string, ps: seq<ParsedParam>) returns (r: Result<AuxRule>)
    requires c == Code13 || c == Code15 || c == Code16 || c == Code17
    ensures r == BuildExemptions(ver, c, part, ps)
  {
    match c {
      case Code13 =>
        var pl := ListToPrograms(ver, Param(ps, "PLAN_LIST", RList([])));
        if pl.Err? {
          return Err(pl.error);
        }
        var cl := ListToCourses(Param(ps, "COURSE_LIST", RList([])));
        if cl.Err? {
          return Err(cl.error);
        }
        var ppl := ListToPrograms(ver, Param(ps, "PROGRAM_PLAN_LIST", RList([])));
        if ppl.Err? {
          return Err(ppl.error);
        }
        r := Ok(AR13(part, pl.value, cl.value, ppl.value));
      case Code15 =>
        var lists := ToStrList(Param(ps, "LISTS", RList([])));
        var cl := ListToCourses(Param(ps, "COURSE_LIST", RList([])));
        if cl.Err? {
          return Err(cl.error);
        }
        var ppl := ListToPrograms(ver, Param(ps, "PROGRAM_PLAN_LIST", RList([])));
        if ppl.Err? {
          return Err(ppl.error);
        }
        r := Ok(AR15(part, cl.value, MustParam(ps), ppl.value, lists));
      case Code16 =>
        var pl := ListToPrograms(ver, Param(ps, "PLAN_LIST", RList([])));
        if pl.Err? {
          return Err(pl.error);
        }
        var cl1 := ListToCourses(Param(ps, "COURSE_LIST_1", RList([])));
        if cl1.Err? {
          return Err(cl1.error);
        }
        var cl2 := ListToCourses(Param(ps, "COURSE_LIST_2", RList([])));
        if cl2.Err? {
          return Err(cl2.error);
        }
        var ppl := ListToPrograms(ver, Param(ps, "PROGRAM_PLAN_LIST", RList([])));
        if ppl.Err? {
          return Err(ppl.error);
        }
        r := Ok(AR16(part, pl.value, cl1.value, MustParam(ps), cl2.value, ppl.value));
      case Code17 =>
        var lists := ToStrList(Param(ps, "LISTS", RList([])));
        var pl := ListToPrograms(ver, Param(ps, "PLAN_LIST", RList([])));
        if pl.Err? {
          return Err(pl.error);
        }
        var cl := ListToCourses(Param(ps, "COURSE_LIST", RList([])));
        if cl.Err? {
          return Err(cl.error);
        }
        var ppl := ListToPrograms(ver, Param(ps, "PROGRAM_PLAN_LIST", RList([])));
        if ppl.Err? {
          return Err(ppl.error);
        }
        r := Ok(AR17(part, pl.value, cl.value, MustParam(ps), ppl.value, lists));
    }
  }

  /** `process_ar` for AR18-AR20, with the list loops. */
  method ConvertDuals(ver: Version, c: Code, part: string, ps: seq<ParsedParam>) returns (r: Result<AuxRule>)
    requires c == Code18 || c == Code19
    ensures r == BuildDuals(ver, c, part, ps)
  {
    match c {
      case Code18 =>
        var cl := ListToCourses(Param(ps, "COURSE_LIST", RList([])));
        if cl.Err? {
          return Err(cl.error);
        }
        var program := ToSingleProgram(ver, Param(ps, "PROGRAM", RNone));
        if program.Err? {
          return Err(program.error);
        }
        r := Ok(AR18(part, cl.value, program.value));
      case Code19 =>
        var pl := ListToPrograms(ver, Param(ps, "PLAN_LIST", RList([])));
        if pl.Err? {
          return Err(pl.error);
        }
        var cl := ListToCourses(Param(ps, "COURSE_LIST", RList([])));
        if cl.Err? {
          return Err(cl.error);
        }
        var program := ToSingleProgram(ver, Param(ps, "PROGRAM", RNone));
        if program.Err? {
          return Err(program.error);
        }
        r := Ok(AR19(part, pl.value, cl.value, program.value));
    }
  }

  method ConvertAR20(ver: Version, part: string, ps: seq<ParsedParam>) returns (r: Result<AuxRule>)
    ensures r == BuildAR20(ver, part, ps)
  {
    var plan := ToSingleProgram(ver, Param(ps, "PLAN", RNone));
    if plan.Err? {
      return Err(plan.error);
    }
    var pl1 := ListToPrograms(ver, Param(ps, "PLAN_LIST_1", RList([])));
    if pl1.Err? {
      return Err(pl1.error);
    }
    var cl := ListToCourses(Param(ps, "COURSE_LIST", RList([])));
    if cl.Err? {
      return Err(cl.error);
    }
    var pl2 := ListToPrograms(ver, Param(ps, "PLAN_LIST_2", RList([])));
    if pl2.Err? {
      return Err(pl2.error);
    }
    if ver == AsWritten {
      return Err(TypeError);
    }
    r := Ok(AR20(part, plan.value, pl1.value, cl.value, pl2.value));
  }

  /** `process_ar`, with its loops. */
  method ProcessAuxRule(ver: Version, ar: ParsedAuxRule, part: string) returns (r: Result<AuxRule>)
    ensures r == ProcessAR(ver, ar, part)
  {
    var ps := ParamsOf(ar);
    var code := CodeOf(ar.code);
    if code.None? {
      var raw := ToRawParams(ps);
      r := Ok(ARUnknown(part, ar.text.GetOr(""), raw));
    } else {
      match code.value {
        case Code1 | Code2 | Code3 | Code4 | Code7 =>
          r := Ok(BuildUnits(code.value, part, ps));
        case Code5 | Code6 =>
          r := ConvertPlans(ver, code.value, part, ps);
        case Code9 | Code10 | Code11 =>
          r := ConvertCredits(ver, code.value, part, ps);
        case Code13 | Code15 | Code16 | Code17 =>
          r := ConvertExemptions(ver, code.value, part, ps);
        case Code18 | Code19 =>
          r := ConvertDuals(ver, code.value, part, ps);
        case Code20 =>
          r := ConvertAR20(ver, part, ps);
      }
    }
  }

  /** With no parameters every scalar takes its default. */
  lemma {:induction false} NoParamDefaults(key: string, default: Raw)
    ensures Param([], key, default) == default
  {
    assert Pairs([]) == [];
  }

  /** The empty programme reference, built where a rule names no programme. */
  const NoProgram := ProgramRef(None, None, "", "", "", "", "")

  /** AR1 with no parameters: the count and level are 0 and OR_HIGHER is True. */
  lemma {:induction false} NoParamsAR1(ver: Version, text: Option<string>, part: string)
    ensures ProcessAR(ver, ParsedAuxRule("AR1", text, None), part) == Ok(AR1(part, 0, 0, true))
  {
    assert CodeOf("AR1") == Some(Code1);
    NoParamDefaults("N", RInt(0));
    NoParamDefaults("LEVEL", RInt(0));
    NoParamDefaults("OR_HIGHER", RBool(true));
  }

  /** AR2 with no parameters: the count and level are 0. */
  lemma {:induction false} NoParamsAR2(ver: Version, text: Option<string>, part: string)
    ensures ProcessAR(ver, ParsedAuxRule("AR2", text, None), part) == Ok(AR2(part, 0, 0))
  {
    assert CodeOf("AR2") == Some(Code2);
    NoParamDefaults("N", RInt(0));
    NoParamDefaults("LEVEL", RInt(0));
  }

  /** AR4 with no parameters: both counts and the level are 0 and OR_HIGHER is True. */
  lemma {:induction false} NoParamsAR4(ver: Version, text: Option<string>, part: string)
    ensures ProcessAR(ver, ParsedAuxRule("AR4", text, None), part) == Ok(AR4(part, 0, 0, 0, true))
  {
    assert CodeOf("AR4") == Some(Code4);
    NoParamDefaults("N", RInt(0));
    NoParamDefaults("M", RInt(0));
    NoParamDefaults("LEVEL", RInt(0));
    NoParamDefaults("OR_HIGHER", RBool(true));
  }

  /** AR7 with no parameters: the count is 0. */
  lemma {:induction false} NoParamsAR7(ver: Version, text: Option<string>, part: string)
    ensures ProcessAR(ver, ParsedAuxRule("AR7", text, None), part) == Ok(AR7(part, 0))
  {
    assert CodeOf("AR7") == Some(Code7);
    NoParamDefaults("N", RInt(0));
  }

  /** AR5 with no parameters: both programme lists are empty. */
  lemma {:induction false} NoParamsAR5(ver: Version, text: Option<string>, part: string)
    ensures ProcessAR(ver, ParsedAuxRule("AR5", text, None), part) == Ok(AR5(part, [], []))
  {
    assert CodeOf("AR5") == Some(Code5);
    NoParamDefaults("PLAN_LIST_1", RList([]));
    NoParamDefaults("PLAN_LIST_2", RList([]));
  }

  /** AR15 with no parameters: the lists are empty and MUST is True. */
  lemma {:induction false} NoParamsAR15(ver: Version, text: Option<string>, part: string)
    ensures ProcessAR(ver, ParsedAuxRule("AR15", text, None), part) == Ok(AR15(part, [], true, [], []))
  {
    assert CodeOf("AR15") == Some(Code15);
    NoParamDefaults("COURSE_LIST", RList([]));
    NoParamDefaults("PROGRAM_PLAN_LIST", RList([]));
    assert ListsParam([]) == [] by {
      NoParamDefaults("LISTS", RList([]));
    }
    assert MustParam([]) by {
      NoParamDefaults("MUST_OR_MAY", RBool(true));
      NoParamDefaults("MUST", RBool(true));
    }
  }

  /**
   * AR18 with no parameters: the course list is empty and the missing programme is
   * the empty reference, which as written raises.
   */
  lemma {:induction false} NoParamsAR18(ver: Version, text: Option<string>, part: string)
    ensures ProcessAR(ver, ParsedAuxRule("AR18", text, None), part) ==
      if ver == AsWritten then Err(TypeError) else Ok(AR18(part, [], NoProgram))
  {
    assert CodeOf("AR18") == Some(Code18);
    NoParamDefaults("COURSE_LIST", RList([]));
    NoParamDefaults("PROGRAM", RNone);
  }

  /** Without MUST, MUST_OR_MAY decides; with neither, the rule is a must. */
  lemma {:induction false} MustFallsBack(ps: seq<ParsedParam>, i: nat)
    requires forall j :: 0 <= j < |ps| ==> ps[j].name != "MUST"
    requires i < |ps| && ps[i].name == "MUST_OR_MAY" && forall j :: i < j < |ps| ==> ps[j].name != "MUST_OR_MAY"
    ensures MustParam(ps) == Bool(ps[i].value, true)
  {
    ParamLastWins(ps, i, RBool(true));
    ParamMissing(ps, "MUST", ps[i].value);
  }

  /** An unrecognised code keeps the text and every parameter, as a name/type/value dict, in order. */
  lemma {:induction false} UnknownKeepsParams(ver: Version, ar: ParsedAuxRule, part: string)
    requires ar.code !in AuxFactory.AuxTags
    ensures var r := ProcessAR(ver, ar, part);
      var ps := ParamsOf(ar);
      r.Ok? && r.value.ARUnknown? && r.value.text == ar.text.GetOr("") &&
      |r.value.rawParams| == |ps| &&
      forall i :: 0 <= i < |ps| ==>
        Field(r.value.rawParams[i], "name") == Some(RStr(ps[i].name)) &&
        Field(r.value.rawParams[i], "type") == Some(RStr(ps[i].ptype)) &&
        Field(r.value.rawParams[i], "value") == Some(ps[i].value)
  {
    RawParamsKept(ParamsOf(ar));
  }

  /** A value that holds no dict, neither itself nor as a list item. */
  predicate DictFree(v: Raw) {
    !v.RDict? && (v.RList? ==> forall i :: 0 <= i < |v.items| ==> !v.items[i].RDict?)
  }

  /** Every parameter is read as one of the parameter values or as the default. */
  lemma {:induction false} ParamIsSome(ps: seq<ParsedParam>, key: string, default: Raw)
    ensures Param(ps, key, default) == default ||
      exists j :: 0 <= j < |ps| && Param(ps, key, default) == ps[j].value
  {
    var d := PyDict.FromPairs(Pairs(ps));
    if PyDict.Get(d, key).Some? {
      PyDict.FromPairsValue(Pairs(ps), key);
      var j :| 0 <= j < |ps| && Pairs(ps)[j] == (key, PyDict.Get(d, key).value);
      assert Param(ps, key, default) == ps[j].value;
    }
  }

  /** Without dicts there is nothing malformed to read: the corrected coercions succeed. */
  lemma {:induction false} DictFreeCoerces(v: Raw)
    requires DictFree(v)
    ensures CoursesOf(v).Ok? && ProgramsOf(Corrected, v).Ok? && SingleProgram(Corrected, v).Ok?
  {
    if v.RList? {
      AllOkOfDecodable(v.items, CourseItem,
        seq(|v.items|, i requires 0 <= i < |v.items| => MinimalCourseRef(Str(v.items[i]))));
      AllOkOfDecodable(v.items, ProgramItemCorrected,
        seq(|v.items|, i requires 0 <= i < |v.items| => ProgramRef(None, None, Str(v.items[i]), "", "", "", "")));
    }
  }

  /** Every list and programme parameter of the rule converts. */
  ghost predicate Readable(ps: seq<ParsedParam>) {
    forall key :: ReadableAt(ps, key)
  }

  /** The parameter under `key` reads as a course list, a programme list and a programme. */
  predicate ReadableAt(ps: seq<ParsedParam>, key: string) {
    CoursesParam(ps, key).Ok? && ProgramsParam(Corrected, ps, key).Ok? &&
    SingleProgram(Corrected, Param(ps, key, RNone)).Ok?
  }

  lemma {:induction false} ReadableKey(ps: seq<ParsedParam>, key: string)
    requires Readable(ps)
    ensures ReadableAt(ps, key)
  {
  }

  lemma {:induction false} DictFreeReadable(ps: seq<ParsedParam>)
    requires forall j :: 0 <= j < |ps| ==> DictFree(ps[j].value)
    ensures Readable(ps)
  {
    forall key | true
      ensures ReadableAt(ps, key)
    {
      ParamIsSome(ps, key, RList([]));
      DictFreeCoerces(Param(ps, key, RList([])));
      ParamIsSome(ps, key, RNone);
      DictFreeCoerces(Param(ps, key, RNone));
    }
  }

  /** With every list and programme readable, every variant builds. */
  lemma {:induction false} ReadableBuilds(c: Code, part: string, ps: seq<ParsedParam>)
    requires Readable(ps)
    ensures Build(Corrected, c, part, ps).Ok?
  {
    match c
    case Code1 | Code2 | Code3 | Code4 | Code7 =>
    case Code5 | Code6 =>
      ReadablePlans(c, part, ps);
    case Code9 | Code10 | Code11 =>
      ReadableCredits(c, part, ps);
    case Code13 | Code15 | Code16 | Code17 =>
      ReadableExemptions(c, part, ps);
    case Code18 | Code19 =>
      ReadableDuals(c, part, ps);
    case Code20 =>
      ReadableAR20(part, ps);
  }

  lemma {:induction false} ReadablePlans(c: Code, part: string, ps: seq<ParsedParam>)
    requires Readable(ps) && (c == Code5 || c == Code6)
    ensures BuildPlans(Corrected, c, part, ps).Ok?
  {
    ReadableKey(ps, "PLAN_LIST_1");
    ReadableKey(ps, "PLAN_LIST_2");
  }

  lemma {:induction false} ReadableCredits(c: Code, part: string, ps: seq<ParsedParam>)
    requires Readable(ps) && (c == Code9 || c == Code10 || c == Code11)
    ensures BuildCredits(Corrected, c, part, ps).Ok?
  {
    ReadableKey(ps, "COURSE_LIST");
    ReadableKey(ps, "PLAN_LIST");
  }

  lemma {:induction false} ReadableExemptions(c: Code, part: string, ps: seq<ParsedParam>)
    requires Readable(ps) && (c == Code13 || c == Code15 || c == Code16 || c == Code17)
    ensures BuildExemptions(Corrected, c, part, ps).Ok?
  {
    ReadableKey(ps, "PROGRAM_PLAN_LIST");
    if c == Code15 {
      ReadableKey(ps, "COURSE_LIST");
      ReadableAR15(part, ps);
    } else if c == Code16 {
      ReadableKey(ps, "PLAN_LIST");
      ReadableKey(ps, "COURSE_LIST_1");
      ReadableKey(ps, "COURSE_LIST_2");
      ReadableAR16(part, ps);
    } else {
      ReadableKey(ps, "PLAN_LIST");
      ReadableKey(ps, "COURSE_LIST");
      ReadableAR13And17(part, ps);
    }
  }

  lemma {:induction false} ReadableAR13And17(part: string, ps: seq<ParsedParam>)
    requires ReadableAt(ps, "PLAN_LIST") && ReadableAt(ps, "COURSE_LIST") && ReadableAt(ps, "PROGRAM_PLAN_LIST")
    ensures BuildAR13(Corrected, part, ps).Ok? && BuildAR17(Corrected, part, ps).Ok?
  {
    var pl := ProgramsParam(Corrected, ps, "PLAN_LIST").value;
    var cl := CoursesParam(ps, "COURSE_LIST").value;
    var ppl := ProgramsParam(Corrected, ps, "PROGRAM_PLAN_LIST").value;
    assert BuildAR13(Corrected, part, ps) == Ok(AR13(part, pl, cl, ppl));
    assert BuildAR17(Corrected, part, ps) == Ok(AR17(part, pl, cl, MustParam(ps), ppl, ListsParam(ps)));
  }

  lemma {:induction false} ReadableAR15(part: string, ps: seq<ParsedParam>)
    requires ReadableAt(ps, "COURSE_LIST") && ReadableAt(ps, "PROGRAM_PLAN_LIST")
    ensures BuildAR15(Corrected, part, ps).Ok?
  {
    var cl := CoursesParam(ps, "COURSE_LIST").value;
    var ppl := ProgramsParam(Corrected, ps, "PROGRAM_PLAN_LIST").value;
    assert BuildAR15(Corrected, part, ps) == Ok(AR15(part, cl, MustParam(ps), ppl, ListsParam(ps)));
  }

  lemma {:induction false} ReadableAR16(part: string, ps: seq<ParsedParam>)
    requires ReadableAt(ps, "PLAN_LIST") && ReadableAt(ps, "COURSE_LIST_1") && ReadableAt(ps, "COURSE_LIST_2")
    requires ReadableAt(ps, "PROGRAM_PLAN_LIST")
    ensures BuildAR16(Corrected, part, ps).Ok?
  {
    var pl := ProgramsParam(Corrected, ps, "PLAN_LIST").value;
    var cl1 := CoursesParam(ps, "COURSE_LIST_1").value;
    var cl2 := CoursesParam(ps, "COURSE_LIST_2").value;
    var ppl := ProgramsParam(Corrected, ps, "PROGRAM_PLAN_LIST").value;
    assert BuildAR16(Corrected, part, ps) == Ok(AR16(part, pl, cl1, MustParam(ps), cl2, ppl));
  }

  lemma {:induction false} ReadableDuals(c: Code, part: string, ps: seq<ParsedParam>)
    requires Readable(ps) && (c == Code18 || c == Code19)
    ensures BuildDuals(Corrected, c, part, ps).Ok?
  {
    ReadableKey(ps, "COURSE_LIST");
    ReadableKey(ps, "PLAN_LIST");
    ReadableKey(ps, "PROGRAM");
  }

  lemma {:induction false} ReadableAR20(part: string, ps: seq<ParsedParam>)
    requires Readable(ps)
    ensures BuildAR20(Corrected, part, ps).Ok?
  {
    ReadableKey(ps, "PLAN");
    var plan := SingleProgram(Corrected, Param(ps, "PLAN", RNone)).value;
    ReadableKey(ps, "PLAN_LIST_1");
    var pl1 := ProgramsParam(Corrected, ps, "PLAN_LIST_1").value;
    ReadableKey(ps, "COURSE_LIST");
    var cl := CoursesParam(ps, "COURSE_LIST").value;
    ReadableKey(ps, "PLAN_LIST_2");
    var pl2 := ProgramsParam(Corrected, ps, "PLAN_LIST_2").value;
    assert BuildAR20(Corrected, part, ps) == Ok(AR20(part, plan, pl1, cl, pl2));
  }

  /**
   * The corrected converter fails only on a malformed reference dict: a rule whose
   * parameter values hold no dict always converts.
   */
  lemma {:induction false} CorrectedConverts(ar: ParsedAuxRule, part: string)
    requires forall j :: 0 <= j < |ParamsOf(ar)| ==> DictFree(ParamsOf(ar)[j].value)
    ensures ProcessAR(Corrected, ar, part).Ok?
  {
    DictFreeReadable(ParamsOf(ar));
    if CodeOf(ar.code).Some? {
      ReadableBuilds(CodeOf(ar.code).value, part, ParamsOf(ar));
    }
  }

  /**
   * As written AR20 always raises; corrected, the same rule converts whenever its
   * parameters hold no dict.
   */
  lemma {:induction false} AR20Construction(ar: ParsedAuxRule, part: string)
    requires ar.code == "AR20"
    ensures ProcessAR(AsWritten, ar, part).Err?
    ensures (forall j :: 0 <= j < |ParamsOf(ar)| ==> DictFree(ParamsOf(ar)[j].value)) ==>
      ProcessAR(Corrected, ar, part).Ok? && ProcessAR(Corrected, ar, part).value.AR20?
  {
    assert CodeOf(ar.code) == Some(Code20);
    if forall j :: 0 <= j < |ParamsOf(ar)| ==> DictFree(ParamsOf(ar)[j].value) {
      CorrectedConverts(ar, part);
    }
  }
}

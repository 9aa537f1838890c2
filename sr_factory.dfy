/**
 * `create_sr_from_dict`: SR1-SR5 dicts that carry `options` are built directly, with
 * each option converted by the course-or-group factory; every other dict goes through
 * field-by-field deserialisation of the class its `type` names.
 */
module SelectionFactory {
  import opened Wrappers
  import opened RawValues
  import PyDict
  import opened Params
  import opened SerdeFields
  import opened SelectionRules

  const UnitTags := ["SR1", "SR2", "SR3", "SR4", "SR5"]
  const SRTags := UnitTags + ["SR6", "SR7", "SR8"]

  function TagOf(rule: SelectionRule): string {
    match rule
    case SR(_) => "SR"
    case SR1(_, _, _) => "SR1"
    case SR2(_, _, _, _) => "SR2"
    case SR3(_, _, _) => "SR3"
    case SR4(_, _, _, _) => "SR4"
    case SR5(_, _, _) => "SR5"
    case SR6(_, _, _) => "SR6"
    case SR7(_, _, _, _) => "SR7"
    case SR8(_, _, _, _, _) => "SR8"
  }

  /** The conversion loop's result: one option per entry, stopping at the first entry that raises. */
  function ConvertedOptions(items: seq<Raw>): Result<seq<CourseOption>> {
    AllOk(items, CourseOrEquivalenceFromDict)
  }

  /** The direct path is taken for an SR1-SR5 tag when the dict has an `options` key. */
  predicate DirectPath(data: Entries) {
    Has(data, "options") && exists t :: t in UnitTags && Field(data, "type") == Some(RStr(t))
  }

  /** `data_copy.get("part", "")`; the constructor keeps it, and this model requires a string. */
  function DirectPart(data: Entries): Result<string> {
    match Field(data, "part")
    case None => Ok("")
    case Some(RStr(s)) => Ok(s)
    case _ => Err(SerdeError)
  }

  /** `data_copy[key]` for an int field: a missing key raises KeyError. */
  function Subscript(data: Entries, key: string): Result<Raw> {
    match Field(data, key)
    case None => Err(KeyError)
    case Some(v) => Ok(v)
  }

  function AsInt(v: Raw): Result<int> {
    if v.RInt? then Ok(v.i) else Err(SerdeError)
  }

  /** The direct construction, once the options are converted. */
  function BuildDirect(tag: string, data: Entries, options: seq<CourseOption>): (r: Result<SelectionRule>)
    requires tag in UnitTags
    ensures r.Ok? ==> TagOf(r.value) == tag && r.value.options == options
  {
    var nRaw :- Subscript(data, "n");
    if tag == "SR2" || tag == "SR4" then
      var mRaw :- Subscript(data, "m");
      var part :- DirectPart(data);
      var n :- AsInt(nRaw);
      var m :- AsInt(mRaw);
      Ok(if tag == "SR2" then SR2(part, n, m, options) else SR4(part, n, m, options))
    else
      var part :- DirectPart(data);
      var n :- AsInt(nRaw);
      Ok(if tag == "SR1" then SR1(part, n, options) else if tag == "SR3" then SR3(part, n, options)
         else SR5(part, n, options))
  }

  function ProgramOptions(d: Entries): (r: Result<seq<ProgramRef>>)
    ensures r.Err? ==> r.error == SerdeError
  {
    ListOf(d, "options", ProgramRefOf)
  }

  /** `from_dict` of the class a tag names. */
  function Deserialise(tag: string, d: Entries): (r: Result<SelectionRule>)
    ensures r.Err? ==> r.error == SerdeError
    ensures r.Ok? ==> ReqStr(d, "part") == Ok(r.value.part)
    ensures r.Ok? ==> TagOf(r.value) == (if tag in ["SR6", "SR7", "SR8"] then tag else "SR")
  {
    var part :- ReqStr(d, "part");
    if tag == "SR6" then
      var planType :- ReqStr(d, "plan_type");
      var programs :- ProgramOptions(d);
      Ok(SR6(part, planType, programs))
    else if tag == "SR7" then
      var n :- ReqInt(d, "n");
      var planTypes :- ReqStr(d, "plan_types");
      var programs :- ProgramOptions(d);
      Ok(SR7(part, n, planTypes, programs))
    else if tag == "SR8" then
      var n :- ReqInt(d, "n");
      var m :- ReqInt(d, "m");
      var planTypes :- ReqStr(d, "plan_types");
      var programs :- ProgramOptions(d);
      Ok(SR8(part, n, m, planTypes, programs))
    else if tag in UnitTags then
      // reached only without `options`, a required field
      Err(SerdeError)
    else Ok(SR(part))
  }

  /** What the factory returns or raises for a dict. */
  function SRFromDict(data: Entries): Result<SelectionRule> {
    var tag := GetOr(data, "type", RStr("SR"));
    if tag.RStr? && tag.s in UnitTags && Has(data, "options") then
      var items :- Iterate(GetOr(data, "options", RNone));
      var options :- ConvertedOptions(items);
      BuildDirect(tag.s, data, options)
    else if tag.RList? || tag.RDict? then Err(TypeError)
    else if tag.RStr? && tag.s in SRTags then Deserialise(tag.s, data)
    else Deserialise("SR", data)
  }

  /** `create_sr_from_dict`, with its conversion loop. */
  method CreateSRFromDict(data: Entries) returns (r: Result<SelectionRule>)
    ensures r == SRFromDict(data)
  {
    var tag := GetOr(data, "type", RStr("SR"));
    if tag.RStr? && tag.s in UnitTags && Has(data, "options") {
      var it := Iterate(GetOr(data, "options", RNone));
      if it.Err? {
        return Err(it.error);
      }
      var items := it.value;
      var converted: seq<CourseOption> := [];
      for i := 0 to |items|
        invariant AllOk(items[..i], CourseOrEquivalenceFromDict) == Ok(converted)
      {
        assert items[..i + 1][..i] == items[..i];
        var option := CourseOrEquivalenceFromDict(items[i]);
        if option.Err? {
          AllOkPrefixErr(items, i + 1, CourseOrEquivalenceFromDict);
          assert items[..i + 1][i] == items[i];
          return Err(option.error);
        }
        converted := converted + [option.value];
      }
      assert items[..|items|] == items;
      r := BuildDirect(tag.s, data, converted);
    } else if tag.RList? || tag.RDict? {
      r := Err(TypeError);
    } else if tag.RStr? && tag.s in SRTags {
      r := Deserialise(tag.s, data);
    } else {
      r := Deserialise("SR", data);
    }
  }

  /** The tag the factory builds: a recognised string, otherwise the base class. */
  function Dispatched(data: Entries): string {
    match Field(data, "type")
    case Some(RStr(tag)) => if tag in SRTags then tag else "SR"
    case _ => "SR"
  }

  /** The factory builds the class its `type` names, the base class for a missing or unknown tag. */
  lemma {:induction false} SRFromDictTag(data: Entries)
    ensures SRFromDict(data).Ok? ==> TagOf(SRFromDict(data).value) == Dispatched(data)
  {
    var tag := GetOr(data, "type", RStr("SR"));
    if tag.RStr? && tag.s in UnitTags && Has(data, "options") {
      assert DirectPath(data);
    }
  }

  /**
   * Off the direct path, `part` must be a string, only an unhashable tag raises
   * TypeError, and every other failure is a deserialisation error.
   */
  lemma {:induction false} SRFromDictOffPath(data: Entries)
    requires !DirectPath(data)
    ensures var r := SRFromDict(data);
      (r.Ok? ==> ReqStr(data, "part") == Ok(r.value.part)) &&
      (r.Err? ==> (r.error == TypeError <==>
        Field(data, "type").Some? && (Field(data, "type").value.RList? || Field(data, "type").value.RDict?))) &&
      (r.Err? && r.error != TypeError ==> r.error == SerdeError)
  {
    var tag := GetOr(data, "type", RStr("SR"));
    if tag.RStr? && tag.s in UnitTags && Has(data, "options") {
      assert DirectPath(data);
    }
  }

  /** An SR1-SR5 tag without `options` always fails: `options` is a required field. */
  lemma {:induction false} SRFromDictNoOptions(data: Entries)
    requires Dispatched(data) in UnitTags && !Has(data, "options")
    ensures SRFromDict(data) == Err(SerdeError)
  {
  }

  /**
   * On the direct path a missing `part` becomes the empty string; expressed in the
   * result, the dict's options are converted one by one in order, and a missing `n`
   * (or `m` for SR2/SR4) raises KeyError.
   */
  lemma {:induction false} DirectPathMeaning(data: Entries, t: string)
    requires t in UnitTags && Field(data, "type") == Some(RStr(t)) && Has(data, "options")
    ensures var r := SRFromDict(data);
      var items := Iterate(GetOr(data, "options", RNone));
      (r.Ok? ==> items.Ok? && ConvertedOptions(items.value) == Ok(r.value.options) && TagOf(r.value) == t) &&
      (r.Ok? && Field(data, "part").None? ==> r.value.part == "") &&
      (items.Ok? && ConvertedOptions(items.value).Ok? && Field(data, "n").None? ==> r == Err(KeyError)) &&
      (items.Ok? && ConvertedOptions(items.value).Ok? && (t == "SR2" || t == "SR4") && Field(data, "m").None? ==>
        r == Err(KeyError))
  {
    PyDict.GetFinds(data, "type");
  }
}

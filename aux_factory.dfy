/**
 * `create_ar_from_dict`: the rule class is picked by the dict's `type` field, and
 * the class's fields are read under their declared names. The serialised form
 * (`to_dict`) puts the inherited `part` first and the class's `type` default last.
 */
module AuxFactory {
  import opened Wrappers
  import opened RawValues
  import PyDict
  import opened Params
  import opened SerdeFields
  import opened AuxRules

  /** The keys of the factory's `type_map`. */
  const AuxTags: seq<string> := ["AR1", "AR2", "AR3", "AR4", "AR5", "AR6", "AR7", "AR9", "AR10", "AR11", "AR13",
                                 "AR15", "AR16", "AR17", "AR18", "AR19", "AR20", "ARUnknown"]

  /** The class a rule value belongs to, under its `type_map` key; the base class is "AR". */
  function TagOf(rule: AuxRule): (t: string)
    ensures t == "AR" || t in AuxTags
  {
    match rule
    case AR(_) => "AR"
    case AR1(_, _, _, _) => "AR1"
    case AR2(_, _, _) => "AR2"
    case AR3(_, _, _, _) => "AR3"
    case AR4(_, _, _, _, _) => "AR4"
    case AR5(_, _, _) => "AR5"
    case AR6(_, _, _) => "AR6"
    case AR7(_, _) => "AR7"
    case AR9(_, _) => "AR9"
    case AR10(_, _, _) => "AR10"
    case AR11(_, _, _) => "AR11"
    case AR13(_, _, _, _) => "AR13"
    case AR15(_, _, _, _, _) => "AR15"
    case AR16(_, _, _, _, _, _) => "AR16"
    case AR17(_, _, _, _, _, _) => "AR17"
    case AR18(_, _, _) => "AR18"
    case AR19(_, _, _, _) => "AR19"
    case AR20(_, _, _, _, _) => "AR20"
    case ARUnknown(_, _, _) => "ARUnknown"
  }

  function Programs(d: Entries, key: string): (r: Result<seq<ProgramRef>>)
    ensures r.Err? ==> r.error == SerdeError
  {
    ListOf(d, key, ProgramRefOf)
  }

  function Courses(d: Entries, key: string): (r: Result<seq<CourseRef>>)
    ensures r.Err? ==> r.error == SerdeError
  {
    ListOf(d, key, CourseRefOf)
  }

  function Strings(d: Entries, key: string): (r: Result<seq<string>>)
    ensures r.Err? ==> r.error == SerdeError
  {
    ListOf(d, key, StrOf)
  }

  /** `from_dict(cls, data)` for the class with the given tag, `part` read first. */
  function DecodeTagged(tag: string, d: Entries): (r: Result<AuxRule>)
    requires tag in AuxTags
    ensures r.Ok? ==> TagOf(r.value) == tag && ReqStr(d, "part") == Ok(r.value.part)
    ensures r.Err? ==> r.error == SerdeError
  {
    var part :- ReqStr(d, "part");
    if tag in ["AR1", "AR2", "AR3", "AR4"] then DecodeLevelRule(tag, part, d)
    else if tag in ["AR5", "AR6", "AR7"] then DecodeProgrammeRule(tag, part, d)
    else if tag in ["AR9", "AR10", "AR11", "AR13"] then DecodeExclusion(tag, part, d)
    else if tag in ["AR15", "AR16", "AR17"] then DecodeSubstitution(tag, part, d)
    else if tag in ["AR18", "AR19", "AR20"] then DecodeDual(tag, part, d)
    else DecodeUnknown(part, d)
  }

  function DecodeUnknown(part: string, d: Entries): (r: Result<AuxRule>)
    ensures r.Ok? ==> TagOf(r.value) == "ARUnknown" && r.value.part == part
    ensures r.Err? ==> r.error == SerdeError
  {
    var text :- ReqStr(d, "text"); var rawParams :- ListOf(d, "raw_params", DictOf);
    Ok(ARUnknown(part, text, rawParams))
  }

  function DecodeLevelRule(tag: string, part: string, d: Entries): (r: Result<AuxRule>)
    requires tag in ["AR1", "AR2", "AR3", "AR4"]
    ensures r.Ok? ==> TagOf(r.value) == tag && r.value.part == part
    ensures r.Err? ==> r.error == SerdeError
  {
    if tag == "AR1" then
      var n :- ReqInt(d, "n"); var level :- ReqInt(d, "level"); var orHigher :- BoolOr(d, "or_higher", true);
      Ok(AR1(part, n, level, orHigher))
    else if tag == "AR2" then
      var n :- ReqInt(d, "n"); var level :- ReqInt(d, "level");
      Ok(AR2(part, n, level))
    else if tag == "AR3" then
      var n :- ReqInt(d, "n"); var level :- ReqInt(d, "level"); var orHigher :- BoolOr(d, "or_higher", true);
      Ok(AR3(part, n, level, orHigher))
    else
      var n :- ReqInt(d, "n"); var m :- ReqInt(d, "m"); var level :- ReqInt(d, "level");
      var orHigher :- BoolOr(d, "or_higher", true);
      Ok(AR4(part, n, m, level, orHigher))
  }

  function DecodeProgrammeRule(tag: string, part: string, d: Entries): (r: Result<AuxRule>)
    requires tag in ["AR5", "AR6", "AR7"]
    ensures r.Ok? ==> TagOf(r.value) == tag && r.value.part == part
    ensures r.Err? ==> r.error == SerdeError
  {
    if tag == "AR5" then
      var l1 :- Programs(d, "plan_list_1"); var l2 :- Programs(d, "plan_list_2");
      Ok(AR5(part, l1, l2))
    else if tag == "AR6" then
      var l1 :- Programs(d, "plan_list_1"); var l2 :- Programs(d, "plan_list_2");
      Ok(AR6(part, l1, l2))
    else
      var n :- ReqInt(d, "n");
      Ok(AR7(part, n))
  }

  function DecodeExclusion(tag: string, part: string, d: Entries): (r: Result<AuxRule>)
    requires tag in ["AR9", "AR10", "AR11", "AR13"]
    ensures r.Ok? ==> TagOf(r.value) == tag && r.value.part == part
    ensures r.Err? ==> r.error == SerdeError
  {
    if tag == "AR9" then
      var cl :- Courses(d, "course_list");
      Ok(AR9(part, cl))
    else if tag == "AR10" then
      var cl :- Courses(d, "course_list"); var pl :- Programs(d, "plan_list");
      Ok(AR10(part, cl, pl))
    else if tag == "AR11" then
      var cl :- Courses(d, "course_list"); var pl :- Programs(d, "plan_list");
      Ok(AR11(part, cl, pl))
    else
      var pl :- Programs(d, "plan_list"); var cl :- Courses(d, "course_list");
      var ppl :- Programs(d, "program_plan_list");
      Ok(AR13(part, pl, cl, ppl))
  }

  function DecodeSubstitution(tag: string, part: string, d: Entries): (r: Result<AuxRule>)
    requires tag in ["AR15", "AR16", "AR17"]
    ensures r.Ok? ==> TagOf(r.value) == tag && r.value.part == part
    ensures r.Err? ==> r.error == SerdeError
  {
    if tag == "AR15" then
      var cl :- Courses(d, "course_list"); var must :- ReqBool(d, "must");
      var ppl :- Programs(d, "program_plan_list"); var lists :- Strings(d, "lists");
      Ok(AR15(part, cl, must, ppl, lists))
    else if tag == "AR16" then
      var pl :- Programs(d, "plan_list"); var cl1 :- Courses(d, "course_list_1"); var must :- ReqBool(d, "must");
      var cl2 :- Courses(d, "course_list_2"); var ppl :- Programs(d, "program_plan_list");
      Ok(AR16(part, pl, cl1, must, cl2, ppl))
    else
      var pl :- Programs(d, "plan_list"); var cl :- Courses(d, "course_list"); var must :- ReqBool(d, "must");
      var ppl :- Programs(d, "program_plan_list"); var lists :- Strings(d, "lists");
      Ok(AR17(part, pl, cl, must, ppl, lists))
  }

  function DecodeDual(tag: string, part: string, d: Entries): (r: Result<AuxRule>)
    requires tag in ["AR18", "AR19", "AR20"]
    ensures r.Ok? ==> TagOf(r.value) == tag && r.value.part == part
    ensures r.Err? ==> r.error == SerdeError
  {
    if tag == "AR18" then
      var cl :- Courses(d, "course_list"); var program :- ReqProgram(d, "program");
      Ok(AR18(part, cl, program))
    else if tag == "AR19" then
      var pl :- Programs(d, "plan_list"); var cl :- Courses(d, "course_list"); var program :- ReqProgram(d, "program");
      Ok(AR19(part, pl, cl, program))
    else
      var p1 :- ReqProgram(d, "plan_1"); var l1 :- Programs(d, "plan_list_1"); var cl :- Courses(d, "course_list");
      var l2 :- Programs(d, "plan_list_2");
      Ok(AR20(part, p1, l1, cl, l2))
  }

  /** `from_dict(AR, data)`: only `part` is read. */
  function DecodeBase(d: Entries): Result<AuxRule> {
    var part :- ReqStr(d, "part");
    Ok(AR(part))
  }

  /**
   * `create_ar_from_dict`. The tag defaults to "AR", which is not a key of the map; a
   * list or dict tag is unhashable, so the membership test raises TypeError.
   */
  function CreateAuxRule(data: Entries): Result<AuxRule> {
    match Field(data, "type")
    case Some(RList(_)) => Err(TypeError)
    case Some(RDict(_)) => Err(TypeError)
    case Some(RStr(tag)) => if tag in AuxTags then DecodeTagged(tag, data) else DecodeBase(data)
    case _ => DecodeBase(data)
  }

  /** The tag the factory dispatches on: a string in the map, otherwise the base class. */
  function Dispatched(data: Entries): string {
    match Field(data, "type")
    case Some(RStr(tag)) => if tag in AuxTags then tag else "AR"
    case _ => "AR"
  }

  /**
   * The factory builds the class its `type` names, or the base class for a missing or
   * unknown tag, always with the dict's `part`; it raises TypeError exactly for an
   * unhashable tag, and otherwise only reports malformed fields.
   */
  lemma {:induction false} CreateAuxRuleTag(data: Entries)
    ensures var r := CreateAuxRule(data);
      (r.Ok? ==> TagOf(r.value) == Dispatched(data) && ReqStr(data, "part") == Ok(r.value.part)) &&
      (r.Err? ==> (r.error == TypeError <==>
        Field(data, "type").Some? && (Field(data, "type").value.RList? || Field(data, "type").value.RDict?))) &&
      (r.Err? && r.error != TypeError ==> r.error == SerdeError)
  {
  }

  // ---------------------------------------------------------------------------
  // The serialised form

  /** The fields a class declares after `part`, in declaration order, without `type`. */
  function OwnFields(rule: AuxRule): Entries {
    match rule
    case AR(_) => []
    case AR1(_, n, level, orHigher) => [("n", RInt(n)), ("level", RInt(level)), ("or_higher", RBool(orHigher))]
    case AR2(_, n, level) => [("n", RInt(n)), ("level", RInt(level))]
    case AR3(_, n, level, orHigher) => [("n", RInt(n)), ("level", RInt(level)), ("or_higher", RBool(orHigher))]
    case AR4(_, n, m, level, orHigher) =>
      [("n", RInt(n)), ("m", RInt(m)), ("level", RInt(level)), ("or_higher", RBool(orHigher))]
    case AR5(_, l1, l2) => [("plan_list_1", ProgramRefsRaw(l1)), ("plan_list_2", ProgramRefsRaw(l2))]
    case AR6(_, l1, l2) => [("plan_list_1", ProgramRefsRaw(l1)), ("plan_list_2", ProgramRefsRaw(l2))]
    case AR7(_, n) => [("n", RInt(n))]
    case AR9(_, cl) => [("course_list", CourseRefsRaw(cl))]
    case AR10(_, cl, pl) => [("course_list", CourseRefsRaw(cl)), ("plan_list", ProgramRefsRaw(pl))]
    case AR11(_, cl, pl) => [("course_list", CourseRefsRaw(cl)), ("plan_list", ProgramRefsRaw(pl))]
    case AR13(_, pl, cl, ppl) =>
      [("plan_list", ProgramRefsRaw(pl)), ("course_list", CourseRefsRaw(cl)), ("program_plan_list", ProgramRefsRaw(ppl))]
    case AR15(_, cl, must, ppl, lists) =>
      [("course_list", CourseRefsRaw(cl)), ("must", RBool(must)), ("program_plan_list", ProgramRefsRaw(ppl)),
       ("lists", StringsRaw(lists))]
    case AR16(_, pl, cl1, must, cl2, ppl) =>
      [("plan_list", ProgramRefsRaw(pl)), ("course_list_1", CourseRefsRaw(cl1)), ("must", RBool(must)),
       ("course_list_2", CourseRefsRaw(cl2)), ("program_plan_list", ProgramRefsRaw(ppl))]
    case AR17(_, pl, cl, must, ppl, lists) =>
      [("plan_list", ProgramRefsRaw(pl)), ("course_list", CourseRefsRaw(cl)), ("must", RBool(must)),
       ("program_plan_list", ProgramRefsRaw(ppl)), ("lists", StringsRaw(lists))]
    case AR18(_, cl, program) => [("course_list", CourseRefsRaw(cl)), ("program", ProgramRefRaw(program))]
    case AR19(_, pl, cl, program) =>
      [("plan_list", ProgramRefsRaw(pl)), ("course_list", CourseRefsRaw(cl)), ("program", ProgramRefRaw(program))]
    case AR20(_, p1, l1, cl, l2) =>
      [("plan_1", ProgramRefRaw(p1)), ("plan_list_1", ProgramRefsRaw(l1)), ("course_list", CourseRefsRaw(cl)),
       ("plan_list_2", ProgramRefsRaw(l2))]
    case ARUnknown(_, text, rawParams) =>
      [("text", RStr(text)), ("raw_params", RList(seq(|rawParams|, i requires 0 <= i < |rawParams| => RDict(rawParams[i]))))]
  }

  /**
   * `to_dict(rule)` as declared: every subclass but ARUnknown has a `type` field with
   * its tag as default; the base class and ARUnknown have none.
   */
  function ToDict(rule: AuxRule): Entries {
    [("part", RStr(rule.part))] + OwnFields(rule) +
      (if rule.AR? || rule.ARUnknown? then [] else [("type", RStr(TagOf(rule)))])
  }

  /** `to_dict(rule)` with ARUnknown also declaring `type: str = "ARUnknown"`. */
  function ToDictTagged(rule: AuxRule): Entries {
    [("part", RStr(rule.part))] + OwnFields(rule) + (if rule.AR? then [] else [("type", RStr(TagOf(rule)))])
  }

  /** Each own field of the rule is what `get` finds in `d`. */
  predicate HoldsFields(rule: AuxRule, d: Entries) {
    forall i :: 0 <= i < |OwnFields(rule)| ==> Field(d, OwnFields(rule)[i].0) == Some(OwnFields(rule)[i].1)
  }

  lemma {:induction false} ProgramsAt(d: Entries, key: string, ps: seq<ProgramRef>)
    requires Field(d, key) == Some(ProgramRefsRaw(ps))
    ensures Programs(d, key) == Ok(ps)
  {
    ProgramRefsRoundTrip(ps);
  }

  lemma {:induction false} CoursesAt(d: Entries, key: string, cs: seq<CourseRef>)
    requires Field(d, key) == Some(CourseRefsRaw(cs))
    ensures Courses(d, key) == Ok(cs)
  {
    CourseRefsRoundTrip(cs);
  }

  lemma {:induction false} StringsAt(d: Entries, key: string, xs: seq<string>)
    requires Field(d, key) == Some(StringsRaw(xs))
    ensures Strings(d, key) == Ok(xs)
  {
    StringsRoundTrip(xs);
  }

  lemma {:induction false} ProgramAt(d: Entries, key: string, p: ProgramRef)
    requires Field(d, key) == Some(ProgramRefRaw(p))
    ensures ReqProgram(d, key) == Ok(p)
  {
    ProgramRefRoundTrip(p);
  }

  // Which family decoder `DecodeTagged` hands a tag to.

  lemma {:induction false} DispatchLevel(tag: string, d: Entries)
    requires tag in ["AR1", "AR2", "AR3", "AR4"] && ReqStr(d, "part").Ok?
    ensures DecodeTagged(tag, d) == DecodeLevelRule(tag, ReqStr(d, "part").value, d)
  {
  }

  lemma {:induction false} DispatchProgramme(tag: string, d: Entries)
    requires tag in ["AR5", "AR6", "AR7"] && ReqStr(d, "part").Ok?
    ensures DecodeTagged(tag, d) == DecodeProgrammeRule(tag, ReqStr(d, "part").value, d)
  {
  }

  lemma {:induction false} DispatchExclusion(tag: string, d: Entries)
    requires tag in ["AR9", "AR10", "AR11", "AR13"] && ReqStr(d, "part").Ok?
    ensures DecodeTagged(tag, d) == DecodeExclusion(tag, ReqStr(d, "part").value, d)
  {
    assert tag !in ["AR1", "AR2", "AR3", "AR4"] && tag !in ["AR5", "AR6", "AR7"];
  }

  lemma {:induction false} DispatchSubstitution(tag: string, d: Entries)
    requires tag in ["AR15", "AR16", "AR17"] && ReqStr(d, "part").Ok?
    ensures DecodeTagged(tag, d) == DecodeSubstitution(tag, ReqStr(d, "part").value, d)
  {
    assert tag !in ["AR1", "AR2", "AR3", "AR4"] && tag !in ["AR5", "AR6", "AR7"] && tag !in ["AR9", "AR10", "AR11", "AR13"];
  }

  lemma {:induction false} DispatchDual(tag: string, d: Entries)
    requires tag in ["AR18", "AR19", "AR20"] && ReqStr(d, "part").Ok?
    ensures DecodeTagged(tag, d) == DecodeDual(tag, ReqStr(d, "part").value, d)
  {
    assert tag !in ["AR1", "AR2", "AR3", "AR4"] && tag !in ["AR5", "AR6", "AR7"];
    assert tag !in ["AR9", "AR10", "AR11", "AR13"] && tag !in ["AR15", "AR16", "AR17"];
  }

  lemma {:induction false} DispatchUnknown(d: Entries)
    requires ReqStr(d, "part").Ok?
    ensures DecodeTagged("ARUnknown", d) == DecodeUnknown(ReqStr(d, "part").value, d)
  {
    var t := "ARUnknown";
    assert t !in ["AR1", "AR2", "AR3", "AR4"] && t !in ["AR5", "AR6", "AR7"];
    assert t !in ["AR9", "AR10", "AR11", "AR13"] && t !in ["AR15", "AR16", "AR17"] && t !in ["AR18", "AR19", "AR20"];
  }

  lemma {:induction false} DecodeLevelFields(rule: AuxRule, d: Entries)
    requires IsLevelRule(rule) && HoldsFields(rule, d)
    ensures DecodeLevelRule(TagOf(rule), rule.part, d) == Ok(rule)
  {
    var own := OwnFields(rule);
    if rule.AR1? {
      assert Field(d, own[0].0) == Some(own[0].1);
      assert Field(d, own[1].0) == Some(own[1].1);
      assert Field(d, own[2].0) == Some(own[2].1);
    } else if rule.AR2? {
      DecodeAR2Fields(rule, d);
    } else if rule.AR3? {
      DecodeAR3Fields(rule, d);
    } else {
      DecodeAR4Fields(rule, d);
    }
  }

  lemma {:induction false} DecodeAR2Fields(rule: AuxRule, d: Entries)
    requires rule.AR2? && HoldsFields(rule, d)
    ensures DecodeLevelRule("AR2", rule.part, d) == Ok(rule)
  {
    var own := OwnFields(rule);
    assert Field(d, own[0].0) == Some(own[0].1);
    assert Field(d, own[1].0) == Some(own[1].1);
  }

  lemma {:induction false} DecodeAR3Fields(rule: AuxRule, d: Entries)
    requires rule.AR3? && HoldsFields(rule, d)
    ensures DecodeLevelRule("AR3", rule.part, d) == Ok(rule)
  {
    var own := OwnFields(rule);
    assert Field(d, own[0].0) == Some(own[0].1);
    assert Field(d, own[1].0) == Some(own[1].1);
    assert Field(d, own[2].0) == Some(own[2].1);
  }

  lemma {:induction false} DecodeAR4Fields(rule: AuxRule, d: Entries)
    requires rule.AR4? && HoldsFields(rule, d)
    ensures DecodeLevelRule("AR4", rule.part, d) == Ok(rule)
  {
    var own := OwnFields(rule);
    assert Field(d, own[0].0) == Some(own[0].1);
    assert Field(d, own[1].0) == Some(own[1].1);
    assert Field(d, own[2].0) == Some(own[2].1);
    assert Field(d, own[3].0) == Some(own[3].1);
  }

  lemma {:induction false} DecodeProgrammeFields(rule: AuxRule, d: Entries)
    requires (rule.AR5? || rule.AR6? || rule.AR7?) && HoldsFields(rule, d)
    ensures DecodeProgrammeRule(TagOf(rule), rule.part, d) == Ok(rule)
  {
    var own := OwnFields(rule);
    assert Field(d, own[0].0) == Some(own[0].1);
    if !rule.AR7? {
      assert Field(d, own[1].0) == Some(own[1].1);
      ProgramsAt(d, "plan_list_1", rule.planList1);
      ProgramsAt(d, "plan_list_2", rule.planList2);
    }
  }

  lemma {:induction false} DecodeExclusionFields(rule: AuxRule, d: Entries)
    requires (rule.AR9? || rule.AR10? || rule.AR11? || rule.AR13?) && HoldsFields(rule, d)
    ensures DecodeExclusion(TagOf(rule), rule.part, d) == Ok(rule)
  {
    if rule.AR9? {
      DecodeAR9Fields(rule, d);
    } else if rule.AR10? {
      DecodeAR10Fields(rule, d);
    } else if rule.AR11? {
      DecodeAR11Fields(rule, d);
    } else {
      DecodeAR13Fields(rule, d);
    }
  }

  lemma {:induction false} DecodeAR9Fields(rule: AuxRule, d: Entries)
    requires rule.AR9? && HoldsFields(rule, d)
    ensures DecodeExclusion("AR9", rule.part, d) == Ok(rule)
  {
    var own := OwnFields(rule);
    assert Field(d, own[0].0) == Some(own[0].1);
    CoursesAt(d, "course_list", rule.courseList);
  }

  lemma {:induction false} DecodeAR10Fields(rule: AuxRule, d: Entries)
    requires rule.AR10? && HoldsFields(rule, d)
    ensures DecodeExclusion("AR10", rule.part, d) == Ok(rule)
  {
    var own := OwnFields(rule);
    assert Field(d, own[0].0) == Some(own[0].1);
    assert Field(d, own[1].0) == Some(own[1].1);
    CoursesAt(d, "course_list", rule.courseList);
    ProgramsAt(d, "plan_list", rule.planList);
  }

  lemma {:induction false} DecodeAR11Fields(rule: AuxRule, d: Entries)
    requires rule.AR11? && HoldsFields(rule, d)
    ensures DecodeExclusion("AR11", rule.part, d) == Ok(rule)
  {
    var own := OwnFields(rule);
    assert Field(d, own[0].0) == Some(own[0].1);
    assert Field(d, own[1].0) == Some(own[1].1);
    CoursesAt(d, "course_list", rule.courseList);
    ProgramsAt(d, "plan_list", rule.planList);
  }

  lemma {:induction false} DecodeAR13Fields(rule: AuxRule, d: Entries)
    requires rule.AR13? && HoldsFields(rule, d)
    ensures DecodeExclusion("AR13", rule.part, d) == Ok(rule)
  {
    var own := OwnFields(rule);
    assert Field(d, own[0].0) == Some(own[0].1);
    assert Field(d, own[1].0) == Some(own[1].1);
    assert Field(d, own[2].0) == Some(own[2].1);
    ProgramsAt(d, "plan_list", rule.planList);
    CoursesAt(d, "course_list", rule.courseList);
    ProgramsAt(d, "program_plan_list", rule.programPlanList);
  }

  lemma {:induction false} DecodeSubstitutionFields(rule: AuxRule, d: Entries)
    requires (rule.AR15? || rule.AR16? || rule.AR17?) && HoldsFields(rule, d)
    ensures DecodeSubstitution(TagOf(rule), rule.part, d) == Ok(rule)
  {
    if rule.AR15? {
      DecodeAR15Fields(rule, d);
    } else if rule.AR16? {
      DecodeAR16Fields(rule, d);
    } else {
      DecodeAR17Fields(rule, d);
    }
  }

  lemma {:induction false} DecodeAR15Fields(rule: AuxRule, d: Entries)
    requires rule.AR15? && HoldsFields(rule, d)
    ensures DecodeSubstitution("AR15", rule.part, d) == Ok(rule)
  {
    var own := OwnFields(rule);
    assert Field(d, own[0].0) == Some(own[0].1);
    assert Field(d, own[1].0) == Some(own[1].1);
    assert Field(d, own[2].0) == Some(own[2].1);
    assert Field(d, own[3].0) == Some(own[3].1);
    CoursesAt(d, "course_list", rule.courseList);
    ProgramsAt(d, "program_plan_list", rule.programPlanList);
    StringsAt(d, "lists", rule.lists);
  }

  lemma {:induction false} DecodeAR16Fields(rule: AuxRule, d: Entries)
    requires rule.AR16? && HoldsFields(rule, d)
    ensures DecodeSubstitution("AR16", rule.part, d) == Ok(rule)
  {
    var own := OwnFields(rule);
    assert Field(d, own[0].0) == Some(own[0].1);
    assert Field(d, own[1].0) == Some(own[1].1);
    assert Field(d, own[2].0) == Some(own[2].1);
    assert Field(d, own[3].0) == Some(own[3].1);
    assert Field(d, own[4].0) == Some(own[4].1);
    ProgramsAt(d, "plan_list", rule.planList);
    CoursesAt(d, "course_list_1", rule.courseList1);
    CoursesAt(d, "course_list_2", rule.courseList2);
    ProgramsAt(d, "program_plan_list", rule.programPlanList);
  }

  lemma {:induction false} DecodeAR17Fields(rule: AuxRule, d: Entries)
    requires rule.AR17? && HoldsFields(rule, d)
    ensures DecodeSubstitution("AR17", rule.part, d) == Ok(rule)
  {
    var own := OwnFields(rule);
    assert Field(d, own[0].0) == Some(own[0].1);
    assert Field(d, own[1].0) == Some(own[1].1);
    assert Field(d, own[2].0) == Some(own[2].1);
    assert Field(d, own[3].0) == Some(own[3].1);
    assert Field(d, own[4].0) == Some(own[4].1);
    ProgramsAt(d, "plan_list", rule.planList);
    CoursesAt(d, "course_list", rule.courseList);
    ProgramsAt(d, "program_plan_list", rule.programPlanList);
    StringsAt(d, "lists", rule.lists);
  }

  lemma {:induction false} DecodeDualFields(rule: AuxRule, d: Entries)
    requires (rule.AR18? || rule.AR19? || rule.AR20?) && HoldsFields(rule, d)
    ensures DecodeDual(TagOf(rule), rule.part, d) == Ok(rule)
  {
    if rule.AR18? {
      DecodeAR18Fields(rule, d);
    } else if rule.AR19? {
      DecodeAR19Fields(rule, d);
    } else {
      DecodeAR20Fields(rule, d);
    }
  }

  lemma {:induction false} DecodeAR18Fields(rule: AuxRule, d: Entries)
    requires rule.AR18? && HoldsFields(rule, d)
    ensures DecodeDual("AR18", rule.part, d) == Ok(rule)
  {
    var own := OwnFields(rule);
    assert Field(d, own[0].0) == Some(own[0].1);
    assert Field(d, own[1].0) == Some(own[1].1);
    CoursesAt(d, "course_list", rule.courseList);
    ProgramAt(d, "program", rule.program);
  }

  lemma {:induction false} DecodeAR19Fields(rule: AuxRule, d: Entries)
    requires rule.AR19? && HoldsFields(rule, d)
    ensures DecodeDual("AR19", rule.part, d) == Ok(rule)
  {
    var own := OwnFields(rule);
    assert Field(d, own[0].0) == Some(own[0].1);
    assert Field(d, own[1].0) == Some(own[1].1);
    assert Field(d, own[2].0) == Some(own[2].1);
    ProgramsAt(d, "plan_list", rule.planList);
    CoursesAt(d, "course_list", rule.courseList);
    ProgramAt(d, "program", rule.program);
  }

  lemma {:induction false} DecodeAR20Fields(rule: AuxRule, d: Entries)
    requires rule.AR20? && HoldsFields(rule, d)
    ensures DecodeDual("AR20", rule.part, d) == Ok(rule)
  {
    var own := OwnFields(rule);
    assert Field(d, own[0].0) == Some(own[0].1);
    assert Field(d, own[1].0) == Some(own[1].1);
    assert Field(d, own[2].0) == Some(own[2].1);
    assert Field(d, own[3].0) == Some(own[3].1);
    ProgramAt(d, "plan_1", rule.plan1);
    ProgramsAt(d, "plan_list_1", rule.planList1);
    CoursesAt(d, "course_list", rule.courseList);
    ProgramsAt(d, "plan_list_2", rule.planList2);
  }

  lemma {:induction false} DecodeUnknownFields(rule: AuxRule, d: Entries)
    requires rule.ARUnknown? && HoldsFields(rule, d)
    ensures DecodeUnknown(rule.part, d) == Ok(rule)
  {
    var own := OwnFields(rule);
    assert Field(d, own[0].0) == Some(own[0].1);
    assert Field(d, own[1].0) == Some(own[1].1);
    var items := own[1].1.items;
    AllOkOfDecodable(items, DictOf, rule.rawParams);
  }

  /** Decoding the fields a class wrote gives back the rule. */
  lemma {:induction false} DecodeOwnFields(rule: AuxRule, d: Entries)
    requires !rule.AR? && HoldsFields(rule, d)
    requires ReqStr(d, "part") == Ok(rule.part)
    ensures DecodeTagged(TagOf(rule), d) == Ok(rule)
  {
    if IsLevelRule(rule) {
      DispatchLevel(TagOf(rule), d);
      DecodeLevelFields(rule, d);
    } else if rule.AR5? || rule.AR6? || rule.AR7? {
      DispatchProgramme(TagOf(rule), d);
      DecodeProgrammeFields(rule, d);
    } else if rule.AR9? || rule.AR10? || rule.AR11? || rule.AR13? {
      DispatchExclusion(TagOf(rule), d);
      DecodeExclusionFields(rule, d);
    } else if rule.AR15? || rule.AR16? || rule.AR17? {
      DispatchSubstitution(TagOf(rule), d);
      DecodeSubstitutionFields(rule, d);
    } else if rule.AR18? || rule.AR19? || rule.AR20? {
      DispatchDual(TagOf(rule), d);
      DecodeDualFields(rule, d);
    } else {
      DispatchUnknown(d);
      DecodeUnknownFields(rule, d);
    }
  }

  /** A class's own field names are distinct, and neither `part` nor `type`. */
  lemma {:induction false} OwnKeys(rule: AuxRule)
    ensures var own := OwnFields(rule);
      (forall i, j :: 0 <= i < j < |own| ==> own[i].0 != own[j].0) &&
      forall i :: 0 <= i < |own| ==> own[i].0 != "part" && own[i].0 != "type"
  {
  }

  /** The dict `to_dict` writes: unique keys, `part` and every own field readable, and `type` iff written. */
  lemma {:induction false} Written(rule: AuxRule, tail: Entries)
    requires tail == [] || tail == [("type", RStr(TagOf(rule)))]
    ensures var d := [("part", RStr(rule.part))] + OwnFields(rule) + tail;
      HoldsFields(rule, d) && ReqStr(d, "part") == Ok(rule.part) &&
      Field(d, "type") == (if tail == [] then None else Some(RStr(TagOf(rule))))
  {
    var own := OwnFields(rule);
    var d := [("part", RStr(rule.part))] + own + tail;
    OwnKeys(rule);
    assert forall i :: 1 <= i <= |own| ==> d[i] == own[i - 1];
    assert PyDict.UniqueKeys(d);
    FieldsOfUnique(d);
    assert Field(d, d[0].0) == Some(d[0].1);
    forall i | 0 <= i < |own| ensures Field(d, own[i].0) == Some(own[i].1) {
      assert d[i + 1] == own[i];
    }
    if tail == [] {
      PyDict.GetFinds(d, "type");
    } else {
      assert Field(d, d[|d| - 1].0) == Some(d[|d| - 1].1);
    }
  }

  /**
   * With ARUnknown tagged too, `create_ar_from_dict` inverts `to_dict` for every rule.
   */
  lemma {:induction false} ToDictTaggedRoundTrip(rule: AuxRule)
    ensures CreateAuxRule(ToDictTagged(rule)) == Ok(rule)
  {
    var tail: Entries := if rule.AR? then [] else [("type", RStr(TagOf(rule)))];
    Written(rule, tail);
    var d := ToDictTagged(rule);
    assert d == [("part", RStr(rule.part))] + OwnFields(rule) + tail;
    if !rule.AR? {
      DecodeOwnFields(rule, d);
    }
  }

  /**
   * As declared, `create_ar_from_dict` inverts `to_dict` for every rule but ARUnknown,
   * which has no `type` field and comes back as a base AR with only its part.
   */
  lemma {:induction false} ToDictRoundTrip(rule: AuxRule)
    ensures CreateAuxRule(ToDict(rule)) == if rule.ARUnknown? then Ok(AR(rule.part)) else Ok(rule)
  {
    var tail: Entries := if rule.AR? || rule.ARUnknown? then [] else [("type", RStr(TagOf(rule)))];
    Written(rule, tail);
    var d := ToDict(rule);
    assert d == [("part", RStr(rule.part))] + OwnFields(rule) + tail;
    if !rule.AR? && !rule.ARUnknown? {
      DecodeOwnFields(rule, d);
    }
  }
}

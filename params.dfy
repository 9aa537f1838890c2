/**
 * Rule parameters: course and programme references, equivalence groups, and the
 * factory that builds a course-or-group option from a loosely shaped dict.
 */
module Params {
  import opened Wrappers
  import opened PyText
  import opened RawValues
  import PyDict

  datatype CourseRef = CourseRef(
    unitsMax: Option<int>,
    unitsMin: Option<int>,
    code: string,
    orgName: string,
    orgCode: string,
    name: string)

  datatype ProgramRef = ProgramRef(
    unitsMax: Option<int>,
    unitsMin: Option<int>,
    code: string,
    orgName: string,
    orgCode: string,
    name: string,
    abbreviation: string)

  datatype EquivalenceGroup = EquivalenceGroup(courses: seq<CourseRef>, notes: Option<string>)

  /** An option of a unit-counting selection rule: one course, or a group of alternatives. */
  datatype CourseOption = OneCourse(course: CourseRef) | AnyOf(group: EquivalenceGroup)

  /** `CourseRef.validate`: exact equality with the code. */
  predicate CourseMatches(c: CourseRef, item: string) {
    item == c.code
  }

  /** `ProgramRef.validate`: exact equality with the code. */
  predicate ProgramMatches(p: ProgramRef, item: string) {
    item == p.code
  }

  /**
   * `ProgramRef.validate` applied to an arbitrary Python value: `item == self.code`
   * holds only for a string equal to the code.
   */
  predicate ProgramMatchesValue(p: ProgramRef, item: Raw) {
    item == RStr(p.code)
  }

  /** `str()` of a course or programme reference is its code. */
  function CourseText(c: CourseRef): string {
    c.code
  }

  function ProgramText(p: ProgramRef): string {
    p.code
  }

  /** The member codes of a group, in order. */
  function GroupCodes(g: EquivalenceGroup): (r: seq<string>)
    ensures |r| == |g.courses| && forall i :: 0 <= i < |r| ==> r[i] == CourseText(g.courses[i])
  {
    seq(|g.courses|, i requires 0 <= i < |g.courses| => CourseText(g.courses[i]))
  }

  /** What `EquivalenceGroup.validate` decides: some member matches. */
  predicate GroupMatches(g: EquivalenceGroup, item: string) {
    exists i :: 0 <= i < |g.courses| && CourseMatches(g.courses[i], item)
  }

  /** `str()` of a group: its member codes joined by " or ", in parentheses. */
  function GroupText(g: EquivalenceGroup): string {
    "(" + Join(" or ", GroupCodes(g)) + ")"
  }

  predicate OptionMatches(o: CourseOption, item: string) {
    match o
    case OneCourse(c) => CourseMatches(c, item)
    case AnyOf(g) => GroupMatches(g, item)
  }

  function OptionText(o: CourseOption): string {
    match o
    case OneCourse(c) => CourseText(c)
    case AnyOf(g) => GroupText(g)
  }

  /** A reference matches exactly the text it prints as. */
  lemma {:induction false} CourseMatchesOwnText(c: CourseRef, item: string)
    ensures CourseMatches(c, item) <==> item == CourseText(c)
  {
  }

  lemma {:induction false} ProgramMatchesOwnText(p: ProgramRef, item: string)
    ensures ProgramMatches(p, item) <==> item == ProgramText(p)
  {
  }

  /** A group matches exactly its member codes; so an empty group matches nothing. */
  lemma {:induction false} GroupMatchesMembers(g: EquivalenceGroup, item: string)
    ensures GroupMatches(g, item) <==> item in GroupCodes(g)
    ensures g.courses == [] ==> !GroupMatches(g, item)
  {
    if item in GroupCodes(g) {
      var i :| 0 <= i < |GroupCodes(g)| && GroupCodes(g)[i] == item;
      assert CourseMatches(g.courses[i], item);
    }
  }

  lemma {:induction false} GroupTextShapes(g: EquivalenceGroup)
    ensures g.courses == [] ==> GroupText(g) == "()"
    ensures |g.courses| == 1 ==> GroupText(g) == "(" + g.courses[0].code + ")"
    ensures |g.courses| == 2 ==> GroupText(g) == "(" + g.courses[0].code + " or " + g.courses[1].code + ")"
  {
    var cs := GroupCodes(g);
    if |cs| == 2 {
      assert Join(" or ", cs[1..]) == cs[1];
    }
  }

  /** `EquivalenceGroup.validate`: scans the members and stops at the first match. */
  method GroupValidate(g: EquivalenceGroup, item: string) returns (r: bool)
    ensures r == GroupMatches(g, item)
  {
    var i := 0;
    while i < |g.courses|
      invariant 0 <= i <= |g.courses|
      invariant forall k :: 0 <= k < i ==> !CourseMatches(g.courses[k], item)
    {
      if CourseMatches(g.courses[i], item) {
        return true;
      }
      i := i + 1;
    }
    return false;
  }

  method OptionValidate(o: CourseOption, item: string) returns (r: bool)
    ensures r == OptionMatches(o, item)
  {
    match o
    case OneCourse(c) =>
      r := CourseMatches(c, item);
    case AnyOf(g) =>
      r := GroupValidate(g, item);
  }

  // ---------------------------------------------------------------------------
  // Building options from loosely shaped dicts.
  // Constructing a record checks its field types: a field of the wrong type
  // raises SerdeError.

  function AsOptInt(r: Raw): Result<Option<int>> {
    match r
    case RNone => Ok(None)
    case RInt(i) => Ok(Some(i))
    case _ => Err(SerdeError)
  }

  function AsStr(r: Raw): Result<string> {
    if r.RStr? then Ok(r.s) else Err(SerdeError)
  }

  function AsOptStr(r: Raw): Result<Option<string>> {
    match r
    case RNone => Ok(None)
    case RStr(s) => Ok(Some(s))
    case _ => Err(SerdeError)
  }

  /**
   * `_create_course_ref_safely`: each field is read under its snake_case key, and
   * under its camelCase key when the first is missing or falsy; `code` and `name`
   * default to the empty string.
   */
  function CourseRefFromDict(d: seq<(string, Raw)>): Result<CourseRef> {
    var unitsMax :- AsOptInt(Or(GetOr(d, "units_max", RNone), GetOr(d, "unitsMaximum", RNone)));
    var unitsMin :- AsOptInt(Or(GetOr(d, "units_min", RNone), GetOr(d, "unitsMinimum", RNone)));
    var code :- AsStr(GetOr(d, "code", RStr("")));
    var orgName :- AsStr(Or(GetOr(d, "org_name", RStr("")), GetOr(d, "orgName", RStr(""))));
    var orgCode :- AsStr(Or(GetOr(d, "org_code", RStr("")), GetOr(d, "orgCode", RStr(""))));
    var name :- AsStr(GetOr(d, "name", RStr("")));
    Ok(CourseRef(unitsMax, unitsMin, code, orgName, orgCode, name))
  }

  /** The minimal reference built from a bare code. */
  function MinimalCourseRef(code: string): (c: CourseRef)
    ensures CourseText(c) == code
  {
    CourseRef(None, None, code, "", "", "")
  }

  /** Iterating a value with `for x in v`: lists by item, strings by character, dicts by key. */
  function Iterate(v: Raw): (r: Result<seq<Raw>>)
    ensures v.RList? ==> r == Ok(v.items)
    ensures (v.RNone? || v.RInt? || v.RBool?) ==> r == Err(TypeError)
  {
    match v
    case RList(items) => Ok(items)
    case RStr(s) => Ok(seq(|s|, i requires 0 <= i < |s| => RStr([s[i]])))
    case RDict(entries) => Ok(seq(|entries|, i requires 0 <= i < |entries| => RStr(entries[i].0)))
    case _ => Err(TypeError)
  }

  /** One entry of a group's `courses`: a dict is read field by field, anything else by `str()`. */
  function MemberRef(item: Raw): Result<CourseRef> {
    if item.RDict? then CourseRefFromDict(item.entries) else Ok(MinimalCourseRef(Str(item)))
  }

  /** The members a group's entries produce, stopping at the first entry that raises. */
  function GroupMembers(items: seq<Raw>): Result<seq<CourseRef>> {
    if items == [] then Ok([])
    else
      match GroupMembers(items[..|items| - 1])
      case Err(e) => Err(e)
      case Ok(init) =>
        match MemberRef(items[|items| - 1])
        case Err(e) => Err(e)
        case Ok(last) => Ok(init + [last])
  }

  /** Members keep the order of the entries, one member per entry. */
  lemma {:induction false} GroupMembersInOrder(items: seq<Raw>, cs: seq<CourseRef>)
    requires GroupMembers(items) == Ok(cs)
    ensures |cs| == |items|
    ensures forall i :: 0 <= i < |items| ==> MemberRef(items[i]) == Ok(cs[i])
  {
    if items != [] {
      var n := |items| - 1;
      var init := GroupMembers(items[..n]);
      var last := MemberRef(items[n]);
      assert init.Ok? && last.Ok? && cs == init.value + [last.value];
      GroupMembersInOrder(items[..n], init.value);
      forall i | 0 <= i < |items|
        ensures MemberRef(items[i]) == Ok(cs[i])
      {
        if i < n {
          assert items[..n][i] == items[i];
        }
      }
    }
  }

  /** Entries that are not dicts become minimal references whose code is their `str()`. */
  lemma {:induction false} NonDictMembers(items: seq<Raw>)
    requires forall i :: 0 <= i < |items| ==> !items[i].RDict?
    ensures GroupMembers(items).Ok?
    ensures forall i :: 0 <= i < |items| ==>
      |GroupMembers(items).value| == |items| && GroupMembers(items).value[i] == MinimalCourseRef(Str(items[i]))
  {
    if items != [] {
      var n := |items| - 1;
      assert forall i :: 0 <= i < n ==> items[..n][i] == items[i];
      NonDictMembers(items[..n]);
      assert MemberRef(items[n]).Ok?;
    }
    GroupMembersInOrder(items, GroupMembers(items).value);
  }

  /** What `_create_equivalence_group_safely` builds from a dict. */
  function EquivalenceGroupFromDict(d: seq<(string, Raw)>): Result<EquivalenceGroup> {
    var items :- Iterate(GetOr(d, "courses", RList([])));
    var members :- GroupMembers(items);
    var notes :- AsOptStr(GetOr(d, "notes", RNone));
    Ok(EquivalenceGroup(members, notes))
  }

  /** `_create_equivalence_group_safely`: appends one member per entry of `courses`. */
  method CreateEquivalenceGroupSafely(d: seq<(string, Raw)>) returns (r: Result<EquivalenceGroup>)
    ensures r == EquivalenceGroupFromDict(d)
  {
    var it := Iterate(GetOr(d, "courses", RList([])));
    if it.Err? {
      return Err(it.error);
    }
    var items := it.value;
    var courses: seq<CourseRef> := [];
    var i := 0;
    while i < |items|
      invariant 0 <= i <= |items|
      invariant GroupMembers(items[..i]) == Ok(courses)
    {
      assert items[..i + 1][..i] == items[..i];
      var member := MemberRef(items[i]);
      if member.Err? {
        assert GroupMembers(items[..i + 1]).Err?;
        GroupMembersPrefixErr(items, i + 1);
        return Err(member.error);
      }
      courses := courses + [member.value];
      i := i + 1;
    }
    assert items[..i] == items;
    var notes := AsOptStr(GetOr(d, "notes", RNone));
    if notes.Err? {
      return Err(notes.error);
    }
    return Ok(EquivalenceGroup(courses, notes.value));
  }

  /** Once a prefix of the entries raises, so do all the entries, with the same error. */
  lemma {:induction false} GroupMembersPrefixErr(items: seq<Raw>, k: nat)
    requires k <= |items| && GroupMembers(items[..k]).Err?
    ensures GroupMembers(items) == GroupMembers(items[..k])
    decreases |items| - k
  {
    if k < |items| {
      assert items[..k + 1][..k] == items[..k];
      GroupMembersPrefixErr(items, k + 1);
    } else {
      assert items[..k] == items;
    }
  }

  /** Python's `k in s` on strings. */
  predicate IsSubstring(k: string, s: string)
    decreases |s|
  {
    |k| <= |s| && (s[..|k|] == k || IsSubstring(k, s[1..]))
  }

  /**
   * The factory given something other than a dict: a `key in x` test that holds is
   * followed by `x[key]`, which raises TypeError for strings and lists; otherwise the
   * fallback calls `.get`, which raises AttributeError; `in` on a number or None raises
   * TypeError.
   */
  function NonDictOption(data: Raw): (r: Result<CourseOption>)
    requires !data.RDict?
    ensures r.Err?
  {
    match data
    case RStr(s) =>
      if IsSubstring("CourseRef", s) || IsSubstring("EquivalenceGroup", s) || IsSubstring("type", s)
      then Err(TypeError) else Err(AttributeError)
    case RList(items) =>
      if RStr("CourseRef") in items || RStr("EquivalenceGroup") in items || RStr("type") in items
      then Err(TypeError) else Err(AttributeError)
    case _ => Err(TypeError)
  }

  /** `_create_course_ref_safely` called on a value: `.get` on a non-dict raises AttributeError. */
  function CourseRefFromValue(v: Raw): Result<CourseRef> {
    if v.RDict? then CourseRefFromDict(v.entries) else Err(AttributeError)
  }

  function EquivalenceGroupFromValue(v: Raw): Result<EquivalenceGroup> {
    if v.RDict? then EquivalenceGroupFromDict(v.entries) else Err(AttributeError)
  }

  function AsCourse(r: Result<CourseRef>): Result<CourseOption> {
    var c :- r;
    Ok(OneCourse(c))
  }

  function AsGroup(r: Result<EquivalenceGroup>): Result<CourseOption> {
    var g :- r;
    Ok(AnyOf(g))
  }

  /** The two spellings of each `type` value that the factory recognises. */
  predicate CourseType(t: Raw) {
    t == RStr("course") || t == RStr("CourseRef")
  }

  predicate GroupType(t: Raw) {
    t == RStr("equivalence") || t == RStr("EquivalenceGroup")
  }

  /** `create_course_or_equivalence_from_dict`. */
  function CourseOrEquivalenceFromDict(data: Raw): Result<CourseOption> {
    if !data.RDict? then NonDictOption(data)
    else
      var d := data.entries;
      if Has(d, "CourseRef") then AsCourse(CourseRefFromValue(GetOr(d, "CourseRef", RNone)))
      else if Has(d, "EquivalenceGroup") then AsGroup(EquivalenceGroupFromValue(GetOr(d, "EquivalenceGroup", RNone)))
      else if Has(d, "type") && CourseType(GetOr(d, "type", RNone)) then AsCourse(CourseRefFromDict(d))
      else if Has(d, "type") && GroupType(GetOr(d, "type", RNone)) then AsGroup(EquivalenceGroupFromDict(d))
      else if Has(d, "courses") then AsGroup(EquivalenceGroupFromDict(d))
      else AsCourse(CourseRefFromDict(d))
  }

  /**
   * Which kind of option the factory builds from a dict: a group exactly when no
   * `CourseRef` wrapper is present and either an `EquivalenceGroup` wrapper is, or
   * the `type` names a group, or no `type` names a course and a `courses` key exists.
   */
  lemma {:induction false} FactoryKind(d: seq<(string, Raw)>)
    requires CourseOrEquivalenceFromDict(RDict(d)).Ok?
    ensures CourseOrEquivalenceFromDict(RDict(d)).value.AnyOf? <==>
      !Has(d, "CourseRef") &&
      (Has(d, "EquivalenceGroup")
       || (Has(d, "type") && GroupType(GetOr(d, "type", RNone)))
       || (!(Has(d, "type") && CourseType(GetOr(d, "type", RNone))) && Has(d, "courses")))
  {
    var t := GetOr(d, "type", RNone);
    assert !(CourseType(t) && GroupType(t));
  }

  /** With neither wrapper nor `type` nor `courses`, the dict itself is read as a course. */
  lemma {:induction false} FactoryFallsBackToCourse(d: seq<(string, Raw)>)
    requires !Has(d, "CourseRef") && !Has(d, "EquivalenceGroup") && !Has(d, "type") && !Has(d, "courses")
    ensures CourseOrEquivalenceFromDict(RDict(d)) == AsCourse(CourseRefFromDict(d))
  {
  }

  /** The snake_case field wins when truthy; the camelCase one is used when it is missing or falsy. */
  lemma {:induction false} SnakeCaseFirst(d: seq<(string, Raw)>)
    requires CourseRefFromDict(d).Ok?
    ensures Truthy(GetOr(d, "org_name", RStr(""))) ==> CourseRefFromDict(d).value.orgName == GetOr(d, "org_name", RStr("")).s
    ensures !Truthy(GetOr(d, "org_name", RStr(""))) ==> RStr(CourseRefFromDict(d).value.orgName) == GetOr(d, "orgName", RStr(""))
    ensures !Has(d, "code") ==> CourseRefFromDict(d).value.code == ""
  {
    PyDict.GetFinds(d, "code");
  }
}

# UQRoadmap degree-requirement engine, in Dafny

This project models the core of UQRoadmap, a planner that checks a student's
course plan against the requirements of a University of Queensland degree.
The model covers:

- **Rule value objects.** Course and programme references and equivalence
  groups are exact-code matchers. A factory builds a course-or-group option
  from a loosely shaped dict (`params.dfy`).
- **Auxiliary rules AR1-AR20 and ARUnknown.** Each rule evaluates a plan against
  a course-units lookup and returns one `ValidateResult`. The rules cover
  level-based unit bounds, co-requisite and exclusive programmes, the
  discipline cap, credit exclusions, MUST/MAY substitutions and dual-programme
  attribution. The tag-driven factory picks a rule class from the dict's
  `type` (`validate_result.dfy`, `plan.dfy`, `aux_scans.dfy`, `aux_rule.dfy`,
  `serde_fields.dfy`, `aux_factory.dfy`).
- **Selection rules SR1-SR8 and their factory.** SR1-SR5 total units over
  option lists; SR6-SR8 count chosen programmes (`sr_scans.dfy`, `sr_rule.dfy`,
  `sr_factory.dfy`).
- **The degree aggregate.** Every auxiliary rule's result comes first, then
  every selection rule's, one result per rule (`degree.dfy`).
- **The two requirement-expression parsers.** The current one has dotted part
  ids, comma course lists and an OTHER fallback; the older one has none of
  these and raises on a parse error. Both share one recursive-descent grammar
  with `and` binding tighter than `or`. A minimal-parenthesis printer comes
  with round-trip theorems, and generic lemmas cover the shapes on the parser's
  test list (`reqs_grammar.dfy`, `reqs_render.dfy`, `reqs_parsing.dfy`,
  `reqs.dfy`, `reqs_shapes.dfy`).
- **The raw-to-flat converter.** It has tolerant scalar parsers, a coercion of
  mixed values into reference lists, the code-to-variant dispatch with an
  ARUnknown fallback, and the component walk that gives every rule its part
  (`converter.dfy`, `degree_converter.dfy`).
- **Small string rules:**
  - the stored plan's `courses` and `course_dates` views (`plan_model.dfy`);
  - splitting a course code at its first digit (`course_models.dfy`);
  - the offering-year parse and the active/recency rule of the course
    transformer (`course_transformers.dfy`);
  - the semester planner page's greedy 8-unit packing, its semester codes and
    its drag-and-drop update (`sem_plan.dfy`).
- **The Rust rewrite.** This covers the strict four-letter, four-digit
  course-code parser built from parser combinators, the internally tagged rule
  enum and its "type" tags, and the flat rule enum of the processed form
  (`rust_verifier.dfy`).

Shared vocabulary lives in a few helper modules:

- `wrappers.dfy`: Python exceptions are values, `Result<T> = Ok(T) | Err(Exception)`.
- `pytext.dfy`: string operations.
- `pydict.dfy`: dicts are association lists, because iteration order is
  observable.
- `raw.dfy`: loosely shaped JSON values.
- `seqs.dfy`: sequence helpers.

Code that works by updating variables is modelled as Dafny methods with loop
invariants, each proved equal to a declarative function. The properties are
proved about those functions. Examples of such loops are the AR/SR scans, the
converter's list loops and component walk, the degree's two result loops, and
the page's packing and semester loops.

Where the two parsers or the converter contain an error, the model has two
versions of the member:

- **as written**, with a lemma that shows the discrepancy;
- **corrected**, which the rest of the model uses.

See "## Findings" for each case.

## Model

| member | source | states |
|---|---|---|
| ValidateResults.PercentOf | backend/src/degree/aux_rule.py:89 | `a / b * 100.0` fails exactly when b is zero, with ZeroDivisionError, and is otherwise the exact quotient 100a/b |
| ValidateResults.Passed | backend/src/degree/aux_rule.py:86 | a passing result has status OK, no relevant courses and the rule's part |
| Plans.AllChosenMember | backend/src/degree/aux_rule.py:262 | a code is among all chosen specialisations iff it is listed under some part |
| Params.CourseMatchesOwnText | backend/src/degree/params.py:23-32 | a course reference accepts an item iff the item equals the code, which is also what it prints as |
| Params.ProgramMatchesOwnText | backend/src/degree/params.py:134-143 | a programme reference accepts an item iff the item equals the code, which is also what it prints as |
| Params.GroupCodes | backend/src/degree/params.py:37 | a group's member codes, one per member, in member order |
| Params.GroupMatchesMembers | backend/src/degree/params.py:40-45 | a group accepts an item iff the item is one of its member codes; an empty group accepts nothing |
| Params.GroupTextShapes | backend/src/degree/params.py:47-48 | a group prints as "()" when empty, "(A)" with one member and "(A or B)" with two |
| Params.GroupValidate | backend/src/degree/params.py:40-45 | the member loop returns true at the first matching member and false after the last, i.e. exactly when some member matches |
| Params.OptionValidate | backend/src/degree/params.py:23-29 | validating an option dispatches to the course or the group check and agrees with the option's match predicate |
| Params.MinimalCourseRef | backend/src/degree/params.py:108-115 | the minimal reference built from a bare code prints as that code |
| Params.Iterate | backend/src/degree/params.py:101-103 | iterating a list yields its items; iterating None, a number or a boolean raises TypeError |
| Params.GroupMembersInOrder | backend/src/degree/params.py:100-115 | a group built from entries has one member per entry, member i being the conversion of entry i |
| Params.NonDictMembers | backend/src/degree/params.py:106-115 | entries that are not dicts never fail and become minimal references whose code is the entry's text |
| Params.CreateEquivalenceGroupSafely | backend/src/degree/params.py:98-120 | the append loop builds the same group (or raises the same error) as converting the entries one by one |
| Params.GroupMembersPrefixErr | backend/src/degree/params.py:103-105 | an entry that raises ends the conversion: the error of the first failing prefix is the error of the whole list |
| Params.NonDictOption | backend/src/degree/params.py:66-83 | the factory given something other than a dict always raises |
| Params.FactoryKind | backend/src/degree/params.py:61-83 | the factory builds a group iff no CourseRef wrapper is present and an EquivalenceGroup wrapper is, or the type names a group, or no type names a course and a courses key is present |
| Params.FactoryFallsBackToCourse | backend/src/degree/params.py:81-83 | a dict with no wrapper, no type and no courses key is read as a course reference |
| Params.SnakeCaseFirst | backend/src/degree/params.py:89-95 | a truthy snake_case field is used, otherwise the camelCase one; a missing code becomes the empty string |
| AuxScans.AtLevelCoursesMember | backend/src/degree/aux_rule.py:69-73 | a course is counted iff it is a plan course whose level equals the rule's level, or exceeds it when `or_higher` holds |
| AuxScans.LevelScanStops | backend/src/degree/aux_rule.py:66-76 | once a prefix of the plan raises or meets a bad level, the scan of the whole plan ends the same way |
| AuxScans.LevelScanCounts | backend/src/degree/aux_rule.py:67-74 | with a digit at index 4 of every code, the scan returns exactly the counted courses in plan order and the sum of their looked-up units (0 for unknown courses) |
| AuxScans.LevelScanFirstMalformed | backend/src/degree/aux_rule.py:66-76 | the first code without a digit at index 4 decides the scan: IndexError when it is shorter than five characters, otherwise a ValueError outcome naming that course |
| AuxScans.ScanLevels | backend/src/degree/aux_rule.py:62-76 | the AR1-AR4 loop (accumulate units, append counted courses, stop at the first bad code) computes the level scan |
| AuxScans.MatchingCoursesMember | backend/src/degree/aux_rule.py:370-372 | the plan courses a reference collects are exactly the plan courses it matches |
| AuxScans.OverlapMember | backend/src/degree/aux_rule.py:369-372 | a code is in the overlap iff it is a plan course matched by some reference of the list |
| AuxScans.OverlapEmpty | backend/src/degree/aux_rule.py:374 | the overlap is empty iff no reference matches any plan course |
| AuxScans.ComputeOverlap | backend/src/degree/aux_rule.py:368-372 | the nested reference/course loop appends exactly the overlap, reference by reference in plan order |
| AuxScans.AnyChosenByCode | backend/src/degree/aux_rule.py:254-258 | some reference is chosen iff the code of some reference is among the chosen specialisations |
| AuxScans.FirstChosenMeaning | backend/src/degree/aux_rule.py:392-394 | the nested search finds a reference iff one is chosen, and it finds the earliest one in list order |
| AuxScans.FindChosen | backend/src/degree/aux_rule.py:392-394 | the nested loop over references and chosen specialisations returns the first chosen reference or none |
| AuxScans.CourseCodes | backend/src/degree/aux_rule.py:376 | `[str(c) for c in course_list]` keeps one code per reference, in order |
| AuxScans.ProgramCodes | backend/src/degree/aux_rule.py:271-272 | `[str(p) for p in plan_list]` keeps one code per reference, in order |
| AuxScans.ConflictsMember | backend/src/degree/aux_rule.py:303-307 | a code is collected as a conflict iff it is the code of a reference and one of the chosen values |
| AuxScans.ConflictsEmpty | backend/src/degree/aux_rule.py:309 | there is no conflict iff no reference's code is among the chosen values |
| AuxScans.ConflictCodes | backend/src/degree/aux_rule.py:303-307 | the loop with its inner `break` collects each conflicting reference's code once, in list order |
| AuxScans.DisciplineOf | backend/src/degree/aux_rule.py:336 | `course[:4]` is the first four characters, or the whole code when shorter, and never raises |
| AuxScans.InDisciplineMember | backend/src/degree/aux_rule.py:340-342 | a course is in a discipline's list iff it is a plan course with that discipline |
| AuxScans.InDisciplineSnoc | backend/src/degree/aux_rule.py:339-342 | appending a course extends only its own discipline's list and units |
| AuxScans.DisciplinesMember | backend/src/degree/aux_rule.py:339-341 | the dict keys are the disciplines of the plan's courses, each once |
| AuxScans.OverCapMember | backend/src/degree/aux_rule.py:351-353 | a course is collected iff its discipline is among those scanned and has more than n units |
| AuxScans.OverCapCourses | backend/src/degree/aux_rule.py:350-353 | AR7's bad list holds exactly the plan courses whose discipline has more than n units |
| AuxScans.NoneInDiscipline | backend/src/degree/aux_rule.py:340-341 | a discipline not yet seen has no courses |
| AuxScans.GroupForKeys | backend/src/degree/aux_rule.py:333-342 | both dicts are keyed by the disciplines in order of first appearance |
| AuxScans.GroupCountsGet | backend/src/degree/aux_rule.py:339 | each discipline maps to the sum of its courses' units; other keys are absent |
| AuxScans.GroupListsGet | backend/src/degree/aux_rule.py:340-342 | each discipline maps to its courses in plan order; other keys are absent |
| AuxScans.GroupByDiscipline | backend/src/degree/aux_rule.py:332-343 | AR7's first loop builds the two dicts in place as the grouping functions describe |
| AuxScans.GroupForAt | backend/src/degree/aux_rule.py:351 | entry k of either dict is the k-th discipline with its units or its courses |
| AuxScans.DisciplineScan | backend/src/degree/aux_rule.py:346-353 | AR7's loops report whether some discipline exceeds n and collect the over-cap courses discipline by discipline |
| AuxScans.AnyOverMeaning | backend/src/degree/aux_rule.py:350 | `any(count > n ...)` over the dict holds iff some plan course's discipline has more than n units |
| AuxRules.FindOther | backend/src/degree/aux_rule.py:653-654 | AR18's inner loop finds a chosen specialisation under the part that is not the programme iff one exists |
| AuxRules.IsChosen | backend/src/degree/aux_rule.py:684-687 | the inner loop of AR19/AR20 decides whether one programme is chosen under the part |
| AuxRules.ValidateAux | backend/src/degree/aux_rule.py:41-744 | each rule's `validate`, run with the scan loops, returns what the rule decides |
| AuxRules.ValidateLevelRule | backend/src/degree/aux_rule.py:58-237 | AR1-AR4 evaluated with one level scan and their thresholds |
| AuxRules.ValidateProgrammeRule | backend/src/degree/aux_rule.py:248-355 | AR5-AR7 evaluated with the programme searches and the discipline grouping |
| AuxRules.ValidateExclusion | backend/src/degree/aux_rule.py:365-495 | AR9, AR10, AR11 and AR13 evaluated with the overlap loop and the programme search |
| AuxRules.ValidateSubstitution | backend/src/degree/aux_rule.py:508-636 | AR15-AR17 evaluated with the overlap loop |
| AuxRules.ValidateAR15 | backend/src/degree/aux_rule.py:508-541 | AR15 evaluated with the overlap loop |
| AuxRules.ValidateAR16 | backend/src/degree/aux_rule.py:555-589 | AR16 evaluated with the overlap loop over `course_list_1` |
| AuxRules.ValidateAR17 | backend/src/degree/aux_rule.py:603-636 | AR17 evaluated with the overlap loop |
| AuxRules.ValidateDual | backend/src/degree/aux_rule.py:647-744 | AR18-AR20 evaluated with their nested loops and early returns |
| AuxRules.LevelRuleCounts | backend/src/degree/aux_rule.py:66-92 | with well-formed levels a level rule applies its thresholds to the units of exactly the courses at its level |
| AuxRules.AR1Meaning | backend/src/degree/aux_rule.py:58-92 | AR1 passes iff the counted units reach n and never raises; a failure is ERROR listing the counted courses with percentage 100·count/n |
| AuxRules.AR2Meaning | backend/src/degree/aux_rule.py:103-137 | AR2 counts the exact level only and passes iff the units are at most n; a failure lists the counted courses, and raises ZeroDivisionError iff n = 0 |
| AuxRules.AR3Meaning | backend/src/degree/aux_rule.py:149-183 | AR3 passes iff the counted units equal n; a failure lists the counted courses, and raises ZeroDivisionError iff n = 0 |
| AuxRules.AR4Meaning | backend/src/degree/aux_rule.py:196-237 | AR4 passes iff n ≤ count ≤ m; a count below n is reported against n (even when also above m), a count above m against m, which raises when m = 0 |
| AuxRules.LevelRuleMalformed | backend/src/degree/aux_rule.py:66-83 | the first code without a digit at index 4 decides every level rule: IndexError when shorter than five characters, otherwise ERROR "Invalid course level format" listing that course |
| AuxRules.AR5Meaning | backend/src/degree/aux_rule.py:248-276 | AR5 (corrected) fails iff a `plan_list_1` code is chosen under the part and no `plan_list_2` code is chosen anywhere, listing the `plan_list_2` codes |
| AuxRules.RequiredAsWrittenEmpty | backend/src/degree/aux_rule.py:263-265 | as written, validating a reference against the whole list of chosen values never collects anything |
| AuxRules.AR5AsWrittenAlwaysFails | backend/src/degree/aux_rule.py:260-274 | AR5 as written fails whenever a `plan_list_1` programme is chosen under the part |
| AuxRules.AR5Counterexample | backend/src/degree/aux_rule.py:254-276 | choosing P1 and P2 under part A against "P1 only with P2" fails as written and passes as intended |
| AuxRules.AR6Meaning | backend/src/degree/aux_rule.py:287-318 | AR6 fails iff a `plan_list_1` code is chosen under the part and a `plan_list_2` code is chosen anywhere, listing exactly the chosen `plan_list_2` codes; its results carry no part |
| AuxRules.AR7Meaning | backend/src/degree/aux_rule.py:328-355 | AR7 fails iff some discipline's units exceed n, listing exactly the courses of the over-cap disciplines with percentage 0/n, which raises when n = 0 |
| AuxRules.AR9Meaning | backend/src/degree/aux_rule.py:365-378 | AR9 fails iff a listed course is in the plan, listing exactly the plan courses the list names |
| AuxRules.AR10Meaning | backend/src/degree/aux_rule.py:389-411 | AR10 fails iff a `plan_list` code is chosen under the part and the overlap is non-empty, listing the overlap with percentage 0 |
| AuxRules.AR11Meaning | backend/src/degree/aux_rule.py:422-452 | AR11 fails iff the overlap is non-empty and no `plan_list` code is chosen under the part, listing the overlap |
| AuxRules.AR13Meaning | backend/src/degree/aux_rule.py:473-495 | AR13 fails under AR10's condition; a pass after a chosen programme carries no part |
| AuxRules.SubstitutionMeaning | backend/src/degree/aux_rule.py:517-541 | a substitution fails iff it is MUST and the overlap is empty, listing the named codes; a MAY pass lists the overlap |
| AuxRules.AR15Meaning | backend/src/degree/aux_rule.py:508-541 | a MUST AR15 fails iff no listed course is in the plan, listing the listed codes; a MAY AR15 never fails and lists the overlap |
| AuxRules.AR16Meaning | backend/src/degree/aux_rule.py:555-589 | AR16 decides as AR15 over `course_list_1` |
| AuxRules.AR17Meaning | backend/src/degree/aux_rule.py:603-636 | AR17 decides as AR15 over its course list |
| AuxRules.AR18Meaning | backend/src/degree/aux_rule.py:647-663 | AR18 fails iff a listed course is in the plan and some specialisation chosen under the part is not the programme, reporting the first overlapping course |
| AuxRules.AR19Meaning | backend/src/degree/aux_rule.py:675-700 | AR19 fails iff some `plan_list` code is the degree, a listed course is in the plan and the programme is not chosen under the part, reporting the first overlapping course |
| AuxRules.AR20Meaning | backend/src/degree/aux_rule.py:713-744 | AR20 fails iff `plan_1` is the degree, a `plan_list_1` code is chosen under the part, a listed course is in the plan and no `plan_list_2` code is chosen under the part |
| AuxRules.AbstractMeaning | backend/src/degree/aux_rule.py:41-46 | the base rule and `ARUnknown` always fail with the fixed message, listing every plan course |
| AuxRules.AuxOutcomeShape | backend/src/degree/aux_rule.py:41-744 | only level rules raise IndexError, only AR2/AR3/AR4/AR7 divide by zero, no rule warns, and only a MAY substitution passes with relevant courses |
| AuxRules.LevelScanErrors | backend/src/degree/aux_rule.py:66-76 | the level scan raises nothing but IndexError; ValueError is caught |
| AuxFactory.TagOf | backend/src/degree/aux_rule.py:759-778 | every rule value's class is the base class "AR" or one of the factory's map keys |
| AuxFactory.DecodeTagged | backend/src/degree/aux_rule.py:780-781 | `from_dict` for a mapped class builds that class with the dict's `part`, and fails only with a deserialisation error |
| AuxFactory.CreateAuxRuleTag | backend/src/degree/aux_rule.py:755-783 | the factory builds the class its `type` names, or the base class for a missing or unknown type, with the dict's part; TypeError exactly for an unhashable type; otherwise only deserialisation errors |
| AuxFactory.DecodeOwnFields | backend/src/degree/aux_rule.py:49-752 | decoding a dict holding a class's declared fields gives back that rule |
| AuxFactory.OwnKeys | backend/src/degree/aux_rule.py:49-752 | a class's own field names are distinct and are neither `part` nor `type` |
| AuxFactory.Written | backend/src/degree/aux_rule.py:36-56 | the dict a rule serialises to holds its part and every declared field, and a `type` exactly when one is written |
| AuxFactory.ToDictTaggedRoundTrip | backend/src/degree/aux_rule.py:747-783 | with ARUnknown given a `type` default too, the factory inverts serialisation for every rule |
| AuxFactory.ToDictRoundTrip | backend/src/degree/aux_rule.py:747-783 | as declared, the factory inverts serialisation for every rule but ARUnknown, which has no `type` field and comes back as a base AR with only its part |
| SerdeFields.ProgramRefRoundTrip | backend/src/degree/params.py:123-132 | a programme reference serialised field by field under its declared names deserialises back to itself |
| SerdeFields.CourseRefRoundTrip | backend/src/degree/params.py:13-21 | a course reference serialised field by field under its declared names deserialises back to itself |
| SerdeFields.ProgramRefsRoundTrip | backend/src/degree/aux_rule.py:244-245 | a serialised list of programme references deserialises back to the same list |
| SerdeFields.CourseRefsRoundTrip | backend/src/degree/aux_rule.py:362 | a serialised list of course references deserialises back to the same list |
| SerdeFields.StringsRoundTrip | backend/src/degree/aux_rule.py:505 | a serialised list of strings deserialises back to the same list |
| SerdeFields.AllOkPrefixErr | backend/src/degree/aux_rule.py:244-245 | decoding a list stops at the first item that fails, with that item's error |
| SelectionScans.FirstMatchMeaning | backend/src/degree/sr_rule.py:67-72 | an option's first match is none iff it matches no plan course, and otherwise the earliest plan course it matches |
| SelectionScans.OptionScanMeaning | backend/src/degree/sr_rule.py:65-74 | each option lands in `done` or in `bad`; the count is the looked-up units of the `done` courses, each a plan course some option matches; `bad` holds exactly the texts of the unmatched options |
| SelectionScans.OptionScanAllMatched | backend/src/degree/sr_rule.py:73-74 | `badcourses` is empty iff every option matches some plan course |
| SelectionScans.FindFirstMatch | backend/src/degree/sr_rule.py:67-72 | the inner loop with its `break` returns the option's first matching plan course |
| SelectionScans.ScanOptions | backend/src/degree/sr_rule.py:61-76 | the SR1-SR5 loop computes the option scan |
| SelectionScans.ProgramScanMeaning | backend/src/degree/sr_rule.py:329-341 | SR7/SR8 count the chosen options; `doneoptions` and `notdoneoptions` are the chosen and unchosen codes in option order and together cover every option |
| SelectionScans.ChosenCodesMember | backend/src/degree/sr_rule.py:334-338 | a code is among the done options iff it is chosen under the part and is some option's code |
| SelectionScans.UnchosenCodesMember | backend/src/degree/sr_rule.py:340-341 | a code is among the not-done options iff it is not chosen under the part and is some option's code |
| SelectionScans.ScanPrograms | backend/src/degree/sr_rule.py:329-341 | the SR7/SR8 loop computes the programme scan |
| SelectionRules.OptionTexts | backend/src/degree/sr_rule.py:91 | `[str(option) for option in self.options]` keeps one text per option, in order |
| SelectionRules.UnitFailure | backend/src/degree/sr_rule.py:82-87 | a failure whose percentage is `a / b * 100.0` raises exactly when b is zero, and is otherwise ERROR with the exact percentage |
| SelectionRules.UnitVerdict | backend/src/degree/sr_rule.py:81-289 | SR1-SR5 never warn and carry no part; they only raise ZeroDivisionError, and SR3 never raises |
| SelectionRules.SR6Outcome | backend/src/degree/sr_rule.py:303-315 | SR6 lists every option code in both outcomes and never warns |
| SelectionRules.CountVerdict | backend/src/degree/sr_rule.py:345-357 | SR7/SR8 verdicts never warn and carry no part |
| SelectionRules.SROutcome | backend/src/degree/sr_rule.py:45-401 | no selection rule warns or carries a part; the only error raised is a division by zero in SR1, SR2, SR4 or SR5 |
| SelectionRules.ValidateSR | backend/src/degree/sr_rule.py:45-401 | each rule's `validate`, run with the scan loops, returns the rule's outcome |
| SelectionRules.SR1Meaning | backend/src/degree/sr_rule.py:57-92 | SR1 passes iff the count is exactly n and every option matched; a wrong count is reported first even when all matched; failures list the missing options; with n = 0 every failure raises |
| SelectionRules.SR2Meaning | backend/src/degree/sr_rule.py:104-146 | SR2 checks under n, then over m, then missing options; under lists the missing options, over the matched courses; it passes iff n ≤ count ≤ m and every option matched |
| SelectionRules.SR3Meaning | backend/src/degree/sr_rule.py:157-187 | SR3 passes iff the count reaches n, whether or not options are missing, and never raises |
| SelectionRules.SR4Meaning | backend/src/degree/sr_rule.py:200-239 | SR4 passes iff n ≤ count ≤ m; under lists the missing options, over the matched courses |
| SelectionRules.SR5Meaning | backend/src/degree/sr_rule.py:250-289 | SR5 passes iff the count is exactly n; under lists the missing options, over the matched courses |
| SelectionRules.SR6Meaning | backend/src/degree/sr_rule.py:300-315 | SR6 passes iff some option code is chosen under the part; both outcomes list every option code |
| SelectionRules.SR7Meaning | backend/src/degree/sr_rule.py:326-357 | SR7 passes iff exactly n options are chosen under the part; too few lists the unchosen codes, too many the chosen ones |
| SelectionRules.SR8Meaning | backend/src/degree/sr_rule.py:370-401 | SR8 passes iff n to m options are chosen under the part; too few lists the unchosen codes, too many the chosen ones |
| SelectionRules.AbstractMeaning | backend/src/degree/sr_rule.py:45-46 | the base rule always fails with the fixed message, listing every plan course |
| SelectionFactory.BuildDirect | backend/src/degree/sr_rule.py:430-447 | the direct construction builds the class its tag names, with the converted options |
| SelectionFactory.Deserialise | backend/src/degree/sr_rule.py:450-464 | `from_dict` builds SR6-SR8 for their tags and the base class otherwise, with the dict's part; it fails only with a deserialisation error |
| SelectionFactory.CreateSRFromDict | backend/src/degree/sr_rule.py:404-464 | the factory with its option-conversion loop returns what converting the options one by one and building the rule gives |
| SelectionFactory.SRFromDictTag | backend/src/degree/sr_rule.py:404-464 | the factory builds the class its `type` names, the base class for a missing or unknown type |
| SelectionFactory.SRFromDictOffPath | backend/src/degree/sr_rule.py:449-464 | off the direct path the rule keeps the dict's part; TypeError exactly for an unhashable type; otherwise only deserialisation errors |
| SelectionFactory.SRFromDictNoOptions | backend/src/degree/sr_rule.py:409-464 | an SR1-SR5 dict without `options` always fails, since `options` is a required field |
| SelectionFactory.DirectPathMeaning | backend/src/degree/sr_rule.py:409-447 | on the direct path the options are converted in order, a missing part becomes "", and a missing `n` (or `m` for SR2/SR4) raises KeyError |
| Degrees.Validate | backend/src/degree/degree.py:41-52 | the two append loops return the aux results then the SR results, or the first error a rule raises |
| Degrees.ValidateAuxLoop | backend/src/degree/degree.py:46-48 | the first loop yields exactly the aux rules' results in rule order, or the error of the first rule that raises |
| Degrees.ValidateSRLoop | backend/src/degree/degree.py:49-50 | the second loop appends exactly the SR rules' results, in rule order, to the results so far, or raises the first SR rule's error |
| Degrees.RunStep | backend/src/degree/degree.py:47-48 | one more rule that succeeds appends its own result |
| Degrees.RunErrFrom | backend/src/degree/degree.py:47-50 | a rule that raises after a prefix of successes ends validation with its error |
| Degrees.RunMeaning | backend/src/degree/degree.py:47-50 | running a rule list gives one result per rule, each that rule's own, and fails iff some rule raises, with that rule's error |
| Degrees.ValidationMeaning | backend/src/degree/degree.py:46-52 | validation returns exactly `len(aux) + len(srs)` results, the aux results in order followed by the SR results in order, and raises iff some rule raises |
| Degrees.ValidationIgnoresLogic | backend/src/degree/degree.py:35-52 | `part_references` and `rule_logic` do not affect validation |
| Degrees.BuildValidatesToNothing | backend/src/degree/degree.py:54-65 | a built degree has sem 1, no part references and no rule logic, and validates every plan to no results |
| ReqsGrammar.SkipWS | backend/src/common/reqs_parsing.py:41-42 | the ignored `WS` separator is skipped greedily: every skipped character is whitespace and the next one is not |
| ReqsGrammar.CourseCodeAt | backend/src/common/reqs_parsing.py:39 | a COURSE_CODE token, when there is one, is non-empty and ends inside the text |
| ReqsGrammar.PartAt | backend/src/common/reqs_parsing.py:36 | a PART_PATTERN token is at least "Part", one space and a letter long |
| ReqsGrammar.ParseAllShaped | backend/src/common/reqs_parsing.py:13-43 | every tree the grammar and transformer build has binary AND/OR nodes over non-empty atoms, or course-list nodes, and no OTHER node |
| ReqsRender.RoundTrip | backend/src/common/reqs_parsing.py:16-29 | the printed form of any tree of binary nodes over valid atoms, with any trailing whitespace, parses back to that tree in either grammar, whatever the operator words' letter case and the padding inside parentheses: AND binds tighter than OR, both nest to the left, parentheses only group |
| ReqsParsing.RecoverMeaning | backend/src/common/reqs_parsing.py:118-125 | `parse_requirement` returns OTHER exactly when the text does not parse, and that OTHER holds the text; any other result is the parse and has no OTHER node anywhere |
| ReqsParsing.ParseRequirementRoundTrip | backend/src/common/reqs_parsing.py:92-125 | every printed tree, in any print style and with any trailing whitespace, reads back as itself, as written and corrected |
| ReqsParsing.CourseListParses | backend/src/common/reqs_parsing.py:21-29 | two or more codes joined by `", "` parse as one course-list node |
| ReqsParsing.CourseListDropped | backend/src/common/reqs_parsing.py:92-99 | as written, a course list becomes an AND with no children, because the `course_list` subtree is not a requirement and is filtered out |
| ReqsParsing.CourseListKept | backend/src/common/reqs_parsing.py:21-29 | corrected, a course list becomes the AND of its codes' atoms, in order |
| ReqsParsing.CourseListExample | backend/src/common/reqs_parsing.py:21-29 | "CSSE1001, CSSE2002" is `And([])` as written and the AND of the two atoms corrected |
| ReqsParsing.DottedPartExample | backend/src/common/reqs_parsing.py:35-36 | "Part B.3.1" is one atom holding the whole token |
| ReqsParsing.PrecedenceExample | backend/src/common/reqs_parsing.py:16-20 | "A or B and C" is `A or (B and C)` |
| ReqsLegacy.ParseRequirementLegacy | backend/src/common/reqs.py:99-102 | the older parser raises only the grammar library's error, and any tree it returns is shaped |
| ReqsLegacy.Kind | backend/src/common/reqs.py:43-61 | the `kind` strings "or", "and" and "atomic" identify the three requirement classes, each iff the node is of that class |
| ReqsLegacy.LegacyKinds | backend/src/common/reqs.py:73-88 | an older-parser tree is never OTHER, and each of its operator nodes has exactly two children |
| ReqsLegacy.LegacyRoundTrip | backend/src/common/reqs.py:7-31 | every printed tree, in any print style and with any trailing whitespace, reads back as itself in the older grammar |
| ReqsLegacy.LegacyRejectsDots | backend/src/common/reqs.py:19-24 | any text with a dot in it raises, since no token of the older grammar holds a dot |
| ReqsLegacy.DottedPartRaises | backend/src/common/reqs.py:22 | "Part B.1" raises in the older parser |
| ReqsLegacy.AndExample | backend/tests/test_common/test_reqs.py:10 | "A and B" parses to the AND of two atoms |
| ReqsLegacy.PartExample | backend/tests/test_common/test_reqs.py:11 | "Part A" parses to one atom |
| ReqsLegacy.TrailingSpaceExample | backend/tests/test_common/test_reqs.py:32 | "Part A and Part B " parses, trailing space and all, to the AND of the two parts |
| ReqsShapes.AndChainText | backend/src/common/reqs.py:7-31 | an AND chain of pieces that are not AND nodes prints as the pieces' factor texts joined by the AND word |
| ReqsShapes.OrChainText | backend/src/common/reqs.py:7-31 | an OR chain starting with an atom prints as the pieces' right-operand texts joined by the OR word |
| ReqsShapes.OrGroupText | backend/src/common/reqs.py:7-31 | a parenthesised OR chain prints as its joined pieces inside the style's parentheses |
| ReqsShapes.AndGroupText | backend/src/common/reqs.py:7-31 | a parenthesised AND chain prints as its joined pieces inside the style's parentheses |
| ReqsShapes.AndChainRenderable | backend/src/common/reqs.py:7-31 | an AND chain of printable pieces is printable |
| ReqsShapes.OrChainRenderable | backend/src/common/reqs.py:7-31 | an OR chain of printable pieces is printable |
| ReqsShapes.AndListParses | backend/tests/test_common/test_reqs.py:7-40 | any list of atoms and parenthesised groups joined by `and` or `AND`, with bare or padded parentheses and trailing blanks, parses without error to the left-nested AND of its pieces |
| ReqsShapes.OrListParses | backend/tests/test_common/test_reqs.py:28-30 | any list of pieces joined by `or` or `OR` and starting with an atom, with trailing blanks, parses to the left-nested OR of its pieces |
| ReqsShapes.StyleWords | backend/tests/test_common/test_reqs.py:8-39 | the lower-case style prints " and ", " or " and bare parentheses, the upper-case style " AND ", " OR " and padded parentheses, and all three styles used are valid |
| ReqsShapes.AtomTexts | backend/src/common/reqs.py:7-31 | an atom prints as its own text at every precedence level |
| ReqsShapes.PairRenderable | backend/src/common/reqs.py:7-31 | a pair of printable trees under AND or OR is printable |
| ReqsShapes.NestedGroupText | backend/tests/test_common/test_reqs.py:15 | the tree with an AND group inside an OR group inside an AND prints with both groups parenthesised |
| ReqsShapes.NestedGroupParses | backend/tests/test_common/test_reqs.py:15 | over any five valid atoms, "a AND ( b OR c OR ( d AND e ) )" parses to a AND ((b OR c) OR (d AND e)) |
| ReqsShapes.SwappedPartsExample | backend/tests/test_common/test_reqs.py:39 | "Part B AND Part A" parses to the AND of "Part B" and "Part A", in that order |
| Converter.Num | backend/src/degree/converter.py:69-78 | an int is kept, a bool becomes 1 or 0, a string is read as `int()` reads it after stripping, with 0 when that raises, and None, a list or a dict gives 0 |
| Converter.ParseIntStripped | backend/src/degree/converter.py:75-76 | stripping before `int()` changes nothing, since `int()` strips its argument |
| Converter.NotANumber | backend/src/degree/converter.py:75-78 | `str()` of None, a list or a dict never reads as an integer, so `_num` gives 0 for them |
| Converter.NumOfIntText | backend/src/degree/converter.py:72-73 | the decimal text of any integer reads back as that integer |
| Converter.BoolDefault | backend/src/degree/converter.py:80-90 | the default decides exactly for None and for a value whose word is in neither word set, and the two word sets are disjoint |
| Converter.BoolOfInt | backend/src/degree/converter.py:85-90 | the integers 1 and 0 read as true and false, and every other integer takes the default |
| Converter.ToCourseRef | backend/src/degree/converter.py:92-103 | reading a curriculum reference fails only with a malformed field |
| Converter.ToCourseRefRoundTrip | backend/src/degree/converter.py:92-103 | a course reference written under the scraper's camelCase keys converts back to itself |
| Converter.ToProgramRefRoundTrip | backend/src/degree/converter.py:105-115 | a programme reference written under the scraper's keys, abbreviation included, converts back to itself |
| Converter.ScalarProgram | backend/src/degree/converter.py:162-174 | a programme built from a bare code raises TypeError exactly as written, for the two undeclared version keywords, and corrected keeps the code |
| Converter.CoursesOfList | backend/src/degree/converter.py:120-138 | a list converts iff every entry does, and then gives one reference per entry, in order |
| Converter.CourseCodesKept | backend/src/degree/converter.py:126-137 | a list of bare codes gives one minimal reference per code, in order |
| Converter.ProgramCodesKept | backend/src/degree/converter.py:156-175 | as written a non-empty list of bare programme codes raises TypeError; corrected it gives one reference per code, in order |
| Converter.ConvertItems | backend/src/degree/converter.py:122-137 | the `for item in v` loop converts every item in order and returns the list of results, or the error of the first item that raises |
| Converter.ListToCourses | backend/src/degree/converter.py:117-151 | the loop returns exactly the course list the conversion specifies |
| Converter.ListToPrograms | backend/src/degree/converter.py:153-190 | the loop returns exactly the programme list the conversion specifies |
| Converter.ToSingleProgram | backend/src/degree/converter.py:192-208 | returns exactly the single programme the conversion specifies |
| Converter.SingleProgramFirst | backend/src/degree/converter.py:192-208 | the first programme of the list is taken; with none the default programme is built, which raises exactly as written; a failing list fails the same way |
| Converter.ParamLastWins | backend/src/degree/converter.py:211-212 | of several parameters with one name, the last one is read |
| Converter.ParamMissing | backend/src/degree/converter.py:212 | a name no parameter carries reads as the default |
| Converter.ParamIsSome | backend/src/degree/converter.py:211-212 | every read is the default or the value of some parameter |
| Converter.MustFallsBack | backend/src/degree/converter.py:290 | without MUST, the last MUST_OR_MAY decides; with neither the rule is a must |
| Converter.ToStrList | backend/src/degree/converter.py:292-298 | the LISTS loop returns `str()` of each list item, a singleton for a scalar and nothing for None |
| Converter.StrListOfStrings | backend/src/degree/converter.py:292-298 | a list of strings is read back unchanged |
| Converter.ToRawParams | backend/src/degree/converter.py:358-360 | the loop builds one name/type/value dict per parameter |
| Converter.RawParamsKept | backend/src/degree/converter.py:358-360 | each kept dict gives back its parameter's name, type and value, in order |
| Converter.CodeOfTags | backend/src/degree/converter.py:217-355 | the codes given a variant are exactly the factory's type-map tags other than ARUnknown |
| Converter.Build | backend/src/degree/converter.py:217-355 | a converted variant carries the caller's part and is the class its code names; it fails only with a conversion error, and as written AR20 always fails |
| Converter.BuildAR20 | backend/src/degree/converter.py:348-355 | as written AR20 raises, being given the undeclared keyword `plan`; otherwise the result is an AR20 in the given part |
| Converter.UnknownRule | backend/src/degree/converter.py:357-361 | the fallback is an ARUnknown in the given part |
| Converter.ProcessAR | backend/src/degree/converter.py:65-361 | the result is in the given part, is the class of a known code and ARUnknown for any other, and failures are conversion errors only |
| Converter.ProcessAuxRule | backend/src/degree/converter.py:65-361 | the method with its loops returns exactly what `process_ar` specifies |
| Converter.ConvertPlans | backend/src/degree/converter.py:247-258 | AR5 and AR6 with their list loops return exactly the specified rule |
| Converter.ConvertCredits | backend/src/degree/converter.py:265-278 | AR9, AR10 and AR11 with their list loops return exactly the specified rule |
| Converter.BuildExemptions | backend/src/degree/converter.py:281-332 | AR13 and AR15-AR17 build the variant their code names, in the given part, and fail only with a conversion error |
| Converter.ConvertExemptions | backend/src/degree/converter.py:281-332 | AR13 and AR15-AR17 with their list loops return exactly the specified rule |
| Converter.ConvertDuals | backend/src/degree/converter.py:335-347 | AR18 and AR19 with their list loops return exactly the specified rule |
| Converter.NoParamsAR1 | backend/src/degree/converter.py:217-223 | AR1 with no parameters has count and level 0 and OR_HIGHER true |
| Converter.NoParamsAR2 | backend/src/degree/converter.py:224-229 | AR2 with no parameters has count and level 0 |
| Converter.NoParamsAR4 | backend/src/degree/converter.py:237-244 | AR4 with no parameters has both counts and the level 0 and OR_HIGHER true |
| Converter.NoParamsAR5 | backend/src/degree/converter.py:247-252 | AR5 with no parameters has two empty programme lists |
| Converter.NoParamsAR7 | backend/src/degree/converter.py:261-262 | AR7 with no parameters has count 0 |
| Converter.NoParamsAR15 | backend/src/degree/converter.py:288-305 | AR15 with no parameters has empty lists and MUST true |
| Converter.NoParamsAR18 | backend/src/degree/converter.py:335-340 | AR18 with no parameters has an empty course list and the empty programme, which as written raises TypeError |
| Converter.UnknownKeepsParams | backend/src/degree/converter.py:357-361 | an unrecognised code keeps the rule's text and every parameter as a name/type/value dict, in order |
| Converter.DictFreeCoerces | backend/src/degree/converter.py:117-208 | a value holding no dict always converts, with the corrections, to a course list, a programme list and a programme |
| Converter.ReadableBuilds | backend/src/degree/converter.py:217-355 | with every list and programme parameter readable, every corrected variant builds |
| Converter.CorrectedConverts | backend/src/degree/converter.py:65-361 | the corrected converter fails only on a malformed reference dict |
| Converter.AR20Construction | backend/src/degree/converter.py:348-355 | as written AR20 always raises; corrected, the same rule converts to an AR20 whenever its parameters hold no dict |
| DegreeConversion.RunStepsOk | backend/src/degree/converter.py:383-407 | the walk succeeds iff every step converts, and then holds one rule per step, in order |
| DegreeConversion.RunStepsFirstErr | backend/src/degree/converter.py:383-407 | a failing walk raises what its first failing step raises, and every earlier step converts |
| DegreeConversion.RunAppend | backend/src/degree/converter.py:389-407 | consecutive loops run one after another: the first failure wins, otherwise the results concatenate |
| DegreeConversion.ProcessRules | backend/src/degree/converter.py:389-390 | the rule loop appends exactly what the steps specify |
| DegreeConversion.ProcessInner | backend/src/degree/converter.py:401-437 | a nested entry without a header does nothing; with one its rules are converted in its part, and a selection rule without a body raises when its rows are iterated |
| DegreeConversion.ProcessBody | backend/src/degree/converter.py:394-437 | a body entry converts its own rules in its part, then each nested entry |
| DegreeConversion.ProcessComponent | backend/src/degree/converter.py:383-437 | a component other than the main one adds nothing; the main one converts its header rules in part "", then each body entry |
| DegreeConversion.ConvertDegree | backend/src/degree/converter.py:364-445 | `convert_degree` returns exactly the specified degree |
| DegreeConversion.ConvertedDegree | backend/src/degree/converter.py:364-445 | as written the argument-less `FlatDegree()` raises TypeError; corrected the degree keeps the title, code and year, and has no selection rules, part references or rule logic |
| DegreeConversion.ConvertedAux | backend/src/degree/converter.py:383-441 | the corrected conversion succeeds iff every step converts; `aux` then holds one rule per step, in walk order, each converted in its step's part |
| DegreeConversion.OnlyMainComponents | backend/src/degree/converter.py:383-385 | skipping the components other than the main one changes nothing |
| DegreeConversion.MainOnly | backend/src/degree/converter.py:383-385 | the converted degree is that of the main components alone |
| DegreeConversion.NoMainComponent | backend/src/degree/converter.py:364-445 | without a main component the result is the empty degree with the parsed name, code and year |
| DegreeConversion.CorrectedDegreeConverts | backend/src/degree/converter.py:364-445 | with every rule's parameters free of dicts and no selection rule without a body, the corrected conversion succeeds |
| DegreeConversion.ConvertedParts | backend/src/degree/converter.py:387-407 | every converted rule carries part "" or a part reference the degree names |
| CourseModels.CodeParts | backend/src/scraper/courses/models.py:46-51 | the two parts make up the code, the first holds no digit, and the second is empty or starts with a digit |
| CourseModels.ComputeCodeParts | backend/src/scraper/courses/models.py:46-51 | the loop returns the split at the first digit, or the whole code and "" when there is none |
| CourseModels.CodePartsUnique | backend/src/scraper/courses/models.py:46-51 | no other cut of the code has those three properties |
| CourseModels.CodePartsNoDigit | backend/src/scraper/courses/models.py:51 | a code without a digit splits into itself and "" |
| CourseModels.CodePartsExample | backend/src/scraper/courses/models.py:47 | "CSSE2310" splits into "CSSE" and "2310" |
| PlanModel.CoursesAppend | backend/src/api/plan/model.py:37-40 | the course lists of two plans' entries, one after the other, are the concatenation of their course lists |
| PlanModel.CoursesLength | backend/src/api/plan/model.py:37-40 | `courses` has one element per listed code |
| PlanModel.CoursesMember | backend/src/api/plan/model.py:37-40 | a code is in `courses` iff some value list holds it |
| PlanModel.CourseDatesFails | backend/src/api/plan/model.py:42-47 | `course_dates` raises exactly when some key does not parse, and then with ValueError |
| PlanModel.CourseDatesLastWins | backend/src/api/plan/model.py:42-47 | the list stored under a parsed key is, unchanged, the list of the last key parsing to the same tuple |
| PlanModel.CourseDatesValues | backend/src/api/plan/model.py:42-47 | every stored list is one of the input lists, under the tuple its own key parses to |
| PlanModel.CourseDatesUnique | backend/src/api/plan/model.py:42-47 | the stored dict has one entry per distinct tuple |
| PlanModel.KeyTupleRoundTrip | backend/src/api/plan/model.py:45 | the key `str((year, sem))` writes parses back to `(year, sem)` |
| CourseTransformers.Take4 | backend/src/api/course/transformers.py:42 | `t[:4]` is the prefix of at most four characters |
| CourseTransformers.OfferingYear | backend/src/api/course/transformers.py:42 | reading the year fails only with IndexError or ValueError |
| CourseTransformers.OfferingYearIndexError | backend/src/api/course/transformers.py:42 | IndexError comes exactly from a label without a comma |
| CourseTransformers.OfferingYearOf | backend/src/api/course/transformers.py:42 | a label "<term>, <four-digit year><anything>" with no comma in the term gives that year |
| CourseTransformers.OfferingYearExample | backend/src/api/course/transformers.py:42 | "Semester 1, 2024" gives 2024 |
| CourseTransformers.TransformOffering | backend/src/api/course/transformers.py:40-51 | the year is read first and a failure there is the result; then `CourseMode(mode)` raises ValueError for a mode the enum does not define; otherwise the record carries the year and the given activity, and copies the label, location, mode and profile URL |
| CourseTransformers.Extend | backend/src/api/course/transformers.py:66 | `extend` appends each image in turn, and the first that raises ends it with its error |
| CourseTransformers.BuildThenExtend | backend/src/api/course/transformers.py:64-66 | a comprehension over the current offerings extended in place by the archived ones gives the joined conversion, or the error of the first element that raises |
| CourseTransformers.TransformOfferings | backend/src/api/course/transformers.py:62-66 | the comprehension and the extension build exactly the specified offerings list, failing with the error of the first offering whose year or mode raises |
| CourseTransformers.OfferingsFail | backend/src/api/course/transformers.py:42-66 | the offerings list fails iff some current or archived offering has a label that yields no year or a mode the enum does not define |
| CourseTransformers.UnknownModeFails | backend/src/api/course/transformers.py:48 | one current offering with an undefined mode makes the whole offerings list fail |
| CourseTransformers.CurrentPart | backend/src/api/course/transformers.py:64 | current offerings become active records that keep their labels |
| CourseTransformers.ArchivedPart | backend/src/api/course/transformers.py:66 | archived offerings become inactive records that keep their labels |
| CourseTransformers.OfferingsOrder | backend/src/api/course/transformers.py:64-66 | the stored offerings are the current ones, active and in order, then the archived ones, inactive and in order |
| CourseTransformers.Recent | backend/src/api/course/transformers.py:68 | an offering is recent iff it is in the list and ran in the last two years |
| CourseTransformers.RecentAppend | backend/src/api/course/transformers.py:68 | the filter keeps order: filtering two lists in turn is filtering them joined |
| CourseTransformers.Distinct | backend/src/api/course/transformers.py:69 | the set of semester names holds each name of the input exactly once |
| CourseTransformers.SemesterNames | backend/src/api/course/transformers.py:69 | one semester name per recent offering, looked up from the label's first comma field |
| CourseTransformers.SemestersStrMeaning | backend/src/api/course/transformers.py:69-71 | `semesters_str` is None iff there is no recent offering, otherwise it joins with commas, once each, the names of the recent offerings and no others |
| CourseTransformers.ParseIfPresent | backend/src/api/course/transformers.py:59-60 | a requirement is parsed iff its text is present and non-empty, and is then the parse of that text |
| CourseTransformers.AssessmentOf | backend/src/api/course/transformers.py:93-95 | the assessment is `{"items": [...]}` iff the scraped list is non-empty |
| CourseTransformers.TransformCourse | backend/src/api/course/transformers.py:54-96 | the course converts iff its offerings do and `CourseMode(attendance_mode)` is defined; an offerings failure comes first, then ValueError for the attendance mode; a converted course keeps its offerings and attendance mode |
| CourseTransformers.CourseActive | backend/src/api/course/transformers.py:68-83 | a course is active iff one of its offerings ran in the last two years |
| CourseTransformers.CourseSemesters | backend/src/api/course/transformers.py:68-84 | `semesters_str` comes from the recent offerings, and is None iff the course is inactive |
| CourseTransformers.CourseFields | backend/src/api/course/transformers.py:56-95 | category and number are the code's parts, the name is copied, a requirement is parsed iff its text is non-empty, and the assessment is kept iff its list is non-empty |
| RustVerifier.TakeWhileMN | backend2/src/verifier/aux_rule.rs:178-181 | on success the taken run and the rest make up the input, the run has between m and n accepted characters and stops early only at a rejected one; it fails only when fewer than m characters are accepted |
| RustVerifier.ParseCourseCodeAccepts | backend2/src/verifier/aux_rule.rs:173-189 | the parser succeeds iff the input is exactly four ASCII letters followed by four ASCII digits |
| RustVerifier.ParseCourseCodeParts | backend2/src/verifier/processed.rs:36-39 | on success nothing is left, the prefix is the first four characters, the postfix the last four, and together they are the input |
| RustVerifier.ParseCourseCodeExample | backend2/src/verifier/aux_rule.rs:183-186 | "CSSE2310" parses to prefix "CSSE" and postfix "2310" with nothing left |
| RustVerifier.RejectsFiveLetters | backend2/src/verifier/aux_rule.rs:178 | "CSSEE2310" fails in `take_while_m_n`: the fifth letter is not a digit |
| RustVerifier.RejectsThreeDigits | backend2/src/verifier/aux_rule.rs:179-181 | "CSSE231" fails in `take_while_m_n`: three digits are fewer than four |
| RustVerifier.RejectsTrailing | backend2/src/verifier/processed.rs:32-35 | any input longer than eight characters whose first eight form a code fails with Eof: `all_consuming` refuses the leftover |
| RustVerifier.RejectsTrailingExample | backend2/src/verifier/processed.rs:32-35 | "CSSE23101" fails with Eof |
| RustVerifier.FindTag | backend2/src/verifier/aux_rule.rs:34 | deserialising finds a variant carrying the tag, the first such, and none exactly when no variant carries it |
| RustVerifier.TagRoundTrip | backend2/src/verifier/aux_rule.rs:34-166 | with the corrected renames, every variant's tag deserialises back to that variant |
| RustVerifier.TagsMatchPython | backend/src/degree/aux_rule.py:326 | with the corrected renames, the accepted tags are exactly the Python factory's tags, "AR7" among them |
| RustVerifier.NotTaggedAR7 | backend2/src/verifier/aux_rule.rs:79-80 | as written no variant is tagged "AR7" |
| RustVerifier.AsWrittenTags | backend2/src/verifier/aux_rule.rs:34-166 | as written the accepted tags are the Python tags except "AR7", plus "Ar7" |
| RustVerifier.AsWrittenFinds | backend2/src/verifier/aux_rule.rs:34-166 | as written every variant other than Ar7 is still selected by its renamed tag |
| RustVerifier.SerializedKeys | backend2/src/verifier/aux_rule.rs:34-166 | a rule's JSON object starts with its "type" key |
| RustVerifier.ProcessedLayout | backend2/src/verifier/processed.rs:44-73 | only Ar1 to Ar6 have a processed form, and its fields are the serde keys after "type", `LevelSpec` flattened; Ar2 has no `or_higher`, and Ar4 has both `n` and `m` |
| SemPlan.SemesterSection | frontend/app/sem-plan/page.tsx:14-24 | the `forEach` loop returns exactly the normal and overload lists of the greedy placement |
| SemPlan.Placement | frontend/app/sem-plan/page.tsx:14-24 | one flag per course, and the units used never pass 8 |
| SemPlan.PlacementPrefix | frontend/app/sem-plan/page.tsx:17-23 | the flags of a prefix are the first flags of the whole list: a course's placement depends only on the courses before it |
| SemPlan.PlacementRule | frontend/app/sem-plan/page.tsx:18-23 | every course, at any position, joins the normal load iff the units used by the courses before it plus its own are at most 8: there is no early stop |
| SemPlan.PlacementStep | frontend/app/sem-plan/page.tsx:17-23 | appending a course appends it to the normal list when it fits and to the overload list otherwise, each list keeping its order |
| SemPlan.NormalUnits | frontend/app/sem-plan/page.tsx:18-20 | the units used are the total units of the normal courses, which is at most 8 |
| SemPlan.SelectPartition | frontend/app/sem-plan/page.tsx:17-24 | the flagged and unflagged courses together are the courses, as a multiset |
| SemPlan.SectionPartition | frontend/app/sem-plan/page.tsx:14-24 | every course lands in exactly one of the normal and overload lists |
| SemPlan.NoEarlyStop | frontend/app/sem-plan/page.tsx:17-23 | courses of 6, 4 and 2 units give normal 6 and 2 and overload 4: a later, smaller course still fits |
| SemPlan.CodeSemester | frontend/app/sem-plan/page.tsx:29 | JavaScript's `%` keeps the dividend's sign: the semester digit lies strictly between -10 and 10 and is non-negative for a non-negative code |
| SemPlan.AppendDigit | frontend/app/sem-plan/page.tsx:119-120 | the digits of n followed by digit s are all digits and are worth 10n+s |
| SemPlan.SemesterCodeText | frontend/app/sem-plan/page.tsx:119-120 | reading the text "<year><s>" as a number gives 10·year+s for a non-negative year and 10·year−s for a negative one |
| SemPlan.NegativeCodeText | frontend/app/sem-plan/page.tsx:119-120 | a negative year's text followed by a digit reads as 10·year−s |
| SemPlan.NonNegativeCodeText | frontend/app/sem-plan/page.tsx:119-120 | a non-negative year's text followed by a digit reads as 10·year+s |
| SemPlan.CodeRoundTrip | frontend/app/sem-plan/page.tsx:27-31 | a non-negative code decodes back to its year and semester, and is labelled "<year> Semester <s>" |
| SemPlan.Semesters | frontend/app/sem-plan/page.tsx:117-121 | the loop pushes semesters 1 and 2 of each year from start to end, in order |
| SemPlan.SemesterCodesLength | frontend/app/sem-plan/page.tsx:117-121 | the list has two codes per year, none when end is before start |
| SemPlan.SemesterCodesAt | frontend/app/sem-plan/page.tsx:117-121 | entry i is semester 1 + i mod 2 of year start + i div 2, and the label decodes it back to that year and semester |
| SemPlan.SemesterCodesIncreasing | frontend/app/sem-plan/page.tsx:117-121 | from a non-negative start year the codes strictly increase |
| SemPlan.PageSemesters | frontend/app/sem-plan/page.tsx:114-121 | the page's range 2024-2026 gives 20241, 20242, 20251, 20252, 20261, 20262 |
| SemPlan.WithoutMember | frontend/app/sem-plan/page.tsx:103 | the filter keeps a course iff it is in the list and has another id |
| SemPlan.DragEndMoves | frontend/app/sem-plan/page.tsx:95-109 | with a target and a dragged course, the dragged id occurs only at the end, with the target semester, and the other courses are unchanged and in order; with no target or no course the list is unchanged |
| SemPlan.WithoutAbsent | frontend/app/sem-plan/page.tsx:103 | filtering out an id no course has changes nothing |
| SemPlan.WithoutTwice | frontend/app/sem-plan/page.tsx:103 | filtering out an id twice is the same as once |

## Left out

- Course and degree lookups. The source awaits asynchronous database queries through an event-loop helper. Here the course lookup is a pure function from code to optional units, and the degree lookup, which no rule reads, is not modelled.
- Floating point. Percentages are exact ratios `num/den`; the source's float rounding and the float `num_units` column are not modelled, and units are integers.
- Message wording. Every message the rules build with an f-string is built word for word, integer counts in decimal. A list of codes is printed by `StrListRepr` as `['a', 'b']`; Python's `repr` would escape a `'` inside a code or switch that item to double quotes, and the model does not.
- `print` calls in the matchers and the page's `console.log`. These are side effects only.
- The nested `rule_logic` and `part_references` values of a degree. They are carried as data and never evaluated, as in the source. A part tree and sub-degree recursion do not exist in the modelled code.
- Degrees.Validate: the source calls each rule's `validate` with the plan only, which would raise TypeError, since `validate` also takes the two lookups. The model passes the lookup through.
- The result record's `part` field. `ValidateResult.__init__` takes four arguments (validate_result.py:16), so in the source every call that passes `self.part` as a fifth raises TypeError. Such calls are on most result paths of the base AR, AR5, AR7 and AR9-AR20, for example aux_rule.py:44-45, 275, 354-355, 377, 410, 451, 540, 588, 635, 662, 699 and 743. As written, those paths never return a result; AR1-AR4, AR6 and a few AR10 and AR13 paths use four arguments and do return one. AuxRules.ValidateAux and the rule members model the record with the `part` field the rules evidently intend, so they return a result on those paths where the source raises TypeError.
- The converter's payload classes. `backend/src/degree/converter.py:11-27` imports `ComponentPayload`, its header and body classes, `SelectionRule`, `AuxiliaryRule`, `CurriculumReference`, `WildCardItem`, `EquivalenceGroup` and `Param` from `scraper.degree`, and `backend/src/scraper/degree.py` as shown defines none of them, so that import raises ImportError and the converter module does not load. The model reads the attributes the converter uses from a parsed-degree datatype instead.
- Converter.Num: a bool argument is returned as the int 1 or 0. The source returns the bool itself (`isinstance(True, int)` holds), so the built rule holds `True` and serialises it as `true`; the model's rule holds 1 and serialises it as the number 1.
- Bool for int. `Params.AsOptInt`, `SerdeFields.ReqInt` and `SelectionFactory.AsInt` refuse a bool with SerdeError. Python's bool is a subclass of int, so the source's type check accepts `True` or `False` for an `int` field; the model refuses bool-for-int.
- `converter.main`. Its file reading and writing are I/O.
- The Lark Earley engine. The grammar is modelled by a deterministic recursive-descent parser that takes terminals greedily in the positions the grammar expects them. The dynamic lexer's other ways of splitting a word inside it are not modelled.
- The test list of the older parser. Its strings are covered by generic shape lemmas over any valid atoms and by one literal instance ("Part B AND Part A"), not by one lemma per literal string.
- Unicode. `str.isdigit`, `str.isspace`, `int()` and case folding are modelled on ASCII only; Python also accepts other Unicode digits and spaces.
- The `CourseMode` enum is not part of this model, and `common/enums.py` as shown does not define it. The values it defines are a parameter `modes`, and `CourseMode(text)` raises ValueError exactly when `text` is not among them.
- The `CourseSemester` enum is not part of this model. The semester name of an offering is a parameter function of its label's first comma field.
- `CURRENT_YEAR` in the course transformer. It is a module-level clock reading, so it is a parameter.
- CourseTransformers.SemestersStr: the source joins a Python `set` of semester names, whose iteration order is unspecified. The model joins the distinct names in first-occurrence order.
- The SECaT transform and the remaining copied fields of the course record (description, faculty, hours and the like). They are plain field copies or float aggregation outside the modelled rules.
- Page rendering. This covers the semester-planner page's `getColSpanClass` layout, the collapse toggle, the drag overlay and other markup.
- The page's per-semester filter `+c.sem === semester`. JavaScript's string-to-number conversion is not modelled; the page's numbers are modelled as integers.
- nom. The parsers are modelled on complete input; nom's streaming `Incomplete` results are not modelled.
- RustVerifier.RejectsThreeDigits: on streaming input, nom's `Parser::parse` returns `Err::Incomplete` for "CSSE231" rather than a `TakeWhileMN` error. The model states the complete-input error kind.
- The Rust crate's own `CourseCode`, `ProgramCode` and level types are not shown. Rule fields are JSON strings, integers and course-code pairs, and Rust's `i64` bounds are not modelled.
- serde and pyserde derive machinery. Only the field names, tag renames, flattening and defaults they produce are modelled.

## Findings

| source | as written | input that shows it | evidently intended | confidence | as-written member | corrected member |
|---|---|---|---|---|---|---|
| backend/src/degree/aux_rule.py:264 | AR5 validates each `plan_list_2` reference against the whole list of chosen codes, which is never equal to one code, so nothing is ever collected | a plan with P1 and P2 chosen under part A, against AR5 "P1 only with P2" | validate each reference against each chosen code: the rule passes when some `plan_list_2` code is chosen | not executed | AuxRules.AR5AsWrittenAlwaysFails, AuxRules.AR5Counterexample | AuxRules.AR5Meaning |
| backend/src/degree/aux_rule.py:747-783 | ARUnknown declares no `type` default, so its serialised dict has no `type`, and the factory reads it back as a base AR with only its part | any ARUnknown rule, serialised and read back | give ARUnknown a `type` default like every other class, so that the factory inverts serialisation | not executed | AuxFactory.ToDictRoundTrip | AuxFactory.ToDictTaggedRoundTrip |
| backend/src/common/reqs_parsing.py:20-29 | a comma course list reaches `and_expr` as a `course_list` subtree that is not a requirement, which is filtered out, leaving an AND with no children | "CSSE1001, CSSE2002" | the AND of the listed codes' atoms, in order | not executed | ReqsParsing.CourseListDropped | ReqsParsing.CourseListKept |
| backend/src/degree/converter.py:348-355 | AR20 is constructed with the keyword `plan`, which the class does not declare (its field is `plan_1`), so every AR20 raises TypeError | any parsed AR20 rule | pass the programme as `plan_1` | not executed | Converter.AR20Construction, Converter.BuildAR20 | Converter.CorrectedConverts |
| backend/src/degree/converter.py:162-174 | a programme reference built from a bare code is given `version_minor` and `version_major`, which `ProgramRef` does not declare, so it raises TypeError | a PLAN_LIST parameter holding the string "MAJOR1" | build the reference from its declared fields only | not executed | Converter.ProgramCodesKept, Converter.ScalarProgram | Converter.DictFreeCoerces |
| backend/src/degree/converter.py:365 | `FlatDegree()` is called with no arguments although its fields have no defaults, so every conversion raises TypeError | any parsed degree | construct the flat degree with its title, code and year and empty rule lists | not executed | DegreeConversion.ConvertedDegree | DegreeConversion.CorrectedDegreeConverts |
| backend2/src/verifier/aux_rule.rs:79-80 | the Ar7 variant has no rename, so serde tags it "Ar7", while the Python side writes "AR7": an AR7 rule from Python selects no variant | Python's AR7 rule with `type` "AR7" | rename Ar7 to "AR7" like the other variants | not executed | RustVerifier.AsWrittenTags, RustVerifier.NotTaggedAR7 | RustVerifier.TagsMatchPython, RustVerifier.TagRoundTrip |

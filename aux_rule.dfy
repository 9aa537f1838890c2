/**
 * The auxiliary rules AR1-AR20: what each rule decides about a plan, the method
 * that evaluates a rule with the shared scans, and the factory that picks a rule's
 * kind from the `type` field of its serialised dict.
 */
module AuxRules {
  import opened Wrappers
  import opened PyText
  import opened RawValues
  import PyDict
  import opened Params
  import opened Plans
  import opened ValidateResults
  import opened AuxScans
  import opened SerdeFields

  /** One variant per rule class, with the fields the class declares. */
  datatype AuxRule =
    | AR(part: string)
    | AR1(part: string, n: int, level: int, orHigher: bool)
    | AR2(part: string, n: int, level: int)
    | AR3(part: string, n: int, level: int, orHigher: bool)
    | AR4(part: string, n: int, m: int, level: int, orHigher: bool)
    | AR5(part: string, planList1: seq<ProgramRef>, planList2: seq<ProgramRef>)
    | AR6(part: string, planList1: seq<ProgramRef>, planList2: seq<ProgramRef>)
    | AR7(part: string, n: int)
    | AR9(part: string, courseList: seq<CourseRef>)
    | AR10(part: string, courseList: seq<CourseRef>, planList: seq<ProgramRef>)
    | AR11(part: string, courseList: seq<CourseRef>, planList: seq<ProgramRef>)
    | AR13(part: string, planList: seq<ProgramRef>, courseList: seq<CourseRef>, programPlanList: seq<ProgramRef>)
    | AR15(part: string, courseList: seq<CourseRef>, must: bool, programPlanList: seq<ProgramRef>, lists: seq<string>)
    | AR16(part: string, planList: seq<ProgramRef>, courseList1: seq<CourseRef>, must: bool,
           courseList2: seq<CourseRef>, programPlanList: seq<ProgramRef>)
    | AR17(part: string, planList: seq<ProgramRef>, courseList: seq<CourseRef>, must: bool,
           programPlanList: seq<ProgramRef>, lists: seq<string>)
    | AR18(part: string, courseList: seq<CourseRef>, program: ProgramRef)
    | AR19(part: string, planList: seq<ProgramRef>, courseList: seq<CourseRef>, program: ProgramRef)
    | AR20(part: string, plan1: ProgramRef, planList1: seq<ProgramRef>, courseList: seq<CourseRef>, planList2: seq<ProgramRef>)
    | ARUnknown(part: string, text: string, rawParams: seq<Entries>)

  const AbstractMessage := "Should not be seeing this - validating abstract AR"
  const InvalidLevelMessage := "Invalid course level format"

  // ---------------------------------------------------------------------------
  // AR1-AR4: units at a level

  predicate IsLevelRule(rule: AuxRule) {
    rule.AR1? || rule.AR2? || rule.AR3? || rule.AR4?
  }

  /** AR2 counts the exact level only. */
  function ScanOrHigher(rule: AuxRule): bool
    requires IsLevelRule(rule)
  {
    if rule.AR2? then false else rule.orHigher
  }

  /** `f"Expected {bound} {n} units at level {level}{suffix}, found {count}."` */
  function LevelMessage(bound: string, n: int, level: int, suffix: string, count: nat): string {
    "Expected " + bound + " " + IntToString(n) + " units at level " + IntToString(level) + suffix
      + ", found " + IntToString(count) + "."
  }

  /** A failed count: `count / den * 100.0`, the message and the counted courses, without a part. */
  function CountFailure(count: nat, den: int, message: string, counted: seq<string>): Result<ValidateResult> {
    match PercentOf(count, den)
    case Err(e) => Err(e)
    case Ok(p) => Ok(ValidateResult(ERROR, Some(p), message, counted, None))
  }

  /** The thresholds of AR1-AR4 applied to the units counted at the level. */
  function CountVerdict(rule: AuxRule, count: nat, counted: seq<string>): Result<ValidateResult>
    requires IsLevelRule(rule)
  {
    match rule
    case AR1(_, n, level, orHigher) =>
      if count >= n then Ok(Passed(None))
      else CountFailure(count, n, LevelMessage("at least", n, level, if orHigher then " or higher" else "", count), counted)
    case AR2(_, n, level) =>
      if count <= n then Ok(Passed(None))
      else CountFailure(count, n, LevelMessage("at most", n, level, "", count), counted)
    case AR3(_, n, level, _) =>
      if count == n then Ok(Passed(None))
      else CountFailure(count, n, LevelMessage("exactly", n, level, "", count), counted)
    case AR4(_, n, m, level, _) =>
      if count >= n && count <= m then Ok(Passed(None))
      else if count < n then CountFailure(count, n, LevelMessage("at least", n, level, "", count), counted)
      else CountFailure(count, m, LevelMessage("at most", m, level, "", count), counted)
  }

  /** A level rule's result from its scan: a malformed level stops it with that course. */
  function LevelReport(rule: AuxRule, scan: Result<LevelTally>): Result<ValidateResult>
    requires IsLevelRule(rule)
  {
    match scan
    case Err(e) => Err(e)
    case Ok(BadLevel(c)) => Ok(ValidateResult(ERROR, None, InvalidLevelMessage, [c], None))
    case Ok(Tally(count, counted)) => CountVerdict(rule, count, counted)
  }

  // ---------------------------------------------------------------------------
  // AR5/AR6: programmes only with, or not with, others

  function AR5Message(planList1: seq<ProgramRef>, planList2: seq<ProgramRef>): string {
    "Expected " + StrListRepr(ProgramCodes(planList1)) + " to be with " + StrListRepr(ProgramCodes(planList2)) + "."
  }

  /** AR5 as intended: once a `plan_list_1` programme is chosen, some `plan_list_2` programme must be too. */
  function AR5Outcome(part: string, planList1: seq<ProgramRef>, planList2: seq<ProgramRef>, plan: Plan): ValidateResult {
    if !AnyChosen(planList1, ChosenUnder(plan, part)) then Passed(Some(part))
    else if Conflicts(planList2, AllChosen(plan)) == [] then
      ValidateResult(ERROR, None, AR5Message(planList1, planList2), ProgramCodes(planList2), Some(part))
    else Passed(Some(part))
  }

  /**
   * The codes AR5 collects as written: each `plan_list_2` reference is validated
   * against the list of all chosen codes itself, not against its items.
   */
  function RequiredAsWritten(refs: seq<ProgramRef>, values: seq<string>): seq<string> {
    if refs == [] then []
    else
      var p := refs[|refs| - 1];
      RequiredAsWritten(refs[..|refs| - 1], values) + (if ProgramMatchesValue(p, StringsRaw(values)) then [p.code] else [])
  }

  /** AR5 as written. */
  function AR5AsWritten(part: string, planList1: seq<ProgramRef>, planList2: seq<ProgramRef>, plan: Plan): ValidateResult {
    if !AnyChosen(planList1, ChosenUnder(plan, part)) then Passed(Some(part))
    else if RequiredAsWritten(planList2, AllChosen(plan)) == [] then
      ValidateResult(ERROR, None, AR5Message(planList1, planList2), ProgramCodes(planList2), Some(part))
    else Passed(Some(part))
  }

  function AR6Message(planList1: seq<ProgramRef>, planList2: seq<ProgramRef>): string {
    "Expected " + StrListRepr(ProgramCodes(planList1)) + " to NOT be with " + StrListRepr(ProgramCodes(planList2)) + "."
  }

  function AR6Outcome(part: string, planList1: seq<ProgramRef>, planList2: seq<ProgramRef>, plan: Plan): ValidateResult {
    if !AnyChosen(planList1, ChosenUnder(plan, part)) then Passed(None)
    else
      var conflicts := Conflicts(planList2, AllChosen(plan));
      if conflicts != [] then ValidateResult(ERROR, None, AR6Message(planList1, planList2), conflicts, None)
      else Passed(None)
  }

  // ---------------------------------------------------------------------------
  // AR7: discipline cap

  /** The percentage is `totalcount / n * 100.0` with `totalcount` left at 0. */
  function AR7Outcome(part: string, n: int, plan: Plan, lookup: CourseLookup): Result<ValidateResult> {
    if AnyOverCap(plan.courses, n, lookup) then
      match PercentOf(0, n)
      case Err(e) => Err(e)
      case Ok(p) => Ok(ValidateResult(ERROR, Some(p), "", OverCap(Disciplines(plan.courses), plan.courses, n, lookup), Some(part)))
    else Ok(Passed(Some(part)))
  }

  // ---------------------------------------------------------------------------
  // AR9-AR13: credit exclusions

  function AR9Message(courseList: seq<CourseRef>): string {
    "No credit for " + StrListRepr(CourseCodes(courseList)) + "."
  }

  function AR9Outcome(part: string, courseList: seq<CourseRef>, plan: Plan): ValidateResult {
    var overlap := Overlap(courseList, plan.courses);
    if overlap != [] then ValidateResult(ERROR, None, AR9Message(courseList), overlap, Some(part))
    else Passed(Some(part))
  }

  function AR10Message(overlap: seq<string>, p: ProgramRef): string {
    "No credit for " + StrListRepr(overlap) + " for students completing " + ProgramText(p) + "."
  }

  /** The first chosen `plan_list` programme decides; the message names it. */
  function AR10Outcome(part: string, courseList: seq<CourseRef>, planList: seq<ProgramRef>, plan: Plan): ValidateResult {
    match FirstChosen(planList, ChosenUnder(plan, part))
    case None => Passed(Some(part))
    case Some(p) =>
      var overlap := Overlap(courseList, plan.courses);
      if overlap != [] then ValidateResult(ERROR, Some(Nought), AR10Message(overlap, p), overlap, Some(part))
      else Passed(Some(part))
  }

  function AR11Message(overlap: seq<string>, planList: seq<ProgramRef>): string {
    "No credit for " + StrListRepr(overlap) + " for students not completing " + StrListRepr(ProgramCodes(planList)) + "."
  }

  function AR11Outcome(part: string, courseList: seq<CourseRef>, planList: seq<ProgramRef>, plan: Plan): ValidateResult {
    var overlap := Overlap(courseList, plan.courses);
    if overlap != [] && !AnyChosen(planList, ChosenUnder(plan, part)) then
      ValidateResult(ERROR, Some(Nought), AR11Message(overlap, planList), overlap, Some(part))
    else Passed(Some(part))
  }

  function AR13Message(p: ProgramRef, overlap: seq<string>, programPlanList: seq<ProgramRef>): string {
    "Students completing " + ProgramText(p) + " are exempt from " + StrListRepr(overlap) + " in "
      + StrListRepr(ProgramCodes(programPlanList)) + "."
  }

  /** Like AR10, except that the pass after a chosen programme carries no part. */
  function AR13Outcome(part: string, planList: seq<ProgramRef>, courseList: seq<CourseRef>, programPlanList: seq<ProgramRef>,
                       plan: Plan): ValidateResult {
    match FirstChosen(planList, ChosenUnder(plan, part))
    case None => Passed(Some(part))
    case Some(p) =>
      var overlap := Overlap(courseList, plan.courses);
      if overlap != [] then ValidateResult(ERROR, Some(Nought), AR13Message(p, overlap, programPlanList), overlap, Some(part))
      else Passed(None)
  }

  // ---------------------------------------------------------------------------
  // AR15-AR17: MUST/MAY substitutions

  /**
   * A MUST substitution fails when none of the named courses is in the plan, and
   * then lists the named codes; a MAY substitution passes, listing the overlap.
   */
  function Substitution(overlap: seq<string>, must: bool, named: seq<string>, mustMessage: string, mayMessage: string,
                        part: string): ValidateResult {
    if must then
      if overlap == [] then ValidateResult(ERROR, Some(Nought), mustMessage, named, Some(part))
      else Passed(Some(part))
    else if overlap != [] then ValidateResult(OK, Some(Full), mayMessage, overlap, Some(part))
    else Passed(Some(part))
  }

  function AR15Must(courseList: seq<CourseRef>, programPlanList: seq<ProgramRef>, lists: seq<string>): string {
    "Expected " + StrListRepr(CourseCodes(courseList)) + " to be substituted in " + StrListRepr(ProgramCodes(programPlanList))
      + " by a course from " + StrListRepr(lists) + "."
  }

  function AR15May(overlap: seq<string>, programPlanList: seq<ProgramRef>, lists: seq<string>): string {
    StrListRepr(overlap) + " may be substituted in " + StrListRepr(ProgramCodes(programPlanList))
      + " by a course from " + StrListRepr(lists)
  }

  function AR15Outcome(part: string, courseList: seq<CourseRef>, must: bool, programPlanList: seq<ProgramRef>,
                       lists: seq<string>, plan: Plan): ValidateResult {
    var overlap := Overlap(courseList, plan.courses);
    Substitution(overlap, must, CourseCodes(courseList), AR15Must(courseList, programPlanList, lists),
      AR15May(overlap, programPlanList, lists), part)
  }

  /** `" by a course from {source} in {program_plan_list}"`, shared by AR16 and AR17. */
  function FromIn(source: seq<string>, programPlanList: seq<ProgramRef>): string {
    " by a course from " + StrListRepr(source) + " in " + StrListRepr(ProgramCodes(programPlanList))
  }

  function InPlansMust(named: seq<string>, planList: seq<ProgramRef>, fromIn: string): string {
    "Expected " + StrListRepr(named) + " to be substituted in " + StrListRepr(ProgramCodes(planList)) + fromIn + "."
  }

  function InPlansMay(overlap: seq<string>, planList: seq<ProgramRef>, fromIn: string): string {
    StrListRepr(overlap) + " may be substituted in " + StrListRepr(ProgramCodes(planList)) + fromIn
  }

  function AR16Outcome(part: string, planList: seq<ProgramRef>, courseList1: seq<CourseRef>, must: bool,
                       courseList2: seq<CourseRef>, programPlanList: seq<ProgramRef>, plan: Plan): ValidateResult {
    var overlap := Overlap(courseList1, plan.courses);
    var fromIn := FromIn(CourseCodes(courseList2), programPlanList);
    Substitution(overlap, must, CourseCodes(courseList1), InPlansMust(CourseCodes(courseList1), planList, fromIn),
      InPlansMay(overlap, planList, fromIn), part)
  }

  function AR17Outcome(part: string, planList: seq<ProgramRef>, courseList: seq<CourseRef>, must: bool,
                       programPlanList: seq<ProgramRef>, lists: seq<string>, plan: Plan): ValidateResult {
    var overlap := Overlap(courseList, plan.courses);
    var fromIn := FromIn(lists, programPlanList);
    Substitution(overlap, must, CourseCodes(courseList), InPlansMust(CourseCodes(courseList), planList, fromIn),
      InPlansMay(overlap, planList, fromIn), part)
  }

  // ---------------------------------------------------------------------------
  // AR18-AR20: dual-programme attribution

  /** Some chosen specialisation is not the programme. */
  predicate AnyOther(program: ProgramRef, specs: seq<string>) {
    exists j :: 0 <= j < |specs| && !ProgramMatches(program, specs[j])
  }

  function AR18Message(course: string, program: ProgramRef): string {
    course + " can only be counted towards the " + program.name + " component of a dual."
  }

  /** The first listed course in the plan fails as soon as some other specialisation is chosen. */
  function AR18Outcome(part: string, courseList: seq<CourseRef>, program: ProgramRef, plan: Plan): ValidateResult {
    var overlap := Overlap(courseList, plan.courses);
    if overlap != [] && AnyOther(program, ChosenUnder(plan, part)) then
      ValidateResult(ERROR, Some(Nought), AR18Message(overlap[0], program), [overlap[0]], Some(part))
    else Passed(Some(part))
  }

  function AR19Message(course: string, program: ProgramRef, p: ProgramRef): string {
    course + " only counts towards the " + program.name + " component for students completing " + ProgramText(p)
  }

  /** The first `plan_list` entry naming the degree decides; the programme must be chosen. */
  function AR19Outcome(part: string, planList: seq<ProgramRef>, courseList: seq<CourseRef>, program: ProgramRef,
                       plan: Plan): ValidateResult {
    match FirstChosen(planList, [plan.degree])
    case None => Passed(Some(part))
    case Some(p) =>
      var overlap := Overlap(courseList, plan.courses);
      if overlap != [] && !ChosenIn(program, ChosenUnder(plan, part)) then
        ValidateResult(ERROR, Some(Nought), AR19Message(overlap[0], program, p), [overlap[0]], Some(part))
      else Passed(Some(part))
  }

  function AR20Message(course: string, planList2: seq<ProgramRef>, p: ProgramRef): string {
    course + " only counts towards " + StrListRepr(ProgramCodes(planList2)) + " for students completing " + ProgramText(p) + "."
  }

  function AR20Outcome(part: string, plan1: ProgramRef, planList1: seq<ProgramRef>, courseList: seq<CourseRef>,
                       planList2: seq<ProgramRef>, plan: Plan): ValidateResult {
    if !ProgramMatches(plan1, plan.degree) then Passed(Some(part))
    else
      match FirstChosen(planList1, ChosenUnder(plan, part))
      case None => Passed(Some(part))
      case Some(p) =>
        var overlap := Overlap(courseList, plan.courses);
        if overlap != [] && !AnyChosen(planList2, ChosenUnder(plan, part)) then
          ValidateResult(ERROR, Some(Nought), AR20Message(overlap[0], planList2, p), [overlap[0]], Some(part))
        else Passed(Some(part))
  }

  /** The base rule, and `ARUnknown` which inherits its `validate`. */
  function AbstractOutcome(part: string, plan: Plan): ValidateResult {
    ValidateResult(ERROR, None, AbstractMessage, plan.courses, Some(part))
  }

  // ---------------------------------------------------------------------------
  // Dispatch

  /** What `rule.validate(plan, course_getter, degree_getter)` returns or raises. */
  function AuxOutcome(rule: AuxRule, plan: Plan, lookup: CourseLookup): Result<ValidateResult> {
    match rule
    case AR(part) => Ok(AbstractOutcome(part, plan))
    case AR1(_, _, level, orHigher) => LevelReport(rule, LevelScan(plan.courses, level, orHigher, lookup))
    case AR2(_, _, level) => LevelReport(rule, LevelScan(plan.courses, level, false, lookup))
    case AR3(_, _, level, orHigher) => LevelReport(rule, LevelScan(plan.courses, level, orHigher, lookup))
    case AR4(_, _, _, level, orHigher) => LevelReport(rule, LevelScan(plan.courses, level, orHigher, lookup))
    case AR5(part, l1, l2) => Ok(AR5Outcome(part, l1, l2, plan))
    case AR6(part, l1, l2) => Ok(AR6Outcome(part, l1, l2, plan))
    case AR7(part, n) => AR7Outcome(part, n, plan, lookup)
    case AR9(part, cl) => Ok(AR9Outcome(part, cl, plan))
    case AR10(part, cl, pl) => Ok(AR10Outcome(part, cl, pl, plan))
    case AR11(part, cl, pl) => Ok(AR11Outcome(part, cl, pl, plan))
    case AR13(part, pl, cl, ppl) => Ok(AR13Outcome(part, pl, cl, ppl, plan))
    case AR15(part, cl, must, ppl, lists) => Ok(AR15Outcome(part, cl, must, ppl, lists, plan))
    case AR16(part, pl, cl1, must, cl2, ppl) => Ok(AR16Outcome(part, pl, cl1, must, cl2, ppl, plan))
    case AR17(part, pl, cl, must, ppl, lists) => Ok(AR17Outcome(part, pl, cl, must, ppl, lists, plan))
    case AR18(part, cl, program) => Ok(AR18Outcome(part, cl, program, plan))
    case AR19(part, pl, cl, program) => Ok(AR19Outcome(part, pl, cl, program, plan))
    case AR20(part, p1, l1, cl, l2) => Ok(AR20Outcome(part, p1, l1, cl, l2, plan))
    case ARUnknown(part, _, _) => Ok(AbstractOutcome(part, plan))
  }

  // ---------------------------------------------------------------------------
  // The loops

  /** Looks for a chosen specialisation other than the programme. */
  method FindOther(program: ProgramRef, specs: seq<string>) returns (found: bool)
    ensures found == AnyOther(program, specs)
  {
    for j := 0 to |specs|
      invariant forall b :: 0 <= b < j ==> ProgramMatches(program, specs[b])
    {
      if !ProgramMatches(program, specs[j]) {
        return true;
      }
    }
    return false;
  }

  /** Whether one programme is chosen: the inner loop of AR19 and AR20. */
  method IsChosen(p: ProgramRef, specs: seq<string>) returns (found: bool)
    ensures found == ChosenIn(p, specs)
  {
    var first := FindChosen([p], specs);
    assert [p][1..] == [];
    found := first.Some?;
  }

  /** Each rule's `validate`, evaluated with the scan loops. */
  method ValidateAux(rule: AuxRule, plan: Plan, lookup: CourseLookup) returns (r: Result<ValidateResult>)
    ensures r == AuxOutcome(rule, plan, lookup)
  {
    if IsLevelRule(rule) {
      r := ValidateLevelRule(rule, plan, lookup);
    } else if rule.AR5? || rule.AR6? || rule.AR7? {
      r := ValidateProgrammeRule(rule, plan, lookup);
    } else if rule.AR9? || rule.AR10? || rule.AR11? || rule.AR13? {
      r := ValidateExclusion(rule, plan, lookup);
    } else if rule.AR15? || rule.AR16? || rule.AR17? {
      r := ValidateSubstitution(rule, plan, lookup);
    } else if rule.AR18? || rule.AR19? || rule.AR20? {
      r := ValidateDual(rule, plan, lookup);
    } else {
      r := Ok(AbstractOutcome(rule.part, plan));
    }
  }

  /** The level rules AR1-AR4: one level scan, then the thresholds. */
  method ValidateLevelRule(rule: AuxRule, plan: Plan, lookup: CourseLookup) returns (r: Result<ValidateResult>)
    requires IsLevelRule(rule)
    ensures r == AuxOutcome(rule, plan, lookup)
  {
    match rule {
      case AR1(_, _, level, orHigher) =>
        var scan := ScanLevels(plan.courses, level, orHigher, lookup);
        r := LevelReport(rule, scan);
      case AR2(_, _, level) =>
        var scan := ScanLevels(plan.courses, level, false, lookup);
        r := LevelReport(rule, scan);
      case AR3(_, _, level, orHigher) =>
        var scan := ScanLevels(plan.courses, level, orHigher, lookup);
        r := LevelReport(rule, scan);
      case AR4(_, _, _, level, orHigher) =>
        var scan := ScanLevels(plan.courses, level, orHigher, lookup);
        r := LevelReport(rule, scan);
    }
  }

  /** The programme rules AR5-AR7. */
  method ValidateProgrammeRule(rule: AuxRule, plan: Plan, lookup: CourseLookup) returns (r: Result<ValidateResult>)
    requires rule.AR5? || rule.AR6? || rule.AR7?
    ensures r == AuxOutcome(rule, plan, lookup)
  {
    var under := ChosenUnder(plan, rule.part);
    match rule {
      case AR5(part, l1, l2) =>
        var matching := FindChosen(l1, under);
        FirstChosenMeaning(l1, under);
        r := Ok(Passed(Some(part)));
        if matching.Some? {
          var required := ConflictCodes(l2, AllChosen(plan));
          if required == [] {
            r := Ok(ValidateResult(ERROR, None, AR5Message(l1, l2), ProgramCodes(l2), Some(part)));
          }
        }
      case AR6(part, l1, l2) =>
        var matching := FindChosen(l1, under);
        FirstChosenMeaning(l1, under);
        r := Ok(Passed(None));
        if matching.Some? {
          var conflicting := ConflictCodes(l2, AllChosen(plan));
          if conflicting != [] {
            r := Ok(ValidateResult(ERROR, None, AR6Message(l1, l2), conflicting, None));
          }
        }
      case AR7(part, n) =>
        var anyOver, badlist := DisciplineScan(plan.courses, n, lookup);
        r := Ok(Passed(Some(part)));
        if anyOver {
          match PercentOf(0, n) {
            case Err(e) => r := Err(e);
            case Ok(p) => r := Ok(ValidateResult(ERROR, Some(p), "", badlist, Some(part)));
          }
        }
    }
  }

  /** The exclusion rules AR9, AR10, AR11 and AR13. */
  method ValidateExclusion(rule: AuxRule, plan: Plan, lookup: CourseLookup) returns (r: Result<ValidateResult>)
    requires rule.AR9? || rule.AR10? || rule.AR11? || rule.AR13?
    ensures r == AuxOutcome(rule, plan, lookup)
  {
    var under := ChosenUnder(plan, rule.part);
    match rule {
      case AR9(part, cl) =>
        var overlap := ComputeOverlap(cl, plan.courses);
        r := Ok(Passed(Some(part)));
        if overlap != [] {
          r := Ok(ValidateResult(ERROR, None, AR9Message(cl), overlap, Some(part)));
        }
      case AR10(part, cl, pl) =>
        var matched := FindChosen(pl, under);
        r := Ok(Passed(Some(part)));
        if matched.Some? {
          var overlap := ComputeOverlap(cl, plan.courses);
          if overlap != [] {
            r := Ok(ValidateResult(ERROR, Some(Nought), AR10Message(overlap, matched.value), overlap, Some(part)));
          }
        }
      case AR11(part, cl, pl) =>
        var overlap := ComputeOverlap(cl, plan.courses);
        r := Ok(Passed(Some(part)));
        if overlap != [] {
          var matched := FindChosen(pl, under);
          FirstChosenMeaning(pl, under);
          if matched.None? {
            r := Ok(ValidateResult(ERROR, Some(Nought), AR11Message(overlap, pl), overlap, Some(part)));
          }
        }
      case AR13(part, pl, cl, ppl) =>
        var matched := FindChosen(pl, under);
        r := Ok(Passed(Some(part)));
        if matched.Some? {
          var overlap := ComputeOverlap(cl, plan.courses);
          if overlap != [] {
            r := Ok(ValidateResult(ERROR, Some(Nought), AR13Message(matched.value, overlap, ppl), overlap, Some(part)));
          } else {
            r := Ok(Passed(None));
          }
        }
    }
  }

  /** The substitution rules AR15-AR17. */
  method ValidateSubstitution(rule: AuxRule, plan: Plan, lookup: CourseLookup) returns (r: Result<ValidateResult>)
    requires rule.AR15? || rule.AR16? || rule.AR17?
    ensures r == AuxOutcome(rule, plan, lookup)
  {
    if rule.AR15? {
      r := ValidateAR15(rule, plan, lookup);
    } else if rule.AR16? {
      r := ValidateAR16(rule, plan, lookup);
    } else {
      r := ValidateAR17(rule, plan, lookup);
    }
  }

  method ValidateAR15(rule: AuxRule, plan: Plan, lookup: CourseLookup) returns (r: Result<ValidateResult>)
    requires rule.AR15?
    ensures r == AuxOutcome(rule, plan, lookup)
  {
    var overlap := ComputeOverlap(rule.courseList, plan.courses);
    r := Ok(Substitution(overlap, rule.must, CourseCodes(rule.courseList),
      AR15Must(rule.courseList, rule.programPlanList, rule.lists), AR15May(overlap, rule.programPlanList, rule.lists),
      rule.part));
  }

  method ValidateAR16(rule: AuxRule, plan: Plan, lookup: CourseLookup) returns (r: Result<ValidateResult>)
    requires rule.AR16?
    ensures r == AuxOutcome(rule, plan, lookup)
  {
    var overlap := ComputeOverlap(rule.courseList1, plan.courses);
    var fromIn := FromIn(CourseCodes(rule.courseList2), rule.programPlanList);
    r := Ok(Substitution(overlap, rule.must, CourseCodes(rule.courseList1),
      InPlansMust(CourseCodes(rule.courseList1), rule.planList, fromIn), InPlansMay(overlap, rule.planList, fromIn),
      rule.part));
  }

  method ValidateAR17(rule: AuxRule, plan: Plan, lookup: CourseLookup) returns (r: Result<ValidateResult>)
    requires rule.AR17?
    ensures r == AuxOutcome(rule, plan, lookup)
  {
    var overlap := ComputeOverlap(rule.courseList, plan.courses);
    var fromIn := FromIn(rule.lists, rule.programPlanList);
    r := Ok(Substitution(overlap, rule.must, CourseCodes(rule.courseList),
      InPlansMust(CourseCodes(rule.courseList), rule.planList, fromIn), InPlansMay(overlap, rule.planList, fromIn),
      rule.part));
  }

  /** The dual-programme rules AR18-AR20. */
  method ValidateDual(rule: AuxRule, plan: Plan, lookup: CourseLookup) returns (r: Result<ValidateResult>)
    requires rule.AR18? || rule.AR19? || rule.AR20?
    ensures r == AuxOutcome(rule, plan, lookup)
  {
    var under := ChosenUnder(plan, rule.part);
    match rule {
      case AR18(part, cl, program) =>
        var overlap := ComputeOverlap(cl, plan.courses);
        r := Ok(Passed(Some(part)));
        if overlap != [] {
          var other := FindOther(program, under);
          if other {
            r := Ok(ValidateResult(ERROR, Some(Nought), AR18Message(overlap[0], program), [overlap[0]], Some(part)));
          }
        }
      case AR19(part, pl, cl, program) =>
        var matched := FindChosen(pl, [plan.degree]);
        r := Ok(Passed(Some(part)));
        if matched.Some? {
          var overlap := ComputeOverlap(cl, plan.courses);
          if overlap != [] {
            var has := IsChosen(program, under);
            if !has {
              r := Ok(ValidateResult(ERROR, Some(Nought), AR19Message(overlap[0], program, matched.value), [overlap[0]], Some(part)));
            }
          }
        }
      case AR20(part, p1, l1, cl, l2) =>
        r := Ok(Passed(Some(part)));
        if ProgramMatches(p1, plan.degree) {
          var matched := FindChosen(l1, under);
          if matched.Some? {
            var overlap := ComputeOverlap(cl, plan.courses);
            if overlap != [] {
              var valid := FindChosen(l2, under);
              FirstChosenMeaning(l2, under);
              if valid.None? {
                r := Ok(ValidateResult(ERROR, Some(Nought), AR20Message(overlap[0], l2, matched.value), [overlap[0]], Some(part)));
              }
            }
          }
        }
    }
  }

  // ---------------------------------------------------------------------------
  // What the rules decide

  predicate AllWellFormed(courses: seq<string>) {
    forall i :: 0 <= i < |courses| ==> WellFormedLevel(courses[i])
  }

  /** With well-formed levels a level rule applies its thresholds to the courses at the level. */
  lemma {:induction false} LevelRuleCounts(rule: AuxRule, plan: Plan, lookup: CourseLookup)
    requires IsLevelRule(rule) && AllWellFormed(plan.courses)
    ensures var counted := AtLevelCourses(plan.courses, rule.level, ScanOrHigher(rule));
      AuxOutcome(rule, plan, lookup) == CountVerdict(rule, TotalUnits(lookup, counted), counted)
  {
    LevelScanCounts(plan.courses, rule.level, ScanOrHigher(rule), lookup);
  }

  /**
   * AR1 passes iff the units at the level (or above, with `or_higher`) reach `n`, and
   * never raises; a failure lists exactly the counted courses.
   */
  lemma {:induction false} AR1Meaning(part: string, n: int, level: int, orHigher: bool, plan: Plan, lookup: CourseLookup)
    requires AllWellFormed(plan.courses)
    ensures var counted := AtLevelCourses(plan.courses, level, orHigher);
      var count := TotalUnits(lookup, counted);
      var r := AuxOutcome(AR1(part, n, level, orHigher), plan, lookup);
      r.Ok? && (r.value.status == OK <==> count >= n) &&
      (r.value.status == OK ==> r.value.relevant == []) &&
      (r.value.status != OK ==> (r.value.status == ERROR && r.value.relevant == counted &&
        r.value.percentage == Some(Ratio(100 * count, n))))
  {
    LevelRuleCounts(AR1(part, n, level, orHigher), plan, lookup);
  }

  /**
   * AR2 counts the exact level only and passes iff those units are at most `n`; with
   * `n == 0` a failure divides by zero.
   */
  lemma {:induction false} AR2Meaning(part: string, n: int, level: int, plan: Plan, lookup: CourseLookup)
    requires AllWellFormed(plan.courses)
    ensures var counted := AtLevelCourses(plan.courses, level, false);
      var count := TotalUnits(lookup, counted);
      var r := AuxOutcome(AR2(part, n, level), plan, lookup);
      (r.Err? <==> count > n && n == 0) && (r.Err? ==> r.error == ZeroDivisionError) &&
      (r.Ok? ==> ((r.value.status == OK <==> count <= n) &&
        (r.value.status == OK ==> r.value.relevant == []) &&
        (r.value.status != OK ==> r.value.status == ERROR && r.value.relevant == counted)))
  {
    LevelRuleCounts(AR2(part, n, level), plan, lookup);
  }

  /** AR3 passes iff the units at the level are exactly `n`. */
  lemma {:induction false} AR3Meaning(part: string, n: int, level: int, orHigher: bool, plan: Plan, lookup: CourseLookup)
    requires AllWellFormed(plan.courses)
    ensures var counted := AtLevelCourses(plan.courses, level, orHigher);
      var count := TotalUnits(lookup, counted);
      var r := AuxOutcome(AR3(part, n, level, orHigher), plan, lookup);
      (r.Err? <==> count != n && n == 0) && (r.Err? ==> r.error == ZeroDivisionError) &&
      (r.Ok? ==> ((r.value.status == OK <==> count == n) &&
        (r.value.status == OK ==> r.value.relevant == []) &&
        (r.value.status != OK ==> r.value.status == ERROR && r.value.relevant == counted)))
  {
    LevelRuleCounts(AR3(part, n, level, orHigher), plan, lookup);
  }

  /**
   * AR4 passes iff `n <= count <= m`. A count below `n` is reported against `n` even
   * when it is also above `m`; a count above `m` is reported against `m`.
   */
  lemma {:induction false} AR4Meaning(part: string, n: int, m: int, level: int, orHigher: bool, plan: Plan, lookup: CourseLookup)
    requires AllWellFormed(plan.courses)
    ensures var counted := AtLevelCourses(plan.courses, level, orHigher);
      var count := TotalUnits(lookup, counted);
      var r := AuxOutcome(AR4(part, n, m, level, orHigher), plan, lookup);
      (r.Err? <==> n <= count && count > m && m == 0) && (r.Err? ==> r.error == ZeroDivisionError) &&
      (r.Ok? ==> ((r.value.status == OK <==> n <= count <= m) &&
        (r.value.status == OK ==> r.value.relevant == []) &&
        (r.value.status != OK ==> r.value.status == ERROR && r.value.relevant == counted))) &&
      (count < n ==> r == Ok(ValidateResult(ERROR, Some(Ratio(100 * count, n)),
                                            LevelMessage("at least", n, level, "", count), counted, None))) &&
      (n <= count && count > m && m != 0 ==>
        r == Ok(ValidateResult(ERROR, Some(Ratio(100 * count, m)), LevelMessage("at most", m, level, "", count), counted, None)))
  {
    LevelRuleCounts(AR4(part, n, m, level, orHigher), plan, lookup);
  }

  /**
   * The first course without a digit at index 4 decides every level rule: a code
   * shorter than five characters raises IndexError, otherwise the rule fails with
   * that one course.
   */
  lemma {:induction false} LevelRuleMalformed(rule: AuxRule, plan: Plan, lookup: CourseLookup, i: nat)
    requires IsLevelRule(rule)
    requires i < |plan.courses| && !WellFormedLevel(plan.courses[i])
    requires forall k :: 0 <= k < i ==> WellFormedLevel(plan.courses[k])
    ensures AuxOutcome(rule, plan, lookup) ==
      if |plan.courses[i]| < 5 then Err(IndexError)
      else Ok(ValidateResult(ERROR, None, InvalidLevelMessage, [plan.courses[i]], None))
  {
    LevelScanFirstMalformed(plan.courses, i, rule.level, ScanOrHigher(rule), lookup);
  }

  /**
   * AR5 as intended fails iff a `plan_list_1` programme is chosen under the part and
   * no `plan_list_2` programme is chosen anywhere; it then lists the `plan_list_2` codes.
   */
  lemma {:induction false} AR5Meaning(part: string, planList1: seq<ProgramRef>, planList2: seq<ProgramRef>, plan: Plan, lookup: CourseLookup)
    ensures var r := AuxOutcome(AR5(part, planList1, planList2), plan, lookup);
      r.Ok? && r.value.part == Some(part) &&
      (r.value.status == ERROR <==>
        (exists i :: 0 <= i < |planList1| && planList1[i].code in ChosenUnder(plan, part)) &&
        forall i :: 0 <= i < |planList2| ==> planList2[i].code !in AllChosen(plan)) &&
      (r.value.status == ERROR ==> r.value.relevant == ProgramCodes(planList2)) &&
      (r.value.status != ERROR ==> r.value == Passed(Some(part)))
  {
    AnyChosenByCode(planList1, ChosenUnder(plan, part));
    ConflictsEmpty(planList2, AllChosen(plan));
  }

  /** As written, no `plan_list_2` reference is ever collected. */
  lemma {:induction false} RequiredAsWrittenEmpty(refs: seq<ProgramRef>, values: seq<string>)
    ensures RequiredAsWritten(refs, values) == []
  {
    if refs != [] {
      RequiredAsWrittenEmpty(refs[..|refs| - 1], values);
    }
  }

  /** AR5 as written fails whenever a `plan_list_1` programme is chosen, whatever else is. */
  lemma {:induction false} AR5AsWrittenAlwaysFails(part: string, planList1: seq<ProgramRef>, planList2: seq<ProgramRef>, plan: Plan)
    requires AnyChosen(planList1, ChosenUnder(plan, part))
    ensures AR5AsWritten(part, planList1, planList2, plan).status == ERROR
  {
    RequiredAsWrittenEmpty(planList2, AllChosen(plan));
  }

  function ProgramNamed(code: string): ProgramRef {
    ProgramRef(None, None, code, "", "", "", "")
  }

  /**
   * A plan choosing both "P1" and "P2" under part "A", against "P1 only with P2":
   * the rule as written fails it, the intended rule passes it.
   */
  lemma {:induction false} AR5Counterexample()
    ensures var plan := Plan("", [], [], [], "", [("A", ["P1", "P2"])]);
      AR5AsWritten("A", [ProgramNamed("P1")], [ProgramNamed("P2")], plan).status == ERROR &&
      AR5Outcome("A", [ProgramNamed("P1")], [ProgramNamed("P2")], plan).status == OK
  {
    var plan := Plan("", [], [], [], "", [("A", ["P1", "P2"])]);
    var l1, l2 := [ProgramNamed("P1")], [ProgramNamed("P2")];
    assert ChosenUnder(plan, "A") == ["P1", "P2"];
    assert ProgramMatches(l1[0], ChosenUnder(plan, "A")[0]);
    assert AllChosen(plan) == ["P1", "P2"] by {
      assert PyDict.Values(plan.specialisations) == [["P1", "P2"]];
    }
    AR5AsWrittenAlwaysFails("A", l1, l2, plan);
    ConflictsMember(l2, AllChosen(plan), "P2");
  }

  /**
   * AR6 fails iff a `plan_list_1` programme is chosen under the part and some
   * `plan_list_2` programme is chosen anywhere; it lists exactly those codes, without a part.
   */
  lemma {:induction false} AR6Meaning(part: string, planList1: seq<ProgramRef>, planList2: seq<ProgramRef>, plan: Plan, lookup: CourseLookup)
    ensures var r := AuxOutcome(AR6(part, planList1, planList2), plan, lookup);
      r.Ok? && r.value.part == None &&
      (r.value.status == ERROR <==>
        (exists i :: 0 <= i < |planList1| && planList1[i].code in ChosenUnder(plan, part)) &&
        exists i :: 0 <= i < |planList2| && planList2[i].code in AllChosen(plan)) &&
      (r.value.status == ERROR ==>
        forall x :: x in r.value.relevant <==> x in ProgramCodes(planList2) && x in AllChosen(plan)) &&
      (r.value.status != ERROR ==> r.value == Passed(None))
  {
    AnyChosenByCode(planList1, ChosenUnder(plan, part));
    ConflictsEmpty(planList2, AllChosen(plan));
    forall x {
      ConflictsMember(planList2, AllChosen(plan), x);
    }
  }

  /**
   * AR7 fails iff some discipline's units exceed `n`, listing exactly the plan courses
   * of the over-cap disciplines, with percentage `0 / n`; with `n == 0` that division raises.
   */
  lemma {:induction false} AR7Meaning(part: string, n: int, plan: Plan, lookup: CourseLookup)
    ensures var r := AuxOutcome(AR7(part, n), plan, lookup);
      (r.Err? <==> AnyOverCap(plan.courses, n, lookup) && n == 0) &&
      (r.Ok? ==> ((r.value.status == ERROR <==> AnyOverCap(plan.courses, n, lookup)) && r.value.part == Some(part)))
    ensures var r := AuxOutcome(AR7(part, n), plan, lookup);
      r.Ok? && r.value.status == ERROR ==>
        r.value.percentage == Some(Ratio(0, n)) &&
        forall x :: x in r.value.relevant <==> x in plan.courses && DisciplineUnits(plan.courses, DisciplineOf(x), lookup) > n
    ensures var r := AuxOutcome(AR7(part, n), plan, lookup);
      r.Ok? && r.value.status != ERROR ==> r.value == Passed(Some(part))
  {
    var badlist := OverCap(Disciplines(plan.courses), plan.courses, n, lookup);
    forall x | x in badlist || x in plan.courses
      ensures x in badlist <==> x in plan.courses && DisciplineUnits(plan.courses, DisciplineOf(x), lookup) > n
    {
      OverCapCourses(plan.courses, n, lookup, x);
    }
  }

  /**
   * AR9 fails iff some listed course is in the plan; its relevant courses are the plan
   * courses the list names.
   */
  lemma {:induction false} AR9Meaning(part: string, courseList: seq<CourseRef>, plan: Plan, lookup: CourseLookup)
    ensures var r := AuxOutcome(AR9(part, courseList), plan, lookup);
      r.Ok? && r.value.part == Some(part) &&
      (r.value.status == ERROR <==>
        exists i, j :: 0 <= i < |courseList| && 0 <= j < |plan.courses| && CourseMatches(courseList[i], plan.courses[j])) &&
      (r.value.status == ERROR ==> forall x :: x in r.value.relevant <==>
        x in plan.courses && exists i :: 0 <= i < |courseList| && CourseMatches(courseList[i], x)) &&
      (r.value.status != ERROR ==> r.value == Passed(Some(part)))
  {
    OverlapEmpty(courseList, plan.courses);
    forall x {
      OverlapMember(courseList, plan.courses, x);
    }
  }

  /** AR10 fails iff a `plan_list` programme is chosen under the part and the overlap is non-empty. */
  lemma {:induction false} AR10Meaning(part: string, courseList: seq<CourseRef>, planList: seq<ProgramRef>, plan: Plan, lookup: CourseLookup)
    ensures var r := AuxOutcome(AR10(part, courseList, planList), plan, lookup);
      var overlap := Overlap(courseList, plan.courses);
      r.Ok? && r.value.part == Some(part) &&
      (r.value.status == ERROR <==>
        (exists i :: 0 <= i < |planList| && planList[i].code in ChosenUnder(plan, part)) && overlap != []) &&
      (r.value.status == ERROR ==> r.value.relevant == overlap && r.value.percentage == Some(Nought)) &&
      (r.value.status != ERROR ==> r.value == Passed(Some(part)))
  {
    FirstChosenMeaning(planList, ChosenUnder(plan, part));
    AnyChosenByCode(planList, ChosenUnder(plan, part));
  }

  /** AR11 fails iff the overlap is non-empty and no `plan_list` programme is chosen under the part. */
  lemma {:induction false} AR11Meaning(part: string, courseList: seq<CourseRef>, planList: seq<ProgramRef>, plan: Plan, lookup: CourseLookup)
    ensures var r := AuxOutcome(AR11(part, courseList, planList), plan, lookup);
      var overlap := Overlap(courseList, plan.courses);
      r.Ok? && r.value.part == Some(part) &&
      (r.value.status == ERROR <==>
        overlap != [] && forall i :: 0 <= i < |planList| ==> planList[i].code !in ChosenUnder(plan, part)) &&
      (r.value.status == ERROR ==> r.value.relevant == overlap) &&
      (r.value.status != ERROR ==> r.value == Passed(Some(part)))
  {
    AnyChosenByCode(planList, ChosenUnder(plan, part));
  }

  /**
   * AR13 fails under the same condition as AR10; when a programme is chosen and the
   * overlap is empty, the pass carries no part.
   */
  lemma {:induction false} AR13Meaning(part: string, planList: seq<ProgramRef>, courseList: seq<CourseRef>, programPlanList: seq<ProgramRef>,
                    plan: Plan, lookup: CourseLookup)
    ensures var r := AuxOutcome(AR13(part, planList, courseList, programPlanList), plan, lookup);
      var overlap := Overlap(courseList, plan.courses);
      var chosen := exists i :: 0 <= i < |planList| && planList[i].code in ChosenUnder(plan, part);
      r.Ok? &&
      (r.value.status == ERROR <==> chosen && overlap != []) &&
      (r.value.status == ERROR ==> r.value.relevant == overlap && r.value.part == Some(part)) &&
      (r.value.status != ERROR ==> r.value == Passed(if chosen then None else Some(part)))
  {
    FirstChosenMeaning(planList, ChosenUnder(plan, part));
    AnyChosenByCode(planList, ChosenUnder(plan, part));
  }

  /** No listed course is in the plan. */
  predicate NoneInPlan(courseList: seq<CourseRef>, courses: seq<string>) {
    forall i, j :: 0 <= i < |courseList| && 0 <= j < |courses| ==> !CourseMatches(courseList[i], courses[j])
  }

  /** What a substitution decides, whatever its messages say. */
  lemma {:induction false} SubstitutionMeaning(overlap: seq<string>, must: bool, named: seq<string>, mustMessage: string,
                            mayMessage: string, part: string)
    ensures var r := Substitution(overlap, must, named, mustMessage, mayMessage, part);
      r.part == Some(part) && (r.status == ERROR <==> must && overlap == []) &&
      (r.status == ERROR ==> r.relevant == named) &&
      (r.status != ERROR ==> r.status == OK && r.relevant == (if must then [] else overlap))
  {
  }

  /**
   * AR15: a MUST substitution fails iff no listed course is in the plan, listing the
   * listed codes; a MAY substitution never fails.
   */
  lemma {:induction false} AR15Meaning(part: string, courseList: seq<CourseRef>, must: bool, programPlanList: seq<ProgramRef>,
                    lists: seq<string>, plan: Plan, lookup: CourseLookup)
    ensures var r := AuxOutcome(AR15(part, courseList, must, programPlanList, lists), plan, lookup);
      r.Ok? && r.value.part == Some(part) &&
      (r.value.status == ERROR <==> must && NoneInPlan(courseList, plan.courses)) &&
      (r.value.status == ERROR ==> r.value.relevant == CourseCodes(courseList)) &&
      (r.value.status != ERROR ==> (r.value.status == OK &&
        r.value.relevant == (if must then [] else Overlap(courseList, plan.courses))))
  {
    var overlap := Overlap(courseList, plan.courses);
    var mustMessage, mayMessage := AR15Must(courseList, programPlanList, lists), AR15May(overlap, programPlanList, lists);
    assert AuxOutcome(AR15(part, courseList, must, programPlanList, lists), plan, lookup)
      == Ok(Substitution(overlap, must, CourseCodes(courseList), mustMessage, mayMessage, part));
    SubstitutionMeaning(overlap, must, CourseCodes(courseList), mustMessage, mayMessage, part);
    OverlapEmpty(courseList, plan.courses);
  }

  /** AR16: the same, for `course_list_1`. */
  lemma {:induction false} AR16Meaning(part: string, planList: seq<ProgramRef>, courseList1: seq<CourseRef>, must: bool,
                    courseList2: seq<CourseRef>, programPlanList: seq<ProgramRef>, plan: Plan, lookup: CourseLookup)
    ensures var r := AuxOutcome(AR16(part, planList, courseList1, must, courseList2, programPlanList), plan, lookup);
      r.Ok? && r.value.part == Some(part) &&
      (r.value.status == ERROR <==> must && NoneInPlan(courseList1, plan.courses)) &&
      (r.value.status == ERROR ==> r.value.relevant == CourseCodes(courseList1)) &&
      (r.value.status != ERROR ==> (r.value.status == OK &&
        r.value.relevant == (if must then [] else Overlap(courseList1, plan.courses))))
  {
    var overlap := Overlap(courseList1, plan.courses);
    var fromIn := FromIn(CourseCodes(courseList2), programPlanList);
    var mustMessage, mayMessage := InPlansMust(CourseCodes(courseList1), planList, fromIn), InPlansMay(overlap, planList, fromIn);
    assert AuxOutcome(AR16(part, planList, courseList1, must, courseList2, programPlanList), plan, lookup)
      == Ok(Substitution(overlap, must, CourseCodes(courseList1), mustMessage, mayMessage, part));
    SubstitutionMeaning(overlap, must, CourseCodes(courseList1), mustMessage, mayMessage, part);
    OverlapEmpty(courseList1, plan.courses);
  }

  /** AR17: the same as AR15, with the plan list only in the message. */
  lemma {:induction false} AR17Meaning(part: string, planList: seq<ProgramRef>, courseList: seq<CourseRef>, must: bool,
                    programPlanList: seq<ProgramRef>, lists: seq<string>, plan: Plan, lookup: CourseLookup)
    ensures var r := AuxOutcome(AR17(part, planList, courseList, must, programPlanList, lists), plan, lookup);
      r.Ok? && r.value.part == Some(part) &&
      (r.value.status == ERROR <==> must && NoneInPlan(courseList, plan.courses)) &&
      (r.value.status == ERROR ==> r.value.relevant == CourseCodes(courseList)) &&
      (r.value.status != ERROR ==> (r.value.status == OK &&
        r.value.relevant == (if must then [] else Overlap(courseList, plan.courses))))
  {
    var overlap := Overlap(courseList, plan.courses);
    var fromIn := FromIn(lists, programPlanList);
    var mustMessage, mayMessage := InPlansMust(CourseCodes(courseList), planList, fromIn), InPlansMay(overlap, planList, fromIn);
    assert AuxOutcome(AR17(part, planList, courseList, must, programPlanList, lists), plan, lookup)
      == Ok(Substitution(overlap, must, CourseCodes(courseList), mustMessage, mayMessage, part));
    SubstitutionMeaning(overlap, must, CourseCodes(courseList), mustMessage, mayMessage, part);
    OverlapEmpty(courseList, plan.courses);
  }

  /**
   * AR18 fails iff a listed course is in the plan and some specialisation chosen under
   * the part is not the programme; it reports the first such course.
   */
  lemma {:induction false} AR18Meaning(part: string, courseList: seq<CourseRef>, program: ProgramRef, plan: Plan, lookup: CourseLookup)
    ensures var r := AuxOutcome(AR18(part, courseList, program), plan, lookup);
      var overlap := Overlap(courseList, plan.courses);
      var under := ChosenUnder(plan, part);
      r.Ok? && r.value.part == Some(part) &&
      (r.value.status == ERROR <==> overlap != [] && exists j :: 0 <= j < |under| && under[j] != program.code) &&
      (r.value.status == ERROR ==> (r.value.relevant == [overlap[0]] && overlap[0] in plan.courses &&
        exists i :: 0 <= i < |courseList| && CourseMatches(courseList[i], overlap[0]))) &&
      (r.value.status != ERROR ==> r.value == Passed(Some(part)))
  {
    if Overlap(courseList, plan.courses) != [] {
      OverlapMember(courseList, plan.courses, Overlap(courseList, plan.courses)[0]);
    }
  }

  /**
   * AR19 fails iff some `plan_list` entry is the degree, a listed course is in the plan
   * and the programme is not chosen under the part.
   */
  lemma {:induction false} AR19Meaning(part: string, planList: seq<ProgramRef>, courseList: seq<CourseRef>, program: ProgramRef,
                    plan: Plan, lookup: CourseLookup)
    ensures var r := AuxOutcome(AR19(part, planList, courseList, program), plan, lookup);
      var overlap := Overlap(courseList, plan.courses);
      r.Ok? && r.value.part == Some(part) &&
      (r.value.status == ERROR <==>
        (exists i :: 0 <= i < |planList| && planList[i].code == plan.degree) && overlap != [] &&
        program.code !in ChosenUnder(plan, part)) &&
      (r.value.status == ERROR ==> r.value.relevant == [overlap[0]]) &&
      (r.value.status != ERROR ==> r.value == Passed(Some(part)))
  {
    FirstChosenMeaning(planList, [plan.degree]);
    AnyChosenByCode(planList, [plan.degree]);
    var under := ChosenUnder(plan, part);
    if program.code in under {
      var j :| 0 <= j < |under| && under[j] == program.code;
      assert ProgramMatches(program, under[j]);
    }
  }

  /**
   * AR20 fails iff `plan` is the degree, a `plan_list_1` programme is chosen under the
   * part, a listed course is in the plan and no `plan_list_2` programme is chosen there.
   */
  lemma {:induction false} AR20Meaning(part: string, plan1: ProgramRef, planList1: seq<ProgramRef>, courseList: seq<CourseRef>,
                    planList2: seq<ProgramRef>, plan: Plan, lookup: CourseLookup)
    ensures var r := AuxOutcome(AR20(part, plan1, planList1, courseList, planList2), plan, lookup);
      var overlap := Overlap(courseList, plan.courses);
      var under := ChosenUnder(plan, part);
      r.Ok? && r.value.part == Some(part) &&
      (r.value.status == ERROR <==>
        plan1.code == plan.degree && (exists i :: 0 <= i < |planList1| && planList1[i].code in under) &&
        overlap != [] && forall i :: 0 <= i < |planList2| ==> planList2[i].code !in under) &&
      (r.value.status == ERROR ==> r.value.relevant == [overlap[0]]) &&
      (r.value.status != ERROR ==> r.value == Passed(Some(part)))
  {
    FirstChosenMeaning(planList1, ChosenUnder(plan, part));
    AnyChosenByCode(planList1, ChosenUnder(plan, part));
    AnyChosenByCode(planList2, ChosenUnder(plan, part));
  }

  /** The base rule and `ARUnknown` always fail, with the fixed message and every plan course. */
  lemma {:induction false} AbstractMeaning(rule: AuxRule, plan: Plan, lookup: CourseLookup)
    requires rule.AR? || rule.ARUnknown?
    ensures var r := AuxOutcome(rule, plan, lookup);
      r.Ok? && r.value.status == ERROR && r.value.message == AbstractMessage &&
      r.value.relevant == plan.courses && r.value.part == Some(rule.part)
  {
  }

  /**
   * Across all rules: only level rules raise IndexError, only AR2/AR3/AR4/AR7 divide by
   * zero, no rule warns, and a pass lists courses only for a MAY substitution.
   */
  lemma {:induction false} AuxOutcomeShape(rule: AuxRule, plan: Plan, lookup: CourseLookup)
    ensures var r := AuxOutcome(rule, plan, lookup);
      (r.Err? ==> (r.error == IndexError && IsLevelRule(rule)) ||
                  (r.error == ZeroDivisionError && (rule.AR2? || rule.AR3? || rule.AR4? || rule.AR7?))) &&
      (r.Ok? ==> r.value.status != WARN) &&
      (r.Ok? && r.value.status == OK && r.value.relevant != [] ==> (rule.AR15? || rule.AR16? || rule.AR17?) && !rule.must)
  {
    if IsLevelRule(rule) {
      var scan := LevelScan(plan.courses, rule.level, ScanOrHigher(rule), lookup);
      assert AuxOutcome(rule, plan, lookup) == LevelReport(rule, scan);
      LevelScanErrors(plan.courses, rule.level, ScanOrHigher(rule), lookup);
    }
  }

  /** The level scan raises nothing but IndexError. */
  lemma {:induction false} LevelScanErrors(courses: seq<string>, level: int, orHigher: bool, lookup: CourseLookup)
    ensures LevelScan(courses, level, orHigher, lookup).Err? ==> LevelScan(courses, level, orHigher, lookup).error == IndexError
  {
    if courses != [] {
      LevelScanErrors(courses[..|courses| - 1], level, orHigher, lookup);
    }
  }
}

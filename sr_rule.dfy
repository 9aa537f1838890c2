/**
 * The selection rules SR1-SR8: unit totals over course options (SR1-SR5) and
 * counts of chosen programmes (SR6-SR8). Their results carry no part.
 */
module SelectionRules {
  import opened Wrappers
  import opened PyText
  import opened Params
  import opened Plans
  import opened ValidateResults
  import opened AuxScans
  import opened SelectionScans

  /** One variant per rule class, with the fields the class declares. */
  datatype SelectionRule =
    | SR(part: string)
    | SR1(part: string, n: int, options: seq<CourseOption>)
    | SR2(part: string, n: int, m: int, options: seq<CourseOption>)
    | SR3(part: string, n: int, options: seq<CourseOption>)
    | SR4(part: string, n: int, m: int, options: seq<CourseOption>)
    | SR5(part: string, n: int, options: seq<CourseOption>)
    | SR6(part: string, planType: string, programs: seq<ProgramRef>)
    | SR7(part: string, n: int, planTypes: string, programs: seq<ProgramRef>)
    | SR8(part: string, n: int, m: int, planTypes: string, programs: seq<ProgramRef>)

  const AbstractMessage := "Should not be seeing this - validating abstract SR"

  predicate IsUnitRule(rule: SelectionRule) {
    rule.SR1? || rule.SR2? || rule.SR3? || rule.SR4? || rule.SR5?
  }

  /** `[str(option) for option in self.options]`. */
  function OptionTexts(options: seq<CourseOption>): (r: seq<string>)
    ensures |r| == |options| && forall i :: 0 <= i < |options| ==> r[i] == OptionText(options[i])
  {
    seq(|options|, i requires 0 <= i < |options| => OptionText(options[i]))
  }

  // ---------------------------------------------------------------------------
  // Messages

  function AddFromMessage(count: nat, n: int, names: seq<string>): string {
    NatToString(count) + " units found in plan, but " + IntToString(n) + " required. Add from: " + Join(", ", names)
  }

  /** `bound` is " required" for SR5 and " maximum" for SR2/SR4. */
  function RemoveFromMessage(count: nat, limit: int, bound: string, names: seq<string>): string {
    NatToString(count) + " units found in plan, but " + IntToString(limit) + bound + ". Remove from: " + Join(", ", names)
  }

  function NeedMessage(bad: seq<string>): string {
    Join(", ", bad) + " need to be in the plan"
  }

  function CompleteMessage(rule: SelectionRule): string
    requires IsUnitRule(rule)
  {
    var texts := StrListRepr(OptionTexts(rule.options));
    match rule
    case SR1(_, n, _) => "Complete " + IntToString(n) + " units for ALL of the following " + texts
    case SR2(_, n, m, _) =>
      "Complete " + IntToString(n) + " to " + IntToString(m) + " units for ALL of the following " + texts
    case SR3(_, n, _) => "Complete at least " + IntToString(n) + " units from the following " + texts
    case SR4(_, n, m, _) => "Complete " + IntToString(n) + " to " + IntToString(m) + " units from the following " + texts
    case SR5(_, n, _) => "Complete exactly " + IntToString(n) + " units from the following"
  }

  function ProgramCountMessage(count: nat, planTypes: string, limit: int, bound: string, verb: string,
                               codes: seq<string>): string {
    NatToString(count) + " " + planTypes + " found in plan, but " + IntToString(limit) + bound + ". " + verb
      + " from: " + Join(", ", codes)
  }

  // ---------------------------------------------------------------------------
  // Outcomes

  /** An ERROR whose percentage is `a / b * 100.0`. */
  function UnitFailure(a: int, b: int, message: string, relevant: seq<string>): (r: Result<ValidateResult>)
    ensures r.Err? <==> b == 0
    ensures r.Ok? ==> r.value == ValidateResult(ERROR, Some(Ratio(100 * a, b)), message, relevant, None)
  {
    match PercentOf(a, b)
    case Err(e) => Err(e)
    case Ok(p) => Ok(ValidateResult(ERROR, Some(p), message, relevant, None))
  }

  /** SR1-SR5 once the options are scanned, checks in source order. */
  function UnitVerdict(rule: SelectionRule, t: OptionTally): (r: Result<ValidateResult>)
    requires IsUnitRule(rule)
    ensures r.Err? ==> r.error == ZeroDivisionError && !rule.SR3?
    ensures r.Ok? ==> r.value.status != WARN && r.value.part == None
  {
    var ok := Ok(ValidateResult(OK, Some(Full), CompleteMessage(rule), OptionTexts(rule.options), None));
    match rule
    case SR1(_, n, _) =>
      if t.count != n then UnitFailure(t.count, n, AddFromMessage(t.count, n, t.bad), t.bad)
      else if t.bad != [] then UnitFailure(n - |t.bad|, n, NeedMessage(t.bad), t.bad)
      else ok
    case SR2(_, n, m, _) =>
      if t.count < n then UnitFailure(t.count, n, AddFromMessage(t.count, n, t.bad), t.bad)
      else if t.count > m then UnitFailure(t.count, m, RemoveFromMessage(t.count, m, " maximum", t.done), t.done)
      else if t.bad != [] then UnitFailure(n - |t.bad|, n, NeedMessage(t.bad), t.bad)
      else ok
    case SR3(_, n, _) =>
      if t.count < n then UnitFailure(t.count, n, AddFromMessage(t.count, n, t.bad), t.bad)
      else ok
    case SR4(_, n, m, _) =>
      if t.count < n then UnitFailure(t.count, n, AddFromMessage(t.count, n, t.bad), t.bad)
      else if t.count > m then UnitFailure(t.count, m, RemoveFromMessage(t.count, m, " maximum", t.done), t.done)
      else ok
    case SR5(_, n, _) =>
      if t.count < n then UnitFailure(t.count, n, AddFromMessage(t.count, n, t.bad), t.bad)
      else if t.count > n then UnitFailure(t.count, n, RemoveFromMessage(t.count, n, " required", t.done), t.done)
      else ok
  }

  /** SR6: the first chosen option passes the rule; every option code is listed either way. */
  function SR6Outcome(planType: string, programs: seq<ProgramRef>, specs: seq<string>): (r: ValidateResult)
    ensures r.status != WARN && r.part == None && r.relevant == ProgramCodes(programs)
  {
    var codes := ProgramCodes(programs);
    if FirstChosen(programs, specs).Some? then
      ValidateResult(OK, Some(Full), "Complete one " + planType + " from the following: " + Join(", ", codes), codes, None)
    else
      ValidateResult(ERROR, None, "No " + planType + " found in plan. Add from: " + Join(", ", codes), codes, None)
  }

  /** SR7 (`m == n`, " required") and SR8 (" maximum") once the options are scanned. */
  function CountVerdict(n: int, m: int, bound: string, planTypes: string, programs: seq<ProgramRef>, t: ProgramTally,
                        okMessage: string): (r: ValidateResult)
    ensures r.status != WARN && r.part == None
  {
    var codes := ProgramCodes(programs);
    if t.count < n then
      ValidateResult(ERROR, None, ProgramCountMessage(t.count, planTypes, n, " required", "Add", codes), t.notDone, None)
    else if t.count > m then
      ValidateResult(ERROR, None, ProgramCountMessage(t.count, planTypes, m, bound, "Remove", codes), t.done, None)
    else ValidateResult(OK, Some(Full), okMessage, codes, None)
  }

  function SR7Message(n: int, planTypes: string, programs: seq<ProgramRef>): string {
    "Complete exactly " + IntToString(n) + " " + planTypes + " from following " + StrListRepr(ProgramCodes(programs))
  }

  function SR8Message(n: int, m: int, planTypes: string, programs: seq<ProgramRef>): string {
    "Complete " + IntToString(n) + " to " + IntToString(m) + " " + planTypes + " from following "
      + StrListRepr(ProgramCodes(programs))
  }

  /** What `rule.validate(plan, course_getter, degree_getter)` returns or raises. */
  function SROutcome(rule: SelectionRule, plan: Plan, lookup: CourseLookup): (r: Result<ValidateResult>)
    ensures r.Err? ==> r.error == ZeroDivisionError && IsUnitRule(rule) && !rule.SR3?
    ensures r.Ok? ==> r.value.status != WARN && r.value.part == None
  {
    match rule
    case SR(_) => Ok(ValidateResult(ERROR, None, AbstractMessage, plan.courses, None))
    case SR6(part, planType, programs) => Ok(SR6Outcome(planType, programs, ChosenUnder(plan, part)))
    case SR7(part, n, planTypes, programs) =>
      Ok(CountVerdict(n, n, " required", planTypes, programs, ProgramScan(programs, ChosenUnder(plan, part)),
                      SR7Message(n, planTypes, programs)))
    case SR8(part, n, m, planTypes, programs) =>
      Ok(CountVerdict(n, m, " maximum", planTypes, programs, ProgramScan(programs, ChosenUnder(plan, part)),
                      SR8Message(n, m, planTypes, programs)))
    case _ => UnitVerdict(rule, OptionScan(rule.options, plan.courses, lookup))
  }

  /** Each rule's `validate`, evaluated with the scan loops. */
  method ValidateSR(rule: SelectionRule, plan: Plan, lookup: CourseLookup) returns (r: Result<ValidateResult>)
    ensures r == SROutcome(rule, plan, lookup)
  {
    match rule
    case SR(_) =>
      r := Ok(ValidateResult(ERROR, None, AbstractMessage, plan.courses, None));
    case SR6(part, planType, programs) =>
      var found := FindChosen(programs, ChosenUnder(plan, part));
      var codes := ProgramCodes(programs);
      if found.Some? {
        r := Ok(ValidateResult(OK, Some(Full), "Complete one " + planType + " from the following: " + Join(", ", codes),
                               codes, None));
      } else {
        r := Ok(ValidateResult(ERROR, None, "No " + planType + " found in plan. Add from: " + Join(", ", codes), codes, None));
      }
    case SR7(part, n, planTypes, programs) =>
      var t := ScanPrograms(programs, ChosenUnder(plan, part));
      r := Ok(CountVerdict(n, n, " required", planTypes, programs, t, SR7Message(n, planTypes, programs)));
    case SR8(part, n, m, planTypes, programs) =>
      var t := ScanPrograms(programs, ChosenUnder(plan, part));
      r := Ok(CountVerdict(n, m, " maximum", planTypes, programs, t, SR8Message(n, m, planTypes, programs)));
    case _ =>
      var t := ScanOptions(rule.options, plan.courses, lookup);
      r := UnitVerdict(rule, t);
  }

  // ---------------------------------------------------------------------------
  // What the rules decide

  /** The units the scan counts: each option's first matching plan course, looked up. */
  function Counted(options: seq<CourseOption>, plan: Plan, lookup: CourseLookup): nat {
    OptionScan(options, plan.courses, lookup).count
  }

  function Missing(options: seq<CourseOption>, plan: Plan, lookup: CourseLookup): seq<string> {
    OptionScan(options, plan.courses, lookup).bad
  }

  function Matched(options: seq<CourseOption>, plan: Plan, lookup: CourseLookup): seq<string> {
    OptionScan(options, plan.courses, lookup).done
  }

  /**
   * SR1 passes iff the count is exactly `n` and every option matched; a wrong count
   * is reported first, even when every option matched; failures list the missing
   * options; with `n == 0` every failure divides by zero.
   */
  lemma {:induction false} SR1Meaning(part: string, n: int, options: seq<CourseOption>, plan: Plan, lookup: CourseLookup)
    ensures var count := Counted(options, plan, lookup);
      var r := SROutcome(SR1(part, n, options), plan, lookup);
      (r.Err? <==> n == 0 && !(count == 0 && AllMatched(options, plan.courses))) &&
      (r.Ok? ==> (r.value.status == OK <==> count == n && AllMatched(options, plan.courses)) && r.value.part == None) &&
      (r.Ok? && r.value.status == OK ==> r.value.relevant == OptionTexts(options)) &&
      (r.Ok? && r.value.status != OK ==> r.value.status == ERROR && r.value.relevant == Missing(options, plan, lookup)) &&
      (r.Ok? && count != n ==> r.value.message == AddFromMessage(count, n, Missing(options, plan, lookup)))
  {
    OptionScanAllMatched(options, plan.courses, lookup);
  }

  /**
   * SR2 checks under `n`, then over `m`, then missing options: under lists the missing
   * options, over lists the matched courses.
   */
  lemma {:induction false} SR2Meaning(part: string, n: int, m: int, options: seq<CourseOption>, plan: Plan, lookup: CourseLookup)
    ensures var count := Counted(options, plan, lookup);
      var all := AllMatched(options, plan.courses);
      var r := SROutcome(SR2(part, n, m, options), plan, lookup);
      (r.Err? <==> n <= count && ((count > m && m == 0) || (count <= m && !all && n == 0))) &&
      (r.Ok? ==> (r.value.status == OK <==> n <= count <= m && all) && r.value.part == None) &&
      (r.Ok? && r.value.status == OK ==> r.value.relevant == OptionTexts(options)) &&
      (r.Ok? && count < n ==> r.value.status == ERROR && r.value.relevant == Missing(options, plan, lookup)) &&
      (r.Ok? && n <= count && count > m ==> r.value.status == ERROR && r.value.relevant == Matched(options, plan, lookup)) &&
      (r.Ok? && n <= count <= m && !all ==> r.value.status == ERROR && r.value.relevant == Missing(options, plan, lookup))
  {
    OptionScanAllMatched(options, plan.courses, lookup);
  }

  /** SR3 passes iff the count reaches `n`, whether or not options are missing; it never raises. */
  lemma {:induction false} SR3Meaning(part: string, n: int, options: seq<CourseOption>, plan: Plan, lookup: CourseLookup)
    ensures var count := Counted(options, plan, lookup);
      var r := SROutcome(SR3(part, n, options), plan, lookup);
      r.Ok? && r.value.part == None && (r.value.status == OK <==> count >= n) &&
      (r.value.status == OK ==> r.value.relevant == OptionTexts(options)) &&
      (r.value.status != OK ==>
        (r.value.status == ERROR && r.value.relevant == Missing(options, plan, lookup) &&
         r.value.percentage == Some(Ratio(100 * count, n))))
  {
  }

  /** SR4 passes iff `n <= count <= m`; under lists the missing options, over the matched courses. */
  lemma {:induction false} SR4Meaning(part: string, n: int, m: int, options: seq<CourseOption>, plan: Plan, lookup: CourseLookup)
    ensures var count := Counted(options, plan, lookup);
      var r := SROutcome(SR4(part, n, m, options), plan, lookup);
      (r.Err? <==> n <= count && count > m && m == 0) &&
      (r.Ok? ==> (r.value.status == OK <==> n <= count <= m) && r.value.part == None) &&
      (r.Ok? && r.value.status == OK ==> r.value.relevant == OptionTexts(options)) &&
      (r.Ok? && count < n ==> r.value.status == ERROR && r.value.relevant == Missing(options, plan, lookup)) &&
      (r.Ok? && n <= count && count > m ==> r.value.status == ERROR && r.value.relevant == Matched(options, plan, lookup))
  {
  }

  /** SR5 passes iff the count is exactly `n`; under lists the missing options, over the matched courses. */
  lemma {:induction false} SR5Meaning(part: string, n: int, options: seq<CourseOption>, plan: Plan, lookup: CourseLookup)
    ensures var count := Counted(options, plan, lookup);
      var r := SROutcome(SR5(part, n, options), plan, lookup);
      (r.Err? <==> count > n && n == 0) &&
      (r.Ok? ==> (r.value.status == OK <==> count == n) && r.value.part == None) &&
      (r.Ok? && r.value.status == OK ==> r.value.relevant == OptionTexts(options)) &&
      (r.Ok? && count < n ==> r.value.status == ERROR && r.value.relevant == Missing(options, plan, lookup)) &&
      (r.Ok? && count > n ==> r.value.status == ERROR && r.value.relevant == Matched(options, plan, lookup))
  {
  }

  /** SR6 passes iff some option code is chosen under the part; both outcomes list every option code. */
  lemma {:induction false} SR6Meaning(part: string, planType: string, programs: seq<ProgramRef>, plan: Plan, lookup: CourseLookup)
    ensures var r := SROutcome(SR6(part, planType, programs), plan, lookup);
      r.Ok? && r.value.part == None && r.value.relevant == ProgramCodes(programs) &&
      (r.value.status == OK <==> exists i :: 0 <= i < |programs| && programs[i].code in ChosenUnder(plan, part)) &&
      (r.value.status != OK ==> r.value.status == ERROR && r.value.percentage == None)
  {
    FirstChosenMeaning(programs, ChosenUnder(plan, part));
    AnyChosenByCode(programs, ChosenUnder(plan, part));
  }

  /**
   * SR7 counts the options chosen under the part and passes iff that is exactly `n`;
   * too few lists the options not chosen, too many the options chosen.
   */
  lemma {:induction false} SR7Meaning(part: string, n: int, planTypes: string, programs: seq<ProgramRef>, plan: Plan, lookup: CourseLookup)
    ensures var under := ChosenUnder(plan, part);
      var count := |ChosenCodes(programs, under)|;
      var r := SROutcome(SR7(part, n, planTypes, programs), plan, lookup);
      r.Ok? && r.value.part == None && (r.value.status == OK <==> count == n) &&
      (r.value.status == OK ==> r.value.relevant == ProgramCodes(programs)) &&
      (count < n ==> r.value.status == ERROR && r.value.relevant == UnchosenCodes(programs, under)) &&
      (count > n ==> r.value.status == ERROR && r.value.relevant == ChosenCodes(programs, under))
  {
    ProgramScanMeaning(programs, ChosenUnder(plan, part));
  }

  /** SR8: as SR7, passing iff `n <= count <= m`. */
  lemma {:induction false} SR8Meaning(part: string, n: int, m: int, planTypes: string, programs: seq<ProgramRef>, plan: Plan,
                   lookup: CourseLookup)
    ensures var under := ChosenUnder(plan, part);
      var count := |ChosenCodes(programs, under)|;
      var r := SROutcome(SR8(part, n, m, planTypes, programs), plan, lookup);
      r.Ok? && r.value.part == None && (r.value.status == OK <==> n <= count <= m) &&
      (r.value.status == OK ==> r.value.relevant == ProgramCodes(programs)) &&
      (count < n ==> r.value.status == ERROR && r.value.relevant == UnchosenCodes(programs, under)) &&
      (n <= count && count > m ==> r.value.status == ERROR && r.value.relevant == ChosenCodes(programs, under))
  {
    ProgramScanMeaning(programs, ChosenUnder(plan, part));
  }

  /** The base rule always fails, with the fixed message and every plan course. */
  lemma {:induction false} AbstractMeaning(part: string, plan: Plan, lookup: CourseLookup)
    ensures var r := SROutcome(SR(part), plan, lookup);
      r.Ok? && r.value.status == ERROR && r.value.message == AbstractMessage &&
      r.value.relevant == plan.courses && r.value.part == None
  {
  }
}

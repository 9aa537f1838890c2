/**
 * The degree aggregate: a record of rules that validates a plan by running every
 * auxiliary rule and then every selection rule, one result per rule.
 */
module Degrees {
  import opened Wrappers
  import opened PyDict
  import opened Plans
  import opened ValidateResults
  import opened AuxRules
  import opened SelectionRules

  datatype Degree = Degree(
    name: string,
    code: string,
    year: string,
    sem: int,
    aux: seq<AuxRule>,
    srs: seq<SelectionRule>,
    partReferences: Dict<string, string>,
    ruleLogic: seq<string>)

  /** `Degree.build()`. */
  function Build(): Degree {
    Degree("", "", "", 1, [], [], [], [])
  }

  /** The results of a list of rules in rule order; the first rule that raises ends the loop. */
  function Run<R>(rules: seq<R>, outcome: R -> Result<ValidateResult>): Result<seq<ValidateResult>> {
    if rules == [] then Ok([])
    else
      var init :- Run(rules[..|rules| - 1], outcome);
      var last :- outcome(rules[|rules| - 1]);
      Ok(init + [last])
  }

  function AuxResults(aux: seq<AuxRule>, plan: Plan, lookup: CourseLookup): Result<seq<ValidateResult>> {
    Run(aux, rule => AuxOutcome(rule, plan, lookup))
  }

  function SRResults(srs: seq<SelectionRule>, plan: Plan, lookup: CourseLookup): Result<seq<ValidateResult>> {
    Run(srs, rule => SROutcome(rule, plan, lookup))
  }

  /** What `degree.validate(plan, ...)` returns or raises. */
  function Validation(degree: Degree, plan: Plan, lookup: CourseLookup): Result<seq<ValidateResult>> {
    var a :- AuxResults(degree.aux, plan, lookup);
    var s :- SRResults(degree.srs, plan, lookup);
    Ok(a + s)
  }

  /** `Degree.validate`: the two append loops. */
  method Validate(degree: Degree, plan: Plan, lookup: CourseLookup) returns (r: Result<seq<ValidateResult>>)
    ensures r == Validation(degree, plan, lookup)
  {
    r := ValidateAuxLoop(degree.aux, plan, lookup);
    if r.Ok? {
      r := ValidateSRLoop(degree.srs, plan, lookup, r.value);
    }
  }

  /** The first loop: one result per aux rule, in order, until a rule raises. */
  method ValidateAuxLoop(aux: seq<AuxRule>, plan: Plan, lookup: CourseLookup) returns (r: Result<seq<ValidateResult>>)
    ensures r == AuxResults(aux, plan, lookup)
  {
    var outcome := rule => AuxOutcome(rule, plan, lookup);
    var results: seq<ValidateResult> := [];
    for i := 0 to |aux|
      invariant Run(aux[..i], outcome) == Ok(results)
    {
      var one := ValidateAux(aux[i], plan, lookup);
      assert one == outcome(aux[i]);
      if one.Err? {
        RunErrFrom(aux, i + 1, outcome);
        return Err(one.error);
      }
      RunStep(aux, i, outcome);
      results := results + [one.value];
    }
    assert aux[..|aux|] == aux;
    r := Ok(results);
  }

  /** The second loop: appends one result per selection rule to `results`, until a rule raises. */
  method ValidateSRLoop(srs: seq<SelectionRule>, plan: Plan, lookup: CourseLookup, results: seq<ValidateResult>)
    returns (r: Result<seq<ValidateResult>>)
    ensures r == (var s := SRResults(srs, plan, lookup); if s.Ok? then Ok(results + s.value) else Err(s.error))
  {
    var outcome := rule => SROutcome(rule, plan, lookup);
    var acc := results;
    for j := 0 to |srs|
      invariant Run(srs[..j], outcome).Ok?
      invariant acc == results + Run(srs[..j], outcome).value
    {
      var one := ValidateSR(srs[j], plan, lookup);
      assert one == outcome(srs[j]);
      if one.Err? {
        RunErrFrom(srs, j + 1, outcome);
        return Err(one.error);
      }
      RunStep(srs, j, outcome);
      acc := acc + [one.value];
    }
    assert srs[..|srs|] == srs;
    r := Ok(acc);
  }

  /** One more successful rule appends its result. */
  lemma {:induction false} RunStep<R>(rules: seq<R>, i: nat, outcome: R -> Result<ValidateResult>)
    requires i < |rules| && Run(rules[..i], outcome).Ok? && outcome(rules[i]).Ok?
    ensures Run(rules[..i + 1], outcome) == Ok(Run(rules[..i], outcome).value + [outcome(rules[i]).value])
  {
    assert rules[..i + 1][..i] == rules[..i];
  }

  /** A rule that raises after a prefix of successes makes the whole list raise its error. */
  lemma {:induction false} RunErrFrom<R>(rules: seq<R>, k: nat, outcome: R -> Result<ValidateResult>)
    requires 0 < k <= |rules|
    requires Run(rules[..k - 1], outcome).Ok? && outcome(rules[k - 1]).Err?
    ensures Run(rules, outcome) == Err(outcome(rules[k - 1]).error)
  {
    var n := |rules| - 1;
    if k == |rules| {
      assert rules[..n] == rules[..k - 1];
    } else {
      assert rules[..n][..k - 1] == rules[..k - 1];
      assert rules[..n][k - 1] == rules[k - 1];
      RunErrFrom(rules[..n], k, outcome);
    }
  }

  /** One result per rule, each the rule's own; the list fails iff some rule raises, with its error. */
  lemma {:induction false} RunMeaning<R>(rules: seq<R>, outcome: R -> Result<ValidateResult>)
    ensures var r := Run(rules, outcome);
      (r.Ok? <==> forall i :: 0 <= i < |rules| ==> outcome(rules[i]).Ok?) &&
      (r.Ok? ==> |r.value| == |rules| && forall i :: 0 <= i < |rules| ==> Ok(r.value[i]) == outcome(rules[i])) &&
      (r.Err? ==> exists i :: 0 <= i < |rules| && outcome(rules[i]) == Err(r.error))
  {
    if rules != [] {
      var n := |rules| - 1;
      RunMeaning(rules[..n], outcome);
      assert forall i :: 0 <= i < n ==> rules[..n][i] == rules[i];
    }
  }

  /**
   * Validation yields exactly `|aux| + |srs|` results: the aux results in order, then
   * the SR results in order; it raises iff some rule raises.
   */
  lemma {:induction false} ValidationMeaning(degree: Degree, plan: Plan, lookup: CourseLookup)
    ensures var r := Validation(degree, plan, lookup);
      var aux := degree.aux;
      var srs := degree.srs;
      (r.Ok? <==>
        (forall i :: 0 <= i < |aux| ==> AuxOutcome(aux[i], plan, lookup).Ok?) &&
        (forall j :: 0 <= j < |srs| ==> SROutcome(srs[j], plan, lookup).Ok?)) &&
      (r.Ok? ==> |r.value| == |aux| + |srs|) &&
      (r.Ok? ==> forall i :: 0 <= i < |aux| ==> Ok(r.value[i]) == AuxOutcome(aux[i], plan, lookup)) &&
      (r.Ok? ==> forall j :: 0 <= j < |srs| ==> Ok(r.value[|aux| + j]) == SROutcome(srs[j], plan, lookup))
  {
    RunMeaning(degree.aux, rule => AuxOutcome(rule, plan, lookup));
    RunMeaning(degree.srs, rule => SROutcome(rule, plan, lookup));
  }

  /** `part_references` and `rule_logic` are carried but play no part in validation. */
  lemma {:induction false} ValidationIgnoresLogic(degree: Degree, refs: Dict<string, string>, logic: seq<string>, plan: Plan,
                               lookup: CourseLookup)
    ensures Validation(degree.(partReferences := refs, ruleLogic := logic), plan, lookup)
         == Validation(degree, plan, lookup)
  {
  }

  /** A freshly built degree has no rules, so it validates every plan to no results. */
  lemma {:induction false} BuildValidatesToNothing(plan: Plan, lookup: CourseLookup)
    ensures Validation(Build(), plan, lookup) == Ok([])
    ensures Build().sem == 1 && Build().partReferences == [] && Build().ruleLogic == []
  {
    var none: seq<ValidateResult> := [];
    assert AuxResults([], plan, lookup) == Ok(none);
    assert SRResults([], plan, lookup) == Ok(none);
    assert none + none == none;
  }
}

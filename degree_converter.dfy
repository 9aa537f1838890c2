/**
 * `convert_degree`: the walk over a parsed degree's requirement components. Only the
 * main component (identifier 1) is read; its header rules are converted in part "",
 * every body entry's and nested entry's rules in that entry's part reference; the
 * converted rules, in walk order, become the flat degree's `aux` list.
 *
 * The walk is specified in two stages: `DegreeSteps` lists what the loops do, in
 * order, and `RunSteps` converts those steps, stopping at the first that raises.
 */
module DegreeConversion {
  import opened Wrappers
  import opened RawValues
  import opened AuxRules
  import opened Converter
  import Degrees

  /** A nested entry's header; its rule list and its selection rule may be missing. */
  datatype ComponentPayloadBodyBodyHeader = ComponentPayloadBodyBodyHeader(
    partReference: string,
    auxiliaryRules: Option<seq<ParsedAuxRule>>,
    selectionRule: Option<Raw>)

  /** A row under a nested entry: a curriculum reference, an equivalence group or a wildcard. */
  datatype ComponentPayloadBodyBodyBody = ComponentPayloadBodyBodyBody(
    curriculumReference: Option<Raw>,
    equivalenceGroup: Option<Raw>,
    wildCardItem: Option<Raw>)

  datatype ComponentPayloadBodyBody = ComponentPayloadBodyBody(
    header: Option<ComponentPayloadBodyBodyHeader>,
    body: Option<seq<ComponentPayloadBodyBodyBody>>)

  datatype ComponentPayloadBodyHeader = ComponentPayloadBodyHeader(
    partReference: string,
    auxiliaryRules: seq<ParsedAuxRule>)

  datatype ComponentPayloadBody = ComponentPayloadBody(
    header: ComponentPayloadBodyHeader,
    body: seq<ComponentPayloadBodyBody>)

  datatype ComponentPayloadHeader = ComponentPayloadHeader(auxiliaryRules: seq<ParsedAuxRule>, ruleLogic: Raw)

  datatype ComponentPayload = ComponentPayload(header: ComponentPayloadHeader, body: seq<ComponentPayloadBody>)

  datatype Component = Component(internalComponentIdentifier: int, payload: ComponentPayload)

  /** The fields of a parsed degree the conversion reads. */
  datatype ParsedDegree = ParsedDegree(title: string, code: string, year: string, components: seq<Component>)

  /** One thing the walk does: convert a rule in a part, or raise TypeError. */
  datatype Step = Rule(ar: ParsedAuxRule, part: string) | Fail

  function RulesAt(ars: seq<ParsedAuxRule>, part: string): (s: seq<Step>)
    ensures |s| == |ars| && forall i :: 0 <= i < |ars| ==> s[i] == Rule(ars[i], part)
  {
    seq(|ars|, i requires 0 <= i < |ars| => Rule(ars[i], part))
  }

  /** The steps of a loop over `xs`: those of each item, in order. */
  function Flat<T>(xs: seq<T>, f: T -> seq<Step>): seq<Step> {
    if xs == [] then [] else Flat(xs[..|xs| - 1], f) + f(xs[|xs| - 1])
  }

  /**
   * A nested entry without a header does nothing. With one, its rules (when listed)
   * are converted in its part; an entry with a selection rule but no body then
   * iterates over None, which raises.
   */
  function InnerSteps(b: ComponentPayloadBodyBody): seq<Step> {
    match b.header
    case None => []
    case Some(h) =>
      RulesAt(h.auxiliaryRules.GetOr([]), h.partReference) +
      (if h.selectionRule.Some? && b.body.None? then [Fail] else [])
  }

  function BodySteps(b: ComponentPayloadBody): seq<Step> {
    RulesAt(b.header.auxiliaryRules, b.header.partReference) + Flat(b.body, InnerSteps)
  }

  /** Any component but the main one is skipped; the main one's header rules are in part "". */
  function ComponentSteps(c: Component): seq<Step> {
    if c.internalComponentIdentifier != 1 then []
    else RulesAt(c.payload.header.auxiliaryRules, "") + Flat(c.payload.body, BodySteps)
  }

  function DegreeSteps(d: ParsedDegree): seq<Step> {
    Flat(d.components, ComponentSteps)
  }

  function StepResult(ver: Version, s: Step): (r: Result<AuxRule>)
    ensures r.Err? ==> r.error == TypeError || ConversionError(ver, r.error)
  {
    match s
    case Rule(ar, part) => ProcessAR(ver, ar, part)
    case Fail => Err(TypeError)
  }

  /** What each step appends, or raises. */
  function Convert(ver: Version): Step -> Result<AuxRule> {
    s => StepResult(ver, s)
  }

  lemma {:induction false} RunFail(ver: Version)
    ensures RunSteps(Convert(ver), []) == Ok([])
    ensures RunSteps(Convert(ver), [Fail]) == Err(TypeError)
  {
    assert [Fail][..0] == [];
  }

  lemma {:induction false} ConvertRule(ver: Version, ar: ParsedAuxRule, part: string, r: Result<AuxRule>)
    requires r == ProcessAR(ver, ar, part)
    ensures Convert(ver)(Rule(ar, part)) == r
  {
  }

  /** The values the steps append, in order, or the first exception one of them raises. */
  function RunSteps<T>(convert: Step -> Result<T>, steps: seq<Step>): Result<seq<T>> {
    if steps == [] then Ok([])
    else
      var init :- RunSteps(convert, steps[..|steps| - 1]);
      var last :- convert(steps[|steps| - 1]);
      Ok(init + [last])
  }

  /** Running one stretch of steps after another. */
  function Then<T>(a: Result<seq<T>>, b: Result<seq<T>>): Result<seq<T>> {
    if a.Err? then a else if b.Err? then b else Ok(a.value + b.value)
  }

  /** What `convert_degree` returns or raises. As written `FlatDegree()` lacks its arguments. */
  function ConvertedDegree(ver: Version, d: ParsedDegree): (r: Result<Degrees.Degree>)
    ensures ver == AsWritten ==> r == Err(TypeError)
    ensures r.Ok? ==> r.value.name == d.title && r.value.code == d.code && r.value.year == d.year
    ensures r.Ok? ==> r.value.srs == [] && r.value.partReferences == [] && r.value.ruleLogic == []
    ensures r.Err? ==> r.error == TypeError || r.error == SerdeError
  {
    if ver == AsWritten then Err(TypeError)
    else
      var run := RunSteps(Convert(ver), DegreeSteps(d));
      if run.Err? then
        RunStepsFirstErr(Convert(ver), DegreeSteps(d));
        Err(run.error)
      else Ok(Degrees.Build().(name := d.title, code := d.code, year := d.year, aux := run.value))
  }

  // ----- The steps and their run -----

  lemma {:induction false} FlatAppend<T>(xs: seq<T>, ys: seq<T>, f: T -> seq<Step>)
    ensures Flat(xs + ys, f) == Flat(xs, f) + Flat(ys, f)
    decreases |ys|
  {
    if ys == [] {
      assert xs + ys == xs;
    } else {
      var n := |ys| - 1;
      assert (xs + ys)[..|xs + ys| - 1] == xs + ys[..n];
      assert (xs + ys)[|xs + ys| - 1] == ys[n];
      FlatAppend(xs, ys[..n], f);
    }
  }

  /** Running a concatenation runs the first stretch, then the second. */
  lemma {:induction false} RunAppend<T>(convert: Step -> Result<T>, s1: seq<Step>, s2: seq<Step>)
    ensures RunSteps(convert, s1 + s2) == Then(RunSteps(convert, s1), RunSteps(convert, s2))
    decreases |s2|
  {
    if s2 == [] {
      assert s1 + s2 == s1;
      if RunSteps(convert, s1).Ok? {
        assert RunSteps(convert, s1).value + [] == RunSteps(convert, s1).value;
      }
    } else {
      var n := |s2| - 1;
      assert (s1 + s2)[..|s1 + s2| - 1] == s1 + s2[..n];
      assert (s1 + s2)[|s1 + s2| - 1] == s2[n];
      RunAppend(convert, s1, s2[..n]);
      var a := RunSteps(convert, s1);
      var b := RunSteps(convert, s2[..n]);
      if a.Ok? && b.Ok? && convert(s2[n]).Ok? {
        assert a.value + b.value + [convert(s2[n]).value] == a.value + (b.value + [convert(s2[n]).value]);
      }
    }
  }

  /** A failing prefix decides the whole run. */
  lemma {:induction false} RunPrefixErr<T>(convert: Step -> Result<T>, s: seq<Step>, k: nat)
    requires k <= |s| && RunSteps(convert, s[..k]).Err?
    ensures RunSteps(convert, s) == RunSteps(convert, s[..k])
  {
    assert s == s[..k] + s[k..];
    RunAppend(convert, s[..k], s[k..]);
  }

  /**
   * The run succeeds exactly when every step does; it then holds one value per step,
   * in order, each what its step converts to.
   */
  lemma {:induction false} RunStepsOk<T>(convert: Step -> Result<T>, steps: seq<Step>)
    ensures RunSteps(convert, steps).Ok? <==> forall i :: 0 <= i < |steps| ==> convert(steps[i]).Ok?
    ensures RunSteps(convert, steps).Ok? ==>
      |RunSteps(convert, steps).value| == |steps| &&
      forall i :: 0 <= i < |steps| ==> convert(steps[i]) == Ok(RunSteps(convert, steps).value[i])
    decreases |steps|
  {
    if steps != [] {
      var n := |steps| - 1;
      var init := steps[..n];
      RunStepsOk(convert, init);
      assert forall i :: 0 <= i < n ==> init[i] == steps[i];
      if RunSteps(convert, steps).Ok? {
        var r := RunSteps(convert, steps).value;
        assert r == RunSteps(convert, init).value + [convert(steps[n]).value];
        assert forall i :: 0 <= i < n ==> r[i] == RunSteps(convert, init).value[i];
      }
    }
  }

  /** A failing run raises what its first failing step raises, every earlier step converting. */
  lemma {:induction false} RunStepsFirstErr<T>(convert: Step -> Result<T>, steps: seq<Step>)
    requires RunSteps(convert, steps).Err?
    ensures exists i ::
      0 <= i < |steps| && convert(steps[i]) == Err(RunSteps(convert, steps).error) &&
      forall j :: 0 <= j < i ==> convert(steps[j]).Ok?
    decreases |steps|
  {
    var n := |steps| - 1;
    var init := steps[..n];
    assert forall j :: 0 <= j < n ==> init[j] == steps[j];
    if RunSteps(convert, init).Err? {
      RunStepsFirstErr(convert, init);
      var i :| 0 <= i < n && convert(init[i]) == Err(RunSteps(convert, init).error) &&
        forall j :: 0 <= j < i ==> convert(init[j]).Ok?;
      assert convert(steps[i]) == Err(RunSteps(convert, steps).error);
    } else {
      RunStepsOk(convert, init);
      assert convert(steps[n]) == Err(RunSteps(convert, steps).error);
    }
  }

  /** One more item of a loop: its steps are run after those of the items before it. */
  lemma {:induction false} FlatLoopStep<T, U>(convert: Step -> Result<U>, pre: seq<Step>, xs: seq<T>, f: T -> seq<Step>, i: nat)
    requires i < |xs|
    ensures RunSteps(convert, pre + Flat(xs[..i + 1], f)) ==
      Then(RunSteps(convert, pre + Flat(xs[..i], f)), RunSteps(convert, f(xs[i])))
  {
    assert xs[..i + 1][..i] == xs[..i];
    assert pre + Flat(xs[..i + 1], f) == (pre + Flat(xs[..i], f)) + f(xs[i]);
    RunAppend(convert, pre + Flat(xs[..i], f), f(xs[i]));
  }

  /** A loop that raises at an item raises the same for the whole walk. */
  lemma {:induction false} FlatPrefixErr<T, U>(convert: Step -> Result<U>, pre: seq<Step>, xs: seq<T>, f: T -> seq<Step>, k: nat)
    requires k <= |xs| && RunSteps(convert, pre + Flat(xs[..k], f)).Err?
    ensures RunSteps(convert, pre + Flat(xs, f)) == RunSteps(convert, pre + Flat(xs[..k], f))
  {
    assert xs == xs[..k] + xs[k..];
    FlatAppend(xs[..k], xs[k..], f);
    assert pre + Flat(xs, f) == (pre + Flat(xs[..k], f)) + Flat(xs[k..], f);
    RunAppend(convert, pre + Flat(xs[..k], f), Flat(xs[k..], f));
  }

  // ----- The loops -----

  /** `for ar in ...: ars.append(process_ar(ar, part))`. */
  method ProcessRules(ver: Version, ars: seq<ParsedAuxRule>, part: string) returns (r: Result<seq<AuxRule>>)
    ensures r == RunSteps(Convert(ver), RulesAt(ars, part))
  {
    ghost var s := RulesAt(ars, part);
    var out: seq<AuxRule> := [];
    for i := 0 to |ars|
      invariant RunSteps(Convert(ver), s[..i]) == Ok(out)
    {
      assert s[..i + 1][..i] == s[..i];
      assert s[..i + 1][i] == Rule(ars[i], part);
      var one := ProcessAuxRule(ver, ars[i], part);
      ConvertRule(ver, ars[i], part, one);
      if one.Err? {
        RunPrefixErr(Convert(ver), s, i + 1);
        return Err(one.error);
      }
      out := out + [one.value];
    }
    assert s[..|ars|] == s;
    r := Ok(out);
  }

  /** One nested entry; the loop over its rows reads them and keeps nothing. */
  method ProcessInner(ver: Version, b: ComponentPayloadBodyBody) returns (r: Result<seq<AuxRule>>)
    ensures r == RunSteps(Convert(ver), InnerSteps(b))
  {
    if b.header.None? {
      return Ok([]);
    }
    var h := b.header.value;
    ghost var head := RulesAt(h.auxiliaryRules.GetOr([]), h.partReference);
    ghost var tail: seq<Step> := if h.selectionRule.Some? && b.body.None? then [Fail] else [];
    assert InnerSteps(b) == head + tail;
    RunAppend(Convert(ver), head, tail);
    RunFail(ver);
    var out: seq<AuxRule> := [];
    if h.auxiliaryRules.Some? {
      assert head == RulesAt(h.auxiliaryRules.value, h.partReference);
      var rules := ProcessRules(ver, h.auxiliaryRules.value, h.partReference);
      if rules.Err? {
        return rules;
      }
      out := rules.value;
    } else {
      assert head == [];
    }
    assert RunSteps(Convert(ver), head) == Ok(out);
    // with neither a selection rule nor a body the entry is skipped; with a body its
    // rows are read and nothing is kept; with a selection rule alone `None` is iterated
    if b.body.None? && h.selectionRule.Some? {
      return Err(TypeError);
    }
    assert tail == [] && out + [] == out;
    r := Ok(out);
  }

  /** One body entry: its own rules, then each nested entry. */
  method ProcessBody(ver: Version, b: ComponentPayloadBody) returns (r: Result<seq<AuxRule>>)
    ensures r == RunSteps(Convert(ver), BodySteps(b))
  {
    var pre := RulesAt(b.header.auxiliaryRules, b.header.partReference);
    var head := ProcessRules(ver, b.header.auxiliaryRules, b.header.partReference);
    if head.Err? {
      RunAppend(Convert(ver), pre, Flat(b.body, InnerSteps));
      return head;
    }
    var out := head.value;
    assert pre + Flat(b.body[..0], InnerSteps) == pre;
    for i := 0 to |b.body|
      invariant RunSteps(Convert(ver), pre + Flat(b.body[..i], InnerSteps)) == Ok(out)
    {
      FlatLoopStep(Convert(ver), pre, b.body, InnerSteps, i);
      var sub := ProcessInner(ver, b.body[i]);
      if sub.Err? {
        FlatPrefixErr(Convert(ver), pre, b.body, InnerSteps, i + 1);
        return sub;
      }
      out := out + sub.value;
    }
    assert b.body[..|b.body|] == b.body;
    r := Ok(out);
  }

  /** One component: skipped unless it is the main one; header rules, then each body entry. */
  method ProcessComponent(ver: Version, c: Component) returns (r: Result<seq<AuxRule>>)
    ensures r == RunSteps(Convert(ver), ComponentSteps(c))
  {
    if c.internalComponentIdentifier != 1 {
      return Ok([]);
    }
    var body := c.payload.body;
    var pre := RulesAt(c.payload.header.auxiliaryRules, "");
    var head := ProcessRules(ver, c.payload.header.auxiliaryRules, "");
    if head.Err? {
      RunAppend(Convert(ver), pre, Flat(body, BodySteps));
      return head;
    }
    var out := head.value;
    assert pre + Flat(body[..0], BodySteps) == pre;
    for i := 0 to |body|
      invariant RunSteps(Convert(ver), pre + Flat(body[..i], BodySteps)) == Ok(out)
    {
      FlatLoopStep(Convert(ver), pre, body, BodySteps, i);
      var sub := ProcessBody(ver, body[i]);
      if sub.Err? {
        FlatPrefixErr(Convert(ver), pre, body, BodySteps, i + 1);
        return sub;
      }
      out := out + sub.value;
    }
    assert body[..|body|] == body;
    r := Ok(out);
  }

  /** `convert_degree`. */
  method ConvertDegree(ver: Version, d: ParsedDegree) returns (r: Result<Degrees.Degree>)
    ensures r == ConvertedDegree(ver, d)
  {
    if ver == AsWritten {
      return Err(TypeError);
    }
    var flat := Degrees.Build();
    flat := flat.(name := d.title, code := d.code, year := d.year);
    var cs := d.components;
    var ars: seq<AuxRule> := [];
    assert [] + Flat(cs[..0], ComponentSteps) == [];
    for i := 0 to |cs|
      invariant RunSteps(Convert(ver), [] + Flat(cs[..i], ComponentSteps)) == Ok(ars)
    {
      FlatLoopStep(Convert(ver), [], cs, ComponentSteps, i);
      var sub := ProcessComponent(ver, cs[i]);
      if sub.Err? {
        FlatPrefixErr(Convert(ver), [], cs, ComponentSteps, i + 1);
        assert [] + Flat(cs, ComponentSteps) == DegreeSteps(d);
        return Err(sub.error);
      }
      ars := ars + sub.value;
    }
    assert cs[..|cs|] == cs;
    assert [] + Flat(cs, ComponentSteps) == DegreeSteps(d);
    flat := flat.(aux := ars);
    r := Ok(flat);
  }

  // ----- What the conversion produces -----

  /**
   * The corrected conversion succeeds exactly when every step converts; `aux` then
   * holds one rule per step, in walk order, each converted in its step's part.
   */
  lemma {:induction false} ConvertedAux(d: ParsedDegree)
    ensures var r := ConvertedDegree(Corrected, d);
      var steps := DegreeSteps(d);
      (r.Ok? <==> forall i :: 0 <= i < |steps| ==> StepResult(Corrected, steps[i]).Ok?) &&
      (r.Ok? ==>
        |r.value.aux| == |steps| &&
        forall i :: 0 <= i < |steps| ==>
          steps[i].Rule? && ProcessAR(Corrected, steps[i].ar, steps[i].part) == Ok(r.value.aux[i]) &&
          r.value.aux[i].part == steps[i].part)
  {
    var steps := DegreeSteps(d);
    RunStepsOk(Convert(Corrected), steps);
    assert forall i :: 0 <= i < |steps| ==> Convert(Corrected)(steps[i]) == StepResult(Corrected, steps[i]);
  }

  /** The components `convert_degree` does not skip. */
  function MainComponents(cs: seq<Component>): (r: seq<Component>)
    ensures forall i :: 0 <= i < |r| ==> r[i].internalComponentIdentifier == 1 && r[i] in cs
    ensures forall c :: c in cs && c.internalComponentIdentifier == 1 ==> c in r
  {
    if cs == [] then []
    else
      var last := cs[|cs| - 1];
      var init := MainComponents(cs[..|cs| - 1]);
      assert cs == cs[..|cs| - 1] + [last];
      init + if last.internalComponentIdentifier == 1 then [last] else []
  }

  /** Skipping the other components changes nothing: only the main one is read. */
  lemma {:induction false} OnlyMainComponents(cs: seq<Component>)
    ensures Flat(MainComponents(cs), ComponentSteps) == Flat(cs, ComponentSteps)
    decreases |cs|
  {
    if cs != [] {
      var last := cs[|cs| - 1];
      var init := cs[..|cs| - 1];
      OnlyMainComponents(init);
      var tail := if last.internalComponentIdentifier == 1 then [last] else [];
      FlatAppend(MainComponents(init), tail, ComponentSteps);
      if tail == [] {
        assert Flat(tail, ComponentSteps) == [];
      } else {
        assert tail[..0] == [];
        assert Flat(tail, ComponentSteps) == ComponentSteps(last);
      }
    }
  }

  /** The converted degree is that of the main components alone. */
  lemma {:induction false} MainOnly(ver: Version, d: ParsedDegree)
    ensures ConvertedDegree(ver, d) == ConvertedDegree(ver, d.(components := MainComponents(d.components)))
  {
    OnlyMainComponents(d.components);
  }

  /** Without a main component the result is the empty degree with the parsed name, code and year. */
  lemma {:induction false} NoMainComponent(d: ParsedDegree)
    requires forall i :: 0 <= i < |d.components| ==> d.components[i].internalComponentIdentifier != 1
    ensures ConvertedDegree(Corrected, d) == Ok(Degrees.Build().(name := d.title, code := d.code, year := d.year))
  {
    OnlyMainComponents(d.components);
    assert MainComponents(d.components) == [];
    RunFail(Corrected);
  }

  /** With every rule's parameters free of dicts and no selection rule without a body, the corrected conversion succeeds. */
  lemma {:induction false} CorrectedDegreeConverts(d: ParsedDegree)
    requires forall i :: 0 <= i < |DegreeSteps(d)| ==>
      DegreeSteps(d)[i].Rule? &&
      forall j :: 0 <= j < |ParamsOf(DegreeSteps(d)[i].ar)| ==> DictFree(ParamsOf(DegreeSteps(d)[i].ar)[j].value)
    ensures ConvertedDegree(Corrected, d).Ok?
  {
    var steps := DegreeSteps(d);
    forall i | 0 <= i < |steps|
      ensures StepResult(Corrected, steps[i]).Ok?
    {
      CorrectedConverts(steps[i].ar, steps[i].part);
    }
    ConvertedAux(d);
  }

  // ----- Parts -----

  /** A part reference the degree names: on a main component's body entry or on one of its nested entries. */
  ghost predicate NamedPart(d: ParsedDegree, p: string) {
    exists c, b :: c in d.components && c.internalComponentIdentifier == 1 && b in c.payload.body &&
      (p == b.header.partReference || BodyNames(b, p))
  }

  predicate BodyNames(b: ComponentPayloadBody, p: string) {
    exists e :: e in b.body && e.header.Some? && e.header.value.partReference == p
  }

  lemma {:induction false} FlatMember<T>(xs: seq<T>, f: T -> seq<Step>, x: Step)
    requires x in Flat(xs, f)
    ensures exists j :: 0 <= j < |xs| && x in f(xs[j])
    decreases |xs|
  {
    var n := |xs| - 1;
    if x in Flat(xs[..n], f) {
      FlatMember(xs[..n], f, x);
      var j :| 0 <= j < n && x in f(xs[..n][j]);
      assert xs[..n][j] == xs[j];
    } else {
      assert x in f(xs[n]);
    }
  }

  lemma {:induction false} BodyStepPart(b: ComponentPayloadBody, x: Step)
    requires x in BodySteps(b) && x.Rule?
    ensures x.part == b.header.partReference || BodyNames(b, x.part)
  {
    if x !in RulesAt(b.header.auxiliaryRules, b.header.partReference) {
      FlatMember(b.body, InnerSteps, x);
      var j :| 0 <= j < |b.body| && x in InnerSteps(b.body[j]);
      assert b.body[j] in b.body;
    }
  }

  /** Header rules are in part "", every other rule in the part reference of the entry holding it. */
  lemma {:induction false} StepParts(d: ParsedDegree, x: Step)
    requires x in DegreeSteps(d) && x.Rule?
    ensures x.part == "" || NamedPart(d, x.part)
  {
    FlatMember(d.components, ComponentSteps, x);
    var k :| 0 <= k < |d.components| && x in ComponentSteps(d.components[k]);
    var c := d.components[k];
    if x !in RulesAt(c.payload.header.auxiliaryRules, "") {
      FlatMember(c.payload.body, BodySteps, x);
      var j :| 0 <= j < |c.payload.body| && x in BodySteps(c.payload.body[j]);
      BodyStepPart(c.payload.body[j], x);
      assert c in d.components && c.payload.body[j] in c.payload.body;
    }
  }

  /** Every converted rule carries part "" or a part reference the degree names. */
  lemma {:induction false} ConvertedParts(d: ParsedDegree)
    requires ConvertedDegree(Corrected, d).Ok?
    ensures forall a :: a in ConvertedDegree(Corrected, d).value.aux ==> a.part == "" || NamedPart(d, a.part)
  {
    var aux := ConvertedDegree(Corrected, d).value.aux;
    var steps := DegreeSteps(d);
    ConvertedAux(d);
    forall a | a in aux
      ensures a.part == "" || NamedPart(d, a.part)
    {
      var i :| 0 <= i < |aux| && aux[i] == a;
      StepParts(d, steps[i]);
    }
  }
}

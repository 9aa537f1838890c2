/**
 * The loops of the selection rules: SR1-SR5 walk the options and take, for each,
 * the first plan course it matches; SR6-SR8 walk programme options and look for
 * each among the specialisations chosen under the rule's part.
 */
module SelectionScans {
  import opened Wrappers
  import opened Params
  import opened Plans
  import opened AuxScans

  // ---------------------------------------------------------------------------
  // Course options (SR1-SR5)

  /** The first plan course an option matches. */
  function FirstMatch(o: CourseOption, courses: seq<string>): Option<string> {
    if courses == [] then None
    else if OptionMatches(o, courses[0]) then Some(courses[0])
    else FirstMatch(o, courses[1..])
  }

  /** An option has a first match iff it matches some plan course, and then the earliest one. */
  lemma {:induction false} FirstMatchMeaning(o: CourseOption, courses: seq<string>)
    ensures FirstMatch(o, courses).None? <==> forall j :: 0 <= j < |courses| ==> !OptionMatches(o, courses[j])
    ensures FirstMatch(o, courses).Some? ==>
      exists j :: 0 <= j < |courses| && courses[j] == FirstMatch(o, courses).value && OptionMatches(o, courses[j]) &&
        forall b :: 0 <= b < j ==> !OptionMatches(o, courses[b])
  {
    if courses != [] && !OptionMatches(o, courses[0]) {
      var rest := courses[1..];
      FirstMatchMeaning(o, rest);
      if FirstMatch(o, rest).None? {
        forall j | 1 <= j < |courses| ensures !OptionMatches(o, courses[j]) {
          assert courses[j] == rest[j - 1];
        }
      } else {
        var j :| 0 <= j < |rest| && rest[j] == FirstMatch(o, rest).value && OptionMatches(o, rest[j]) &&
          forall b :: 0 <= b < j ==> !OptionMatches(o, rest[b]);
        assert courses[j + 1] == rest[j];
        forall b | 0 <= b < j + 1 ensures !OptionMatches(o, courses[b]) {
          if b > 0 { assert courses[b] == rest[b - 1]; }
        }
      }
    }
  }

  /** The scan's accumulators: `count`, `badcourses` and `donecourses`. */
  datatype OptionTally = OptionTally(count: nat, bad: seq<string>, done: seq<string>)

  /**
   * Each option adds the units of its first matching course and appends that course
   * to `done`; an option without a match appends its text to `bad`.
   */
  function OptionScan(options: seq<CourseOption>, courses: seq<string>, lookup: CourseLookup): OptionTally {
    if options == [] then OptionTally(0, [], [])
    else
      var t := OptionScan(options[..|options| - 1], courses, lookup);
      var o := options[|options| - 1];
      match FirstMatch(o, courses)
      case Some(c) => OptionTally(t.count + UnitsOf(lookup, c), t.bad, t.done + [c])
      case None => OptionTally(t.count, t.bad + [OptionText(o)], t.done)
  }

  /** The option matches no plan course. */
  predicate NoMatch(o: CourseOption, courses: seq<string>) {
    forall j :: 0 <= j < |courses| ==> !OptionMatches(o, courses[j])
  }

  /** Every option matches some plan course. */
  predicate AllMatched(options: seq<CourseOption>, courses: seq<string>) {
    forall i :: 0 <= i < |options| ==> exists j :: 0 <= j < |courses| && OptionMatches(options[i], courses[j])
  }

  /**
   * Every option lands in exactly one of `done` and `bad`; the count is the units of
   * the `done` courses, each a plan course matched by an option; `bad` holds the
   * texts of exactly the options with no match.
   */
  lemma {:induction false} OptionScanMeaning(options: seq<CourseOption>, courses: seq<string>, lookup: CourseLookup)
    ensures var t := OptionScan(options, courses, lookup);
      |t.done| + |t.bad| == |options| && t.count == TotalUnits(lookup, t.done) &&
      (forall x :: x in t.done ==> x in courses && exists i :: 0 <= i < |options| && OptionMatches(options[i], x)) &&
      (forall x :: x in t.bad ==>
        exists i :: 0 <= i < |options| && x == OptionText(options[i]) && NoMatch(options[i], courses)) &&
      (forall i :: 0 <= i < |options| && FirstMatch(options[i], courses).None? ==> OptionText(options[i]) in t.bad)
  {
    if options != [] {
      var n := |options| - 1;
      var init := options[..n];
      var o := options[n];
      OptionScanMeaning(init, courses, lookup);
      FirstMatchMeaning(o, courses);
      var t0 := OptionScan(init, courses, lookup);
      var t := OptionScan(options, courses, lookup);
      assert forall i :: 0 <= i < n ==> init[i] == options[i];
      match FirstMatch(o, courses)
      case Some(c) =>
        assert t.done == t0.done + [c];
        assert (t0.done + [c])[..|t0.done|] == t0.done;
      case None =>
    }
  }

  /** `badcourses` is empty iff every option matches a plan course. */
  lemma {:induction false} OptionScanAllMatched(options: seq<CourseOption>, courses: seq<string>, lookup: CourseLookup)
    ensures OptionScan(options, courses, lookup).bad == [] <==> AllMatched(options, courses)
  {
    var t := OptionScan(options, courses, lookup);
    OptionScanMeaning(options, courses, lookup);
    if !AllMatched(options, courses) {
      var i :| 0 <= i < |options| && !exists j :: 0 <= j < |courses| && OptionMatches(options[i], courses[j]);
      FirstMatchMeaning(options[i], courses);
    }
    if t.bad != [] {
      assert t.bad[0] in t.bad;
    }
  }

  /** The inner loop: the first plan course the option validates. */
  method FindFirstMatch(o: CourseOption, courses: seq<string>) returns (found: Option<string>)
    ensures found == FirstMatch(o, courses)
  {
    for j := 0 to |courses|
      invariant FirstMatch(o, courses[j..]) == FirstMatch(o, courses)
    {
      var hit := OptionValidate(o, courses[j]);
      if hit {
        return Some(courses[j]);
      }
      assert courses[j..][1..] == courses[j + 1..];
    }
    return None;
  }

  /** The shared loop of SR1-SR5. */
  method ScanOptions(options: seq<CourseOption>, courses: seq<string>, lookup: CourseLookup) returns (t: OptionTally)
    ensures t == OptionScan(options, courses, lookup)
  {
    var count: nat := 0;
    var bad: seq<string> := [];
    var done: seq<string> := [];
    for i := 0 to |options|
      invariant OptionTally(count, bad, done) == OptionScan(options[..i], courses, lookup)
    {
      assert options[..i + 1][..i] == options[..i];
      var found := FindFirstMatch(options[i], courses);
      match found
      case Some(c) =>
        count := count + UnitsOf(lookup, c);
        done := done + [c];
      case None =>
        bad := bad + [OptionText(options[i])];
    }
    assert options[..|options|] == options;
    t := OptionTally(count, bad, done);
  }

  // ---------------------------------------------------------------------------
  // Programme options (SR6-SR8)

  /** The accumulators of SR7/SR8: `count`, `doneoptions` and `notdoneoptions`. */
  datatype ProgramTally = ProgramTally(count: nat, done: seq<string>, notDone: seq<string>)

  function ProgramScan(programs: seq<ProgramRef>, specs: seq<string>): ProgramTally {
    if programs == [] then ProgramTally(0, [], [])
    else
      var t := ProgramScan(programs[..|programs| - 1], specs);
      var p := programs[|programs| - 1];
      if ChosenIn(p, specs) then ProgramTally(t.count + 1, t.done + [p.code], t.notDone)
      else ProgramTally(t.count, t.done, t.notDone + [p.code])
  }

  /** The codes of the chosen options, in option order. */
  function ChosenCodes(programs: seq<ProgramRef>, specs: seq<string>): seq<string> {
    if programs == [] then []
    else
      var p := programs[|programs| - 1];
      ChosenCodes(programs[..|programs| - 1], specs) + (if p.code in specs then [p.code] else [])
  }

  /** The codes of the options not chosen, in option order. */
  function UnchosenCodes(programs: seq<ProgramRef>, specs: seq<string>): seq<string> {
    if programs == [] then []
    else
      var p := programs[|programs| - 1];
      UnchosenCodes(programs[..|programs| - 1], specs) + (if p.code in specs then [] else [p.code])
  }

  /**
   * `count` is the number of chosen options, `doneoptions` their codes and
   * `notdoneoptions` the codes of the others, both in option order.
   */
  lemma {:induction false} ProgramScanMeaning(programs: seq<ProgramRef>, specs: seq<string>)
    ensures var t := ProgramScan(programs, specs);
      t.done == ChosenCodes(programs, specs) && t.notDone == UnchosenCodes(programs, specs) &&
      t.count == |t.done| && |t.done| + |t.notDone| == |programs|
  {
    if programs != [] {
      var p := programs[|programs| - 1];
      ProgramScanMeaning(programs[..|programs| - 1], specs);
      AnyChosenByCode([p], specs);
      assert [p][0] == p;
    }
  }

  /** A code is among the chosen codes iff some option with that code is chosen. */
  lemma {:induction false} ChosenCodesMember(programs: seq<ProgramRef>, specs: seq<string>, x: string)
    ensures x in ChosenCodes(programs, specs) <==> x in specs && exists i :: 0 <= i < |programs| && programs[i].code == x
  {
    if programs != [] {
      var n := |programs| - 1;
      ChosenCodesMember(programs[..n], specs, x);
      assert forall i :: 0 <= i < n ==> programs[..n][i] == programs[i];
    }
  }

  /** A code is among the unchosen codes iff some option with that code is not chosen. */
  lemma {:induction false} UnchosenCodesMember(programs: seq<ProgramRef>, specs: seq<string>, x: string)
    ensures x in UnchosenCodes(programs, specs) <==> x !in specs && exists i :: 0 <= i < |programs| && programs[i].code == x
  {
    if programs != [] {
      var n := |programs| - 1;
      UnchosenCodesMember(programs[..n], specs, x);
      assert forall i :: 0 <= i < n ==> programs[..n][i] == programs[i];
    }
  }

  /** The loop of SR7/SR8. */
  method ScanPrograms(programs: seq<ProgramRef>, specs: seq<string>) returns (t: ProgramTally)
    ensures t == ProgramScan(programs, specs)
  {
    var count: nat := 0;
    var done: seq<string> := [];
    var notDone: seq<string> := [];
    for i := 0 to |programs|
      invariant ProgramTally(count, done, notDone) == ProgramScan(programs[..i], specs)
    {
      assert programs[..i + 1][..i] == programs[..i];
      var first := FindChosen([programs[i]], specs);
      assert [programs[i]][1..] == [];
      if first.Some? {
        count := count + 1;
        done := done + [programs[i].code];
      } else {
        notDone := notDone + [programs[i].code];
      }
    }
    assert programs[..|programs|] == programs;
    t := ProgramTally(count, done, notDone);
  }
}

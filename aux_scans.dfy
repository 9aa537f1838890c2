/**
 * The loops that the auxiliary rules share: the level scan of AR1-AR4, the
 * reference-by-course overlap, the search for a chosen programme, the conflict
 * list of AR5/AR6 and the discipline grouping of AR7. Each loop is a method
 * proved against a declarative definition.
 */
module AuxScans {
  import opened Wrappers
  import opened PyText
  import opened PyDict
  import opened Params
  import opened Plans
  import opened Seqs

  // ---------------------------------------------------------------------------
  // Level scan (AR1-AR4)

  /** The scan's outcome: the counted units and courses, or the first course whose level is not a digit. */
  datatype LevelTally = Tally(count: nat, counted: seq<string>) | BadLevel(course: string)

  /** Whether a course of level `lv` counts for a rule about `level`. */
  predicate Counts(lv: int, level: int, orHigher: bool) {
    lv == level || (lv > level && orHigher)
  }

  /** `int(course[4])` succeeds. */
  predicate WellFormedLevel(c: string) {
    |c| >= 5 && IsDigit(c[4])
  }

  function LevelOf(c: string): nat
    requires WellFormedLevel(c)
  {
    DigitValue(c[4])
  }

  /** Whether the scan counts course `c`. */
  predicate AtLevel(c: string, level: int, orHigher: bool) {
    WellFormedLevel(c) && Counts(LevelOf(c), level, orHigher)
  }

  /** The courses the scan counts, in plan order. */
  function AtLevelCourses(courses: seq<string>, level: int, orHigher: bool): (r: seq<string>)
    ensures forall x :: x in r ==> x in courses && AtLevel(x, level, orHigher)
  {
    if courses == [] then []
    else
      var c := courses[|courses| - 1];
      AtLevelCourses(courses[..|courses| - 1], level, orHigher) + (if AtLevel(c, level, orHigher) then [c] else [])
  }

  lemma {:induction false} AtLevelCoursesMember(courses: seq<string>, level: int, orHigher: bool, x: string)
    ensures x in AtLevelCourses(courses, level, orHigher) <==> x in courses && AtLevel(x, level, orHigher)
  {
    if courses != [] {
      var n := |courses| - 1;
      AtLevelCoursesMember(courses[..n], level, orHigher, x);
      assert courses == courses[..n] + [courses[n]];
    }
  }

  /**
   * The scan over the plan's courses in order. A course shorter than five characters
   * raises IndexError, which is not caught; a fifth character that is not a digit
   * raises ValueError, which ends the scan with that course.
   */
  function LevelScan(courses: seq<string>, level: int, orHigher: bool, lookup: CourseLookup): Result<LevelTally> {
    if courses == [] then Ok(Tally(0, []))
    else LevelStep(LevelScan(courses[..|courses| - 1], level, orHigher, lookup), courses[|courses| - 1], level, orHigher, lookup)
  }

  /** One iteration of the scan, on course `c`. */
  function LevelStep(t: Result<LevelTally>, c: string, level: int, orHigher: bool, lookup: CourseLookup): Result<LevelTally> {
    match t
    case Err(e) => Err(e)
    case Ok(BadLevel(b)) => Ok(BadLevel(b))
    case Ok(Tally(count, counted)) =>
      if |c| < 5 then Err(IndexError)
      else if !IsDigit(c[4]) then Ok(BadLevel(c))
      else if Counts(LevelOf(c), level, orHigher) then Ok(Tally(count + UnitsOf(lookup, c), counted + [c]))
      else Ok(Tally(count, counted))
  }

  /** Once a prefix ends the scan, the whole list ends it the same way. */
  lemma {:induction false} LevelScanStops(courses: seq<string>, k: nat, level: int, orHigher: bool, lookup: CourseLookup)
    requires k <= |courses|
    requires !(LevelScan(courses[..k], level, orHigher, lookup).Ok? && LevelScan(courses[..k], level, orHigher, lookup).value.Tally?)
    ensures LevelScan(courses, level, orHigher, lookup) == LevelScan(courses[..k], level, orHigher, lookup)
    decreases |courses| - k
  {
    if k < |courses| {
      assert courses[..k + 1][..k] == courses[..k];
      LevelScanStops(courses, k + 1, level, orHigher, lookup);
    } else {
      assert courses[..k] == courses;
    }
  }

  /**
   * When every course has a digit at index 4, the scan counts exactly the courses at
   * the level, in plan order, and their units.
   */
  lemma {:induction false} LevelScanCounts(courses: seq<string>, level: int, orHigher: bool, lookup: CourseLookup)
    requires forall i :: 0 <= i < |courses| ==> WellFormedLevel(courses[i])
    ensures LevelScan(courses, level, orHigher, lookup) ==
      Ok(Tally(TotalUnits(lookup, AtLevelCourses(courses, level, orHigher)), AtLevelCourses(courses, level, orHigher)))
  {
    if courses != [] {
      var n := |courses| - 1;
      var init := courses[..n];
      var c := courses[n];
      assert WellFormedLevel(c);
      assert forall i :: 0 <= i < n ==> WellFormedLevel(init[i]) by {
        forall i | 0 <= i < n ensures WellFormedLevel(init[i]) {
          assert init[i] == courses[i];
        }
      }
      LevelScanCounts(init, level, orHigher, lookup);
      LevelStepTally(AtLevelCourses(init, level, orHigher), c, level, orHigher, lookup);
    }
  }

  /** A well-formed course extends a tally by itself exactly when it is at the level. */
  lemma {:induction false} LevelStepTally(f: seq<string>, c: string, level: int, orHigher: bool, lookup: CourseLookup)
    requires WellFormedLevel(c)
    ensures var g := f + (if AtLevel(c, level, orHigher) then [c] else []);
      LevelStep(Ok(Tally(TotalUnits(lookup, f), f)), c, level, orHigher, lookup) == Ok(Tally(TotalUnits(lookup, g), g))
  {
    if AtLevel(c, level, orHigher) {
      assert (f + [c])[..|f|] == f;
      assert TotalUnits(lookup, f + [c]) == TotalUnits(lookup, f) + UnitsOf(lookup, c);
    } else {
      assert f + [] == f;
    }
  }

  /** The first course without a digit at index 4 decides the outcome. */
  lemma {:induction false} LevelScanFirstMalformed(courses: seq<string>, i: nat, level: int, orHigher: bool, lookup: CourseLookup)
    requires i < |courses| && !WellFormedLevel(courses[i])
    requires forall k :: 0 <= k < i ==> WellFormedLevel(courses[k])
    ensures LevelScan(courses, level, orHigher, lookup) ==
      if |courses[i]| < 5 then Err(IndexError) else Ok(BadLevel(courses[i]))
  {
    var pre := courses[..i];
    assert forall k :: 0 <= k < i ==> pre[k] == courses[k];
    LevelScanCounts(pre, level, orHigher, lookup);
    assert courses[..i + 1][..i] == pre;
    LevelScanStops(courses, i + 1, level, orHigher, lookup);
  }

  /** The loop of AR1-AR4: accumulates units and appends the counted courses. */
  method ScanLevels(courses: seq<string>, level: int, orHigher: bool, lookup: CourseLookup) returns (r: Result<LevelTally>)
    ensures r == LevelScan(courses, level, orHigher, lookup)
  {
    var count: nat := 0;
    var counted: seq<string> := [];
    for i := 0 to |courses|
      invariant LevelScan(courses[..i], level, orHigher, lookup) == Ok(Tally(count, counted))
    {
      var c := courses[i];
      assert courses[..i + 1][..i] == courses[..i];
      if |c| < 5 {
        LevelScanStops(courses, i + 1, level, orHigher, lookup);
        return Err(IndexError);
      }
      if !IsDigit(c[4]) {
        LevelScanStops(courses, i + 1, level, orHigher, lookup);
        return Ok(BadLevel(c));
      }
      if Counts(DigitValue(c[4]), level, orHigher) {
        count := count + UnitsOf(lookup, c);
        counted := counted + [c];
      }
    }
    assert courses[..|courses|] == courses;
    return Ok(Tally(count, counted));
  }

  // ---------------------------------------------------------------------------
  // Overlap of a course list with the plan (AR9-AR20)

  /** The plan courses one reference matches, in plan order. */
  function MatchingCourses(ref: CourseRef, courses: seq<string>): (r: seq<string>)
    ensures forall x :: x in r ==> x in courses && CourseMatches(ref, x)
  {
    if courses == [] then []
    else
      var c := courses[|courses| - 1];
      MatchingCourses(ref, courses[..|courses| - 1]) + (if CourseMatches(ref, c) then [c] else [])
  }

  lemma {:induction false} MatchingCoursesMember(ref: CourseRef, courses: seq<string>, x: string)
    ensures x in MatchingCourses(ref, courses) <==> x in courses && CourseMatches(ref, x)
  {
    if courses != [] {
      var n := |courses| - 1;
      MatchingCoursesMember(ref, courses[..n], x);
      assert courses == courses[..n] + [courses[n]];
    }
  }

  /** `for course_ref in refs: for course in courses: if course_ref.validate(course): append`. */
  function Overlap(refs: seq<CourseRef>, courses: seq<string>): seq<string> {
    if refs == [] then []
    else Overlap(refs[..|refs| - 1], courses) + MatchingCourses(refs[|refs| - 1], courses)
  }

  /** A code is in the overlap iff it is a plan course that some reference matches. */
  lemma {:induction false} OverlapMember(refs: seq<CourseRef>, courses: seq<string>, x: string)
    ensures x in Overlap(refs, courses) <==>
      x in courses && exists i :: 0 <= i < |refs| && CourseMatches(refs[i], x)
  {
    if refs != [] {
      var n := |refs| - 1;
      OverlapMember(refs[..n], courses, x);
      MatchingCoursesMember(refs[n], courses, x);
      if exists i :: 0 <= i < n + 1 && CourseMatches(refs[i], x) {
        var i :| 0 <= i < n + 1 && CourseMatches(refs[i], x);
        if i < n {
          assert refs[..n][i] == refs[i];
        }
      }
      if exists i :: 0 <= i < n && CourseMatches(refs[..n][i], x) {
        var i :| 0 <= i < n && CourseMatches(refs[..n][i], x);
        assert refs[i] == refs[..n][i];
      }
    }
  }

  /** The overlap is empty iff no plan course is named by the list. */
  lemma {:induction false} OverlapEmpty(refs: seq<CourseRef>, courses: seq<string>)
    ensures Overlap(refs, courses) == [] <==>
      forall i, j :: 0 <= i < |refs| && 0 <= j < |courses| ==> !CourseMatches(refs[i], courses[j])
  {
    if Overlap(refs, courses) != [] {
      OverlapMember(refs, courses, Overlap(refs, courses)[0]);
    }
    if exists i, j :: 0 <= i < |refs| && 0 <= j < |courses| && CourseMatches(refs[i], courses[j]) {
      var i, j :| 0 <= i < |refs| && 0 <= j < |courses| && CourseMatches(refs[i], courses[j]);
      OverlapMember(refs, courses, courses[j]);
    }
  }

  /** The nested loop that collects the overlap. */
  method ComputeOverlap(refs: seq<CourseRef>, courses: seq<string>) returns (overlap: seq<string>)
    ensures overlap == Overlap(refs, courses)
  {
    overlap := [];
    for i := 0 to |refs|
      invariant overlap == Overlap(refs[..i], courses)
    {
      var ref := refs[i];
      assert refs[..i + 1][..i] == refs[..i];
      for j := 0 to |courses|
        invariant overlap == Overlap(refs[..i], courses) + MatchingCourses(ref, courses[..j])
      {
        assert courses[..j + 1][..j] == courses[..j];
        if CourseMatches(ref, courses[j]) {
          overlap := overlap + [courses[j]];
        }
      }
      assert courses[..|courses|] == courses;
    }
    assert refs[..|refs|] == refs;
  }

  // ---------------------------------------------------------------------------
  // Whether a listed programme is chosen

  /** `plan_ref.validate(s)` holds for some chosen specialisation `s`. */
  predicate ChosenIn(p: ProgramRef, specs: seq<string>) {
    exists j :: 0 <= j < |specs| && ProgramMatches(p, specs[j])
  }

  /** Some reference is chosen. */
  predicate AnyChosen(refs: seq<ProgramRef>, specs: seq<string>) {
    exists i :: 0 <= i < |refs| && ChosenIn(refs[i], specs)
  }

  /** Chosen means: the code of some reference is among the chosen specialisations. */
  lemma {:induction false} AnyChosenByCode(refs: seq<ProgramRef>, specs: seq<string>)
    ensures AnyChosen(refs, specs) <==> exists i :: 0 <= i < |refs| && refs[i].code in specs
  {
    if exists i :: 0 <= i < |refs| && refs[i].code in specs {
      var i :| 0 <= i < |refs| && refs[i].code in specs;
      var j :| 0 <= j < |specs| && specs[j] == refs[i].code;
      assert ProgramMatches(refs[i], specs[j]);
    }
  }

  /** The first reference, in list order, that is chosen: the one the nested search stops at. */
  function FirstChosen(refs: seq<ProgramRef>, specs: seq<string>): Option<ProgramRef> {
    if refs == [] then None
    else if ChosenIn(refs[0], specs) then Some(refs[0])
    else FirstChosen(refs[1..], specs)
  }

  /** The search finds a reference iff one is chosen, and then the earliest one. */
  lemma {:induction false} FirstChosenMeaning(refs: seq<ProgramRef>, specs: seq<string>)
    ensures FirstChosen(refs, specs).Some? <==> AnyChosen(refs, specs)
    ensures FirstChosen(refs, specs).Some? ==>
      exists i :: 0 <= i < |refs| && refs[i] == FirstChosen(refs, specs).value && ChosenIn(refs[i], specs) &&
        forall a :: 0 <= a < i ==> !ChosenIn(refs[a], specs)
  {
    if refs != [] && !ChosenIn(refs[0], specs) {
      var rest := refs[1..];
      FirstChosenMeaning(rest, specs);
      if AnyChosen(refs, specs) {
        var i :| 0 <= i < |refs| && ChosenIn(refs[i], specs);
        assert rest[i - 1] == refs[i];
      }
      if FirstChosen(rest, specs).Some? {
        var i :| 0 <= i < |rest| && rest[i] == FirstChosen(rest, specs).value && ChosenIn(rest[i], specs) &&
          forall a :: 0 <= a < i ==> !ChosenIn(rest[a], specs);
        assert refs[i + 1] == rest[i];
        forall a | 0 <= a < i + 1
          ensures !ChosenIn(refs[a], specs)
        {
          if a > 0 {
            assert refs[a] == rest[a - 1];
          }
        }
      }
    }
  }

  /** The nested search of AR5/AR6/AR10/AR11/AR13/AR19/AR20, stopping at the first match. */
  method FindChosen(refs: seq<ProgramRef>, specs: seq<string>) returns (found: Option<ProgramRef>)
    ensures found == FirstChosen(refs, specs)
  {
    for i := 0 to |refs|
      invariant FirstChosen(refs[i..], specs) == FirstChosen(refs, specs)
    {
      for j := 0 to |specs|
        invariant forall b :: 0 <= b < j ==> !ProgramMatches(refs[i], specs[b])
      {
        if ProgramMatches(refs[i], specs[j]) {
          assert refs[i..][0] == refs[i];
          return Some(refs[i]);
        }
      }
      assert refs[i..][1..] == refs[i + 1..];
    }
    return None;
  }

  // ---------------------------------------------------------------------------
  // Conflicting programmes (AR6, and AR5 as intended)

  /** `[str(c) for c in refs]`. */
  function CourseCodes(refs: seq<CourseRef>): (r: seq<string>)
    ensures |r| == |refs| && forall i :: 0 <= i < |refs| ==> r[i] == refs[i].code
  {
    seq(|refs|, i requires 0 <= i < |refs| => refs[i].code)
  }

  /** `[str(p) for p in refs]`. */
  function ProgramCodes(refs: seq<ProgramRef>): (r: seq<string>)
    ensures |r| == |refs| && forall i :: 0 <= i < |refs| ==> r[i] == refs[i].code
  {
    seq(|refs|, i requires 0 <= i < |refs| => refs[i].code)
  }

  /** The codes of the references that match some value, in the references' order. */
  function Conflicts(refs: seq<ProgramRef>, values: seq<string>): seq<string> {
    if refs == [] then []
    else
      var code := refs[|refs| - 1].code;
      Conflicts(refs[..|refs| - 1], values) + (if code in values then [code] else [])
  }

  lemma {:induction false} ConflictsMember(refs: seq<ProgramRef>, values: seq<string>, x: string)
    ensures x in Conflicts(refs, values) <==> x in ProgramCodes(refs) && x in values
  {
    if refs != [] {
      var n := |refs| - 1;
      ConflictsMember(refs[..n], values, x);
      assert ProgramCodes(refs) == ProgramCodes(refs[..n]) + [refs[n].code];
    }
  }

  /** No reference conflicts iff none of their codes is among the values. */
  lemma {:induction false} ConflictsEmpty(refs: seq<ProgramRef>, values: seq<string>)
    ensures Conflicts(refs, values) == [] <==> forall i :: 0 <= i < |refs| ==> refs[i].code !in values
  {
    if Conflicts(refs, values) != [] {
      ConflictsMember(refs, values, Conflicts(refs, values)[0]);
    }
    if exists i :: 0 <= i < |refs| && refs[i].code in values {
      var i :| 0 <= i < |refs| && refs[i].code in values;
      ConflictsMember(refs, values, refs[i].code);
    }
  }

  /** `for plan_ref in refs: for value in values: if plan_ref.validate(value): append; break`. */
  method ConflictCodes(refs: seq<ProgramRef>, values: seq<string>) returns (conflicts: seq<string>)
    ensures conflicts == Conflicts(refs, values)
  {
    conflicts := [];
    for i := 0 to |refs|
      invariant conflicts == Conflicts(refs[..i], values)
    {
      assert refs[..i + 1][..i] == refs[..i];
      var j := 0;
      while j < |values|
        invariant 0 <= j <= |values|
        invariant forall b :: 0 <= b < j ==> !ProgramMatches(refs[i], values[b])
      {
        if ProgramMatches(refs[i], values[j]) {
          break;
        }
        j := j + 1;
      }
      if j < |values| {
        conflicts := conflicts + [refs[i].code];
      }
    }
    assert refs[..|refs|] == refs;
  }

  // ---------------------------------------------------------------------------
  // Discipline grouping (AR7)

  /** `course[:4]`, which does not raise on shorter codes. */
  function DisciplineOf(c: string): (d: string)
    ensures |d| <= 4 && |d| <= |c| && d == c[..|d|]
  {
    if |c| >= 4 then c[..4] else c
  }

  /** The plan courses of one discipline, in plan order. */
  function InDiscipline(courses: seq<string>, d: string): (r: seq<string>)
    ensures forall x :: x in r ==> x in courses && DisciplineOf(x) == d
  {
    if courses == [] then []
    else
      var c := courses[|courses| - 1];
      InDiscipline(courses[..|courses| - 1], d) + (if DisciplineOf(c) == d then [c] else [])
  }

  lemma {:induction false} InDisciplineMember(courses: seq<string>, d: string, x: string)
    ensures x in InDiscipline(courses, d) <==> x in courses && DisciplineOf(x) == d
  {
    if courses != [] {
      var n := |courses| - 1;
      InDisciplineMember(courses[..n], d, x);
      assert courses == courses[..n] + [courses[n]];
    }
  }

  /** Appending a course extends its own discipline's group and adds its units there only. */
  lemma {:induction false} InDisciplineSnoc(courses: seq<string>, c: string, lookup: CourseLookup, e: string)
    ensures InDiscipline(courses + [c], e) == InDiscipline(courses, e) + (if DisciplineOf(c) == e then [c] else [])
    ensures DisciplineUnits(courses + [c], e, lookup) ==
      DisciplineUnits(courses, e, lookup) + (if DisciplineOf(c) == e then UnitsOf(lookup, c) else 0)
  {
    var cs := courses + [c];
    assert cs[..|cs| - 1] == courses;
    var f := InDiscipline(courses, e);
    if DisciplineOf(c) == e {
      assert InDiscipline(cs, e) == f + [c];
      assert (f + [c])[..|f + [c]| - 1] == f;
    } else {
      assert InDiscipline(cs, e) == f;
    }
  }

  function DisciplineUnits(courses: seq<string>, d: string, lookup: CourseLookup): nat {
    TotalUnits(lookup, InDiscipline(courses, d))
  }

  /** The disciplines in order of first appearance. */
  function Disciplines(courses: seq<string>): seq<string> {
    if courses == [] then []
    else
      var ds := Disciplines(courses[..|courses| - 1]);
      var d := DisciplineOf(courses[|courses| - 1]);
      if d in ds then ds else ds + [d]
  }

  predicate NoDuplicates(xs: seq<string>) {
    forall i, j :: 0 <= i < j < |xs| ==> xs[i] != xs[j]
  }

  lemma {:induction false} DisciplinesMember(courses: seq<string>, d: string)
    ensures d in Disciplines(courses) <==> exists c :: c in courses && DisciplineOf(c) == d
    ensures NoDuplicates(Disciplines(courses))
  {
    DisciplinesHas(courses, d);
    DisciplinesUnique(courses);
  }

  lemma {:induction false} DisciplinesHas(courses: seq<string>, d: string)
    ensures d in Disciplines(courses) <==> exists c :: c in courses && DisciplineOf(c) == d
  {
    if courses != [] {
      var n := |courses| - 1;
      var pre := courses[..n];
      DisciplinesHas(pre, d);
      if exists c :: c in courses && DisciplineOf(c) == d {
        var c :| c in courses && DisciplineOf(c) == d;
        if c != courses[n] {
          assert c in pre;
        }
      }
      assert forall c :: c in pre ==> c in courses;
    }
  }

  lemma {:induction false} DisciplinesUnique(courses: seq<string>)
    ensures NoDuplicates(Disciplines(courses))
  {
    if courses != [] {
      var n := |courses| - 1;
      var ds := Disciplines(courses[..n]);
      var e := DisciplineOf(courses[n]);
      DisciplinesUnique(courses[..n]);
      if e !in ds {
        forall i, j | 0 <= i < j < |ds| + 1 ensures (ds + [e])[i] != (ds + [e])[j] {
          if j == |ds| {
            assert (ds + [e])[i] == ds[i] && ds[i] in ds;
          }
        }
      }
    }
  }


  /** The courses of every discipline whose units exceed `n`, group by group. */
  function OverCap(ds: seq<string>, courses: seq<string>, n: int, lookup: CourseLookup): seq<string> {
    if ds == [] then []
    else
      var d := ds[|ds| - 1];
      OverCap(ds[..|ds| - 1], courses, n, lookup)
        + (if DisciplineUnits(courses, d, lookup) > n then InDiscipline(courses, d) else [])
  }

  lemma {:induction false} OverCapMember(ds: seq<string>, courses: seq<string>, n: int, lookup: CourseLookup, x: string)
    ensures x in OverCap(ds, courses, n, lookup) <==>
      x in courses && DisciplineOf(x) in ds && DisciplineUnits(courses, DisciplineOf(x), lookup) > n
  {
    if ds != [] {
      var k := |ds| - 1;
      OverCapMember(ds[..k], courses, n, lookup, x);
      InDisciplineMember(courses, ds[k], x);
      assert forall e :: e in ds <==> e in ds[..k] || e == ds[k];
    }
  }

  /**
   * AR7's relevant courses are exactly the plan courses whose discipline exceeds the
   * cap, and there are some iff some discipline exceeds it.
   */
  lemma {:induction false} OverCapCourses(courses: seq<string>, n: int, lookup: CourseLookup, x: string)
    ensures x in OverCap(Disciplines(courses), courses, n, lookup) <==>
      x in courses && DisciplineUnits(courses, DisciplineOf(x), lookup) > n
  {
    OverCapMember(Disciplines(courses), courses, n, lookup, x);
    DisciplinesMember(courses, DisciplineOf(x));
  }

  /** A discipline that has not appeared has no courses. */
  lemma {:induction false} NoneInDiscipline(courses: seq<string>, d: string)
    requires d !in Disciplines(courses)
    ensures InDiscipline(courses, d) == []
  {
    if courses != [] {
      var n := |courses| - 1;
      assert d !in Disciplines(courses[..n]);
      assert DisciplineOf(courses[n]) != d;
      NoneInDiscipline(courses[..n], d);
    }
  }

  /** `counts.get(d, 0) + units`. */
  function Bumped(counts: Dict<string, int>, d: string, units: int): int {
    GetOr(counts, d, 0) + units
  }

  /** `lists.get(d, []) + [c]`. */
  function Appended(lists: Dict<string, seq<string>>, d: string, c: string): seq<string> {
    GetOr(lists, d, []) + [c]
  }

  /** The units dict after AR7's first loop has run over `courses`. */
  function GroupCounts(courses: seq<string>, lookup: CourseLookup): Dict<string, int> {
    if courses == [] then []
    else
      var counts := GroupCounts(courses[..|courses| - 1], lookup);
      var c := courses[|courses| - 1];
      Insert(counts, DisciplineOf(c), Bumped(counts, DisciplineOf(c), UnitsOf(lookup, c)))
  }

  /** The course-list dict after AR7's first loop has run over `courses`. */
  function GroupLists(courses: seq<string>): Dict<string, seq<string>> {
    if courses == [] then []
    else
      var lists := GroupLists(courses[..|courses| - 1]);
      var c := courses[|courses| - 1];
      Insert(lists, DisciplineOf(c), Appended(lists, DisciplineOf(c), c))
  }

  /** Both dicts are keyed by the disciplines, in order of first appearance. */
  lemma {:induction false} GroupForKeys(courses: seq<string>, lookup: CourseLookup)
    ensures Keys(GroupCounts(courses, lookup)) == Disciplines(courses)
    ensures Keys(GroupLists(courses)) == Disciplines(courses)
  {
    if courses != [] {
      var n := |courses| - 1;
      var pre := courses[..n];
      var c := courses[n];
      var d := DisciplineOf(c);
      GroupForKeys(pre, lookup);
      var counts, lists := GroupCounts(pre, lookup), GroupLists(pre);
      KeysInsert(counts, d, Bumped(counts, d, UnitsOf(lookup, c)));
      KeysInsert(lists, d, Appended(lists, d, c));
    }
  }

  /** Each discipline maps to its units. */
  lemma {:induction false} GroupCountsGet(courses: seq<string>, lookup: CourseLookup, e: string)
    ensures Get(GroupCounts(courses, lookup), e) ==
      if e in Disciplines(courses) then Some(DisciplineUnits(courses, e, lookup) as int) else None
  {
    if courses != [] {
      var n := |courses| - 1;
      var pre := courses[..n];
      assert courses == pre + [courses[n]];
      GroupCountsGet(pre, lookup, e);
      GroupCountsGetStep(pre, courses[n], lookup, e);
    }
  }

  /** One more course bumps its own discipline's units and leaves the others. */
  lemma {:induction false} GroupCountsGetStep(pre: seq<string>, c: string, lookup: CourseLookup, e: string)
    requires Get(GroupCounts(pre, lookup), e) ==
      if e in Disciplines(pre) then Some(DisciplineUnits(pre, e, lookup) as int) else None
    ensures Get(GroupCounts(pre + [c], lookup), e) ==
      if e in Disciplines(pre + [c]) then Some(DisciplineUnits(pre + [c], e, lookup) as int) else None
  {
    var courses := pre + [c];
    assert courses[..|courses| - 1] == pre;
    var d := DisciplineOf(c);
    var counts := GroupCounts(pre, lookup);
    var v := Bumped(counts, d, UnitsOf(lookup, c));
    assert GroupCounts(courses, lookup) == Insert(counts, d, v);
    assert Disciplines(courses) == if d in Disciplines(pre) then Disciplines(pre) else Disciplines(pre) + [d];
    InDisciplineSnoc(pre, c, lookup, e);
    if e == d {
      GetInsertSame(counts, d, v);
      if d in Disciplines(pre) {
        assert Get(counts, d) == Some(DisciplineUnits(pre, d, lookup) as int);
      } else {
        NoneInDiscipline(pre, d);
        assert DisciplineUnits(pre, d, lookup) == 0;
        assert Get(counts, d) == None;
      }
      assert v == DisciplineUnits(pre, d, lookup) + UnitsOf(lookup, c);
      assert DisciplineUnits(courses, d, lookup) == DisciplineUnits(pre, d, lookup) + UnitsOf(lookup, c);
      assert v == DisciplineUnits(courses, d, lookup) as int;
      assert d in Disciplines(courses);
    } else {
      GetInsertOther(counts, d, v, e);
      assert Get(GroupCounts(courses, lookup), e) == Get(counts, e);
      assert DisciplineUnits(courses, e, lookup) == DisciplineUnits(pre, e, lookup);
      assert e in Disciplines(courses) <==> e in Disciplines(pre);
    }
  }

  /** Each discipline maps to its courses, in plan order. */
  lemma {:induction false} GroupListsGet(courses: seq<string>, e: string)
    ensures Get(GroupLists(courses), e) ==
      if e in Disciplines(courses) then Some(InDiscipline(courses, e)) else None
  {
    if courses != [] {
      var n := |courses| - 1;
      var pre := courses[..n];
      var c := courses[n];
      var d := DisciplineOf(c);
      var lists := GroupLists(pre);
      var v := Appended(lists, d, c);
      assert GroupLists(courses) == Insert(lists, d, v);
      assert InDiscipline(courses, e) == InDiscipline(pre, e) + (if d == e then [c] else []);
      assert e in Disciplines(courses) <==> e in Disciplines(pre) || e == d;
      GroupListsGet(pre, e);
      if e == d {
        GetInsertSame(lists, d, v);
        if d !in Disciplines(pre) {
          NoneInDiscipline(pre, d);
          assert Get(lists, d) == None;
        } else {
          assert Get(lists, d) == Some(InDiscipline(pre, d));
        }
        assert v == InDiscipline(pre, d) + [c];
        assert Get(GroupLists(courses), e) == Some(InDiscipline(courses, e));
      } else {
        GetInsertOther(lists, d, v, e);
        assert InDiscipline(courses, e) == InDiscipline(pre, e);
        assert Get(GroupLists(courses), e) == Get(lists, e);
      }
    } else {
      assert GroupLists(courses) == [] && Disciplines(courses) == [];
      assert Get(GroupLists(courses), e) == None;
    }
  }

  /**
   * AR7's first loop: units and courses per discipline, in two dicts updated in place.
   * `if d not in lists: lists[d] = []` followed by `lists[d].append(c)` is the one
   * assignment of `lists.get(d, []) + [c]`.
   */
  method GroupByDiscipline(courses: seq<string>, lookup: CourseLookup) returns (counts: Dict<string, int>, lists: Dict<string, seq<string>>)
    ensures counts == GroupCounts(courses, lookup) && lists == GroupLists(courses)
  {
    counts := [];
    lists := [];
    for i := 0 to |courses|
      invariant counts == GroupCounts(courses[..i], lookup) && lists == GroupLists(courses[..i])
    {
      var c := courses[i];
      var d := DisciplineOf(c);
      assert courses[..i + 1][..i] == courses[..i];
      counts := Insert(counts, d, Bumped(counts, d, UnitsOf(lookup, c)));
      lists := Insert(lists, d, Appended(lists, d, c));
    }
    assert courses[..|courses|] == courses;
  }

  /** The entry at index `k` of either dict is the `k`-th discipline with its units and courses. */
  lemma {:induction false} GroupForAt(courses: seq<string>, lookup: CourseLookup, k: nat)
    requires k < |Disciplines(courses)|
    ensures |GroupCounts(courses, lookup)| == |Disciplines(courses)| == |GroupLists(courses)|
    ensures GroupCounts(courses, lookup)[k] == (Disciplines(courses)[k], DisciplineUnits(courses, Disciplines(courses)[k], lookup) as int)
    ensures GroupLists(courses)[k] == (Disciplines(courses)[k], InDiscipline(courses, Disciplines(courses)[k]))
  {
    var counts, lists := GroupCounts(courses, lookup), GroupLists(courses);
    var ds := Disciplines(courses);
    GroupForKeys(courses, lookup);
    DisciplinesMember(courses, "");
    assert UniqueKeys(counts) && UniqueKeys(lists) by {
      assert forall i :: 0 <= i < |ds| ==> counts[i].0 == ds[i] && lists[i].0 == ds[i];
    }
    InsertAt(counts, ds[k], 0, k);
    InsertAt(lists, ds[k], [], k);
    GroupCountsGet(courses, lookup, ds[k]);
    GroupListsGet(courses, ds[k]);
  }

  /** Some course's discipline carries more than `n` units. */
  predicate AnyOverCap(courses: seq<string>, n: int, lookup: CourseLookup) {
    exists c :: c in courses && DisciplineUnits(courses, DisciplineOf(c), lookup) > n
  }

  /**
   * AR7: group units and courses by discipline, then collect the courses of each
   * discipline over the cap, in dict order.
   */
  method DisciplineScan(courses: seq<string>, n: int, lookup: CourseLookup) returns (anyOver: bool, badlist: seq<string>)
    ensures anyOver == AnyOverCap(courses, n, lookup)
    ensures badlist == OverCap(Disciplines(courses), courses, n, lookup)
  {
    var counts, lists := GroupByDiscipline(courses, lookup);
    ghost var ds := Disciplines(courses);
    GroupForKeys(courses, lookup);
    anyOver := false;
    badlist := [];
    for k := 0 to |counts|
      invariant badlist == OverCap(ds[..k], courses, n, lookup)
      invariant anyOver <==> exists j :: 0 <= j < k && DisciplineUnits(courses, ds[j], lookup) > n
    {
      GroupForAt(courses, lookup, k);
      OverCapStep(ds, k, courses, n, lookup);
      SomeOverStep(ds, k, courses, n, lookup);
      if counts[k].1 > n {
        anyOver := true;
        badlist := badlist + lists[k].1;
      }
    }
    assert ds[..|counts|] == ds;
    AnyOverMeaning(courses, n, lookup);
  }

  lemma {:induction false} OverCapStep(ds: seq<string>, k: nat, courses: seq<string>, n: int, lookup: CourseLookup)
    requires k < |ds|
    ensures OverCap(ds[..k + 1], courses, n, lookup) == OverCap(ds[..k], courses, n, lookup)
      + (if DisciplineUnits(courses, ds[k], lookup) > n then InDiscipline(courses, ds[k]) else [])
  {
    assert ds[..k + 1][..k] == ds[..k];
  }

  lemma {:induction false} SomeOverStep(ds: seq<string>, k: nat, courses: seq<string>, n: int, lookup: CourseLookup)
    requires k < |ds|
    ensures (exists j :: 0 <= j < k + 1 && DisciplineUnits(courses, ds[j], lookup) > n) <==>
      (exists j :: 0 <= j < k && DisciplineUnits(courses, ds[j], lookup) > n) || DisciplineUnits(courses, ds[k], lookup) > n
  {
  }

  lemma {:induction false} AnyOverMeaning(courses: seq<string>, n: int, lookup: CourseLookup)
    ensures (exists j :: 0 <= j < |Disciplines(courses)| && DisciplineUnits(courses, Disciplines(courses)[j], lookup) > n) <==>
      exists c :: c in courses && DisciplineUnits(courses, DisciplineOf(c), lookup) > n
  {
    var ds := Disciplines(courses);
    if exists j :: 0 <= j < |ds| && DisciplineUnits(courses, ds[j], lookup) > n {
      var j :| 0 <= j < |ds| && DisciplineUnits(courses, ds[j], lookup) > n;
      DisciplinesMember(courses, ds[j]);
    }
    if exists c :: c in courses && DisciplineUnits(courses, DisciplineOf(c), lookup) > n {
      var c :| c in courses && DisciplineUnits(courses, DisciplineOf(c), lookup) > n;
      DisciplinesMember(courses, DisciplineOf(c));
    }
  }
}

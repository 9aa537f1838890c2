/**
 * The semester planner page: how a semester's courses split into the normal
 * load (at most 8 units, filled greedily in list order) and the overload, how
 * semester codes such as 20241 are written and read, and how a drag-and-drop
 * moves a course to another semester.
 */
module SemPlan {
  import opened Wrappers
  import opened PyText

  /** A planned course; the page reads `id`, `units` and `sem`, the other fields are carried along. */
  datatype Course = Course(id: string, code: string, name: string, units: int, sem: string, completed: bool)

  /** The units one semester holds before courses count as overload. */
  const MaxUnits := 8

  /**
   * The greedy pass: for each course in order, whether it joins the normal load,
   * and the units used once all are placed.
   */
  function Placement(courses: seq<Course>): (r: (seq<bool>, int))
    ensures |r.0| == |courses| && r.1 <= MaxUnits
  {
    if courses == [] then ([], 0)
    else
      var n := |courses| - 1;
      var p := Placement(courses[..n]);
      if p.1 + courses[n].units <= MaxUnits then (p.0 + [true], p.1 + courses[n].units)
      else (p.0 + [false], p.1)
  }

  /** The courses whose flag is `b`, in their order. */
  function Select(courses: seq<Course>, flags: seq<bool>, b: bool): seq<Course>
    requires |flags| == |courses|
  {
    if courses == [] then []
    else
      var n := |courses| - 1;
      Select(courses[..n], flags[..n], b) + (if flags[n] == b then [courses[n]] else [])
  }

  function Normal(courses: seq<Course>): seq<Course> {
    Select(courses, Placement(courses).0, true)
  }

  function Overload(courses: seq<Course>): seq<Course> {
    Select(courses, Placement(courses).0, false)
  }

  function TotalUnits(courses: seq<Course>): int {
    if courses == [] then 0 else TotalUnits(courses[..|courses| - 1]) + courses[|courses| - 1].units
  }

  /** The `forEach` of `SemesterSection`, with `usedUnits` as the accumulator. */
  method SemesterSection(courses: seq<Course>) returns (normal: seq<Course>, overload: seq<Course>)
    ensures normal == Normal(courses) && overload == Overload(courses)
  {
    var usedUnits := 0;
    normal, overload := [], [];
    for i := 0 to |courses|
      invariant Placement(courses[..i]).1 == usedUnits
      invariant normal == Select(courses[..i], Placement(courses[..i]).0, true)
      invariant overload == Select(courses[..i], Placement(courses[..i]).0, false)
    {
      var pre := courses[..i];
      var next := courses[..i + 1];
      assert next[..i] == pre && next[i] == courses[i];
      var flags := Placement(next).0;
      assert flags[..i] == Placement(pre).0;
      if usedUnits + courses[i].units <= MaxUnits {
        normal := normal + [courses[i]];
        usedUnits := usedUnits + courses[i].units;
      } else {
        overload := overload + [courses[i]];
      }
    }
    assert courses[..|courses|] == courses;
  }

  /** The flags of a prefix are the first flags of the whole list. */
  lemma {:induction false} PlacementPrefix(courses: seq<Course>, k: nat)
    requires k <= |courses|
    ensures Placement(courses[..k]).0 == Placement(courses).0[..k]
    decreases |courses| - k
  {
    if k < |courses| {
      var n := |courses| - 1;
      PlacementPrefix(courses[..n], k);
      assert courses[..n][..k] == courses[..k];
      assert Placement(courses).0[..n] == Placement(courses[..n]).0;
    } else {
      assert courses[..k] == courses;
    }
  }

  /**
   * The rule applied to every course, with no early stop: it joins the normal load
   * exactly when the units used by the courses placed before it leave room for it.
   */
  lemma {:induction false} PlacementRule(courses: seq<Course>, i: nat)
    requires i < |courses|
    ensures Placement(courses).0[i] <==> Placement(courses[..i]).1 + courses[i].units <= MaxUnits
  {
    PlacementPrefix(courses, i + 1);
    var next := courses[..i + 1];
    assert next[..i] == courses[..i] && next[i] == courses[i];
    assert Placement(courses).0[i] == Placement(next).0[i];
  }

  /** The units used are the units of the normal courses, so the normal load never passes 8. */
  lemma {:induction false} NormalUnits(courses: seq<Course>)
    ensures TotalUnits(Normal(courses)) == Placement(courses).1
    ensures TotalUnits(Normal(courses)) <= MaxUnits
  {
    if courses != [] {
      var n := |courses| - 1;
      NormalUnits(courses[..n]);
      var p := Placement(courses[..n]);
      assert Placement(courses).0[..n] == p.0;
      var rest := Normal(courses[..n]);
      if p.1 + courses[n].units <= MaxUnits {
        assert Normal(courses) == rest + [courses[n]];
        assert (rest + [courses[n]])[..|rest|] == rest;
      } else {
        assert Normal(courses) == rest;
      }
    }
  }

  /** Each course lands in exactly one of the two lists: together they are the courses, as a multiset. */
  lemma {:induction false} SelectPartition(courses: seq<Course>, flags: seq<bool>)
    requires |flags| == |courses|
    ensures multiset(Select(courses, flags, true)) + multiset(Select(courses, flags, false)) == multiset(courses)
  {
    if courses != [] {
      var n := |courses| - 1;
      SelectPartition(courses[..n], flags[..n]);
      assert courses == courses[..n] + [courses[n]];
    }
  }

  lemma {:induction false} SectionPartition(courses: seq<Course>)
    ensures multiset(Normal(courses)) + multiset(Overload(courses)) == multiset(courses)
    ensures |Normal(courses)| + |Overload(courses)| == |courses|
  {
    SelectPartition(courses, Placement(courses).0);
    assert |multiset(Normal(courses)) + multiset(Overload(courses))| == |multiset(courses)|;
  }

  /** One more course joins the normal load when the units so far leave room for it, the overload otherwise. */
  lemma {:induction false} PlacementStep(cs: seq<Course>, x: Course)
    ensures var p := Placement(cs);
      var fits := p.1 + x.units <= MaxUnits;
      && Placement(cs + [x]).1 == (if fits then p.1 + x.units else p.1)
      && Normal(cs + [x]) == Normal(cs) + (if fits then [x] else [])
      && Overload(cs + [x]) == Overload(cs) + (if fits then [] else [x])
  {
    var ys := cs + [x];
    assert ys[..|cs|] == cs && ys[|cs|] == x;
    assert Placement(ys).0[..|cs|] == Placement(cs).0;
  }

  /** A later, smaller course still fits after a larger one overflowed: 6, 4, 2 gives normal 6, 2 and overload 4. */
  lemma {:induction false} NoEarlyStop(a: Course, b: Course, c: Course)
    requires a.units == 6 && b.units == 4 && c.units == 2
    ensures Normal([a, b, c]) == [a, c] && Overload([a, b, c]) == [b]
  {
    PlacementStep([], a);
    assert [] + [a] == [a];
    PlacementStep([a], b);
    assert [a] + [b] == [a, b];
    PlacementStep([a, b], c);
    assert [a, b] + [c] == [a, b, c];
  }

  /** `Math.floor(sem / 10)`, the year of a semester code. */
  function CodeYear(sem: int): int {
    sem / 10
  }

  /** `sem % 10` in JavaScript, whose remainder takes the sign of the dividend. */
  function CodeSemester(sem: int): (r: int)
    ensures -10 < r < 10 && (sem >= 0 ==> r >= 0)
  {
    if sem >= 0 then sem % 10 else -((-sem) % 10)
  }

  /** `getSemesterLabel`: "<year> Semester <number>". */
  function SemesterLabel(sem: int): string {
    IntToString(CodeYear(sem)) + " Semester " + IntToString(CodeSemester(sem))
  }

  /** `Number(`${year}${s}`)`: the digit `s` written after the year's digits. */
  function SemesterCode(year: int, s: nat): int
    requires s < 10
  {
    if year >= 0 then 10 * year + s else 10 * year - s
  }

  /** The digits of `n` followed by digit `s` are worth `10 * n + s`. */
  lemma {:induction false} AppendDigit(n: nat, s: nat)
    requires s < 10
    ensures var ds := NatToString(n) + [DigitChar(s)];
      (forall k :: 0 <= k < |ds| ==> IsDigit(ds[k])) && DigitsValue(ds) == 10 * n + s
  {
    var ds := NatToString(n) + [DigitChar(s)];
    assert ds[..|ds| - 1] == NatToString(n);
    NatToStringValue(n);
  }

  lemma {:induction false} NegativeCodeText(year: int, s: nat)
    requires s < 10 && year < 0
    ensures ParseInt(IntToString(year) + [DigitChar(s)]) == Ok(10 * year - s)
  {
    var n: nat := -year;
    AppendDigit(n, s);
    var ds := NatToString(n) + [DigitChar(s)];
    assert IntToString(year) == "-" + NatToString(n);
    assert ("-" + NatToString(n)) + [DigitChar(s)] == "-" + ds;
    ParseNegativeDigits(ds);
    assert -(DigitsValue(ds) as int) == 10 * year - s;
  }

  lemma {:induction false} NonNegativeCodeText(year: int, s: nat)
    requires s < 10 && year >= 0
    ensures ParseInt(IntToString(year) + [DigitChar(s)]) == Ok(10 * year + s)
  {
    var n: nat := year;
    AppendDigit(n, s);
    var ds := NatToString(n) + [DigitChar(s)];
    assert IntToString(year) == NatToString(n);
    ParseDigits(ds);
  }

  /** The code is exactly what the text "<year><s>" denotes. */
  lemma {:induction false} SemesterCodeText(year: int, s: nat)
    requires s < 10
    ensures ParseInt(IntToString(year) + [DigitChar(s)]) == Ok(SemesterCode(year, s))
  {
    if year < 0 {
      NegativeCodeText(year, s);
    } else {
      NonNegativeCodeText(year, s);
    }
  }

  /** Reading a non-negative code back gives the year and the semester it was written from. */
  lemma {:induction false} CodeRoundTrip(year: int, s: nat)
    requires year >= 0 && s < 10
    ensures CodeYear(SemesterCode(year, s)) == year && CodeSemester(SemesterCode(year, s)) == s
    ensures SemesterLabel(SemesterCode(year, s)) == IntToString(year) + " Semester " + IntToString(s)
  {
  }

  /** The codes of semesters 1 and 2 of each year from `start` to `end`. */
  function SemesterCodes(start: int, end: int): (r: seq<int>)
    decreases end - start
  {
    if end < start then [] else SemesterCodes(start, end - 1) + [SemesterCode(end, 1), SemesterCode(end, 2)]
  }

  /** The page's loop that pushes the two codes of every year. */
  method Semesters(start: int, end: int) returns (semesters: seq<int>)
    ensures semesters == SemesterCodes(start, end)
  {
    semesters := [];
    var year := start;
    while year <= end
      invariant year == start || year <= end + 1
      invariant semesters == SemesterCodes(start, year - 1)
      decreases end - year
    {
      semesters := semesters + [SemesterCode(year, 1)];
      semesters := semesters + [SemesterCode(year, 2)];
      year := year + 1;
    }
  }

  /** Two codes per year. */
  lemma {:induction false} SemesterCodesLength(start: int, end: int)
    ensures |SemesterCodes(start, end)| == if end < start then 0 else 2 * (end - start + 1)
    decreases end - start
  {
    if end >= start {
      SemesterCodesLength(start, end - 1);
    }
  }

  /** Entry `i` is semester `1 + i % 2` of year `start + i / 2`, and reads back as such. */
  lemma {:induction false} SemesterCodesAt(start: int, end: int, i: nat)
    requires 0 <= start && i < |SemesterCodes(start, end)|
    ensures SemesterCodes(start, end)[i] == SemesterCode(start + i / 2, 1 + i % 2)
    ensures CodeYear(SemesterCodes(start, end)[i]) == start + i / 2
    ensures CodeSemester(SemesterCodes(start, end)[i]) == 1 + i % 2
    decreases end - start
  {
    SemesterCodesLength(start, end);
    SemesterCodesLength(start, end - 1);
    var pre := SemesterCodes(start, end - 1);
    if i < |pre| {
      SemesterCodesAt(start, end - 1, i);
    } else {
      assert i / 2 == end - start;
    }
  }

  /** From a non-negative start year the codes strictly increase. */
  lemma {:induction false} SemesterCodesIncreasing(start: int, end: int)
    requires 0 <= start
    ensures forall i, j :: 0 <= i < j < |SemesterCodes(start, end)| ==> SemesterCodes(start, end)[i] < SemesterCodes(start, end)[j]
  {
    var r := SemesterCodes(start, end);
    forall i, j | 0 <= i < j < |r|
      ensures r[i] < r[j]
    {
      SemesterCodesAt(start, end, i);
      SemesterCodesAt(start, end, j);
    }
  }

  /** The page's range, 2024 to 2026. */
  lemma {:induction false} PageSemesters()
    ensures SemesterCodes(2024, 2026) == [20241, 20242, 20251, 20252, 20261, 20262]
  {
    assert SemesterCodes(2024, 2023) == [];
  }

  /** The courses without the given id, in order. */
  function Without(courses: seq<Course>, id: string): seq<Course> {
    if courses == [] then []
    else
      var n := |courses| - 1;
      Without(courses[..n], id) + (if courses[n].id != id then [courses[n]] else [])
  }

  /** The filter keeps exactly the courses with another id. */
  lemma {:induction false} WithoutMember(courses: seq<Course>, id: string, c: Course)
    ensures c in Without(courses, id) <==> c in courses && c.id != id
  {
    if courses != [] {
      var n := |courses| - 1;
      WithoutMember(courses[..n], id, c);
      assert courses == courses[..n] + [courses[n]];
    }
  }

  /** `handleDragEnd`: with a drop target and a dragged course, every copy of it leaves and one moved copy is appended. */
  function DragEnd(courses: seq<Course>, target: Option<string>, dragged: Option<Course>): seq<Course> {
    if target.Some? && dragged.Some? then Without(courses, dragged.value.id) + [dragged.value.(sem := target.value)]
    else courses
  }

  /**
   * After a drop the dragged id appears once, at the end, with the target semester;
   * the other courses keep their order; without a target nothing changes.
   */
  lemma {:induction false} DragEndMoves(courses: seq<Course>, target: Option<string>, dragged: Option<Course>)
    ensures target.None? || dragged.None? ==> DragEnd(courses, target, dragged) == courses
    ensures target.Some? && dragged.Some? ==>
      var r := DragEnd(courses, target, dragged);
      var d := dragged.value;
      && |r| > 0
      && r[|r| - 1] == d.(sem := target.value)
      && (forall i :: 0 <= i < |r| - 1 ==> r[i].id != d.id)
      && Without(r, d.id) == Without(courses, d.id)
  {
    if target.Some? && dragged.Some? {
      var d := dragged.value;
      var r := DragEnd(courses, target, dragged);
      var kept := Without(courses, d.id);
      assert r == kept + [d.(sem := target.value)];
      assert r[..|r| - 1] == kept;
      forall i | 0 <= i < |r| - 1
        ensures r[i].id != d.id
      {
        assert r[i] in kept;
        WithoutMember(courses, d.id, r[i]);
      }
      WithoutTwice(courses, d.id);
    }
  }

  /** Removing an id that no course has changes nothing. */
  lemma {:induction false} WithoutAbsent(courses: seq<Course>, id: string)
    requires forall i :: 0 <= i < |courses| ==> courses[i].id != id
    ensures Without(courses, id) == courses
  {
    if courses != [] {
      var n := |courses| - 1;
      WithoutAbsent(courses[..n], id);
      assert courses[..n] + [courses[n]] == courses;
    }
  }

  lemma {:induction false} WithoutTwice(courses: seq<Course>, id: string)
    ensures Without(Without(courses, id), id) == Without(courses, id)
  {
    var w := Without(courses, id);
    forall i | 0 <= i < |w|
      ensures w[i].id != id
    {
      assert w[i] in w;
      WithoutMember(courses, id, w[i]);
    }
    WithoutAbsent(w, id);
  }
}

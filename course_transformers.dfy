/**
 * `transform_scraped_course`: a scraped course becomes the stored course record.
 * The code splits into category and number, requirement texts are parsed when
 * present, every offering gets its year from its semester label, and the course
 * is active when it ran in the last two years.
 */
module CourseTransformers {
  import opened Wrappers
  import opened PyText
  import opened Seqs
  import opened RawValues
  import CourseModels
  import ReqsGrammar
  import ReqsParsing

  datatype ScrapedOffering = ScrapedOffering(semester: string, location: string, mode: string, profileUrl: Option<string>)

  /** The fields of a scraped course the transformation reads to decide something. */
  datatype ScrapedCourse = ScrapedCourse(
    code: string,
    name: string,
    incompatible: Option<string>,
    prerequisite: Option<string>,
    attendanceMode: string,
    latestAssessment: Option<seq<Raw>>,
    currentOfferings: seq<ScrapedOffering>,
    archivedOfferings: seq<ScrapedOffering>)

  datatype Offering = Offering(
    year: int, semester: string, location: string, mode: string, profileUrl: Option<string>, active: bool)

  datatype Course = Course(
    category: string,
    code: string,
    name: string,
    incompatible: Option<ReqsGrammar.Requirement>,
    prerequisite: Option<ReqsGrammar.Requirement>,
    attendanceMode: string,
    active: bool,
    semestersStr: Option<string>,
    offerings: seq<Offering>,
    assessment: Option<Raw>)

  /** Courses must have run within this many years of the current one to count as active. */
  const ActiveBuffer := 2
  const AssessmentItemsKey := "items"

  /** `t[:4]`. */
  function Take4(t: string): (r: string)
    ensures |r| <= 4 && |r| <= |t| && r == t[..|r|]
  {
    if |t| < 4 then t else t[..4]
  }

  /**
   * The year of an offering: spaces removed, the second comma field, its first
   * four characters, `int` of those. A label without a comma raises IndexError.
   */
  function OfferingYear(semester: string): (r: Result<int>)
    ensures r.Err? ==> r.error == IndexError || r.error == ValueError
  {
    var parts := Split(RemoveChar(semester, ' '), ',');
    if |parts| < 2 then Err(IndexError) else ParseInt(Take4(parts[1]))
  }

  /** IndexError comes exactly from a label that holds no comma. */
  lemma {:induction false} OfferingYearIndexError(semester: string)
    ensures OfferingYear(semester) == Err(IndexError) <==> ',' !in semester
  {
    RemoveCharMember(semester, ' ', ',');
    SplitParts(RemoveChar(semester, ' '), ',');
  }

  /** Removing the spaces of "<term>, <year><rest>" when the year has none. */
  lemma {:induction false} LabelWithoutSpaces(term: string, y: string, rest: string)
    requires ' ' !in y
    ensures RemoveChar(term + ", " + y + rest, ' ') == RemoveChar(term, ' ') + [','] + (y + RemoveChar(rest, ' '))
  {
    RemoveCharAbsent(y, ' ');
    assert term + ", " + y + rest == term + ([','] + ([' '] + (y + rest)));
    RemoveCharAppend(term, [','] + ([' '] + (y + rest)), ' ');
    RemoveCharAppend([','], [' '] + (y + rest), ' ');
    RemoveCharAppend([' '], y + rest, ' ');
    RemoveCharAppend(y, rest, ' ');
    assert RemoveChar([','], ' ') == [','] && RemoveChar([' '], ' ') == [];
  }

  /** The second comma field of "<t>,<y><r>" starts with `y` when neither `t` nor `y` holds a comma. */
  lemma {:induction false} SecondField(t: string, y: string, r: string)
    requires ',' !in t && ',' !in y
    ensures |Split(t + [','] + (y + r), ',')| >= 2
    ensures Split(t + [','] + (y + r), ',')[1] == y + Split(r, ',')[0]
  {
    SplitAfter(t, y + r, ',');
    SplitHead(y, r, ',');
  }

  /** A label "<term>, <four-digit year><anything>" gives that year. */
  lemma {:induction false} OfferingYearOf(term: string, year: nat, rest: string)
    requires ',' !in term && 1000 <= year <= 9999
    ensures OfferingYear(term + ", " + NatToString(year) + rest) == Ok(year)
  {
    var y := NatToString(year);
    var t := RemoveChar(term, ' ');
    var r := RemoveChar(rest, ' ');
    assert ' ' !in y && ',' !in y;
    LabelWithoutSpaces(term, y, rest);
    RemoveCharMember(term, ' ', ',');
    SecondField(t, y, r);
    FourDigits(year);
    var field := y + Split(r, ',')[0];
    assert field[..4] == y;
    assert Take4(field) == y;
    ParseDigits(y);
    NatToStringValue(year);
  }

  /** The label shape the catalogue uses. */
  lemma {:induction false} OfferingYearExample()
    ensures OfferingYear("Semester 1, 2024") == Ok(2024)
  {
    assert NatToString(2024) == "2024";
    assert "Semester 1" + ", " + NatToString(2024) + "" == "Semester 1, 2024";
    OfferingYearOf("Semester 1", 2024, "");
  }

  /**
   * `_transform_scraped_offering`. The year is read first; then `CourseMode(mode)`
   * raises ValueError unless `modes`, the values the enum defines, holds the mode.
   * The enum member is kept as its value.
   */
  function TransformOffering(o: ScrapedOffering, active: bool, modes: set<string>): (r: Result<Offering>)
    ensures r.Ok? ==> OfferingYear(o.semester) == Ok(r.value.year) && o.mode in modes && r.value.active == active
    ensures r.Ok? ==> r.value.semester == o.semester && r.value.location == o.location &&
                      r.value.mode == o.mode && r.value.profileUrl == o.profileUrl
    ensures r.Err? ==> OfferingYear(o.semester) == Err(r.error) ||
                       (OfferingYear(o.semester).Ok? && o.mode !in modes && r.error == ValueError)
  {
    var year :- OfferingYear(o.semester);
    if o.mode !in modes then Err(ValueError)
    else Ok(Offering(year, o.semester, o.location, o.mode, o.profileUrl, active))
  }

  function AsCurrent(modes: set<string>, o: ScrapedOffering): Result<Offering> {
    TransformOffering(o, true, modes)
  }

  function AsArchived(modes: set<string>, o: ScrapedOffering): Result<Offering> {
    TransformOffering(o, false, modes)
  }

  /**
   * `[f(c, x) for x in xs]` followed by `g(c, y)` for each `y` of `ys`: the first
   * element that raises, in that order, decides the error.
   */
  function MapThenExtend<C, A, B>(c: C, xs: seq<A>, ys: seq<A>, f: (C, A) -> Result<B>, g: (C, A) -> Result<B>)
    : Result<seq<B>>
  {
    var first :- MapAllWith(c, xs, f);
    var second :- MapAllWith(c, ys, g);
    Ok(first + second)
  }

  /** The current offerings, then the archived ones; the first offering that fails decides the error. */
  function Offerings(s: ScrapedCourse, modes: set<string>): Result<seq<Offering>> {
    MapThenExtend(modes, s.currentOfferings, s.archivedOfferings, AsCurrent, AsArchived)
  }

  /**
   * `out.extend(f(c, x) for x in xs)`: each image appended in turn, the first that
   * raises ending the extension with its error.
   */
  method Extend<C, A, B>(out: seq<B>, c: C, xs: seq<A>, f: (C, A) -> Result<B>) returns (r: Result<seq<B>>)
    ensures MapAllWith(c, xs, f).Ok? ==> r == Ok(out + MapAllWith(c, xs, f).value)
    ensures MapAllWith(c, xs, f).Err? ==> r == Err(MapAllWith(c, xs, f).error)
  {
    var acc := out;
    for i := 0 to |xs|
      invariant MapAllWith(c, xs[..i], f).Ok? && acc == out + MapAllWith(c, xs[..i], f).value
    {
      MapAllWithStep(c, xs, f, i, MapAllWith(c, xs[..i], f).value);
      var y := f(c, xs[i]);
      if y.Err? {
        return Err(y.error);
      }
      acc := acc + [y.value];
    }
    assert xs[..|xs|] == xs;
    r := Ok(acc);
  }

  /** A list built by a comprehension over `xs` and then extended in place by the images of `ys`. */
  method BuildThenExtend<C, A, B>(c: C, xs: seq<A>, ys: seq<A>, f: (C, A) -> Result<B>, g: (C, A) -> Result<B>)
    returns (r: Result<seq<B>>)
    ensures r == MapThenExtend(c, xs, ys, f, g)
  {
    var first := Extend([], c, xs, f);
    if first.Err? {
      return first;
    }
    assert first.value == MapAllWith(c, xs, f).value;
    r := Extend(first.value, c, ys, g);
  }

  /** The offerings list, built by the comprehension and then extended in place. */
  method TransformOfferings(s: ScrapedCourse, modes: set<string>) returns (r: Result<seq<Offering>>)
    ensures r == Offerings(s, modes)
  {
    r := BuildThenExtend(modes, s.currentOfferings, s.archivedOfferings, AsCurrent, AsArchived);
  }

  /** An offering converts when its label yields a year and its mode is one the enum defines. */
  predicate Convertible(o: ScrapedOffering, modes: set<string>) {
    OfferingYear(o.semester).Ok? && o.mode in modes
  }

  /**
   * The offerings list fails exactly when some offering, current or archived, has a
   * label that yields no year or a mode the enum does not define.
   */
  lemma {:induction false} OfferingsFail(s: ScrapedCourse, modes: set<string>)
    ensures Offerings(s, modes).Ok? <==>
      (forall i :: 0 <= i < |s.currentOfferings| ==> Convertible(s.currentOfferings[i], modes)) &&
      (forall i :: 0 <= i < |s.archivedOfferings| ==> Convertible(s.archivedOfferings[i], modes))
  {
    CurrentConvert(modes, s.currentOfferings);
    ArchivedConvert(modes, s.archivedOfferings);
  }

  lemma {:induction false} CurrentConvert(modes: set<string>, cur: seq<ScrapedOffering>)
    ensures MapAllWith(modes, cur, AsCurrent).Ok? <==> forall i :: 0 <= i < |cur| ==> Convertible(cur[i], modes)
  {
    MapAllWithOk(modes, cur, AsCurrent);
    forall i | 0 <= i < |cur|
      ensures AsCurrent(modes, cur[i]).Ok? <==> Convertible(cur[i], modes)
    {
    }
  }

  lemma {:induction false} ArchivedConvert(modes: set<string>, arch: seq<ScrapedOffering>)
    ensures MapAllWith(modes, arch, AsArchived).Ok? <==> forall i :: 0 <= i < |arch| ==> Convertible(arch[i], modes)
  {
    MapAllWithOk(modes, arch, AsArchived);
    forall i | 0 <= i < |arch|
      ensures AsArchived(modes, arch[i]).Ok? <==> Convertible(arch[i], modes)
    {
    }
  }

  /** An offering whose mode the enum does not define makes the whole list fail. */
  lemma {:induction false} UnknownModeFails(s: ScrapedCourse, modes: set<string>, i: nat)
    requires i < |s.currentOfferings| && s.currentOfferings[i].mode !in modes
    ensures Offerings(s, modes).Err?
  {
    OfferingsFail(s, modes);
    assert !Convertible(s.currentOfferings[i], modes);
  }

  /** The current offerings convert to active records that keep their labels. */
  lemma {:induction false} CurrentPart(cur: seq<ScrapedOffering>, modes: set<string>)
    requires MapAllWith(modes, cur, AsCurrent).Ok?
    ensures forall i :: 0 <= i < |cur| ==>
      MapAllWith(modes, cur, AsCurrent).value[i].active && MapAllWith(modes, cur, AsCurrent).value[i].semester == cur[i].semester
  {
    var a := MapAllWith(modes, cur, AsCurrent).value;
    forall i | 0 <= i < |cur|
      ensures a[i].active && a[i].semester == cur[i].semester
    {
      assert AsCurrent(modes, cur[i]) == Ok(a[i]);
    }
  }

  /** The archived offerings convert to inactive records that keep their labels. */
  lemma {:induction false} ArchivedPart(arch: seq<ScrapedOffering>, modes: set<string>)
    requires MapAllWith(modes, arch, AsArchived).Ok?
    ensures forall i :: 0 <= i < |arch| ==>
      !MapAllWith(modes, arch, AsArchived).value[i].active && MapAllWith(modes, arch, AsArchived).value[i].semester == arch[i].semester
  {
    var b := MapAllWith(modes, arch, AsArchived).value;
    forall i | 0 <= i < |arch|
      ensures !b[i].active && b[i].semester == arch[i].semester
    {
      assert AsArchived(modes, arch[i]) == Ok(b[i]);
    }
  }

  /** The stored offerings begin with the current ones, active and in order. */
  lemma {:induction false} OfferingsCurrentFirst(s: ScrapedCourse, modes: set<string>)
    requires Offerings(s, modes).Ok?
    ensures var r, n := Offerings(s, modes).value, |s.currentOfferings|;
      n <= |r| && forall i :: 0 <= i < n ==> r[i].active && r[i].semester == s.currentOfferings[i].semester
  {
    var a := MapAllWith(modes, s.currentOfferings, AsCurrent).value;
    assert Offerings(s, modes).value == a + MapAllWith(modes, s.archivedOfferings, AsArchived).value;
    CurrentPart(s.currentOfferings, modes);
  }

  /** The stored offerings end with the archived ones, inactive and in order. */
  lemma {:induction false} OfferingsArchivedLast(s: ScrapedCourse, modes: set<string>)
    requires Offerings(s, modes).Ok?
    ensures var r, n := Offerings(s, modes).value, |s.currentOfferings|;
      |r| == n + |s.archivedOfferings| &&
      forall i :: n <= i < |r| ==> !r[i].active && r[i].semester == s.archivedOfferings[i - n].semester
  {
    var b := MapAllWith(modes, s.archivedOfferings, AsArchived).value;
    assert Offerings(s, modes).value == MapAllWith(modes, s.currentOfferings, AsCurrent).value + b;
    ArchivedPart(s.archivedOfferings, modes);
  }

  /**
   * The stored offerings are the current ones, active and in order, followed by the
   * archived ones, inactive and in order, each keeping its own label.
   */
  lemma {:induction false} OfferingsOrder(s: ScrapedCourse, modes: set<string>)
    requires Offerings(s, modes).Ok?
    ensures var r := Offerings(s, modes).value;
      var n := |s.currentOfferings|;
      && |r| == n + |s.archivedOfferings|
      && (forall i :: 0 <= i < n ==> r[i].active && r[i].semester == s.currentOfferings[i].semester)
      && (forall i :: n <= i < |r| ==> !r[i].active && r[i].semester == s.archivedOfferings[i - n].semester)
  {
    OfferingsCurrentFirst(s, modes);
    OfferingsArchivedLast(s, modes);
  }

  /** The offerings that ran in the last `ActiveBuffer` years, in order. */
  function Recent(offerings: seq<Offering>, currentYear: int): (r: seq<Offering>)
    ensures forall o :: o in r <==> o in offerings && o.year >= currentYear - ActiveBuffer
    ensures |r| <= |offerings|
  {
    if offerings == [] then []
    else
      var n := |offerings| - 1;
      var last := offerings[n];
      assert offerings == offerings[..n] + [last];
      Recent(offerings[..n], currentYear) + (if last.year >= currentYear - ActiveBuffer then [last] else [])
  }

  /** The filter keeps order: filtering two lists in turn is filtering them joined. */
  lemma {:induction false} RecentAppend(a: seq<Offering>, b: seq<Offering>, currentYear: int)
    ensures Recent(a + b, currentYear) == Recent(a, currentYear) + Recent(b, currentYear)
  {
    if b != [] {
      var n := |b| - 1;
      assert (a + b)[..|a + b| - 1] == a + b[..n] && (a + b)[|a + b| - 1] == b[n];
      RecentAppend(a, b[..n], currentYear);
    } else {
      assert a + b == a;
    }
  }

  /** The values in first-occurrence order, each once. */
  function Distinct(xs: seq<string>): (r: seq<string>)
    ensures forall x :: x in r <==> x in xs
    ensures forall i, j :: 0 <= i < j < |r| ==> r[i] != r[j]
  {
    if xs == [] then []
    else
      var n := |xs| - 1;
      var init := Distinct(xs[..n]);
      assert xs == xs[..n] + [xs[n]];
      if xs[n] in init then init else init + [xs[n]]
  }

  /** The text before the first comma, which `semester_enum` looks up. */
  function SemesterStart(semester: string): string {
    Split(semester, ',')[0]
  }

  /** The semester name of each offering, through the enum lookup `semesterEnum`. */
  function SemesterNames(recent: seq<Offering>, semesterEnum: string -> string): (r: seq<string>)
    ensures |r| == |recent| && forall i :: 0 <= i < |recent| ==> r[i] == semesterEnum(SemesterStart(recent[i].semester))
  {
    seq(|recent|, i requires 0 <= i < |recent| => semesterEnum(SemesterStart(recent[i].semester)))
  }

  /** `semesters_str`: None without a recent offering, otherwise the distinct names joined by commas. */
  function SemestersStr(recent: seq<Offering>, semesterEnum: string -> string): Option<string> {
    var names := Distinct(SemesterNames(recent, semesterEnum));
    if |names| == 0 then None else Some(Join(",", names))
  }

  /** `parse_requirement(text) if text else None`. */
  function ParseIfPresent(text: Option<string>): (r: Option<ReqsGrammar.Requirement>)
    ensures r.Some? <==> text.Some? && text.value != ""
    ensures r.Some? ==> r.value == ReqsParsing.ParseRequirement(text.value)
  {
    if text.Some? && text.value != "" then Some(ReqsParsing.ParseRequirement(text.value)) else None
  }

  /** `{"items": [...]}` for a non-empty assessment list, otherwise None. */
  function AssessmentOf(items: Option<seq<Raw>>): (r: Option<Raw>)
    ensures r.Some? <==> items.Some? && items.value != []
    ensures r.Some? ==> r.value == RDict([(AssessmentItemsKey, RList(items.value))])
  {
    if items.Some? && items.value != [] then Some(RDict([(AssessmentItemsKey, RList(items.value))])) else None
  }

  /** The record built from a scraped course whose attendance mode the enum defines, and its transformed offerings. */
  function CourseRecord(s: ScrapedCourse, offerings: seq<Offering>, currentYear: int, semesterEnum: string -> string)
    : Course {
    var parts := CourseModels.CodeParts(s.code);
    var recent := Recent(offerings, currentYear);
    Course(parts.0, parts.1, s.name, ParseIfPresent(s.incompatible), ParseIfPresent(s.prerequisite), s.attendanceMode,
           |recent| != 0, SemestersStr(recent, semesterEnum), offerings, AssessmentOf(s.latestAssessment))
  }

  /**
   * `transform_scraped_course`, with the current year, the semester enum lookup and
   * the values `CourseMode` defines as parameters. The offerings are built first;
   * `CourseMode(attendance_mode)` is evaluated afterwards, when the record is constructed.
   */
  function TransformCourse(s: ScrapedCourse, currentYear: int, semesterEnum: string -> string, modes: set<string>)
    : (r: Result<Course>)
    ensures r.Ok? <==> Offerings(s, modes).Ok? && s.attendanceMode in modes
    ensures Offerings(s, modes).Err? ==> r == Err(Offerings(s, modes).error)
    ensures Offerings(s, modes).Ok? && s.attendanceMode !in modes ==> r == Err(ValueError)
    ensures r.Ok? ==> r.value.offerings == Offerings(s, modes).value && r.value.attendanceMode == s.attendanceMode
  {
    var offerings :- Offerings(s, modes);
    if s.attendanceMode !in modes then Err(ValueError)
    else Ok(CourseRecord(s, offerings, currentYear, semesterEnum))
  }

  method TransformScrapedCourse(s: ScrapedCourse, currentYear: int, semesterEnum: string -> string, modes: set<string>)
    returns (r: Result<Course>)
    ensures r == TransformCourse(s, currentYear, semesterEnum, modes)
  {
    var offerings := TransformOfferings(s, modes);
    if offerings.Err? {
      return Err(offerings.error);
    }
    if s.attendanceMode !in modes {
      return Err(ValueError);
    }
    r := Ok(CourseRecord(s, offerings.value, currentYear, semesterEnum));
  }

  /** A course is active exactly when one of its offerings is from the last `ActiveBuffer` years. */
  lemma {:induction false} CourseActive(s: ScrapedCourse, currentYear: int, semesterEnum: string -> string, modes: set<string>)
    requires TransformCourse(s, currentYear, semesterEnum, modes).Ok?
    ensures var c := TransformCourse(s, currentYear, semesterEnum, modes).value;
      c.active <==> exists i :: 0 <= i < |c.offerings| && c.offerings[i].year >= currentYear - ActiveBuffer
  {
    var c := TransformCourse(s, currentYear, semesterEnum, modes).value;
    var recent := Recent(c.offerings, currentYear);
    if |recent| != 0 {
      assert recent[0] in recent;
    }
  }

  /**
   * `semesters_str` is missing exactly when there is no recent offering; otherwise
   * it joins, once each, the semester names of the recent offerings and no others.
   */
  lemma {:induction false} SemestersStrMeaning(recent: seq<Offering>, semesterEnum: string -> string)
    ensures SemestersStr(recent, semesterEnum).None? <==> |recent| == 0
    ensures SemestersStr(recent, semesterEnum).Some? ==> exists names: seq<string> ::
      && SemestersStr(recent, semesterEnum).value == Join(",", names)
      && (forall i, j :: 0 <= i < j < |names| ==> names[i] != names[j])
      && (forall x :: x in names <==> exists o :: o in recent && x == semesterEnum(SemesterStart(o.semester)))
  {
    var all := SemesterNames(recent, semesterEnum);
    var names := Distinct(all);
    if |recent| != 0 {
      assert all[0] in names;
    }
    forall x
      ensures x in names <==> exists o :: o in recent && x == semesterEnum(SemesterStart(o.semester))
    {
      if x in names {
        var i :| 0 <= i < |all| && all[i] == x;
        assert recent[i] in recent;
      }
      if exists o :: o in recent && x == semesterEnum(SemesterStart(o.semester)) {
        var o :| o in recent && x == semesterEnum(SemesterStart(o.semester));
        var i :| 0 <= i < |recent| && recent[i] == o;
        assert all[i] == x;
      }
    }
  }

  /** On the course record, `semesters_str` is missing exactly for an inactive course. */
  lemma {:induction false} CourseSemesters(s: ScrapedCourse, currentYear: int, semesterEnum: string -> string, modes: set<string>)
    requires TransformCourse(s, currentYear, semesterEnum, modes).Ok?
    ensures var c := TransformCourse(s, currentYear, semesterEnum, modes).value;
      && c.semestersStr == SemestersStr(Recent(c.offerings, currentYear), semesterEnum)
      && (c.semestersStr.None? <==> !c.active)
  {
    var c := TransformCourse(s, currentYear, semesterEnum, modes).value;
    SemestersStrMeaning(Recent(c.offerings, currentYear), semesterEnum);
  }

  /**
   * Category and number come from `code_parts`, the name is copied, a requirement is
   * parsed only when its text is non-empty, and the assessment is wrapped only when
   * the list is non-empty.
   */
  lemma {:induction false} CourseFields(s: ScrapedCourse, currentYear: int, semesterEnum: string -> string, modes: set<string>)
    requires TransformCourse(s, currentYear, semesterEnum, modes).Ok?
    ensures var c := TransformCourse(s, currentYear, semesterEnum, modes).value;
      && c.category + c.code == s.code
      && (c.category, c.code) == CourseModels.CodeParts(s.code)
      && c.name == s.name
      && (c.prerequisite.Some? <==> s.prerequisite.Some? && s.prerequisite.value != "")
      && (c.incompatible.Some? <==> s.incompatible.Some? && s.incompatible.value != "")
      && (c.assessment.Some? <==> s.latestAssessment.Some? && s.latestAssessment.value != [])
  {
  }
}

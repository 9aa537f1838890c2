/**
 * The two derived views of a stored plan: `courses`, every course code of the
 * plan in order, and `course_dates`, the same lists keyed by `(year, semester)`
 * tuples parsed from keys such as "(2024, 1)".
 */
module PlanModel {
  import opened Wrappers
  import opened PyText
  import opened PyDict
  import opened Seqs

  /** `course_dates_input`: keys such as "(2024, 1)", in insertion order, to lists of course codes. */
  type CourseDatesInput = Dict<string, seq<string>>

  /** `courses`: the value lists one after another, in key order. */
  function Courses(input: CourseDatesInput): seq<string> {
    Flatten(Values(input))
  }

  /** The number of codes over all value lists. */
  function TotalLength(input: CourseDatesInput): nat {
    if input == [] then 0 else TotalLength(input[..|input| - 1]) + |input[|input| - 1].1|
  }

  /** Listing two plans' entries one after the other lists their courses one after the other. */
  lemma {:induction false} CoursesAppend(a: CourseDatesInput, b: CourseDatesInput)
    ensures Courses(a + b) == Courses(a) + Courses(b)
  {
    assert Values(a + b) == Values(a) + Values(b);
    FlattenAppend(Values(a), Values(b));
  }

  /** `courses` has one element per listed code. */
  lemma {:induction false} CoursesLength(input: CourseDatesInput)
    ensures |Courses(input)| == TotalLength(input)
  {
    if input != [] {
      var n := |input| - 1;
      CoursesLength(input[..n]);
      assert input == input[..n] + [input[n]];
      CoursesAppend(input[..n], [input[n]]);
      assert Values([input[n]]) == [input[n].1];
      assert Flatten([input[n].1]) == Flatten([]) + input[n].1;
    }
  }

  /** A code is in `courses` exactly when some value list holds it. */
  lemma {:induction false} CoursesMember(input: CourseDatesInput, c: string)
    ensures c in Courses(input) <==> exists i :: 0 <= i < |input| && c in input[i].1
  {
    FlattenMember(Values(input), c);
  }

  /** A key of `course_dates`: parentheses dropped, split on commas, `int` of each part in turn. */
  function KeyTuple(k: string): Result<seq<int>> {
    MapAll(Split(RemoveChar(RemoveChar(k, '('), ')'), ','), ParseInt)
  }

  /** The (tuple, list) pairs in input order, once every key parses. */
  function DatedPairs(input: CourseDatesInput, keys: seq<seq<int>>): (r: seq<(seq<int>, seq<string>)>)
    requires |keys| == |input|
    ensures |r| == |input| && forall i :: 0 <= i < |input| ==> r[i] == (keys[i], input[i].1)
  {
    seq(|input|, i requires 0 <= i < |input| => (keys[i], input[i].1))
  }

  /** `course_dates`: the dict comprehension, where a later key equal as a tuple overwrites an earlier one. */
  function CourseDates(input: CourseDatesInput): Result<Dict<seq<int>, seq<string>>> {
    var keys :- MapAll(Keys(input), KeyTuple);
    Ok(FromPairs(DatedPairs(input, keys)))
  }

  /** The comprehension fails exactly when some key does not parse, and then with ValueError. */
  lemma {:induction false} CourseDatesFails(input: CourseDatesInput)
    ensures CourseDates(input).Err? <==> exists i :: 0 <= i < |input| && KeyTuple(input[i].0).Err?
    ensures CourseDates(input).Err? ==> CourseDates(input).error == ValueError
  {
    var keys := Keys(input);
    MapAllOk(keys, KeyTuple);
    var r := MapAll(keys, KeyTuple);
    if r.Err? {
      var i :| 0 <= i < |keys| && KeyTuple(keys[i]) == Err(r.error);
      var parts := Split(RemoveChar(RemoveChar(keys[i], '('), ')'), ',');
      var j :| 0 <= j < |parts| && ParseInt(parts[j]) == Err(r.error);
    }
  }

  /**
   * The list stored under a parsed key is the original list of the last key that
   * parses to the same tuple, unchanged.
   */
  lemma {:induction false} CourseDatesLastWins(input: CourseDatesInput, i: nat)
    requires i < |input| && CourseDates(input).Ok?
    requires forall j :: i < j < |input| ==> KeyTuple(input[j].0) != KeyTuple(input[i].0)
    ensures KeyTuple(input[i].0).Ok?
    ensures Get(CourseDates(input).value, KeyTuple(input[i].0).value) == Some(input[i].1)
  {
    var keys := MapAll(Keys(input), KeyTuple).value;
    var pairs := DatedPairs(input, keys);
    assert pairs[i].0 == KeyTuple(input[i].0).value;
    FromPairsLastWins(pairs, i);
  }

  /** Every stored list is one of the input lists, under the tuple its own key parses to. */
  lemma {:induction false} CourseDatesValues(input: CourseDatesInput, t: seq<int>)
    requires CourseDates(input).Ok? && Get(CourseDates(input).value, t).Some?
    ensures exists i ::
      0 <= i < |input| && KeyTuple(input[i].0) == Ok(t) && input[i].1 == Get(CourseDates(input).value, t).value
  {
    var keys := MapAll(Keys(input), KeyTuple).value;
    var pairs := DatedPairs(input, keys);
    FromPairsValue(pairs, t);
  }

  /** The stored dict has one entry per distinct tuple. */
  lemma {:induction false} CourseDatesUnique(input: CourseDatesInput)
    requires CourseDates(input).Ok?
    ensures UniqueKeys(CourseDates(input).value)
  {
    FromPairsUnique(DatedPairs(input, MapAll(Keys(input), KeyTuple).value));
  }

  /** Removing a character that only opens the text. */
  lemma {:induction false} DropFirst(c: char, m: string)
    requires c !in m
    ensures RemoveChar([c] + m, c) == m
  {
    RemoveCharAppend([c], m, c);
    assert RemoveChar([c], c) == [];
    RemoveCharAbsent(m, c);
  }

  /** Removing a character that only closes the text. */
  lemma {:induction false} DropLast(c: char, m: string)
    requires c !in m
    ensures RemoveChar(m + [c], c) == m
  {
    RemoveCharAppend(m, [c], c);
    assert RemoveChar([c], c) == [];
    RemoveCharAbsent(m, c);
  }

  /** Dropping the parentheses of "(y, s)" leaves "y, s" when neither part holds one. */
  lemma {:induction false} DropParens(y: string, s: string)
    requires '(' !in y && ')' !in y && '(' !in s && ')' !in s
    ensures RemoveChar(RemoveChar("(" + y + ", " + s + ")", '('), ')') == y + [','] + (" " + s)
  {
    var inner := y + [','] + (" " + s);
    assert "(" + y + ", " + s + ")" == ['('] + (inner + [')']);
    DropFirst('(', inner + [')']);
    DropLast(')', inner);
  }

  lemma {:induction false} SplitPair(y: string, s: string)
    requires ',' !in y && ',' !in s
    ensures Split(y + [','] + (" " + s), ',') == [y, " " + s]
  {
    SplitAfter(y, " " + s, ',');
    assert ',' !in " " + s;
    SplitNoSep(" " + s, ',');
  }

  /** The key `str((year, sem))` writes parses back to `(year, sem)`. */
  lemma {:induction false} KeyTupleRoundTrip(year: int, sem: int)
    ensures KeyTuple("(" + IntToString(year) + ", " + IntToString(sem) + ")") == Ok([year, sem])
  {
    var y := IntToString(year);
    var s := IntToString(sem);
    IntToStringPlain(year);
    IntToStringPlain(sem);
    DropParens(y, s);
    SplitPair(y, s);
    IntToStringParses(year);
    IntToStringParses(sem);
    ParseIntLeadingSpace(s);
    MapAllPair(y, " " + s, ParseInt, year, sem);
  }
}

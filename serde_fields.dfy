/**
 * Reading a rule's fields out of a loosely shaped dict, the way the factories'
 * `from_dict` calls do: a required field that is missing or of the wrong type is a
 * deserialisation error; an optional one that is missing or null is None; a field
 * with a default takes the default when missing.
 */
module SerdeFields {
  import opened Wrappers
  import opened RawValues
  import PyDict
  import opened Params

  type Entries = seq<(string, Raw)>

  /** `d.get(key)`. */
  function Field(d: Entries, key: string): Option<Raw> {
    PyDict.Get(d, key)
  }

  function ReqStr(d: Entries, key: string): (r: Result<string>)
    ensures r.Ok? <==> Field(d, key).Some? && Field(d, key).value.RStr?
  {
    match Field(d, key)
    case Some(RStr(s)) => Ok(s)
    case _ => Err(SerdeError)
  }

  function ReqInt(d: Entries, key: string): (r: Result<int>)
    ensures r.Ok? <==> Field(d, key).Some? && Field(d, key).value.RInt?
  {
    match Field(d, key)
    case Some(RInt(i)) => Ok(i)
    case _ => Err(SerdeError)
  }

  function ReqBool(d: Entries, key: string): (r: Result<bool>)
    ensures r.Ok? <==> Field(d, key).Some? && Field(d, key).value.RBool?
  {
    match Field(d, key)
    case Some(RBool(b)) => Ok(b)
    case _ => Err(SerdeError)
  }

  /** A boolean field declared with a default. */
  function BoolOr(d: Entries, key: string, default: bool): (r: Result<bool>)
    ensures Field(d, key).None? ==> r == Ok(default)
  {
    match Field(d, key)
    case None => Ok(default)
    case Some(RBool(b)) => Ok(b)
    case _ => Err(SerdeError)
  }

  /** An `int | None` field. */
  function OptInt(d: Entries, key: string): Result<Option<int>> {
    match Field(d, key)
    case None => Ok(None)
    case Some(RNone) => Ok(None)
    case Some(RInt(i)) => Ok(Some(i))
    case _ => Err(SerdeError)
  }

  /** Decodes every item of a list with `f`, stopping at the first failure. */
  function AllOk<T>(items: seq<Raw>, f: Raw -> Result<T>): (r: Result<seq<T>>)
    ensures r.Ok? ==> |r.value| == |items|
    ensures r.Err? ==> exists i :: 0 <= i < |items| && f(items[i]) == Err(r.error)
  {
    if items == [] then Ok([])
    else
      match AllOk(items[..|items| - 1], f)
      case Err(e) => Err(e)
      case Ok(init) =>
        match f(items[|items| - 1])
        case Err(e) => Err(e)
        case Ok(x) => Ok(init + [x])
  }

  /** `AllOk` on items that each decode to a value gives those values, in order. */
  lemma {:induction false} AllOkOfDecodable<T>(items: seq<Raw>, f: Raw -> Result<T>, xs: seq<T>)
    requires |xs| == |items|
    requires forall i :: 0 <= i < |items| ==> f(items[i]) == Ok(xs[i])
    ensures AllOk(items, f) == Ok(xs)
  {
    if items != [] {
      var n := |items| - 1;
      AllOkOfDecodable(items[..n], f, xs[..n]);
      assert xs[..n] + [xs[n]] == xs;
    }
  }

  /** A successful decoding holds, at each position, what `f` makes of that item. */
  lemma {:induction false} AllOkItems<T>(items: seq<Raw>, f: Raw -> Result<T>)
    requires AllOk(items, f).Ok?
    ensures forall i :: 0 <= i < |items| ==> f(items[i]) == Ok(AllOk(items, f).value[i])
  {
    if items != [] {
      var n := |items| - 1;
      AllOkItems(items[..n], f);
      forall i | 0 <= i < |items| ensures f(items[i]) == Ok(AllOk(items, f).value[i]) {
        if i < n {
          assert items[..n][i] == items[i];
        }
      }
    }
  }

  /** Once a prefix of the items fails, the whole list fails with the same error. */
  lemma {:induction false} AllOkPrefixErr<T>(items: seq<Raw>, k: nat, f: Raw -> Result<T>)
    requires 0 < k <= |items|
    requires AllOk(items[..k - 1], f).Ok? && f(items[k - 1]).Err?
    ensures AllOk(items, f) == Err(f(items[k - 1]).error)
  {
    if k == |items| {
      assert items[..k][..k - 1] == items[..k - 1];
      assert items[..k] == items;
    } else {
      var n := |items| - 1;
      assert items[..n][..k - 1] == items[..k - 1];
      assert items[..n][k - 1] == items[k - 1];
      AllOkPrefixErr(items[..n], k, f);
    }
  }

  /** A list field whose items are decoded with `f`. */
  function ListOf<T>(d: Entries, key: string, f: Raw -> Result<T>): Result<seq<T>> {
    match Field(d, key)
    case Some(RList(items)) => AllOk(items, f)
    case _ => Err(SerdeError)
  }

  function StrOf(r: Raw): Result<string> {
    match r
    case RStr(s) => Ok(s)
    case _ => Err(SerdeError)
  }

  function DictOf(r: Raw): Result<Entries> {
    match r
    case RDict(entries) => Ok(entries)
    case _ => Err(SerdeError)
  }

  /** A nested `ProgramRef`, field by field under its declared names. */
  function ProgramRefOf(r: Raw): (p: Result<ProgramRef>)
    ensures p.Err? ==> p.error == SerdeError
  {
    match r
    case RDict(d) =>
      var unitsMax :- OptInt(d, "units_max");
      var unitsMin :- OptInt(d, "units_min");
      var code :- ReqStr(d, "code");
      var orgName :- ReqStr(d, "org_name");
      var orgCode :- ReqStr(d, "org_code");
      var name :- ReqStr(d, "name");
      var abbreviation :- ReqStr(d, "abbreviation");
      Ok(ProgramRef(unitsMax, unitsMin, code, orgName, orgCode, name, abbreviation))
    case _ => Err(SerdeError)
  }

  /** A nested `CourseRef`, field by field under its declared names. */
  function CourseRefOf(r: Raw): (c: Result<CourseRef>)
    ensures c.Err? ==> c.error == SerdeError
  {
    match r
    case RDict(d) =>
      var unitsMax :- OptInt(d, "units_max");
      var unitsMin :- OptInt(d, "units_min");
      var code :- ReqStr(d, "code");
      var orgName :- ReqStr(d, "org_name");
      var orgCode :- ReqStr(d, "org_code");
      var name :- ReqStr(d, "name");
      Ok(CourseRef(unitsMax, unitsMin, code, orgName, orgCode, name))
    case _ => Err(SerdeError)
  }

  function ReqProgram(d: Entries, key: string): Result<ProgramRef> {
    match Field(d, key)
    case Some(v) => ProgramRefOf(v)
    case None => Err(SerdeError)
  }

  // ---------------------------------------------------------------------------
  // The serialised form (`to_dict`), and the round trip

  function OptIntRaw(o: Option<int>): Raw {
    match o
    case Some(i) => RInt(i)
    case None => RNone
  }

  function ProgramRefRaw(p: ProgramRef): Raw {
    RDict([("units_max", OptIntRaw(p.unitsMax)), ("units_min", OptIntRaw(p.unitsMin)), ("code", RStr(p.code)),
           ("org_name", RStr(p.orgName)), ("org_code", RStr(p.orgCode)), ("name", RStr(p.name)),
           ("abbreviation", RStr(p.abbreviation))])
  }

  function CourseRefRaw(c: CourseRef): Raw {
    RDict([("units_max", OptIntRaw(c.unitsMax)), ("units_min", OptIntRaw(c.unitsMin)), ("code", RStr(c.code)),
           ("org_name", RStr(c.orgName)), ("org_code", RStr(c.orgCode)), ("name", RStr(c.name))])
  }

  /** Every entry of a dict with unique keys is what `get` finds under its key. */
  lemma {:induction false} FieldsOfUnique(d: Entries)
    requires PyDict.UniqueKeys(d)
    ensures forall i :: 0 <= i < |d| ==> Field(d, d[i].0) == Some(d[i].1)
  {
    forall i | 0 <= i < |d| ensures Field(d, d[i].0) == Some(d[i].1) {
      PyDict.GetAt(d, i);
    }
  }

  lemma {:induction false} ProgramRefRoundTrip(p: ProgramRef)
    ensures ProgramRefOf(ProgramRefRaw(p)) == Ok(p)
  {
    var d := ProgramRefRaw(p).entries;
    assert PyDict.UniqueKeys(d);
    forall i | 0 <= i < |d| ensures Field(d, d[i].0) == Some(d[i].1) {
      PyDict.GetAt(d, i);
    }
    assert OptInt(d, d[0].0) == Ok(p.unitsMax);
    assert OptInt(d, d[1].0) == Ok(p.unitsMin);
    assert ReqStr(d, d[2].0) == Ok(p.code);
    assert ReqStr(d, d[3].0) == Ok(p.orgName);
    assert ReqStr(d, d[4].0) == Ok(p.orgCode);
    assert ReqStr(d, d[5].0) == Ok(p.name);
    assert ReqStr(d, d[6].0) == Ok(p.abbreviation);
  }

  lemma {:induction false} CourseRefRoundTrip(c: CourseRef)
    ensures CourseRefOf(CourseRefRaw(c)) == Ok(c)
  {
    var d := CourseRefRaw(c).entries;
    assert PyDict.UniqueKeys(d);
    forall i | 0 <= i < |d| ensures Field(d, d[i].0) == Some(d[i].1) {
      PyDict.GetAt(d, i);
    }
    assert OptInt(d, d[0].0) == Ok(c.unitsMax);
    assert OptInt(d, d[1].0) == Ok(c.unitsMin);
    assert ReqStr(d, d[2].0) == Ok(c.code);
    assert ReqStr(d, d[3].0) == Ok(c.orgName);
    assert ReqStr(d, d[4].0) == Ok(c.orgCode);
    assert ReqStr(d, d[5].0) == Ok(c.name);
  }

  function ProgramRefsRaw(ps: seq<ProgramRef>): (r: Raw)
    ensures r.RList? && |r.items| == |ps| && forall i :: 0 <= i < |ps| ==> r.items[i] == ProgramRefRaw(ps[i])
  {
    RList(seq(|ps|, i requires 0 <= i < |ps| => ProgramRefRaw(ps[i])))
  }

  function CourseRefsRaw(cs: seq<CourseRef>): (r: Raw)
    ensures r.RList? && |r.items| == |cs| && forall i :: 0 <= i < |cs| ==> r.items[i] == CourseRefRaw(cs[i])
  {
    RList(seq(|cs|, i requires 0 <= i < |cs| => CourseRefRaw(cs[i])))
  }

  function StringsRaw(xs: seq<string>): (r: Raw)
    ensures r.RList? && |r.items| == |xs| && forall i :: 0 <= i < |xs| ==> r.items[i] == RStr(xs[i])
  {
    RList(seq(|xs|, i requires 0 <= i < |xs| => RStr(xs[i])))
  }

  lemma {:induction false} ProgramRefsRoundTrip(ps: seq<ProgramRef>)
    ensures AllOk(ProgramRefsRaw(ps).items, ProgramRefOf) == Ok(ps)
  {
    forall i | 0 <= i < |ps| ensures ProgramRefOf(ProgramRefsRaw(ps).items[i]) == Ok(ps[i]) {
      ProgramRefRoundTrip(ps[i]);
    }
    AllOkOfDecodable(ProgramRefsRaw(ps).items, ProgramRefOf, ps);
  }

  lemma {:induction false} CourseRefsRoundTrip(cs: seq<CourseRef>)
    ensures AllOk(CourseRefsRaw(cs).items, CourseRefOf) == Ok(cs)
  {
    forall i | 0 <= i < |cs| ensures CourseRefOf(CourseRefsRaw(cs).items[i]) == Ok(cs[i]) {
      CourseRefRoundTrip(cs[i]);
    }
    AllOkOfDecodable(CourseRefsRaw(cs).items, CourseRefOf, cs);
  }

  lemma {:induction false} StringsRoundTrip(xs: seq<string>)
    ensures AllOk(StringsRaw(xs).items, StrOf) == Ok(xs)
  {
    AllOkOfDecodable(StringsRaw(xs).items, StrOf, xs);
  }
}

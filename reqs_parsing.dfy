/**
 * `parse_requirement` of the requirement parser with error recovery: the grammar's
 * tree for the whole text, or an OTHER node holding the text when the grammar
 * admits no parse. It never raises.
 *
 * As written a comma course list reaches `and_expr` as a subtree that is not a
 * requirement and is dropped, leaving an AND with no children; the corrected
 * parser keeps each code of the list as an atom.
 */
module ReqsParsing {
  import opened Wrappers
  import opened PyText
  import opened ReqsGrammar
  import opened ReqsRender

  /** The `try`/`except LarkError` around the parse. */
  function Recover(d: Dialect, text: string): Requirement {
    match ParseAll(d, text)
    case Some(t) => t
    case None => Other(text)
  }

  /** `parse_requirement` as written: course lists lose their codes. */
  function ParseRequirementAsWritten(text: string): Requirement {
    Recover(Current(false), text)
  }

  /** `parse_requirement` with course lists kept, as the grammar's comment intends. */
  function ParseRequirement(text: string): Requirement {
    Recover(Current(true), text)
  }

  /**
   * OTHER comes back exactly when the text does not parse, and then holds the text;
   * otherwise the tree is the parse, which holds no OTHER node anywhere.
   */
  lemma {:induction false} RecoverMeaning(d: Dialect, text: string)
    requires d.Current?
    ensures var r := Recover(d, text);
      (r.Other? <==> ParseAll(d, text).None?) &&
      (r.Other? ==> r.value == text) &&
      (!r.Other? ==> ParseAll(d, text) == Some(r) && Shaped(d, r))
  {
    ParseAllShaped(d, text);
  }

  /** Every printed tree, with any trailing whitespace, reads back as itself in both versions. */
  lemma {:induction false} ParseRequirementRoundTrip(st: Style, t: Requirement, trailing: string)
    requires ValidStyle(st) && Renderable(Current(true), t)
    requires forall k :: 0 <= k < |trailing| ==> IsWS(trailing[k])
    ensures ParseRequirement(RenderExpr(st, t) + trailing) == t
    ensures ParseRequirementAsWritten(RenderExpr(st, t) + trailing) == t
  {
    RenderableDialect(t);
    RoundTrip(Current(true), st, t, trailing);
    RoundTrip(Current(false), st, t, trailing);
  }

  /** Whether a course list is kept plays no part in which trees the printer can write. */
  lemma {:induction false} RenderableDialect(t: Requirement)
    ensures Renderable(Current(true), t) == Renderable(Current(false), t)
  {
    match t
    case Atomic(_) =>
    case Other(_) =>
    case Or(cs) =>
      if |cs| == 2 {
        RenderableDialect(cs[0]);
        RenderableDialect(cs[1]);
      }
    case And(cs) =>
      if |cs| == 2 {
        RenderableDialect(cs[0]);
        RenderableDialect(cs[1]);
      }
  }

  // ---------------------------------------------------------------------------
  // Comma course lists

  /** A code followed by a comma or the end is read as exactly that course code. */
  lemma {:induction false} ListCodeAt(d: Dialect, s: string, i: nat, v: string)
    requires IsCode(d, v) && Placed(s, i, v)
    requires i + |v| == |s| || s[i + |v|] == ','
    ensures CourseCodeAt(d, s, i) == Some(i + |v|)
  {
    assert s[i] == v[0] && AlnumAt(v, 0);
    AlnumShift(s, i, v, 0);
    if d.Current? {
      CodeNotOr(s, i, v);
      CodeNotAnd(s, i, v);
    }
  }

  /** The token text of a placed word is the word. */
  lemma {:induction false} PlacedLexeme(s: string, i: nat, v: string)
    requires Placed(s, i, v)
    ensures Lexeme(s, i, i + |v|) == v
  {
    LexemeIsSlice(s, i, i + |v|);
    assert s[i..i + |v|] == v;
  }

  /** `", "` at `i`: the comma is found at once, and the whitespace after it is skipped. */
  lemma {:induction false} CommaSpace(s: string, i: nat)
    requires Placed(s, i, ", ") && i + 2 < |s| && !IsWS(s[i + 2])
    ensures SkipWS(s, i) == i && s[i] == ',' && SkipWS(s, i + 1) == i + 2
  {
    PlacedChar(s, i, ", ", 0);
    PlacedChar(s, i, ", ", 1);
    SkipNone(s, i + 2);
  }

  /** The list reader at any position (no list past the end), in which the lemmas below state what it reads. */
  function ListFrom(d: Dialect, s: string, codes: seq<string>, j: nat): CodeList {
    if j <= |s| then ListMore(d, s, codes, j) else NoCodes
  }

  /** One unfolding of the list reader: a comma, whitespace and a course code. */
  lemma {:induction false} ListMoreOne(d: Dialect, s: string, acc: seq<string>, i: nat, p: nat, e: nat)
    requires i < |s| && SkipWS(s, i) == i && s[i] == ',' && p <= |s| && SkipWS(s, i + 1) == p
    requires CourseCodeAt(d, s, p) == Some(e)
    ensures ListFrom(d, s, acc, i) == ListFrom(d, s, acc + [Lexeme(s, p, e)], e)
  {
  }

  /** The list reader stops at the end of the text. */
  lemma {:induction false} ListStops(d: Dialect, s: string, codes: seq<string>)
    ensures ListFrom(d, s, codes, |s|) == Codes(codes, |s|)
  {
  }

  /** `", "` and a code, followed by a comma or the end: one more code of the list. */
  lemma {:induction false} ListStep(d: Dialect, s: string, acc: seq<string>, i: nat, v: string)
    requires IsCode(d, v) && Placed(s, i, ", ") && Placed(s, i + 2, v)
    requires i + 2 + |v| == |s| || s[i + 2 + |v|] == ','
    ensures ListFrom(d, s, acc, i) == ListFrom(d, s, acc + [v], i + 2 + |v|)
  {
    PlacedChar(s, i + 2, v, 0);
    assert AlnumAt(v, 0);
    CommaSpace(s, i);
    ListCodeAt(d, s, i + 2, v);
    PlacedLexeme(s, i + 2, v);
    ListMoreOne(d, s, acc, i, i + 2, i + 2 + |v|);
  }

  /** `", "` joins the first code to the rest. */
  lemma {:induction false} JoinFirst(rest: seq<string>)
    requires |rest| >= 2
    ensures Join(", ", rest) == rest[0] + ", " + Join(", ", rest[1..])
  {
  }

  /** The rest of a list, `", "` and the next codes up to the end, is read code by code. */
  lemma {:induction false} ListMoreReads(d: Dialect, s: string, acc: seq<string>, i: nat, rest: seq<string>)
    requires rest != [] && forall j :: 0 <= j < |rest| ==> IsCode(d, rest[j])
    requires Placed(s, i, ", ") && Placed(s, i + 2, Join(", ", rest)) && i + 2 + |Join(", ", rest)| == |s|
    ensures ListFrom(d, s, acc, i) == Codes(acc + rest, |s|)
    decreases |rest|
  {
    var v := rest[0];
    assert IsCode(d, v);
    MoveFirst(acc, rest);
    if |rest| == 1 {
      ListLast(d, s, acc, i, v);
    } else {
      var w1 := Join(", ", rest[1..]);
      JoinFirst(rest);
      ListNext(d, s, acc, i, v, w1);
      assert forall j :: 0 <= j < |rest[1..]| ==> IsCode(d, rest[1..][j]) by {
        forall j | 0 <= j < |rest[1..]| ensures IsCode(d, rest[1..][j]) {
          assert rest[1..][j] == rest[j + 1];
        }
      }
      ListMoreReads(d, s, acc + [v], i + 2 + |v|, rest[1..]);
    }
  }

  lemma {:induction false} MoveFirst(acc: seq<string>, rest: seq<string>)
    requires rest != []
    ensures acc + [rest[0]] + rest[1..] == acc + rest
    ensures |rest| == 1 ==> acc + [rest[0]] == acc + rest
  {
    assert rest == [rest[0]] + rest[1..];
  }

  /** The last code of a list, up to the end of the text. */
  lemma {:induction false} ListLast(d: Dialect, s: string, acc: seq<string>, i: nat, v: string)
    requires IsCode(d, v) && Placed(s, i, ", ") && Placed(s, i + 2, v) && i + 2 + |v| == |s|
    ensures ListFrom(d, s, acc, i) == Codes(acc + [v], |s|)
  {
    ListStep(d, s, acc, i, v);
    ListStops(d, s, acc + [v]);
  }

  /** A code that more codes follow: the reader moves on to the next `", "`. */
  lemma {:induction false} ListNext(d: Dialect, s: string, acc: seq<string>, i: nat, v: string, w1: string)
    requires IsCode(d, v) && Placed(s, i, ", ") && Placed(s, i + 2, v + ", " + w1)
    ensures Placed(s, i + 2 + |v|, ", ") && Placed(s, i + 2 + |v| + 2, w1)
    ensures ListFrom(d, s, acc, i) == ListFrom(d, s, acc + [v], i + 2 + |v|)
  {
    PlacedSplit3(s, i + 2, v, ", ", w1);
    PlacedChar(s, i + 2 + |v|, ", ", 0);
    ListStep(d, s, acc, i, v);
  }

  /** A term that starts with a course list: the list node, then the term loop after it. */
  lemma {:induction false} TermOfList(d: Dialect, s: string, e: nat, codes: seq<string>, k: nat)
    requires d.Current? && e <= |s| && SkipWS(s, 0) == 0 && ListAhead(d, s, 0) && CourseCodeAt(d, s, 0) == Some(e)
    requires ListFrom(d, s, [Lexeme(s, 0, e)], e) == Codes(codes, k)
    ensures TermFrom(d, s, 0) == TermTailFrom(d, s, ListNode(d, codes), k)
  {
  }

  /** A code followed by a comma at the start of the text opens a course list. */
  lemma {:induction false} ListStart(d: Dialect, s: string, v: string)
    requires IsCode(d, v) && Placed(s, 0, v) && |v| < |s| && s[|v|] == ','
    ensures SkipWS(s, 0) == 0 && ListAhead(d, s, 0)
    ensures CourseCodeAt(d, s, 0) == Some(|v|) && Lexeme(s, 0, |v|) == v
  {
    ListCodeAt(d, s, 0, v);
    PlacedChar(s, 0, v, 0);
    assert AlnumAt(v, 0);
    SkipNone(s, 0);
    SkipNone(s, |v|);
    PlacedLexeme(s, 0, v);
  }

  /** The whole text is one expression that ends at the end of the text. */
  lemma {:induction false} ParseAllOfTerm(d: Dialect, s: string, t: Requirement)
    requires TermFrom(d, s, 0) == Parsed(t, |s|)
    ensures ParseAll(d, s) == Some(t)
  {
    ExprOfTerm(d, s, 0, t, |s|);
    ExprTailStops(d, s, t, |s|);
  }

  /**
   * Two or more course codes joined by `", "` parse as one course-list node: an AND
   * with no children as written, an AND of the codes' atoms when the list is kept.
   */
  lemma {:induction false} CourseListParses(d: Dialect, codes: seq<string>)
    requires d.Current? && |codes| >= 2 && forall j :: 0 <= j < |codes| ==> IsCode(d, codes[j])
    ensures ParseAll(d, Join(", ", codes)) == Some(ListNode(d, codes))
  {
    var s := Join(", ", codes);
    var v := codes[0];
    var w1 := Join(", ", codes[1..]);
    assert s == v + ", " + w1;
    assert Placed(s, 0, s);
    PlacedSplit3(s, 0, v, ", ", w1);
    PlacedChar(s, |v|, ", ", 0);
    assert IsCode(d, v);
    ListStart(d, s, v);
    ListMoreReads(d, s, [v], |v|, codes[1..]);
    assert [v] + codes[1..] == codes;
    var node := ListNode(d, codes);
    TermOfList(d, s, |v|, codes, |s|);
    TermTailStops(d, s, node, |s|);
    ParseAllOfTerm(d, s, node);
  }

  /** As written, a course list parses to an AND with no children: its codes are lost. */
  lemma {:induction false} CourseListDropped(codes: seq<string>)
    requires |codes| >= 2 && forall j :: 0 <= j < |codes| ==> IsCode(Current(false), codes[j])
    ensures ParseRequirementAsWritten(Join(", ", codes)) == And([])
  {
    CourseListParses(Current(false), codes);
  }

  /** Corrected, a course list parses to the AND of its codes, in order. */
  lemma {:induction false} CourseListKept(codes: seq<string>)
    requires |codes| >= 2 && forall j :: 0 <= j < |codes| ==> IsCode(Current(true), codes[j])
    ensures ParseRequirement(Join(", ", codes)) == And(Atoms(codes))
  {
    CourseListParses(Current(true), codes);
  }

  /** "CSSE1001, CSSE2002": lost as written, kept when corrected. */
  lemma {:induction false} CourseListExample()
    ensures ParseRequirementAsWritten("CSSE1001, CSSE2002") == And([])
    ensures ParseRequirement("CSSE1001, CSSE2002") == And([Atomic("CSSE1001"), Atomic("CSSE2002")])
  {
    var codes := ["CSSE1001", "CSSE2002"];
    assert Join(", ", codes) == "CSSE1001, CSSE2002";
    assert IsCode(Current(false), codes[0]) && IsCode(Current(false), codes[1]);
    CourseListDropped(codes);
    CourseListKept(codes);
    assert Atoms(codes) == [Atomic("CSSE1001"), Atomic("CSSE2002")];
  }

  // ---------------------------------------------------------------------------
  // Examples

  /** A dotted part identifier is one atom holding the whole token. */
  lemma {:induction false} DottedPartExample()
    ensures ParseRequirement("Part B.3.1") == Atomic("Part B.3.1")
  {
    var v := "Part B.3.1";
    assert DottedEnd(v, 6) == 10;
    assert IsPartId(Current(true), v);
    ParseRequirementRoundTrip(LowerStyle, Atomic(v), "");
    assert v + "" == v;
  }

  /** AND binds tighter than OR: "A or B and C" is `A or (B and C)`. */
  lemma {:induction false} PrecedenceExample()
    ensures ParseRequirement("A or B and C") == Or([Atomic("A"), And([Atomic("B"), Atomic("C")])])
  {
    var st, t := LowerStyle, Or([Atomic("A"), And([Atomic("B"), Atomic("C")])]);
    assert RenderExpr(st, t) == "A or B and C";
    assert Renderable(Current(true), t);
    ParseRequirementRoundTrip(st, t, "");
    assert RenderExpr(st, t) + "" == RenderExpr(st, t);
  }
}

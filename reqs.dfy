/**
 * `parse_requirement` of the older requirement parser: the same precedence and
 * transformer, a part identifier of exactly one letter after "Part", and no
 * error recovery, so the grammar library's error reaches the caller.
 */
module ReqsLegacy {
  import opened Wrappers
  import opened PyText
  import opened ReqsGrammar
  import opened ReqsRender

  /** The tree for the whole text, or the parse error raised to the caller. */
  function ParseRequirementLegacy(text: string): (r: Result<Requirement>)
    ensures r.Err? ==> r.error == LarkError
    ensures r.Ok? ==> Shaped(Legacy, r.value)
  {
    ParseAllShaped(Legacy, text);
    match ParseAll(Legacy, text)
    case Some(t) => Ok(t)
    case None => Err(LarkError)
  }

  /** The `kind` field of the three requirement classes. */
  function Kind(t: Requirement): (k: string)
    requires !t.Other?
    ensures k == "or" <==> t.Or?
    ensures k == "and" <==> t.And?
    ensures k == "atomic" <==> t.Atomic?
  {
    match t
    case Or(_) => "or"
    case And(_) => "and"
    case Atomic(_) => "atomic"
  }

  /** A legacy tree has no empty AND: every operator node has two children, and nothing is OTHER. */
  lemma {:induction false} LegacyKinds(text: string)
    ensures var r := ParseRequirementLegacy(text);
      r.Ok? ==> !r.value.Other? && (r.value.Or? || r.value.And? ==> |r.value.children| == 2)
  {
  }

  /** Every printed tree, with any trailing whitespace, reads back as itself. */
  lemma {:induction false} LegacyRoundTrip(st: Style, t: Requirement, trailing: string)
    requires ValidStyle(st) && Renderable(Legacy, t)
    requires forall k :: 0 <= k < |trailing| ==> IsWS(trailing[k])
    ensures ParseRequirementLegacy(RenderExpr(st, t) + trailing) == Ok(t)
  {
    RoundTrip(Legacy, st, t, trailing);
  }

  // ---------------------------------------------------------------------------
  // No dots: a part identifier is "Part", whitespace and one letter

  /** No character of `s[i..e]` is a dot. */
  predicate DotFree(s: string, i: nat, e: nat) {
    forall k :: i <= k < e && k < |s| ==> s[k] != '.'
  }

  lemma {:induction false} SkipDotFree(s: string, i: nat)
    requires i <= |s|
    ensures DotFree(s, i, SkipWS(s, i))
  {
    forall k | i <= k < SkipWS(s, i) && k < |s| ensures s[k] != '.' {
      assert WSAt(s, k);
    }
  }

  /** `and` or `or` at `q` holds no dot. */
  lemma {:induction false} KeywordDotFree(s: string, q: nat, n: nat)
    requires (n == 3 && AndAt(s, q)) || (n == 2 && OrAt(s, q))
    ensures DotFree(s, q, q + n)
  {
    assert LowerChar(s[q]) != '.' && LowerChar(s[q + 1]) != '.';
    if n == 3 {
      assert LowerChar(s[q + 2]) != '.';
    }
  }

  lemma {:induction false} IdentifierDotFree(s: string, i: nat)
    requires i <= |s|
    ensures IdentifierAt(Legacy, s, i).Some? ==> DotFree(s, i, IdentifierAt(Legacy, s, i).value)
  {
    forall k | i <= k < AlnumEnd(s, i) ensures s[k] != '.' {
      assert AlnumAt(s, k);
    }
    match PartAt(Legacy, s, i)
    case Some(e) =>
      var j := PartSpaceEnd(Legacy, s, i + 4);
      assert e == j + 1;
      forall k | i + 4 <= k < j ensures s[k] != '.' {
        assert PartSpaceAt(Legacy, s, k);
      }
    case None =>
  }

  lemma {:induction false} FactorDotFree(s: string, i: nat)
    requires i <= |s|
    ensures Factor(Legacy, s, i).Parsed? ==> DotFree(s, i, Factor(Legacy, s, i).end)
    decreases |s| - i, 0
  {
    var p := SkipWS(s, i);
    SkipDotFree(s, i);
    if p < |s| && s[p] == '(' {
      ExprDotFree(s, p + 1);
      match Expr(Legacy, s, p + 1)
      case NoParse =>
      case Parsed(_, j) => SkipDotFree(s, j);
    } else {
      IdentifierDotFree(s, p);
    }
  }

  lemma {:induction false} TermDotFree(s: string, i: nat)
    requires i <= |s|
    ensures Term(Legacy, s, i).Parsed? ==> DotFree(s, i, Term(Legacy, s, i).end)
    decreases |s| - i, 1
  {
    var p := SkipWS(s, i);
    SkipDotFree(s, i);
    FactorDotFree(s, p);
    match Factor(Legacy, s, p)
    case NoParse =>
    case Parsed(f, j) => TermTailDotFree(s, f, j);
  }

  lemma {:induction false} TermTailDotFree(s: string, acc: Requirement, i: nat)
    requires i <= |s|
    ensures TermTail(Legacy, s, acc, i).Parsed? ==> DotFree(s, i, TermTail(Legacy, s, acc, i).end)
    decreases |s| - i, 2
  {
    var q := SkipWS(s, i);
    if AndAt(s, q) {
      SkipDotFree(s, i);
      KeywordDotFree(s, q, 3);
      FactorDotFree(s, q + 3);
      match Factor(Legacy, s, q + 3)
      case NoParse =>
      case Parsed(f, j) => TermTailDotFree(s, AndNode([acc, f]), j);
    }
  }

  lemma {:induction false} ExprDotFree(s: string, i: nat)
    requires i <= |s|
    ensures Expr(Legacy, s, i).Parsed? ==> DotFree(s, i, Expr(Legacy, s, i).end)
    decreases |s| - i, 3
  {
    TermDotFree(s, i);
    match Term(Legacy, s, i)
    case NoParse =>
    case Parsed(t, j) => ExprTailDotFree(s, t, j);
  }

  lemma {:induction false} ExprTailDotFree(s: string, acc: Requirement, i: nat)
    requires i <= |s|
    ensures ExprTail(Legacy, s, acc, i).Parsed? ==> DotFree(s, i, ExprTail(Legacy, s, acc, i).end)
    decreases |s| - i, 4
  {
    var q := SkipWS(s, i);
    if OrAt(s, q) {
      SkipDotFree(s, i);
      KeywordDotFree(s, q, 2);
      TermDotFree(s, q + 2);
      match Term(Legacy, s, q + 2)
      case NoParse =>
      case Parsed(t, j) => ExprTailDotFree(s, OrNode([acc, t]), j);
    }
  }

  /** A text with a dot anywhere in it, such as a dotted part "Part B.1", always raises. */
  lemma {:induction false} LegacyRejectsDots(text: string, k: nat)
    requires k < |text| && text[k] == '.'
    ensures ParseRequirementLegacy(text) == Err(LarkError)
  {
    ExprDotFree(text, 0);
    match Expr(Legacy, text, 0)
    case NoParse =>
    case Parsed(_, j) => SkipDotFree(text, j);
  }

  // ---------------------------------------------------------------------------
  // Inputs of the test list

  /** "Part B.1" raises in the older parser; the current one reads "Part B.3.1" as one atom. */
  lemma {:induction false} DottedPartRaises()
    ensures ParseRequirementLegacy("Part B.1") == Err(LarkError)
  {
    LegacyRejectsDots("Part B.1", 6);
  }

  lemma {:induction false} AndExample()
    ensures ParseRequirementLegacy("A and B") == Ok(And([Atomic("A"), Atomic("B")]))
  {
    var st, t := LowerStyle, And([Atomic("A"), Atomic("B")]);
    assert RenderExpr(st, t) == "A and B";
    assert Renderable(Legacy, t);
    LegacyRoundTrip(st, t, "");
    assert RenderExpr(st, t) + "" == RenderExpr(st, t);
  }

  lemma {:induction false} PartExample()
    ensures ParseRequirementLegacy("Part A") == Ok(Atomic("Part A"))
  {
    var st, t := LowerStyle, Atomic("Part A");
    assert Renderable(Legacy, t);
    LegacyRoundTrip(st, t, "");
    assert RenderExpr(st, t) + "" == RenderExpr(st, t);
  }

  lemma {:induction false} TrailingSpaceExample()
    ensures ParseRequirementLegacy("Part A and Part B ") == Ok(And([Atomic("Part A"), Atomic("Part B")]))
  {
    var st, t := LowerStyle, And([Atomic("Part A"), Atomic("Part B")]);
    assert RenderExpr(st, t) == "Part A and Part B";
    assert Renderable(Legacy, t);
    LegacyRoundTrip(st, t, " ");
    assert RenderExpr(st, t) + " " == "Part A and Part B ";
  }
}

/**
 * The shapes of the requirement strings on the older parser's test list: lists of
 * pieces joined by `and`, where a piece is an atom or a parenthesised list of
 * `or`-joined pieces, and lists joined by `or`, in either letter case of the
 * operator words, with bare or padded parentheses and with trailing blanks.
 * Every string of such a shape parses, to the left-nested tree of its pieces.
 */
module ReqsShapes {
  import opened Wrappers
  import opened ReqsGrammar
  import opened ReqsRender
  import opened ReqsLegacy

  /** The words of `ws` with `sep` between each two. */
  function Joined(ws: seq<string>, sep: string): string
    decreases |ws|
  {
    if |ws| == 0 then "" else if |ws| == 1 then ws[0] else Joined(ws[..|ws| - 1], sep) + sep + ws[|ws| - 1]
  }

  /** The pieces joined by AND, each new piece on the right of the tree so far. */
  function AndChain(fs: seq<Requirement>): Requirement
    requires |fs| >= 1
    decreases |fs|
  {
    if |fs| == 1 then fs[0] else And([AndChain(fs[..|fs| - 1]), fs[|fs| - 1]])
  }

  /** The pieces joined by OR, each new piece on the right of the tree so far. */
  function OrChain(gs: seq<Requirement>): Requirement
    requires |gs| >= 1
    decreases |gs|
  {
    if |gs| == 1 then gs[0] else Or([OrChain(gs[..|gs| - 1]), gs[|gs| - 1]])
  }

  /** Each piece printed as a factor: an atom as itself, an operator node in parentheses. */
  function FactorTexts(st: Style, fs: seq<Requirement>): (ws: seq<string>)
    ensures |ws| == |fs| && forall k :: 0 <= k < |fs| ==> ws[k] == RenderFactor(st, fs[k])
  {
    seq(|fs|, k requires 0 <= k < |fs| => RenderFactor(st, fs[k]))
  }

  /** Each piece printed as the right operand of an `or`. */
  function RightTexts(st: Style, gs: seq<Requirement>): (ws: seq<string>)
    ensures |ws| == |gs| && forall k :: 0 <= k < |gs| ==> ws[k] == RenderRight(st, gs[k])
  {
    seq(|gs|, k requires 0 <= k < |gs| => RenderRight(st, gs[k]))
  }

  /** The printed form of an AND chain of pieces that are not themselves AND nodes is their factors joined by the AND word. */
  lemma {:induction false} AndChainText(st: Style, fs: seq<Requirement>)
    requires |fs| >= 1 && forall k :: 0 <= k < |fs| ==> !fs[k].And?
    ensures RenderTerm(st, AndChain(fs)) == Joined(FactorTexts(st, fs), AndOp(st))
    decreases |fs|
  {
    var n := |fs|;
    if n > 1 {
      var p := fs[..n - 1];
      assert forall k :: 0 <= k < |p| ==> p[k] == fs[k];
      AndChainText(st, p);
      assert FactorTexts(st, fs)[..n - 1] == FactorTexts(st, p);
      var t := AndChain(fs);
      assert t == And([AndChain(p), fs[n - 1]]);
      assert t.children[0] == AndChain(p) && t.children[1] == fs[n - 1];
    }
  }

  /** The printed form of an OR chain that starts with an atom is its right operands joined by the OR word. */
  lemma {:induction false} OrChainText(st: Style, gs: seq<Requirement>)
    requires |gs| >= 1 && gs[0].Atomic?
    ensures RenderExpr(st, OrChain(gs)) == Joined(RightTexts(st, gs), OrOp(st))
    decreases |gs|
  {
    var n := |gs|;
    if n > 1 {
      var p := gs[..n - 1];
      assert p[0] == gs[0];
      OrChainText(st, p);
      assert RightTexts(st, gs)[..n - 1] == RightTexts(st, p);
      var t := OrChain(gs);
      assert t == Or([OrChain(p), gs[n - 1]]);
      assert t.children[0] == OrChain(p) && t.children[1] == gs[n - 1];
    }
  }

  /** A parenthesised OR group: an OR chain of two or more pieces, printed as a factor. */
  lemma {:induction false} OrGroupText(st: Style, gs: seq<Requirement>)
    requires |gs| >= 2 && gs[0].Atomic?
    ensures RenderFactor(st, OrChain(gs)) == Paren(st, Joined(RightTexts(st, gs), OrOp(st)))
  {
    var n := |gs|;
    var p := gs[..n - 1];
    assert p[0] == gs[0];
    var t := OrChain(gs);
    assert t == Or([OrChain(p), gs[n - 1]]);
    OrChainText(st, gs);
  }

  /** A parenthesised AND group: an AND chain of two or more pieces, printed as a factor. */
  lemma {:induction false} AndGroupText(st: Style, fs: seq<Requirement>)
    requires |fs| >= 2 && forall k :: 0 <= k < |fs| ==> !fs[k].And?
    ensures RenderFactor(st, AndChain(fs)) == Paren(st, Joined(FactorTexts(st, fs), AndOp(st)))
  {
    var n := |fs|;
    var p := fs[..n - 1];
    var t := AndChain(fs);
    assert t == And([AndChain(p), fs[n - 1]]);
    AndChainText(st, fs);
  }

  lemma {:induction false} AndChainRenderable(d: Dialect, fs: seq<Requirement>)
    requires |fs| >= 1 && forall k :: 0 <= k < |fs| ==> Renderable(d, fs[k])
    ensures Renderable(d, AndChain(fs))
    decreases |fs|
  {
    var n := |fs|;
    if n > 1 {
      var p := fs[..n - 1];
      assert forall k :: 0 <= k < |p| ==> p[k] == fs[k];
      AndChainRenderable(d, p);
      var t := AndChain(fs);
      assert t == And([AndChain(p), fs[n - 1]]);
    }
  }

  lemma {:induction false} OrChainRenderable(d: Dialect, gs: seq<Requirement>)
    requires |gs| >= 1 && forall k :: 0 <= k < |gs| ==> Renderable(d, gs[k])
    ensures Renderable(d, OrChain(gs))
    decreases |gs|
  {
    var n := |gs|;
    if n > 1 {
      var p := gs[..n - 1];
      assert forall k :: 0 <= k < |p| ==> p[k] == gs[k];
      OrChainRenderable(d, p);
      var t := OrChain(gs);
      assert t == Or([OrChain(p), gs[n - 1]]);
    }
  }

  predicate Blank(trailing: string) {
    forall k :: 0 <= k < |trailing| ==> IsWS(trailing[k])
  }

  /**
   * A list of pieces joined by the AND word, each an atom or a parenthesised
   * group, followed by blanks, parses to the AND chain of the pieces.
   */
  lemma {:induction false} AndListParses(st: Style, fs: seq<Requirement>, trailing: string)
    requires ValidStyle(st) && |fs| >= 1 && (|fs| >= 2 || fs[0].Atomic?) && Blank(trailing)
    requires forall k :: 0 <= k < |fs| ==> Renderable(Legacy, fs[k]) && !fs[k].And?
    ensures ParseRequirementLegacy(Joined(FactorTexts(st, fs), AndOp(st)) + trailing) == Ok(AndChain(fs))
  {
    var t := AndChain(fs);
    AndChainText(st, fs);
    AndChainRenderable(Legacy, fs);
    assert !t.Or?;
    LegacyRoundTrip(st, t, trailing);
  }

  /** A list of pieces joined by the OR word, starting with an atom and followed by blanks, parses to the OR chain of the pieces. */
  lemma {:induction false} OrListParses(st: Style, gs: seq<Requirement>, trailing: string)
    requires ValidStyle(st) && |gs| >= 1 && gs[0].Atomic? && Blank(trailing)
    requires forall k :: 0 <= k < |gs| ==> Renderable(Legacy, gs[k])
    ensures ParseRequirementLegacy(Joined(RightTexts(st, gs), OrOp(st)) + trailing) == Ok(OrChain(gs))
  {
    OrChainText(st, gs);
    OrChainRenderable(Legacy, gs);
    LegacyRoundTrip(st, OrChain(gs), trailing);
  }

  /** The style of a group whose last alternative is itself a parenthesised AND group. */
  const GroupedStyle := Style("OR", "AND", 1, true)

  /** What the three styles print between and around the pieces. */
  lemma {:induction false} StyleWords(w: string)
    ensures AndOp(LowerStyle) == " and " && OrOp(LowerStyle) == " or " && Paren(LowerStyle, w) == "(" + w + ")"
    ensures AndOp(UpperStyle) == " AND " && OrOp(UpperStyle) == " OR " && Paren(UpperStyle, w) == "( " + w + " )"
    ensures AndOp(GroupedStyle) == AndOp(UpperStyle) && OrOp(GroupedStyle) == OrOp(UpperStyle)
    ensures Paren(GroupedStyle, w) == Paren(UpperStyle, w)
    ensures ValidStyle(LowerStyle) && ValidStyle(UpperStyle) && ValidStyle(GroupedStyle)
  {
    assert Paren(LowerStyle, w) == "(" + "" + w + "" + ")";
    assert Paren(UpperStyle, w) == "(" + " " + w + " " + ")";
  }

  /** An atom prints as itself at every level. */
  lemma {:induction false} AtomTexts(st: Style, v: string)
    ensures RenderFactor(st, Atomic(v)) == v && RenderTerm(st, Atomic(v)) == v
    ensures RenderRight(st, Atomic(v)) == v && RenderExpr(st, Atomic(v)) == v
  {
  }

  lemma {:induction false} PairRenderable(d: Dialect, x: Requirement, y: Requirement)
    requires Renderable(d, x) && Renderable(d, y)
    ensures Renderable(d, Or([x, y])) && Renderable(d, And([x, y]))
  {
    assert [x, y][0] == x && [x, y][1] == y;
  }

  /** The tree of "Part A AND ( Part B OR Part C OR ( Part D AND Part E ) )", over any five atoms. */
  function NestedGroup(a: string, b: string, c: string, d: string, e: string): Requirement {
    And([Atomic(a), Or([Or([Atomic(b), Atomic(c)]), And([Atomic(d), Atomic(e)])])])
  }

  lemma {:induction false} NestedGroupText(st: Style, a: string, b: string, c: string, d: string, e: string)
    requires st.groupAnd
    ensures RenderExpr(st, NestedGroup(a, b, c, d, e)) ==
      a + AndOp(st) + Paren(st, b + OrOp(st) + c + OrOp(st) + Paren(st, d + AndOp(st) + e))
  {
    var de := And([Atomic(d), Atomic(e)]);
    var bc := Or([Atomic(b), Atomic(c)]);
    var group := Or([bc, de]);
    var inner := Paren(st, d + AndOp(st) + e);
    AtomTexts(st, d);
    AtomTexts(st, e);
    assert RenderFactor(st, de) == inner;
    AtomTexts(st, b);
    AtomTexts(st, c);
    assert RenderExpr(st, bc) == b + OrOp(st) + c;
    assert RenderFactor(st, group) == Paren(st, b + OrOp(st) + c + OrOp(st) + inner);
    AtomTexts(st, a);
    assert RenderTerm(st, NestedGroup(a, b, c, d, e)) == a + AndOp(st) + RenderFactor(st, group);
  }

  /**
   * An atom and a group of two atoms and an AND group, as in
   * "Part A AND ( Part B OR Part C OR ( Part D AND Part E ) )", parses to that tree.
   */
  lemma {:induction false} NestedGroupParses(st: Style, a: string, b: string, c: string, d: string, e: string)
    requires ValidStyle(st) && st.groupAnd
    requires ValidAtom(Legacy, a) && ValidAtom(Legacy, b) && ValidAtom(Legacy, c) && ValidAtom(Legacy, d) && ValidAtom(Legacy, e)
    ensures ParseRequirementLegacy(a + AndOp(st) + Paren(st, b + OrOp(st) + c + OrOp(st) + Paren(st, d + AndOp(st) + e))) ==
      Ok(NestedGroup(a, b, c, d, e))
  {
    var t := NestedGroup(a, b, c, d, e);
    NestedGroupText(st, a, b, c, d, e);
    assert Renderable(Legacy, Atomic(a)) && Renderable(Legacy, Atomic(b)) && Renderable(Legacy, Atomic(c));
    assert Renderable(Legacy, Atomic(d)) && Renderable(Legacy, Atomic(e));
    PairRenderable(Legacy, Atomic(b), Atomic(c));
    PairRenderable(Legacy, Atomic(d), Atomic(e));
    PairRenderable(Legacy, Or([Atomic(b), Atomic(c)]), And([Atomic(d), Atomic(e)]));
    PairRenderable(Legacy, Atomic(a), Or([Or([Atomic(b), Atomic(c)]), And([Atomic(d), Atomic(e)])]));
    LegacyRoundTrip(st, t, "");
    assert RenderExpr(st, t) + "" == RenderExpr(st, t);
  }

  /** The last string of the test list, in upper case. */
  lemma {:induction false} SwappedPartsExample()
    ensures ParseRequirementLegacy("Part B AND Part A") == Ok(And([Atomic("Part B"), Atomic("Part A")]))
  {
    var fs := [Atomic("Part B"), Atomic("Part A")];
    assert Renderable(Legacy, fs[0]) && Renderable(Legacy, fs[1]);
    AndListParses(UpperStyle, fs, "");
    assert Joined(FactorTexts(UpperStyle, fs), AndOp(UpperStyle)) + "" == "Part B AND Part A";
  }
}

/**
 * A printer for requirement trees that writes the fewest parentheses the
 * grammar needs, and the proof that the parser reads every printed tree back
 * exactly. Because the printer leaves out the parentheses that precedence and
 * left association make redundant, the round trip pins both down: `and` binds
 * tighter than `or`, each operator nests the tree so far as its left child, and
 * parentheses only group. The printer's style chooses the letter case of the
 * operator words, spaces inside the parentheses, and parentheses around an `and`
 * on the right of an `or`; the round trip holds in every style, so the parser
 * reads the operators in any case.
 */
module ReqsRender {
  import opened Wrappers
  import opened PyText
  import opened ReqsGrammar

  /** A course code that lexes as one token: letters and digits, and in the current grammar no operator word. */
  predicate IsCode(d: Dialect, v: string) {
    v != [] && AlnumEnd(v, 0) == |v| && (d.Current? ==> !(|v| == 2 && OrAt(v, 0)) && !(|v| == 3 && AndAt(v, 0)))
  }

  /** "Part ", one letter and, in the current grammar, any dotted numbers. */
  predicate IsPartId(d: Dialect, v: string) {
    |v| >= 6 && v[0] == 'P' && v[1] == 'a' && v[2] == 'r' && v[3] == 't' && v[4] == ' ' && IsAsciiAlpha(v[5]) &&
    (if d.Legacy? then |v| == 6 else DottedEnd(v, 6) == |v|)
  }

  predicate ValidAtom(d: Dialect, v: string) {
    IsCode(d, v) || IsPartId(d, v)
  }

  /** Binary operator nodes over valid atoms: the trees the printer can write. */
  predicate Renderable(d: Dialect, t: Requirement)
    ensures Renderable(d, t) ==> Shaped(d, t)
  {
    match t
    case Atomic(v) => ValidAtom(d, v)
    case Other(_) => false
    case Or(cs) => |cs| == 2 && Renderable(d, cs[0]) && Renderable(d, cs[1])
    case And(cs) => |cs| == 2 && Renderable(d, cs[0]) && Renderable(d, cs[1])
  }

  /**
   * How the printer spells a tree: the two operator words, whether a parenthesis
   * has one space inside it, and whether an `and` on the right of an `or` is put
   * in parentheses that precedence makes redundant.
   */
  datatype Style = Style(orWord: string, andWord: string, pad: Padding, groupAnd: bool)

  /** The number of spaces inside each parenthesis. */
  type Padding = n: nat | n <= 1

  /** The operator words are `or` and `and` in some letter case. */
  predicate ValidStyle(st: Style) {
    var o, a := st.orWord, st.andWord;
    |o| == 2 && (o[0] == 'o' || o[0] == 'O') && (o[1] == 'r' || o[1] == 'R') &&
    |a| == 3 && (a[0] == 'a' || a[0] == 'A') && (a[1] == 'n' || a[1] == 'N') && (a[2] == 'd' || a[2] == 'D')
  }

  /** Lower-case words and bare parentheses: "(Part A or Part B) and Part C". */
  const LowerStyle := Style("or", "and", 0, false)

  /** Upper-case words and padded parentheses: "( Part A OR Part B ) AND Part C". */
  const UpperStyle := Style("OR", "AND", 1, false)

  function Pad(st: Style): string {
    if st.pad == 1 then " " else ""
  }

  function OrOp(st: Style): string {
    " " + st.orWord + " "
  }

  function AndOp(st: Style): string {
    " " + st.andWord + " "
  }

  function Paren(st: Style, w: string): string {
    "(" + Pad(st) + w + Pad(st) + ")"
  }

  function RenderFactor(st: Style, t: Requirement): string
    decreases t, 0
  {
    match t
    case Atomic(v) => v
    case Or(cs) => if |cs| == 2 then Paren(st, RenderExpr(st, cs[0]) + OrOp(st) + RenderRight(st, cs[1])) else ""
    case And(cs) => if |cs| == 2 then Paren(st, RenderTerm(st, cs[0]) + AndOp(st) + RenderFactor(st, cs[1])) else ""
    case Other(_) => ""
  }

  function RenderTerm(st: Style, t: Requirement): string
    decreases t, 1
  {
    if t.And? && |t.children| == 2 then RenderTerm(st, t.children[0]) + AndOp(st) + RenderFactor(st, t.children[1])
    else RenderFactor(st, t)
  }

  /** The right operand of an `or`: a term, or in the grouping style a factor. */
  function RenderRight(st: Style, t: Requirement): string
    decreases t, 2
  {
    if st.groupAnd then RenderFactor(st, t) else RenderTerm(st, t)
  }

  /** The printed form of a tree. */
  function RenderExpr(st: Style, t: Requirement): string
    decreases t, 3
  {
    if t.Or? && |t.children| == 2 then RenderExpr(st, t.children[0]) + OrOp(st) + RenderRight(st, t.children[1])
    else RenderTerm(st, t)
  }

  // ---------------------------------------------------------------------------
  // Positions in the text

  /** `w` occurs in `s` at `i`. */
  predicate Placed(s: string, i: nat, w: string) {
    i + |w| <= |s| && forall k :: 0 <= k < |w| ==> s[i + k] == w[k]
  }

  /** What may stand after an operand: whitespace or `)` or the end, and then an operand follower. */
  predicate Follows(s: string, e: nat) {
    e <= |s| && (e == |s| || IsWS(s[e]) || s[e] == ')') && OperandFollows(s, e)
  }

  /** An operand follower that does not continue a term. */
  predicate FollowsExpr(s: string, e: nat) {
    Follows(s, e) && !AndAt(s, SkipWS(s, e))
  }

  lemma {:induction false} PlacedSplit(s: string, i: nat, a: string, b: string)
    requires Placed(s, i, a + b)
    ensures Placed(s, i, a) && Placed(s, i + |a|, b)
  {
    forall k | 0 <= k < |a| ensures s[i + k] == a[k] {
      assert (a + b)[k] == a[k];
    }
    forall k | 0 <= k < |b| ensures s[i + |a| + k] == b[k] {
      assert (a + b)[|a| + k] == b[k];
    }
  }

  lemma {:induction false} PlacedSplit3(s: string, i: nat, a: string, b: string, c: string)
    requires Placed(s, i, a + b + c)
    ensures Placed(s, i, a) && Placed(s, i + |a|, b) && Placed(s, i + |a| + |b|, c)
  {
    PlacedSplit(s, i, a + b, c);
    PlacedSplit(s, i, a, b);
  }

  lemma {:induction false} PlacedSplit5(s: string, i: nat, a: string, b: string, c: string, d: string, e: string)
    requires Placed(s, i, a + b + c + d + e)
    ensures Placed(s, i, a) && Placed(s, i + |a|, b) && Placed(s, i + |a| + |b|, c)
    ensures Placed(s, i + |a| + |b| + |c|, d) && Placed(s, i + |a| + |b| + |c| + |d|, e)
  {
    PlacedSplit(s, i, a + b + c + d, e);
    PlacedSplit(s, i, a + b + c, d);
    PlacedSplit3(s, i, a, b, c);
  }

  lemma {:induction false} PlacedChar(s: string, i: nat, w: string, k: nat)
    requires Placed(s, i, w) && k < |w|
    ensures s[i + k] == w[k]
  {
  }

  /** Whitespace skipping from inside a run of whitespace ends where it would have from the run's start. */
  lemma {:induction false} SkipWSMid(s: string, k: nat, e: nat)
    requires k <= |s| && k <= e <= SkipWS(s, k)
    ensures SkipWS(s, e) == SkipWS(s, k)
    decreases e - k
  {
    if k < e {
      SkipWSMid(s, k + 1, e);
    }
  }

  lemma {:induction false} AlnumShift(s: string, a: nat, v: string, k: nat)
    requires Placed(s, a, v) && k <= |v|
    requires a + |v| == |s| || !IsAsciiAlnum(s[a + |v|])
    ensures AlnumEnd(s, a + k) == a + AlnumEnd(v, k)
    decreases |v| - k
  {
    if k < |v| {
      assert s[a + k] == v[k];
      if IsAsciiAlnum(v[k]) {
        AlnumShift(s, a, v, k + 1);
      }
    }
  }

  lemma {:induction false} DigitsShift(s: string, a: nat, v: string, k: nat)
    requires Placed(s, a, v) && k <= |v|
    requires a + |v| == |s| || !IsDigit(s[a + |v|])
    ensures DigitsEnd(s, a + k) == a + DigitsEnd(v, k)
    decreases |v| - k
  {
    if k < |v| {
      assert s[a + k] == v[k];
      if IsDigit(v[k]) {
        DigitsShift(s, a, v, k + 1);
      }
    }
  }

  lemma {:induction false} DottedShift(s: string, a: nat, v: string, k: nat)
    requires Placed(s, a, v) && k <= |v|
    requires a + |v| == |s| || (s[a + |v|] != '.' && !IsDigit(s[a + |v|]))
    ensures DottedEnd(s, a + k) == a + DottedEnd(v, k)
    decreases |v| - k
  {
    if k + 1 < |v| && v[k] == '.' && IsDigit(v[k + 1]) {
      assert s[a + k] == v[k] && s[a + k + 1] == v[k + 1];
      DigitsShift(s, a, v, k + 1);
      var m := DigitsEnd(v, k + 1);
      assert DottedEnd(v, k) == DottedEnd(v, m);
      assert DottedEnd(s, a + k) == DottedEnd(s, a + m);
      DottedShift(s, a, v, m);
    } else if k < |v| {
      assert s[a + k] == v[k];
      if k + 1 < |v| {
        assert s[a + k + 1] == v[k + 1];
      }
      assert DottedEnd(v, k) == k;
      assert DottedEnd(s, a + k) == a + k;
    } else {
      assert DottedEnd(s, a + k) == a + k;
    }
  }

  /** The dotted numbers consist of dots and digits. */
  lemma {:induction false} DottedChars(s: string, i: nat)
    requires i <= |s|
    ensures forall k :: i <= k < DottedEnd(s, i) ==> s[k] == '.' || IsDigit(s[k])
    decreases |s| - i
  {
    if i + 1 < |s| && s[i] == '.' && IsDigit(s[i + 1]) {
      var m := DigitsEnd(s, i + 1);
      DottedChars(s, m);
      forall k | i + 1 <= k < m ensures IsDigit(s[k]) {
        assert DigitAt(s, k);
      }
    }
  }

  lemma {:induction false} PartSpaceRun(d: Dialect, s: string, i: nat, q: nat)
    requires i <= q <= |s| && (forall k :: i <= k < q ==> WSAt(s, k))
    requires q == |s| || !IsPartSpace(d, s[q])
    ensures PartSpaceEnd(d, s, i) == q
    decreases q - i
  {
    if i < q {
      assert WSAt(s, i);
      PartSpaceRun(d, s, i + 1, q);
    }
  }

  // ---------------------------------------------------------------------------
  // Atoms

  /** A course code followed by a non-word character or the end is not the word `or`. */
  lemma {:induction false} CodeNotOr(s: string, i: nat, v: string)
    requires Placed(s, i, v) && v != [] && AlnumEnd(v, 0) == |v| && !(|v| == 2 && OrAt(v, 0))
    requires i + |v| == |s| || !IsWordChar(s[i + |v|])
    ensures !(OrAt(s, i) && WordEnds(s, i + 2))
  {
    assert s[i] == v[0];
    if |v| >= 2 {
      assert s[i + 1] == v[1];
    }
    if |v| > 2 {
      assert s[i + 2] == v[2] && AlnumAt(v, 2);
    }
  }

  /** A course code followed by a non-word character or the end is not the word `and`. */
  lemma {:induction false} CodeNotAnd(s: string, i: nat, v: string)
    requires Placed(s, i, v) && v != [] && AlnumEnd(v, 0) == |v| && !(|v| == 3 && AndAt(v, 0))
    requires i + |v| == |s| || !IsWordChar(s[i + |v|])
    ensures !(AndAt(s, i) && WordEnds(s, i + 3))
  {
    assert s[i] == v[0];
    if |v| >= 2 {
      assert s[i + 1] == v[1];
    }
    if |v| >= 3 {
      assert s[i + 2] == v[2];
    }
    if |v| > 3 {
      assert s[i + 3] == v[3] && AlnumAt(v, 3);
    }
  }

  /** After the word "Part" and whitespace, an operand follower is not a part letter that can be followed. */
  lemma {:induction false} PartWordNotPart(d: Dialect, s: string, i: nat)
    requires i + 4 < |s| && IsWS(s[i + 4]) && OperandFollows(s, i + 4)
    ensures match PartAt(d, s, i) case Some(pe) => !OperandFollows(s, pe) case None => true
  {
    var q := SkipWS(s, i + 4);
    PartSpaceRun(d, s, i + 4, q);
    match PartAt(d, s, i)
    case None =>
    case Some(pe) =>
      assert pe == q + 1;
      assert SkipWS(s, pe) == pe;
  }

  /** A part identifier followed by an operand follower is read as exactly that identifier. */
  lemma {:induction false} PartIdAt(d: Dialect, s: string, i: nat, v: string)
    requires IsPartId(d, v) && Placed(s, i, v) && Follows(s, i + |v|)
    ensures IdentifierAt(d, s, i) == Some(i + |v|)
  {
    assert s[i] == 'P' && s[i + 1] == 'a' && s[i + 2] == 'r' && s[i + 3] == 't';
    assert s[i + 4] == v[4] && s[i + 5] == v[5];
    assert PartSpaceEnd(d, s, i + 4) == i + 5;
    if d.Current? {
      DottedShift(s, i, v, 6);
    }
    assert PartAt(d, s, i) == Some(i + |v|);
  }

  /** A course code followed by an operand follower is read as exactly that code. */
  lemma {:induction false} CodeAt(d: Dialect, s: string, i: nat, v: string)
    requires IsCode(d, v) && Placed(s, i, v) && Follows(s, i + |v|)
    ensures IdentifierAt(d, s, i) == Some(i + |v|)
  {
    assert s[i] == v[0];
    AlnumShift(s, i, v, 0);
    if d.Current? {
      CodeNotOr(s, i, v);
      CodeNotAnd(s, i, v);
    }
    assert CourseCodeAt(d, s, i) == Some(i + |v|);
    if PartAt(d, s, i).Some? {
      // The code is then the bare word "Part", followed by whitespace.
      assert PartSpaceAt(d, s, i + 4);
      assert |v| > 4 ==> s[i + 4] == v[4] && AlnumAt(v, 4);
      PartWordNotPart(d, s, i);
    }
  }

  // ---------------------------------------------------------------------------
  // What the printer writes

  /** The words of a style hold no comma, and an operator is one word between two spaces. */
  lemma {:induction false} StyleChars(st: Style)
    requires ValidStyle(st)
    ensures |OrOp(st)| == 4 && |AndOp(st)| == 5 && |Pad(st)| == st.pad
    ensures ',' !in OrOp(st) && ',' !in AndOp(st) && ',' !in Pad(st)
  {
    assert ',' !in st.orWord;
    assert ',' !in st.andWord;
  }

  /** A valid atom is non-empty, starts with no whitespace and holds no comma. */
  lemma {:induction false} AtomChars(d: Dialect, v: string)
    requires ValidAtom(d, v)
    ensures |v| > 0 && !IsWS(v[0]) && ',' !in v
  {
    if IsCode(d, v) {
      forall k | 0 <= k < |v| ensures IsAsciiAlnum(v[k]) {
        assert AlnumAt(v, k);
      }
    } else {
      if d.Current? {
        DottedChars(v, 6);
      }
      assert forall k :: 6 <= k < |v| ==> v[k] == '.' || IsDigit(v[k]);
    }
  }

  /** Every printed form is non-empty, starts with no whitespace and holds no comma. */
  lemma {:induction false} RenderChars(d: Dialect, st: Style, t: Requirement)
    requires ValidStyle(st) && Renderable(d, t)
    ensures var f := RenderFactor(st, t); |f| > 0 && !IsWS(f[0]) && ',' !in f
    ensures var w := RenderTerm(st, t); |w| > 0 && !IsWS(w[0]) && ',' !in w
    ensures var w := RenderRight(st, t); |w| > 0 && !IsWS(w[0]) && ',' !in w
    ensures var w := RenderExpr(st, t); |w| > 0 && !IsWS(w[0]) && ',' !in w
  {
    StyleChars(st);
    match t
    case Atomic(v) =>
      AtomChars(d, v);
    case Or(cs) =>
      RenderChars(d, st, cs[0]);
      RenderChars(d, st, cs[1]);
    case And(cs) =>
      RenderChars(d, st, cs[0]);
      RenderChars(d, st, cs[1]);
  }


  /** No comma in `s[i..e]`. */
  predicate NoComma(s: string, i: nat, e: nat) {
    forall k :: i <= k < e ==> NotComma(s, k)
  }

  predicate NotComma(s: string, k: nat) {
    k < |s| ==> s[k] != ','
  }

  lemma {:induction false} NoCommaWithin(s: string, i: nat, e: nat, p: nat, q: nat)
    requires NoComma(s, i, e) && i <= p && q <= e
    ensures NoComma(s, p, q)
  {
  }

  /** A comma-free stretch followed by an operand follower does not start a course list. */
  lemma {:induction false} NoListAhead(d: Dialect, s: string, i: nat, e: nat)
    requires i <= e <= |s| && NoComma(s, i, e) && Follows(s, e)
    ensures !ListAhead(d, s, i)
  {
    match CourseCodeAt(d, s, i)
    case None =>
    case Some(k) =>
      assert e == |s| || !IsAsciiAlnum(s[e]);
      AlnumEndBefore(s, i, e);
      var q := SkipWS(s, k);
      if q < e {
        assert NotComma(s, q);
      } else {
        SkipWSMid(s, k, e);
        assert OperandFollows(s, e);
      }
  }

  /** A run of letters and digits stops at the first character that is neither. */
  lemma {:induction false} AlnumEndBefore(s: string, i: nat, e: nat)
    requires i <= e <= |s| && (e == |s| || !IsAsciiAlnum(s[e]))
    ensures AlnumEnd(s, i) <= e
    decreases e - i
  {
    if i < e && IsAsciiAlnum(s[i]) {
      AlnumEndBefore(s, i + 1, e);
    }
  }

  lemma {:induction false} PlacedNoComma(s: string, i: nat, w: string)
    requires Placed(s, i, w) && ',' !in w
    ensures NoComma(s, i, i + |w|)
  {
    forall k | i <= k < i + |w| ensures s[k] != ',' {
      PlacedChar(s, i, w, k - i);
    }
  }


  // ---------------------------------------------------------------------------
  // The layout of a printed form: where each operator, parenthesis and atom sits

  function LenF(st: Style, t: Requirement): nat
    decreases t, 0
  {
    match t
    case Atomic(v) => |v|
    case Or(cs) => if |cs| == 2 then 1 + st.pad + LenE(st, cs[0]) + 4 + LenR(st, cs[1]) + st.pad + 1 else 0
    case And(cs) => if |cs| == 2 then 1 + st.pad + LenT(st, cs[0]) + 5 + LenF(st, cs[1]) + st.pad + 1 else 0
    case Other(_) => 0
  }

  function LenT(st: Style, t: Requirement): nat
    decreases t, 1
  {
    if t.And? && |t.children| == 2 then LenT(st, t.children[0]) + 5 + LenF(st, t.children[1]) else LenF(st, t)
  }

  function LenR(st: Style, t: Requirement): nat
    decreases t, 2
  {
    if st.groupAnd then LenF(st, t) else LenT(st, t)
  }

  function LenE(st: Style, t: Requirement): nat
    decreases t, 3
  {
    if t.Or? && |t.children| == 2 then LenE(st, t.children[0]) + 4 + LenR(st, t.children[1]) else LenT(st, t)
  }

  /** A space, `or` in any case, and a space at `e`. */
  predicate OrIn(s: string, e: nat) {
    e + 4 <= |s| && s[e] == ' ' && (s[e + 1] == 'o' || s[e + 1] == 'O') && (s[e + 2] == 'r' || s[e + 2] == 'R') && s[e + 3] == ' '
  }

  /** A space, `and` in any case, and a space at `e`. */
  predicate AndIn(s: string, e: nat) {
    e + 5 <= |s| && s[e] == ' ' && (s[e + 1] == 'a' || s[e + 1] == 'A') && (s[e + 2] == 'n' || s[e + 2] == 'N') &&
    (s[e + 3] == 'd' || s[e + 3] == 'D') && s[e + 4] == ' '
  }

  predicate OpenIn(s: string, i: nat) {
    i < |s| && s[i] == '('
  }

  predicate CloseIn(s: string, e: nat) {
    e < |s| && s[e] == ')'
  }

  /** The space inside a parenthesis at `k`, in the padded style. */
  predicate PadIn(st: Style, s: string, k: nat) {
    st.pad == 1 ==> k < |s| && s[k] == ' '
  }

  predicate LaidF(d: Dialect, st: Style, s: string, i: nat, t: Requirement)
    ensures LaidF(d, st, s, i, t) ==> i + LenF(st, t) <= |s|
    decreases t, 0
  {
    match t
    case Atomic(v) => ValidAtom(d, v) && Placed(s, i, v)
    case Or(cs) =>
      |cs| == 2 && OpenIn(s, i) && PadIn(st, s, i + 1) &&
      var ea := i + 1 + st.pad + LenE(st, cs[0]);
      var eb := ea + 4 + LenR(st, cs[1]);
      LaidE(d, st, s, i + 1 + st.pad, cs[0]) && OrIn(s, ea) && LaidR(d, st, s, ea + 4, cs[1]) &&
      PadIn(st, s, eb) && CloseIn(s, eb + st.pad)
    case And(cs) =>
      |cs| == 2 && OpenIn(s, i) && PadIn(st, s, i + 1) &&
      var ea := i + 1 + st.pad + LenT(st, cs[0]);
      var eb := ea + 5 + LenF(st, cs[1]);
      LaidT(d, st, s, i + 1 + st.pad, cs[0]) && AndIn(s, ea) && LaidF(d, st, s, ea + 5, cs[1]) &&
      PadIn(st, s, eb) && CloseIn(s, eb + st.pad)
    case Other(_) => false
  }

  predicate LaidT(d: Dialect, st: Style, s: string, i: nat, t: Requirement)
    ensures LaidT(d, st, s, i, t) ==> i + LenT(st, t) <= |s|
    decreases t, 1
  {
    if t.And? && |t.children| == 2 then
      var ea := i + LenT(st, t.children[0]);
      LaidT(d, st, s, i, t.children[0]) && AndIn(s, ea) && LaidF(d, st, s, ea + 5, t.children[1])
    else LaidF(d, st, s, i, t)
  }

  predicate LaidR(d: Dialect, st: Style, s: string, i: nat, t: Requirement)
    ensures LaidR(d, st, s, i, t) ==> i + LenR(st, t) <= |s|
    decreases t, 2
  {
    if st.groupAnd then LaidF(d, st, s, i, t) else LaidT(d, st, s, i, t)
  }

  predicate LaidE(d: Dialect, st: Style, s: string, i: nat, t: Requirement)
    ensures LaidE(d, st, s, i, t) ==> i + LenE(st, t) <= |s|
    decreases t, 3
  {
    if t.Or? && |t.children| == 2 then
      var ea := i + LenE(st, t.children[0]);
      LaidE(d, st, s, i, t.children[0]) && OrIn(s, ea) && LaidR(d, st, s, ea + 4, t.children[1])
    else LaidT(d, st, s, i, t)
  }

  /** Every laid-out form starts with a character that is not whitespace. */
  lemma {:induction false} LaidStart(d: Dialect, st: Style, s: string, i: nat, t: Requirement)
    ensures LaidF(d, st, s, i, t) ==> i < |s| && !IsWS(s[i])
    ensures LaidT(d, st, s, i, t) ==> i < |s| && !IsWS(s[i])
    ensures LaidR(d, st, s, i, t) ==> i < |s| && !IsWS(s[i])
    ensures LaidE(d, st, s, i, t) ==> i < |s| && !IsWS(s[i])
  {
    match t
    case Atomic(v) =>
      if LaidF(d, st, s, i, t) {
        assert s[i] == v[0];
        if IsCode(d, v) {
          assert AlnumAt(v, 0);
        }
      }
    case Or(cs) =>
      if |cs| == 2 {
        LaidStart(d, st, s, i, cs[0]);
      }
    case And(cs) =>
      if |cs| == 2 {
        LaidStart(d, st, s, i, cs[0]);
      }
    case Other(_) =>
  }

  /** A laid-out factor starts with a character that is not whitespace. */
  lemma {:induction false} StartOfF(d: Dialect, st: Style, s: string, i: nat, t: Requirement)
    requires LaidF(d, st, s, i, t)
    ensures i < |s| && !IsWS(s[i])
  {
    LaidStart(d, st, s, i, t);
  }

  /** A laid-out term starts with a character that is not whitespace. */
  lemma {:induction false} StartOfT(d: Dialect, st: Style, s: string, i: nat, t: Requirement)
    requires LaidT(d, st, s, i, t)
    ensures i < |s| && !IsWS(s[i])
  {
    LaidStart(d, st, s, i, t);
  }

  /** A laid-out right operand starts with a character that is not whitespace. */
  lemma {:induction false} StartOfR(d: Dialect, st: Style, s: string, i: nat, t: Requirement)
    requires LaidR(d, st, s, i, t)
    ensures i < |s| && !IsWS(s[i])
  {
    LaidStart(d, st, s, i, t);
  }

  /** A laid-out expression starts with a character that is not whitespace. */
  lemma {:induction false} StartOfE(d: Dialect, st: Style, s: string, i: nat, t: Requirement)
    requires LaidE(d, st, s, i, t)
    ensures i < |s| && !IsWS(s[i])
  {
    LaidStart(d, st, s, i, t);
  }

  // ---------------------------------------------------------------------------
  // The printed form is laid out

  /** A parenthesised piece of printed text, cut into its parts. */
  lemma {:induction false} ParenPieces(st: Style, s: string, i: nat, w: string)
    requires ValidStyle(st) && Placed(s, i, Paren(st, w))
    ensures |Paren(st, w)| == |w| + 2 * st.pad + 2
    ensures OpenIn(s, i) && PadIn(st, s, i + 1) && Placed(s, i + 1 + st.pad, w)
    ensures PadIn(st, s, i + 1 + st.pad + |w|) && CloseIn(s, i + 1 + st.pad + |w| + st.pad)
  {
    StyleChars(st);
    var p := Pad(st);
    PlacedSplit5(s, i, "(", p, w, p, ")");
    PlacedChar(s, i, "(", 0);
    PlacedChar(s, i + 1 + |p| + |w| + |p|, ")", 0);
    if st.pad == 1 {
      PlacedChar(s, i + 1, p, 0);
      PlacedChar(s, i + 1 + |p| + |w|, p, 0);
    }
  }

  lemma {:induction false} OrOpChars(st: Style, s: string, e: nat)
    requires ValidStyle(st) && Placed(s, e, OrOp(st))
    ensures OrIn(s, e)
  {
    var w := OrOp(st);
    PlacedChar(s, e, w, 0);
    PlacedChar(s, e, w, 1);
    PlacedChar(s, e, w, 2);
    PlacedChar(s, e, w, 3);
  }

  lemma {:induction false} AndOpChars(st: Style, s: string, e: nat)
    requires ValidStyle(st) && Placed(s, e, AndOp(st))
    ensures AndIn(s, e)
  {
    var w := AndOp(st);
    PlacedChar(s, e, w, 0);
    PlacedChar(s, e, w, 1);
    PlacedChar(s, e, w, 2);
    PlacedChar(s, e, w, 3);
    PlacedChar(s, e, w, 4);
  }

  /** The printed form of a parenthesised `or`, cut into its pieces. */
  lemma {:induction false} FactorOrPieces(st: Style, s: string, i: nat, a: Requirement, b: Requirement) returns (ea: nat, eb: nat)
    requires ValidStyle(st) && Placed(s, i, RenderFactor(st, Or([a, b])))
    ensures ea == i + 1 + st.pad + |RenderExpr(st, a)| && eb == ea + 4 + |RenderRight(st, b)|
    ensures |RenderFactor(st, Or([a, b]))| == eb + st.pad + 1 - i
    ensures Placed(s, i + 1 + st.pad, RenderExpr(st, a)) && Placed(s, ea + 4, RenderRight(st, b))
    ensures OpenIn(s, i) && PadIn(st, s, i + 1) && OrIn(s, ea) && PadIn(st, s, eb) && CloseIn(s, eb + st.pad)
  {
    StyleChars(st);
    var ra, rb := RenderExpr(st, a), RenderRight(st, b);
    var w := ra + OrOp(st) + rb;
    assert RenderFactor(st, Or([a, b])) == Paren(st, w);
    ParenPieces(st, s, i, w);
    PlacedSplit3(s, i + 1 + st.pad, ra, OrOp(st), rb);
    ea := i + 1 + st.pad + |ra|;
    eb := ea + 4 + |rb|;
    OrOpChars(st, s, ea);
  }

  /** The printed form of a parenthesised `and`, cut into its pieces. */
  lemma {:induction false} FactorAndPieces(st: Style, s: string, i: nat, a: Requirement, b: Requirement) returns (ea: nat, eb: nat)
    requires ValidStyle(st) && Placed(s, i, RenderFactor(st, And([a, b])))
    ensures ea == i + 1 + st.pad + |RenderTerm(st, a)| && eb == ea + 5 + |RenderFactor(st, b)|
    ensures |RenderFactor(st, And([a, b]))| == eb + st.pad + 1 - i
    ensures Placed(s, i + 1 + st.pad, RenderTerm(st, a)) && Placed(s, ea + 5, RenderFactor(st, b))
    ensures OpenIn(s, i) && PadIn(st, s, i + 1) && AndIn(s, ea) && PadIn(st, s, eb) && CloseIn(s, eb + st.pad)
  {
    StyleChars(st);
    var ra, rb := RenderTerm(st, a), RenderFactor(st, b);
    var w := ra + AndOp(st) + rb;
    assert RenderFactor(st, And([a, b])) == Paren(st, w);
    ParenPieces(st, s, i, w);
    PlacedSplit3(s, i + 1 + st.pad, ra, AndOp(st), rb);
    ea := i + 1 + st.pad + |ra|;
    eb := ea + 5 + |rb|;
    AndOpChars(st, s, ea);
  }

  /** The printed form of an unparenthesised `and`, cut into its pieces. */
  lemma {:induction false} TermAndPieces(st: Style, s: string, i: nat, a: Requirement, b: Requirement) returns (ea: nat)
    requires ValidStyle(st) && Placed(s, i, RenderTerm(st, And([a, b])))
    ensures ea == i + |RenderTerm(st, a)| && |RenderTerm(st, And([a, b]))| == ea + 5 + |RenderFactor(st, b)| - i
    ensures Placed(s, i, RenderTerm(st, a)) && AndIn(s, ea) && Placed(s, ea + 5, RenderFactor(st, b))
  {
    StyleChars(st);
    var ra, rb := RenderTerm(st, a), RenderFactor(st, b);
    assert RenderTerm(st, And([a, b])) == ra + AndOp(st) + rb;
    PlacedSplit3(s, i, ra, AndOp(st), rb);
    ea := i + |ra|;
    AndOpChars(st, s, ea);
  }

  /** The printed form of an unparenthesised `or`, cut into its pieces. */
  lemma {:induction false} ExprOrPieces(st: Style, s: string, i: nat, a: Requirement, b: Requirement) returns (ea: nat)
    requires ValidStyle(st) && Placed(s, i, RenderExpr(st, Or([a, b])))
    ensures ea == i + |RenderExpr(st, a)| && |RenderExpr(st, Or([a, b]))| == ea + 4 + |RenderRight(st, b)| - i
    ensures Placed(s, i, RenderExpr(st, a)) && OrIn(s, ea) && Placed(s, ea + 4, RenderRight(st, b))
  {
    StyleChars(st);
    var ra, rb := RenderExpr(st, a), RenderRight(st, b);
    assert RenderExpr(st, Or([a, b])) == ra + OrOp(st) + rb;
    PlacedSplit3(s, i, ra, OrOp(st), rb);
    ea := i + |ra|;
    OrOpChars(st, s, ea);
  }

  lemma {:induction false} FactorLaid(d: Dialect, st: Style, s: string, i: nat, t: Requirement)
    requires ValidStyle(st) && Renderable(d, t) && Placed(s, i, RenderFactor(st, t))
    ensures LaidF(d, st, s, i, t) && LenF(st, t) == |RenderFactor(st, t)|
    decreases t, 1
  {
    match t
    case Atomic(v) =>
    case Or(cs) =>
      assert t == Or([cs[0], cs[1]]);
      var ea, eb := FactorOrPieces(st, s, i, cs[0], cs[1]);
      FactorOrLaid(d, st, s, i, cs[0], cs[1], ea, eb);
    case And(cs) =>
      assert t == And([cs[0], cs[1]]);
      var ea, eb := FactorAndPieces(st, s, i, cs[0], cs[1]);
      FactorAndLaid(d, st, s, i, cs[0], cs[1], ea, eb);
  }

  /** The layout of a parenthesised `or`, from the layouts of its parts. */
  lemma {:induction false} FactorOrIntro(d: Dialect, st: Style, s: string, i: nat, a: Requirement, b: Requirement, ea: nat, eb: nat)
    requires ea == i + 1 + st.pad + LenE(st, a) && eb == ea + 4 + LenR(st, b)
    requires OpenIn(s, i) && PadIn(st, s, i + 1) && LaidE(d, st, s, i + 1 + st.pad, a) && OrIn(s, ea)
    requires LaidR(d, st, s, ea + 4, b) && PadIn(st, s, eb) && CloseIn(s, eb + st.pad)
    ensures LaidF(d, st, s, i, Or([a, b])) && LenF(st, Or([a, b])) == eb + st.pad + 1 - i
  {
    var t := Or([a, b]);
    assert t.children[0] == a && t.children[1] == b;
  }

  /** The layout of a parenthesised `and`, from the layouts of its parts. */
  lemma {:induction false} FactorAndIntro(d: Dialect, st: Style, s: string, i: nat, a: Requirement, b: Requirement, ea: nat, eb: nat)
    requires ea == i + 1 + st.pad + LenT(st, a) && eb == ea + 5 + LenF(st, b)
    requires OpenIn(s, i) && PadIn(st, s, i + 1) && LaidT(d, st, s, i + 1 + st.pad, a) && AndIn(s, ea)
    requires LaidF(d, st, s, ea + 5, b) && PadIn(st, s, eb) && CloseIn(s, eb + st.pad)
    ensures LaidF(d, st, s, i, And([a, b])) && LenF(st, And([a, b])) == eb + st.pad + 1 - i
  {
    var t := And([a, b]);
    assert t.children[0] == a && t.children[1] == b;
  }

  lemma {:induction false} FactorOrLaid(d: Dialect, st: Style, s: string, i: nat, a: Requirement, b: Requirement, ea: nat, eb: nat)
    requires ValidStyle(st) && Renderable(d, a) && Renderable(d, b)
    requires ea == i + 1 + st.pad + |RenderExpr(st, a)| && eb == ea + 4 + |RenderRight(st, b)|
    requires Placed(s, i + 1 + st.pad, RenderExpr(st, a)) && Placed(s, ea + 4, RenderRight(st, b))
    requires OpenIn(s, i) && PadIn(st, s, i + 1) && OrIn(s, ea) && PadIn(st, s, eb) && CloseIn(s, eb + st.pad)
    ensures LaidF(d, st, s, i, Or([a, b])) && LenF(st, Or([a, b])) == eb + st.pad + 1 - i
    decreases Or([a, b]), 0
  {
    assert a in [a, b] && b in [a, b];
    ExprLaid(d, st, s, i + 1 + st.pad, a);
    RightLaid(d, st, s, ea + 4, b);
    FactorOrIntro(d, st, s, i, a, b, ea, eb);
  }

  lemma {:induction false} AndOperandsLaid(d: Dialect, st: Style, s: string, p: nat, a: Requirement, ea: nat, b: Requirement)
    requires ValidStyle(st) && Renderable(d, a) && Renderable(d, b) && ea == p + |RenderTerm(st, a)|
    requires Placed(s, p, RenderTerm(st, a)) && Placed(s, ea + 5, RenderFactor(st, b))
    ensures LaidT(d, st, s, p, a) && ea == p + LenT(st, a)
    ensures LaidF(d, st, s, ea + 5, b) && LenF(st, b) == |RenderFactor(st, b)|
    decreases And([a, b]), 0, 0
  {
    assert a in [a, b] && b in [a, b];
    TermLaid(d, st, s, p, a);
    FactorLaid(d, st, s, ea + 5, b);
  }

  lemma {:induction false} FactorAndLaid(d: Dialect, st: Style, s: string, i: nat, a: Requirement, b: Requirement, ea: nat, eb: nat)
    requires ValidStyle(st) && Renderable(d, a) && Renderable(d, b)
    requires ea == i + 1 + st.pad + |RenderTerm(st, a)| && eb == ea + 5 + |RenderFactor(st, b)|
    requires Placed(s, i + 1 + st.pad, RenderTerm(st, a)) && Placed(s, ea + 5, RenderFactor(st, b))
    requires OpenIn(s, i) && PadIn(st, s, i + 1) && AndIn(s, ea) && PadIn(st, s, eb) && CloseIn(s, eb + st.pad)
    ensures LaidF(d, st, s, i, And([a, b])) && LenF(st, And([a, b])) == eb + st.pad + 1 - i
    decreases And([a, b]), 0, 1
  {
    AndOperandsLaid(d, st, s, i + 1 + st.pad, a, ea, b);
    FactorAndIntro(d, st, s, i, a, b, ea, eb);
  }

  lemma {:induction false} TermLaid(d: Dialect, st: Style, s: string, i: nat, t: Requirement)
    requires ValidStyle(st) && Renderable(d, t) && Placed(s, i, RenderTerm(st, t))
    ensures LaidT(d, st, s, i, t) && LenT(st, t) == |RenderTerm(st, t)|
    decreases t, 2
  {
    if t.And? && |t.children| == 2 {
      var a, b := t.children[0], t.children[1];
      assert t == And([a, b]);
      var ea := TermAndPieces(st, s, i, a, b);
      TermLaid(d, st, s, i, a);
      FactorLaid(d, st, s, ea + 5, b);
    } else {
      FactorLaid(d, st, s, i, t);
    }
  }

  lemma {:induction false} RightLaid(d: Dialect, st: Style, s: string, i: nat, t: Requirement)
    requires ValidStyle(st) && Renderable(d, t) && Placed(s, i, RenderRight(st, t))
    ensures LaidR(d, st, s, i, t) && LenR(st, t) == |RenderRight(st, t)|
    decreases t, 3
  {
    if st.groupAnd {
      FactorLaid(d, st, s, i, t);
    } else {
      TermLaid(d, st, s, i, t);
    }
  }

  lemma {:induction false} ExprLaid(d: Dialect, st: Style, s: string, i: nat, t: Requirement)
    requires ValidStyle(st) && Renderable(d, t) && Placed(s, i, RenderExpr(st, t))
    ensures LaidE(d, st, s, i, t) && LenE(st, t) == |RenderExpr(st, t)|
    decreases t, 4
  {
    if t.Or? && |t.children| == 2 {
      var a, b := t.children[0], t.children[1];
      assert t == Or([a, b]);
      var ea := ExprOrPieces(st, s, i, a, b);
      ExprLaid(d, st, s, i, a);
      RightLaid(d, st, s, ea + 4, b);
    } else {
      TermLaid(d, st, s, i, t);
    }
  }

  // ---------------------------------------------------------------------------
  // Reading a laid-out form back. Each lemma below unfolds one parser function;
  // the lemmas after them only chain their equations.

  // The parsing functions at any position (no parse past the end), in which the
  // lemmas below state what they read.

  function FactorFrom(d: Dialect, s: string, j: nat): Parse {
    if j <= |s| then Factor(d, s, j) else NoParse
  }

  function TermFrom(d: Dialect, s: string, j: nat): Parse {
    if j <= |s| then Term(d, s, j) else NoParse
  }

  function TermTailFrom(d: Dialect, s: string, acc: Requirement, j: nat): Parse {
    if j <= |s| then TermTail(d, s, acc, j) else NoParse
  }

  function ExprFrom(d: Dialect, s: string, j: nat): Parse {
    if j <= |s| then Expr(d, s, j) else NoParse
  }

  function ExprTailFrom(d: Dialect, s: string, acc: Requirement, j: nat): Parse {
    if j <= |s| then ExprTail(d, s, acc, j) else NoParse
  }

  lemma {:induction false} SkipNone(s: string, k: nat)
    requires k < |s| && !IsWS(s[k])
    ensures SkipWS(s, k) == k
  {
  }

  lemma {:induction false} SkipOne(s: string, k: nat)
    requires k + 1 < |s| && IsWS(s[k]) && !IsWS(s[k + 1])
    ensures SkipWS(s, k) == k + 1
  {
    SkipNone(s, k + 1);
  }

  /** A parenthesised expression at the first non-blank position `p`, closed at `c`. */
  lemma {:induction false} FactorParen(d: Dialect, s: string, j: nat, p: nat, t: Requirement, e: nat, c: nat)
    requires j <= p < |s| && SkipWS(s, j) == p && s[p] == '('
    requires ExprFrom(d, s, p + 1) == Parsed(t, e) && c < |s| && SkipWS(s, e) == c && s[c] == ')'
    ensures FactorFrom(d, s, j) == Parsed(t, c + 1)
  {
  }

  /** An identifier at the first non-blank position `p`. */
  lemma {:induction false} FactorAtom(d: Dialect, s: string, j: nat, p: nat, e: nat)
    requires j <= p < |s| && SkipWS(s, j) == p && s[p] != '(' && IdentifierAt(d, s, p) == Some(e)
    ensures FactorFrom(d, s, j) == Parsed(Atomic(Lexeme(s, p, e)), e)
  {
  }

  /** A term that does not start a course list starts with its first factor. */
  lemma {:induction false} TermOfFactor(d: Dialect, s: string, j: nat, p: nat, f: Requirement, e: nat)
    requires j <= p <= |s| && SkipWS(s, j) == p && !(d.Current? && ListAhead(d, s, p))
    requires FactorFrom(d, s, p) == Parsed(f, e)
    ensures TermFrom(d, s, j) == TermTailFrom(d, s, f, e)
  {
  }

  /** `and` at `q`, the first non-blank position after `acc`, and a factor after it. */
  lemma {:induction false} TermTailAnd(d: Dialect, s: string, acc: Requirement, ea: nat, q: nat, b: Requirement, e: nat)
    requires ea <= q <= |s| && SkipWS(s, ea) == q && AndAt(s, q)
    requires FactorFrom(d, s, q + 3) == Parsed(b, e)
    ensures TermTailFrom(d, s, acc, ea) == TermTailFrom(d, s, And([acc, b]), e)
  {
  }

  /** A term loop stops where no `and` follows. */
  lemma {:induction false} TermTailStops(d: Dialect, s: string, t: Requirement, e: nat)
    requires e <= |s| && !AndAt(s, SkipWS(s, e))
    ensures TermTailFrom(d, s, t, e) == Parsed(t, e)
  {
  }

  /** The expression loop starts after the first term. */
  lemma {:induction false} ExprOfTerm(d: Dialect, s: string, j: nat, t: Requirement, e: nat)
    requires j <= |s| && TermFrom(d, s, j) == Parsed(t, e)
    ensures ExprFrom(d, s, j) == ExprTailFrom(d, s, t, e)
  {
  }

  /** `or` at `q`, the first non-blank position after `acc`, and a term after it. */
  lemma {:induction false} ExprTailOr(d: Dialect, s: string, acc: Requirement, ea: nat, q: nat, b: Requirement, e: nat)
    requires ea <= q <= |s| && SkipWS(s, ea) == q && OrAt(s, q)
    requires TermFrom(d, s, q + 2) == Parsed(b, e)
    ensures ExprTailFrom(d, s, acc, ea) == ExprTailFrom(d, s, Or([acc, b]), e)
  {
  }

  /** An expression loop stops where no `or` follows. */
  lemma {:induction false} ExprTailStops(d: Dialect, s: string, t: Requirement, e: nat)
    requires e <= |s| && !OrAt(s, SkipWS(s, e))
    ensures ExprTailFrom(d, s, t, e) == Parsed(t, e)
  {
  }

  // The positions around operators and parentheses

  lemma {:induction false} OrInFacts(s: string, e: nat)
    requires OrIn(s, e)
    ensures FollowsExpr(s, e) && SkipWS(s, e) == e + 1 && OrAt(s, e + 1) && IsWS(s[e + 3])
  {
    assert !IsWS(s[e + 1]);
    SkipNone(s, e + 1);
  }

  lemma {:induction false} AndInFacts(s: string, e: nat)
    requires AndIn(s, e)
    ensures Follows(s, e) && SkipWS(s, e) == e + 1 && AndAt(s, e + 1) && !OrAt(s, e + 1) && IsWS(s[e + 4])
  {
    assert !IsWS(s[e + 1]);
    SkipNone(s, e + 1);
  }

  /** A closing parenthesis at `e` ends an operand. */
  lemma {:induction false} CloseInFacts(s: string, e: nat)
    requires CloseIn(s, e)
    ensures SkipWS(s, e) == e && FollowsExpr(s, e) && !AndAt(s, e) && !OrAt(s, e)
  {
    SkipNone(s, e);
  }

  /** Blanks from a parenthesis's inner side end after its padding, where the next character is not blank. */
  lemma {:induction false} PadSkip(st: Style, s: string, k: nat)
    requires PadIn(st, s, k) && k + st.pad < |s| && !IsWS(s[k + st.pad])
    ensures SkipWS(s, k) == k + st.pad
  {
    if st.pad == 1 {
      SkipOne(s, k);
    } else {
      SkipNone(s, k);
    }
  }

  /** An operand after an operator: the first non-blank position after the operator's last space. */
  lemma {:induction false} OperandSkip(d: Dialect, st: Style, s: string, k: nat, t: Requirement)
    requires k < |s| && IsWS(s[k]) && (LaidF(d, st, s, k + 1, t) || LaidT(d, st, s, k + 1, t) || LaidR(d, st, s, k + 1, t))
    ensures SkipWS(s, k) == k + 1
  {
    LaidStart(d, st, s, k + 1, t);
    SkipOne(s, k);
  }

  // Chaining the equations

  /** `or` and a last term close an expression. */
  lemma {:induction false} ExprOrLast(d: Dialect, s: string, j: nat, a: Requirement, b: Requirement, ea: nat, eb: nat)
    requires j <= ea && OrIn(s, ea) && ea + 4 <= eb <= |s|
    requires !AndAt(s, SkipWS(s, eb)) && !OrAt(s, SkipWS(s, eb))
    requires ExprFrom(d, s, j) == ExprTailFrom(d, s, a, ea)
    requires TermFrom(d, s, ea + 3) == TermTailFrom(d, s, b, eb)
    ensures ExprFrom(d, s, j) == Parsed(Or([a, b]), eb)
  {
    ExprOrMore(d, s, j, a, b, ea, eb);
    ExprTailStops(d, s, Or([a, b]), eb);
  }

  /** `or` and a term continue an expression. */
  lemma {:induction false} ExprOrMore(d: Dialect, s: string, j: nat, a: Requirement, b: Requirement, ea: nat, eb: nat)
    requires j <= ea && OrIn(s, ea) && ea + 4 <= eb <= |s|
    requires !AndAt(s, SkipWS(s, eb))
    requires ExprFrom(d, s, j) == ExprTailFrom(d, s, a, ea)
    requires TermFrom(d, s, ea + 3) == TermTailFrom(d, s, b, eb)
    ensures ExprFrom(d, s, j) == ExprTailFrom(d, s, Or([a, b]), eb)
  {
    OrInFacts(s, ea);
    TermTailStops(d, s, b, eb);
  }

  /** `and` and a factor continue a term. */
  lemma {:induction false} TermAndMore(d: Dialect, s: string, j: nat, a: Requirement, b: Requirement, ea: nat, eb: nat)
    requires j <= ea && AndIn(s, ea) && ea + 5 <= eb <= |s|
    requires TermFrom(d, s, j) == TermTailFrom(d, s, a, ea)
    requires FactorFrom(d, s, ea + 4) == Parsed(b, eb)
    ensures TermFrom(d, s, j) == TermTailFrom(d, s, And([a, b]), eb)
  {
    AndInFacts(s, ea);
    TermTailAnd(d, s, a, ea, ea + 1, b, eb);
  }

  /** `and` and a last factor close a term, and with it an expression. */
  lemma {:induction false} TermAndLast(d: Dialect, s: string, j: nat, a: Requirement, b: Requirement, ea: nat, eb: nat)
    requires j <= ea && AndIn(s, ea) && ea + 5 <= eb <= |s|
    requires !AndAt(s, SkipWS(s, eb)) && !OrAt(s, SkipWS(s, eb))
    requires TermFrom(d, s, j) == TermTailFrom(d, s, a, ea)
    requires FactorFrom(d, s, ea + 4) == Parsed(b, eb)
    ensures ExprFrom(d, s, j) == Parsed(And([a, b]), eb)
  {
    TermAndMore(d, s, j, a, b, ea, eb);
    TermTailStops(d, s, And([a, b]), eb);
    ExprOfTerm(d, s, j, And([a, b]), eb);
    ExprTailStops(d, s, And([a, b]), eb);
  }

  // The round trip proper, over the layout

  /** A laid-out factor at `i` with no comma in it, followed as an operand may be. */
  predicate FactorAt(d: Dialect, st: Style, s: string, i: nat, t: Requirement) {
    LaidF(d, st, s, i, t) && NoComma(s, i, i + LenF(st, t)) && Follows(s, i + LenF(st, t))
  }

  predicate TermAt(d: Dialect, st: Style, s: string, i: nat, t: Requirement) {
    LaidT(d, st, s, i, t) && NoComma(s, i, i + LenT(st, t)) && Follows(s, i + LenT(st, t))
  }

  predicate RightAt(d: Dialect, st: Style, s: string, i: nat, t: Requirement) {
    LaidR(d, st, s, i, t) && NoComma(s, i, i + LenR(st, t)) && Follows(s, i + LenR(st, t))
  }

  predicate ExprAt(d: Dialect, st: Style, s: string, i: nat, t: Requirement) {
    LaidE(d, st, s, i, t) && NoComma(s, i, i + LenE(st, t)) && FollowsExpr(s, i + LenE(st, t))
  }

  /** A laid-out factor, reached after blanks from `j`, reads back as its tree. */
  lemma {:induction false} FactorRT(d: Dialect, st: Style, s: string, j: nat, i: nat, t: Requirement)
    requires j <= i <= |s| && SkipWS(s, j) == i
    requires FactorAt(d, st, s, i, t)
    ensures FactorFrom(d, s, j) == Parsed(t, i + LenF(st, t))
    decreases t, 3
  {
    match t
    case Atomic(v) =>
      AtomRT(d, s, j, i, v);
    case Or(cs) =>
      assert t == Or([cs[0], cs[1]]);
      FactorOrRT(d, st, s, j, i, cs[0], cs[1]);
    case And(cs) =>
      assert t == And([cs[0], cs[1]]);
      FactorAndRT(d, st, s, j, i, cs[0], cs[1]);
  }

  lemma {:induction false} AtomRT(d: Dialect, s: string, j: nat, i: nat, v: string)
    requires j <= i <= |s| && SkipWS(s, j) == i && ValidAtom(d, v) && Placed(s, i, v) && Follows(s, i + |v|)
    ensures FactorFrom(d, s, j) == Parsed(Atomic(v), i + |v|)
  {
    PlacedChar(s, i, v, 0);
    if IsPartId(d, v) {
      PartIdAt(d, s, i, v);
    } else {
      CodeAt(d, s, i, v);
      assert AlnumAt(v, 0);
    }
    LexemeIsSlice(s, i, i + |v|);
    assert s[i..i + |v|] == v;
    FactorAtom(d, s, j, i, i + |v|);
  }

  lemma {:induction false} FactorOrRT(d: Dialect, st: Style, s: string, j: nat, i: nat, a: Requirement, b: Requirement)
    requires j <= i <= |s| && SkipWS(s, j) == i
    requires FactorAt(d, st, s, i, Or([a, b]))
    ensures FactorFrom(d, s, j) == Parsed(Or([a, b]), i + LenF(st, Or([a, b])))
    decreases Or([a, b]), 2
  {
    var ea, eb := FactorOrLayout(d, st, s, i, a, b);
    FactorOrOperands(d, st, s, j, i, a, b, ea, eb);
  }

  lemma {:induction false} FactorOrOperands(d: Dialect, st: Style, s: string, j: nat, i: nat, a: Requirement, b: Requirement, ea: nat, eb: nat)
    requires j <= i <= |s| && SkipWS(s, j) == i && i + 1 <= ea && ea + 4 <= eb < |s|
    requires OpenIn(s, i) && OrIn(s, ea) && CloseIn(s, eb + st.pad)
    requires SkipWS(s, i + 1) == i + 1 + st.pad && SkipWS(s, eb) == eb + st.pad && SkipWS(s, ea + 3) == ea + 4
    requires ExprAt(d, st, s, i + 1 + st.pad, a) && RightAt(d, st, s, ea + 4, b)
    requires ea == i + 1 + st.pad + LenE(st, a) && eb == ea + 4 + LenR(st, b)
    ensures FactorFrom(d, s, j) == Parsed(Or([a, b]), eb + st.pad + 1)
    decreases Or([a, b]), 1
  {
    assert a in [a, b];
    ExprRT(d, st, s, i + 1, i + 1 + st.pad, a);
    FactorOrRight(d, st, s, j, i, a, b, ea, eb);
  }

  lemma {:induction false} FactorOrRight(d: Dialect, st: Style, s: string, j: nat, i: nat, a: Requirement, b: Requirement, ea: nat, eb: nat)
    requires j <= i <= |s| && SkipWS(s, j) == i && i + 1 <= ea && ea + 4 <= eb < |s|
    requires OpenIn(s, i) && OrIn(s, ea) && CloseIn(s, eb + st.pad) && SkipWS(s, eb) == eb + st.pad
    requires SkipWS(s, ea + 3) == ea + 4 && RightAt(d, st, s, ea + 4, b) && eb == ea + 4 + LenR(st, b)
    requires ExprFrom(d, s, i + 1) == ExprTailFrom(d, s, a, ea)
    ensures FactorFrom(d, s, j) == Parsed(Or([a, b]), eb + st.pad + 1)
    decreases Or([a, b]), 0
  {
    assert b in [a, b];
    RightRT(d, st, s, ea + 3, ea + 4, b);
    FactorOrChain(d, s, j, i, a, b, ea, eb, eb + st.pad);
  }

  lemma {:induction false} FactorOrChain(d: Dialect, s: string, j: nat, i: nat, a: Requirement, b: Requirement, ea: nat, eb: nat, c: nat)
    requires j <= i <= |s| && SkipWS(s, j) == i && i + 1 <= ea && ea + 4 <= eb <= |s|
    requires OpenIn(s, i) && OrIn(s, ea) && CloseIn(s, c) && SkipWS(s, eb) == c
    requires ExprFrom(d, s, i + 1) == ExprTailFrom(d, s, a, ea) && TermFrom(d, s, ea + 3) == TermTailFrom(d, s, b, eb)
    ensures FactorFrom(d, s, j) == Parsed(Or([a, b]), c + 1)
  {
    CloseInFacts(s, c);
    ExprOrLast(d, s, i + 1, a, b, ea, eb);
    FactorParen(d, s, j, i, Or([a, b]), eb, c);
  }

  lemma {:induction false} FactorAndRT(d: Dialect, st: Style, s: string, j: nat, i: nat, a: Requirement, b: Requirement)
    requires j <= i <= |s| && SkipWS(s, j) == i
    requires FactorAt(d, st, s, i, And([a, b]))
    ensures FactorFrom(d, s, j) == Parsed(And([a, b]), i + LenF(st, And([a, b])))
    decreases And([a, b]), 2
  {
    var ea, eb := FactorAndLayout(d, st, s, i, a, b);
    FactorAndOperands(d, st, s, j, i, a, b, ea, eb);
  }

  lemma {:induction false} FactorAndOperands(d: Dialect, st: Style, s: string, j: nat, i: nat, a: Requirement, b: Requirement, ea: nat, eb: nat)
    requires j <= i <= |s| && SkipWS(s, j) == i && i + 1 <= ea && ea + 5 <= eb < |s|
    requires OpenIn(s, i) && AndIn(s, ea) && CloseIn(s, eb + st.pad)
    requires SkipWS(s, i + 1) == i + 1 + st.pad && SkipWS(s, eb) == eb + st.pad && SkipWS(s, ea + 4) == ea + 5
    requires TermAt(d, st, s, i + 1 + st.pad, a) && FactorAt(d, st, s, ea + 5, b)
    requires ea == i + 1 + st.pad + LenT(st, a) && eb == ea + 5 + LenF(st, b)
    ensures FactorFrom(d, s, j) == Parsed(And([a, b]), eb + st.pad + 1)
    decreases And([a, b]), 1
  {
    assert a in [a, b];
    ParenTermRT(d, st, s, i + 1, a, ea);
    FactorAndRight(d, st, s, j, i, a, b, ea, eb);
  }

  /** The first operand inside a parenthesis reads back as a term, with the term loop ready to go on. */
  lemma {:induction false} ParenTermRT(d: Dialect, st: Style, s: string, k: nat, a: Requirement, ea: nat)
    requires k + st.pad <= |s| && SkipWS(s, k) == k + st.pad
    requires TermAt(d, st, s, k + st.pad, a) && ea == k + st.pad + LenT(st, a)
    ensures TermFrom(d, s, k) == TermTailFrom(d, s, a, ea)
    decreases a, 7
  {
    TermRT(d, st, s, k, k + st.pad, a);
  }

  lemma {:induction false} FactorAndRight(d: Dialect, st: Style, s: string, j: nat, i: nat, a: Requirement, b: Requirement, ea: nat, eb: nat)
    requires j <= i <= |s| && SkipWS(s, j) == i && i + 1 <= ea && ea + 5 <= eb < |s|
    requires OpenIn(s, i) && AndIn(s, ea) && CloseIn(s, eb + st.pad) && SkipWS(s, eb) == eb + st.pad
    requires SkipWS(s, ea + 4) == ea + 5 && FactorAt(d, st, s, ea + 5, b) && eb == ea + 5 + LenF(st, b)
    requires TermFrom(d, s, i + 1) == TermTailFrom(d, s, a, ea)
    ensures FactorFrom(d, s, j) == Parsed(And([a, b]), eb + st.pad + 1)
    decreases And([a, b]), 0
  {
    assert b in [a, b];
    FactorRT(d, st, s, ea + 4, ea + 5, b);
    FactorAndChain(d, s, j, i, a, b, ea, eb, eb + st.pad);
  }

  lemma {:induction false} FactorAndChain(d: Dialect, s: string, j: nat, i: nat, a: Requirement, b: Requirement, ea: nat, eb: nat, c: nat)
    requires j <= i <= |s| && SkipWS(s, j) == i && i + 1 <= ea && ea + 5 <= eb <= |s|
    requires OpenIn(s, i) && AndIn(s, ea) && CloseIn(s, c) && SkipWS(s, eb) == c
    requires TermFrom(d, s, i + 1) == TermTailFrom(d, s, a, ea) && FactorFrom(d, s, ea + 4) == Parsed(b, eb)
    ensures FactorFrom(d, s, j) == Parsed(And([a, b]), c + 1)
  {
    CloseInFacts(s, c);
    TermAndLast(d, s, i + 1, a, b, ea, eb);
    FactorParen(d, s, j, i, And([a, b]), eb, c);
  }

  /** The parts of a laid-out parenthesised `or`. */
  lemma {:induction false} FactorOrElim(d: Dialect, st: Style, s: string, i: nat, a: Requirement, b: Requirement) returns (ea: nat, eb: nat)
    requires LaidF(d, st, s, i, Or([a, b]))
    ensures ea == i + 1 + st.pad + LenE(st, a) && eb == ea + 4 + LenR(st, b) && i + LenF(st, Or([a, b])) == eb + st.pad + 1
    ensures OpenIn(s, i) && PadIn(st, s, i + 1) && LaidE(d, st, s, i + 1 + st.pad, a) && OrIn(s, ea)
    ensures LaidR(d, st, s, ea + 4, b) && PadIn(st, s, eb) && CloseIn(s, eb + st.pad)
  {
    var t := Or([a, b]);
    assert t.children[0] == a && t.children[1] == b;
    ea := i + 1 + st.pad + LenE(st, a);
    eb := ea + 4 + LenR(st, b);
  }

  /** The parts of a laid-out parenthesised `and`. */
  lemma {:induction false} FactorAndElim(d: Dialect, st: Style, s: string, i: nat, a: Requirement, b: Requirement) returns (ea: nat, eb: nat)
    requires LaidF(d, st, s, i, And([a, b]))
    ensures ea == i + 1 + st.pad + LenT(st, a) && eb == ea + 5 + LenF(st, b) && i + LenF(st, And([a, b])) == eb + st.pad + 1
    ensures OpenIn(s, i) && PadIn(st, s, i + 1) && LaidT(d, st, s, i + 1 + st.pad, a) && AndIn(s, ea)
    ensures LaidF(d, st, s, ea + 5, b) && PadIn(st, s, eb) && CloseIn(s, eb + st.pad)
  {
    var t := And([a, b]);
    assert t.children[0] == a && t.children[1] == b;
    ea := i + 1 + st.pad + LenT(st, a);
    eb := ea + 5 + LenF(st, b);
  }

  /** The operands of a laid-out unparenthesised `and`. */
  lemma {:induction false} TermAndElim(d: Dialect, st: Style, s: string, i: nat, a: Requirement, b: Requirement) returns (ea: nat)
    requires LaidT(d, st, s, i, And([a, b]))
    ensures ea == i + LenT(st, a) && i + LenT(st, And([a, b])) == ea + 5 + LenF(st, b)
    ensures LaidT(d, st, s, i, a) && AndIn(s, ea) && LaidF(d, st, s, ea + 5, b)
  {
    var t := And([a, b]);
    assert t.children[0] == a && t.children[1] == b;
    ea := i + LenT(st, a);
  }

  /** The operands of a laid-out unparenthesised `or`. */
  lemma {:induction false} ExprOrElim(d: Dialect, st: Style, s: string, i: nat, a: Requirement, b: Requirement) returns (ea: nat)
    requires LaidE(d, st, s, i, Or([a, b]))
    ensures ea == i + LenE(st, a) && i + LenE(st, Or([a, b])) == ea + 4 + LenR(st, b)
    ensures LaidE(d, st, s, i, a) && OrIn(s, ea) && LaidR(d, st, s, ea + 4, b)
  {
    var t := Or([a, b]);
    assert t.children[0] == a && t.children[1] == b;
    ea := i + LenE(st, a);
  }

  /** Inside a parenthesis: the blanks before the first operand and after the last, and what follows each operand. */
  lemma {:induction false} ParenSkips(st: Style, s: string, i: nat, ea: nat, eb: nat, w: nat)
    requires w == 4 || w == 5
    requires PadIn(st, s, i + 1) && i + 1 + st.pad < |s| && !IsWS(s[i + 1 + st.pad])
    requires (if w == 4 then OrIn(s, ea) else AndIn(s, ea)) && ea + w < |s| && !IsWS(s[ea + w])
    requires PadIn(st, s, eb) && CloseIn(s, eb + st.pad) && ea + w <= eb
    ensures SkipWS(s, i + 1) == i + 1 + st.pad && SkipWS(s, eb) == eb + st.pad && SkipWS(s, ea + w - 1) == ea + w
    ensures eb < |s| && Follows(s, ea) && Follows(s, eb)
  {
    PadSkip(st, s, i + 1);
    CloseInFacts(s, eb + st.pad);
    PadSkip(st, s, eb);
    if w == 4 {
      OrInFacts(s, ea);
    } else {
      AndInFacts(s, ea);
    }
    SkipOne(s, ea + w - 1);
  }

  /** Where the parts of a parenthesised `or` sit, and what stands around each. */
  lemma {:induction false} FactorOrLayout(d: Dialect, st: Style, s: string, i: nat, a: Requirement, b: Requirement) returns (ea: nat, eb: nat)
    requires FactorAt(d, st, s, i, Or([a, b]))
    ensures ea == i + 1 + st.pad + LenE(st, a) && eb == ea + 4 + LenR(st, b)
    ensures i + LenF(st, Or([a, b])) == eb + st.pad + 1 && i + 1 <= ea && ea + 4 <= eb < |s|
    ensures OpenIn(s, i) && OrIn(s, ea) && CloseIn(s, eb + st.pad)
    ensures SkipWS(s, i + 1) == i + 1 + st.pad && SkipWS(s, eb) == eb + st.pad
    ensures ExprAt(d, st, s, i + 1 + st.pad, a) && RightAt(d, st, s, ea + 4, b)
    ensures SkipWS(s, ea + 3) == ea + 4
  {
    ea, eb := FactorOrElim(d, st, s, i, a, b);
    FactorOrInside(d, st, s, i, a, b, ea, eb);
  }

  /** Inside a parenthesised `or`: each operand is laid out, comma-free and followed as an operand may be. */
  lemma {:induction false} FactorOrInside(d: Dialect, st: Style, s: string, i: nat, a: Requirement, b: Requirement, ea: nat, eb: nat)
    requires ea == i + 1 + st.pad + LenE(st, a) && eb == ea + 4 + LenR(st, b)
    requires OpenIn(s, i) && PadIn(st, s, i + 1) && LaidE(d, st, s, i + 1 + st.pad, a) && OrIn(s, ea)
    requires LaidR(d, st, s, ea + 4, b) && PadIn(st, s, eb) && CloseIn(s, eb + st.pad)
    requires NoComma(s, i, eb + st.pad + 1)
    ensures ExprAt(d, st, s, i + 1 + st.pad, a) && RightAt(d, st, s, ea + 4, b)
    ensures SkipWS(s, i + 1) == i + 1 + st.pad && SkipWS(s, eb) == eb + st.pad && SkipWS(s, ea + 3) == ea + 4
  {
    StartOfE(d, st, s, i + 1 + st.pad, a);
    StartOfR(d, st, s, ea + 4, b);
    ParenSkips(st, s, i, ea, eb, 4);
    OrInFacts(s, ea);
    NoCommaWithin(s, i, eb + st.pad + 1, i + 1 + st.pad, ea);
    NoCommaWithin(s, i, eb + st.pad + 1, ea + 4, eb);
  }

  /** Where the parts of a parenthesised `and` sit, and what stands around each. */
  lemma {:induction false} FactorAndLayout(d: Dialect, st: Style, s: string, i: nat, a: Requirement, b: Requirement) returns (ea: nat, eb: nat)
    requires FactorAt(d, st, s, i, And([a, b]))
    ensures ea == i + 1 + st.pad + LenT(st, a) && eb == ea + 5 + LenF(st, b)
    ensures i + LenF(st, And([a, b])) == eb + st.pad + 1 && i + 1 <= ea && ea + 5 <= eb < |s|
    ensures OpenIn(s, i) && AndIn(s, ea) && CloseIn(s, eb + st.pad)
    ensures SkipWS(s, i + 1) == i + 1 + st.pad && SkipWS(s, eb) == eb + st.pad
    ensures TermAt(d, st, s, i + 1 + st.pad, a) && FactorAt(d, st, s, ea + 5, b)
    ensures SkipWS(s, ea + 4) == ea + 5
  {
    ea, eb := FactorAndElim(d, st, s, i, a, b);
    FactorAndInside(d, st, s, i, a, b, ea, eb);
  }

  /** Inside a parenthesised `and`: each operand is laid out, comma-free and followed as an operand may be. */
  lemma {:induction false} FactorAndInside(d: Dialect, st: Style, s: string, i: nat, a: Requirement, b: Requirement, ea: nat, eb: nat)
    requires ea == i + 1 + st.pad + LenT(st, a) && eb == ea + 5 + LenF(st, b)
    requires OpenIn(s, i) && PadIn(st, s, i + 1) && LaidT(d, st, s, i + 1 + st.pad, a) && AndIn(s, ea)
    requires LaidF(d, st, s, ea + 5, b) && PadIn(st, s, eb) && CloseIn(s, eb + st.pad)
    requires NoComma(s, i, eb + st.pad + 1)
    ensures TermAt(d, st, s, i + 1 + st.pad, a) && FactorAt(d, st, s, ea + 5, b)
    ensures SkipWS(s, i + 1) == i + 1 + st.pad && SkipWS(s, eb) == eb + st.pad && SkipWS(s, ea + 4) == ea + 5
  {
    StartOfT(d, st, s, i + 1 + st.pad, a);
    StartOfF(d, st, s, ea + 5, b);
    ParenSkips(st, s, i, ea, eb, 5);
    NoCommaWithin(s, i, eb + st.pad + 1, i + 1 + st.pad, ea);
    NoCommaWithin(s, i, eb + st.pad + 1, ea + 5, eb);
  }

  /** Where the operands of an unparenthesised `and` sit, and what stands around each. */
  lemma {:induction false} TermAndLayout(d: Dialect, st: Style, s: string, i: nat, a: Requirement, b: Requirement) returns (ea: nat, e: nat)
    requires TermAt(d, st, s, i, And([a, b]))
    ensures ea == i + LenT(st, a) && e == ea + 5 + LenF(st, b) && e == i + LenT(st, And([a, b]))
    ensures TermAt(d, st, s, i, a) && AndIn(s, ea) && FactorAt(d, st, s, ea + 5, b) && ea + 5 < e <= |s|
    ensures SkipWS(s, ea + 4) == ea + 5
  {
    ea := TermAndElim(d, st, s, i, a, b);
    e := ea + 5 + LenF(st, b);
    TermAndInside(d, st, s, i, a, b, ea, e);
  }

  /** The operands of an unparenthesised `and`, comma-free and each followed as an operand may be. */
  lemma {:induction false} TermAndInside(d: Dialect, st: Style, s: string, i: nat, a: Requirement, b: Requirement, ea: nat, e: nat)
    requires ea == i + LenT(st, a) && e == ea + 5 + LenF(st, b)
    requires LaidT(d, st, s, i, a) && AndIn(s, ea) && LaidF(d, st, s, ea + 5, b)
    requires NoComma(s, i, e) && Follows(s, e)
    ensures TermAt(d, st, s, i, a) && FactorAt(d, st, s, ea + 5, b) && ea + 5 < e <= |s|
    ensures SkipWS(s, ea + 4) == ea + 5
  {
    StartOfF(d, st, s, ea + 5, b);
    AndInFacts(s, ea);
    OperandSkip(d, st, s, ea + 4, b);
    NoCommaWithin(s, i, e, i, ea);
    NoCommaWithin(s, i, e, ea + 5, e);
  }

  /** Where the operands of an unparenthesised `or` sit, and what stands around each. */
  lemma {:induction false} ExprOrLayout(d: Dialect, st: Style, s: string, i: nat, a: Requirement, b: Requirement) returns (ea: nat, e: nat)
    requires ExprAt(d, st, s, i, Or([a, b]))
    ensures ea == i + LenE(st, a) && e == ea + 4 + LenR(st, b) && e == i + LenE(st, Or([a, b]))
    ensures ExprAt(d, st, s, i, a) && OrIn(s, ea) && RightAt(d, st, s, ea + 4, b) && ea + 4 <= e <= |s|
    ensures !AndAt(s, SkipWS(s, e))
    ensures SkipWS(s, ea + 3) == ea + 4
  {
    ea := ExprOrElim(d, st, s, i, a, b);
    e := ea + 4 + LenR(st, b);
    ExprOrInside(d, st, s, i, a, b, ea, e);
  }

  /** The operands of an unparenthesised `or`, comma-free and each followed as an operand may be. */
  lemma {:induction false} ExprOrInside(d: Dialect, st: Style, s: string, i: nat, a: Requirement, b: Requirement, ea: nat, e: nat)
    requires ea == i + LenE(st, a) && e == ea + 4 + LenR(st, b)
    requires LaidE(d, st, s, i, a) && OrIn(s, ea) && LaidR(d, st, s, ea + 4, b)
    requires NoComma(s, i, e) && FollowsExpr(s, e)
    ensures ExprAt(d, st, s, i, a) && RightAt(d, st, s, ea + 4, b) && ea + 4 <= e <= |s|
    ensures SkipWS(s, ea + 3) == ea + 4
  {
    StartOfR(d, st, s, ea + 4, b);
    OrInFacts(s, ea);
    OperandSkip(d, st, s, ea + 3, b);
    NoCommaWithin(s, i, e, i, ea);
    NoCommaWithin(s, i, e, ea + 4, e);
  }

  /** A laid-out term, reached after blanks from `j`, reads back as its tree, with the term loop ready to go on. */
  lemma {:induction false} TermRT(d: Dialect, st: Style, s: string, j: nat, i: nat, t: Requirement)
    requires j <= i <= |s| && SkipWS(s, j) == i
    requires TermAt(d, st, s, i, t)
    ensures TermFrom(d, s, j) == TermTailFrom(d, s, t, i + LenT(st, t))
    decreases t, 6
  {
    if t.And? && |t.children| == 2 {
      var a, b := t.children[0], t.children[1];
      assert t == And([a, b]);
      TermAndRT(d, st, s, j, i, a, b);
    } else {
      TermOfOneFactor(d, st, s, j, i, t);
    }
  }

  /** A term that is not an `and` is a single laid-out factor. */
  lemma {:induction false} TermOfOneFactor(d: Dialect, st: Style, s: string, j: nat, i: nat, t: Requirement)
    requires j <= i <= |s| && SkipWS(s, j) == i
    requires TermAt(d, st, s, i, t) && !(t.And? && |t.children| == 2)
    ensures TermFrom(d, s, j) == TermTailFrom(d, s, t, i + LenT(st, t))
    decreases t, 5
  {
    assert LenT(st, t) == LenF(st, t);
    TermOfLaidFactor(d, st, s, j, i, t);
  }

  /** A term of one laid-out factor. */
  lemma {:induction false} TermOfLaidFactor(d: Dialect, st: Style, s: string, j: nat, i: nat, t: Requirement)
    requires j <= i <= |s| && SkipWS(s, j) == i
    requires FactorAt(d, st, s, i, t)
    ensures TermFrom(d, s, j) == TermTailFrom(d, s, t, i + LenF(st, t))
    decreases t, 4
  {
    var e := i + LenF(st, t);
    NoListAhead(d, s, i, e);
    FactorRT(d, st, s, i, i, t);
    TermOfFactor(d, s, j, i, t, e);
  }

  lemma {:induction false} TermAndRT(d: Dialect, st: Style, s: string, j: nat, i: nat, a: Requirement, b: Requirement)
    requires j <= i <= |s| && SkipWS(s, j) == i
    requires TermAt(d, st, s, i, And([a, b]))
    ensures TermFrom(d, s, j) == TermTailFrom(d, s, And([a, b]), i + LenT(st, And([a, b])))
    decreases And([a, b]), 2
  {
    var ea, e := TermAndLayout(d, st, s, i, a, b);
    TermAndOperands(d, st, s, j, i, a, b, ea, e);
  }

  lemma {:induction false} TermAndOperands(d: Dialect, st: Style, s: string, j: nat, i: nat, a: Requirement, b: Requirement, ea: nat, e: nat)
    requires j <= i <= |s| && SkipWS(s, j) == i && ea == i + LenT(st, a) && e == ea + 5 + LenF(st, b)
    requires TermAt(d, st, s, i, a) && AndIn(s, ea) && FactorAt(d, st, s, ea + 5, b) && ea + 5 < e <= |s|
    requires SkipWS(s, ea + 4) == ea + 5
    ensures TermFrom(d, s, j) == TermTailFrom(d, s, And([a, b]), e)
    decreases And([a, b]), 1
  {
    assert a in [a, b];
    TermRT(d, st, s, j, i, a);
    TermAndRight(d, st, s, j, a, b, ea, e);
  }

  lemma {:induction false} TermAndRight(d: Dialect, st: Style, s: string, j: nat, a: Requirement, b: Requirement, ea: nat, e: nat)
    requires j <= ea && e == ea + 5 + LenF(st, b) && AndIn(s, ea) && FactorAt(d, st, s, ea + 5, b) && ea + 5 < e <= |s|
    requires SkipWS(s, ea + 4) == ea + 5 && TermFrom(d, s, j) == TermTailFrom(d, s, a, ea)
    ensures TermFrom(d, s, j) == TermTailFrom(d, s, And([a, b]), e)
    decreases And([a, b]), 0
  {
    assert b in [a, b];
    FactorRT(d, st, s, ea + 4, ea + 5, b);
    TermAndMore(d, s, j, a, b, ea, e);
  }

  /** The right operand of an `or` reads back as a term, with the term loop ready to go on. */
  lemma {:induction false} RightRT(d: Dialect, st: Style, s: string, j: nat, i: nat, t: Requirement)
    requires j <= i <= |s| && SkipWS(s, j) == i
    requires RightAt(d, st, s, i, t)
    ensures TermFrom(d, s, j) == TermTailFrom(d, s, t, i + LenR(st, t))
    decreases t, 7
  {
    if st.groupAnd {
      TermOfLaidFactor(d, st, s, j, i, t);
    } else {
      TermRT(d, st, s, j, i, t);
    }
  }

  /** A laid-out expression, reached after blanks from `j`, reads back as its tree, with the expression loop ready to go on. */
  lemma {:induction false} ExprRT(d: Dialect, st: Style, s: string, j: nat, i: nat, t: Requirement)
    requires j <= i <= |s| && SkipWS(s, j) == i
    requires ExprAt(d, st, s, i, t)
    ensures ExprFrom(d, s, j) == ExprTailFrom(d, s, t, i + LenE(st, t))
    decreases t, 8
  {
    if t.Or? && |t.children| == 2 {
      var a, b := t.children[0], t.children[1];
      assert t == Or([a, b]);
      ExprOrRT(d, st, s, j, i, a, b);
    } else {
      ExprOfLaidTerm(d, st, s, j, i, t);
    }
  }

  /** An expression of one laid-out term. */
  lemma {:induction false} ExprOfLaidTerm(d: Dialect, st: Style, s: string, j: nat, i: nat, t: Requirement)
    requires j <= i <= |s| && SkipWS(s, j) == i
    requires ExprAt(d, st, s, i, t) && !(t.Or? && |t.children| == 2)
    ensures ExprFrom(d, s, j) == ExprTailFrom(d, s, t, i + LenE(st, t))
    decreases t, 7
  {
    var e := i + LenE(st, t);
    assert LenE(st, t) == LenT(st, t) && LaidT(d, st, s, i, t);
    TermRT(d, st, s, j, i, t);
    TermTailStops(d, s, t, e);
    ExprOfTerm(d, s, j, t, e);
  }

  lemma {:induction false} ExprOrRT(d: Dialect, st: Style, s: string, j: nat, i: nat, a: Requirement, b: Requirement)
    requires j <= i <= |s| && SkipWS(s, j) == i
    requires ExprAt(d, st, s, i, Or([a, b]))
    ensures ExprFrom(d, s, j) == ExprTailFrom(d, s, Or([a, b]), i + LenE(st, Or([a, b])))
    decreases Or([a, b]), 2
  {
    var ea, e := ExprOrLayout(d, st, s, i, a, b);
    ExprOrOperands(d, st, s, j, i, a, b, ea, e);
  }

  lemma {:induction false} ExprOrOperands(d: Dialect, st: Style, s: string, j: nat, i: nat, a: Requirement, b: Requirement, ea: nat, e: nat)
    requires j <= i <= |s| && SkipWS(s, j) == i && ea == i + LenE(st, a) && e == ea + 4 + LenR(st, b)
    requires ExprAt(d, st, s, i, a) && OrIn(s, ea) && RightAt(d, st, s, ea + 4, b) && ea + 4 <= e <= |s|
    requires !AndAt(s, SkipWS(s, e)) && SkipWS(s, ea + 3) == ea + 4
    ensures ExprFrom(d, s, j) == ExprTailFrom(d, s, Or([a, b]), e)
    decreases Or([a, b]), 1
  {
    assert a in [a, b];
    ExprRT(d, st, s, j, i, a);
    ExprOrRight(d, st, s, j, a, b, ea, e);
  }

  lemma {:induction false} ExprOrRight(d: Dialect, st: Style, s: string, j: nat, a: Requirement, b: Requirement, ea: nat, e: nat)
    requires j <= ea && e == ea + 4 + LenR(st, b) && OrIn(s, ea) && RightAt(d, st, s, ea + 4, b) && ea + 4 <= e <= |s|
    requires !AndAt(s, SkipWS(s, e)) && SkipWS(s, ea + 3) == ea + 4 && ExprFrom(d, s, j) == ExprTailFrom(d, s, a, ea)
    ensures ExprFrom(d, s, j) == ExprTailFrom(d, s, Or([a, b]), e)
    decreases Or([a, b]), 0
  {
    assert b in [a, b];
    RightRT(d, st, s, ea + 3, ea + 4, b);
    ExprOrMore(d, s, j, a, b, ea, e);
  }

  /** Printed text followed by blanks: the text sits at the start and the blanks run to the end. */
  lemma {:induction false} TrailingBlanks(w: string, trailing: string)
    requires forall k :: 0 <= k < |trailing| ==> IsWS(trailing[k])
    ensures Placed(w + trailing, 0, w) && SkipWS(w + trailing, |w|) == |w + trailing|
  {
    var s := w + trailing;
    assert Placed(s, 0, w) by {
      forall k | 0 <= k < |w| ensures s[k] == w[k] {
      }
    }
    forall k | |w| <= k < |s| ensures IsWS(s[k]) {
      assert s[k] == trailing[k - |w|];
    }
    SkipToEnd(s, |w|);
  }

  lemma {:induction false} SkipToEnd(s: string, k: nat)
    requires k <= |s| && forall q :: k <= q < |s| ==> IsWS(s[q])
    ensures SkipWS(s, k) == |s|
    decreases |s| - k
  {
    if k < |s| {
      SkipToEnd(s, k + 1);
    }
  }

  /**
   * Round trip: the printed form of every tree the printer can write, in any
   * style and with any trailing whitespace, parses back to that tree, in either
   * grammar.
   */
  lemma {:induction false} RoundTrip(d: Dialect, st: Style, t: Requirement, trailing: string)
    requires ValidStyle(st) && Renderable(d, t)
    requires forall k :: 0 <= k < |trailing| ==> IsWS(trailing[k])
    ensures ParseAll(d, RenderExpr(st, t) + trailing) == Some(t)
  {
    var w := RenderExpr(st, t);
    var s := w + trailing;
    TrailingBlanks(w, trailing);
    RenderChars(d, st, t);
    PlacedNoComma(s, 0, w);
    ExprLaid(d, st, s, 0, t);
    StartOfE(d, st, s, 0, t);
    SkipNone(s, 0);
    ExprRT(d, st, s, 0, 0, t);
    ExprTailStops(d, s, t, |w|);
  }
}

/**
 * The requirement-expression grammar shared by the two requirement parsers, as a
 * deterministic recursive-descent parser over the characters of the text:
 *
 *     expr   := term | expr OR term                       (left-associative)
 *     term   := factor | term AND factor | course_list    (course_list: current grammar only)
 *     factor := identifier | "(" expr ")"
 *
 * Whitespace between tokens is ignored. Each terminal is matched greedily at the
 * position the grammar expects it, as the Earley parser's dynamic lexer does: an
 * operator may therefore be a prefix of a longer word ("A order" is `A or der`).
 * A part identifier ("Part", spaces, a letter, and in the current grammar dotted
 * numbers) competes with a course code for the word "Part"; it is taken exactly
 * when what follows it could follow an operand, which is the only way either
 * reading can lead to a complete parse.
 */
module ReqsGrammar {
  import opened Wrappers
  import opened PyText

  /** The requirement tree both transformers build. */
  datatype Requirement =
    | Or(children: seq<Requirement>)
    | And(children: seq<Requirement>)
    | Atomic(value: string)
    | Other(value: string)

  /**
   * `Current` is the grammar of the parser with error recovery; `keepList` says
   * whether a comma course list keeps its codes. `Legacy` is the older grammar.
   */
  datatype Dialect = Current(keepList: bool) | Legacy

  // ---------------------------------------------------------------------------
  // Characters and greedy runs

  /** Lark's `common.WS`, the ignored separator. */
  predicate IsWS(c: char) {
    c == ' ' || c == '\t' || c == '\n' || c == '\r' || c == '\U{C}'
  }

  /**
   * The spaces inside a part identifier: `\s` in the current grammar, which on ASCII
   * is exactly `str.isspace`, and `WS` in the older one.
   */
  predicate IsPartSpace(d: Dialect, c: char) {
    IsWS(c) || (d.Current? && IsSpace(c))
  }

  /** The characters of `\w`, against which `\b` is decided. */
  predicate IsWordChar(c: char) {
    IsAsciiAlnum(c) || c == '_'
  }

  // The character classes at a position of the text. Each greedy run below states
  // its whole extent through one of these, so that its facts are drawn on only
  // where a proof asks about that position.

  predicate WSAt(s: string, k: nat) {
    k < |s| && IsWS(s[k])
  }

  predicate AlnumAt(s: string, k: nat) {
    k < |s| && IsAsciiAlnum(s[k])
  }

  predicate DigitAt(s: string, k: nat) {
    k < |s| && IsDigit(s[k])
  }

  predicate PartSpaceAt(d: Dialect, s: string, k: nat) {
    k < |s| && IsPartSpace(d, s[k])
  }

  function SkipWS(s: string, i: nat): (j: nat)
    requires i <= |s|
    ensures i <= j <= |s| && (j == |s| || !IsWS(s[j]))
    ensures forall k :: i <= k < j ==> WSAt(s, k)
    decreases |s| - i
  {
    if i < |s| && IsWS(s[i]) then SkipWS(s, i + 1) else i
  }

  function AlnumEnd(s: string, i: nat): (j: nat)
    requires i <= |s|
    ensures i <= j <= |s| && (j == |s| || !IsAsciiAlnum(s[j]))
    ensures forall k :: i <= k < j ==> AlnumAt(s, k)
    decreases |s| - i
  {
    if i < |s| && IsAsciiAlnum(s[i]) then AlnumEnd(s, i + 1) else i
  }

  function DigitsEnd(s: string, i: nat): (j: nat)
    requires i <= |s|
    ensures i <= j <= |s| && (j == |s| || !IsDigit(s[j]))
    ensures forall k :: i <= k < j ==> DigitAt(s, k)
    decreases |s| - i
  {
    if i < |s| && IsDigit(s[i]) then DigitsEnd(s, i + 1) else i
  }

  function PartSpaceEnd(d: Dialect, s: string, i: nat): (j: nat)
    requires i <= |s|
    ensures i <= j <= |s| && (j == |s| || !IsPartSpace(d, s[j]))
    ensures forall k :: i <= k < j ==> PartSpaceAt(d, s, k)
    decreases |s| - i
  {
    if i < |s| && IsPartSpace(d, s[i]) then PartSpaceEnd(d, s, i + 1) else i
  }

  /** `(?:\.\d+)*`, greedy: a dot is taken only together with the digits after it. */
  function DottedEnd(s: string, i: nat): (j: nat)
    requires i <= |s|
    ensures i <= j <= |s|
    ensures j == |s| || s[j] != '.' || j + 1 == |s| || !IsDigit(s[j + 1])
    decreases |s| - i
  {
    if i + 1 < |s| && s[i] == '.' && IsDigit(s[i + 1]) then DottedEnd(s, DigitsEnd(s, i + 1)) else i
  }

  /** The text at `i` spells `or`, ignoring case (`/or/i`). */
  predicate OrAt(s: string, i: nat) {
    i + 2 <= |s| && LowerChar(s[i]) == 'o' && LowerChar(s[i + 1]) == 'r'
  }

  /** The text at `i` spells `and`, ignoring case (`/and/i`). */
  predicate AndAt(s: string, i: nat) {
    i + 3 <= |s| && LowerChar(s[i]) == 'a' && LowerChar(s[i + 1]) == 'n' && LowerChar(s[i + 2]) == 'd'
  }

  /** The end of the text or a non-word character at `j`: `\b` after a word. */
  predicate WordEnds(s: string, j: nat) {
    j >= |s| || !IsWordChar(s[j])
  }

  /**
   * The text `s[p..e]` of a token, one character at a time; the parser builds
   * its leaves from it.
   */
  function Lexeme(s: string, p: nat, e: nat): (w: string)
    requires p <= e <= |s|
    ensures |w| == e - p
    decreases e - p
  {
    if p == e then "" else Lexeme(s, p, e - 1) + [s[e - 1]]
  }

  lemma {:induction false} LexemeIsSlice(s: string, p: nat, e: nat)
    requires p <= e <= |s|
    ensures Lexeme(s, p, e) == s[p..e]
    decreases e - p
  {
    if p < e {
      LexemeIsSlice(s, p, e - 1);
      assert s[p..e] == s[p..e - 1] + [s[e - 1]];
    }
  }

  // ---------------------------------------------------------------------------
  // Terminals

  /** COURSE_CODE at `i`; in the current grammar it may not be the word `or` or `and`. */
  function CourseCodeAt(d: Dialect, s: string, i: nat): (r: Option<nat>)
    requires i <= |s|
    ensures r.Some? ==> i < r.value <= |s|
  {
    if i < |s| && IsAsciiAlnum(s[i]) && (d.Legacy? || (!(OrAt(s, i) && WordEnds(s, i + 2)) && !(AndAt(s, i) && WordEnds(s, i + 3))))
    then Some(AlnumEnd(s, i))
    else None
  }

  /** PART_PATTERN at `i`: "Part", spaces, a letter and (current grammar) dotted numbers. */
  function PartAt(d: Dialect, s: string, i: nat): (r: Option<nat>)
    requires i <= |s|
    ensures r.Some? ==> i + 6 <= r.value <= |s|
  {
    if i + 4 <= |s| && s[i] == 'P' && s[i + 1] == 'a' && s[i + 2] == 'r' && s[i + 3] == 't' then
      var j := PartSpaceEnd(d, s, i + 4);
      if j > i + 4 && j < |s| && IsAsciiAlpha(s[j]) then Some(if d.Legacy? then j + 1 else DottedEnd(s, j + 1))
      else None
    else None
  }

  /** What may follow an operand: the end, a closing parenthesis or an operator. */
  predicate OperandFollows(s: string, i: nat)
    requires i <= |s|
  {
    var q := SkipWS(s, i);
    q == |s| || s[q] == ')' || OrAt(s, q) || AndAt(s, q)
  }

  /** The identifier at `i`: a part identifier when it can be followed, otherwise a course code. */
  function IdentifierAt(d: Dialect, s: string, i: nat): (r: Option<nat>)
    requires i <= |s|
    ensures r.Some? ==> i < r.value <= |s|
  {
    match PartAt(d, s, i)
    case Some(e) => if OperandFollows(s, e) then Some(e) else CourseCodeAt(d, s, i)
    case None => CourseCodeAt(d, s, i)
  }

  /** A course code followed by a comma starts a course list. */
  predicate ListAhead(d: Dialect, s: string, p: nat)
    requires p <= |s|
  {
    match CourseCodeAt(d, s, p)
    case Some(e) => var q := SkipWS(s, e); q < |s| && s[q] == ','
    case None => false
  }

  // ---------------------------------------------------------------------------
  // The transformer's nodes

  /** `and_expr` over the requirement children it keeps: a lone child stands for itself. */
  function AndNode(children: seq<Requirement>): (r: Requirement)
    ensures |children| == 1 ==> r == children[0]
    ensures |children| != 1 ==> r == And(children)
  {
    if |children| == 1 then children[0] else And(children)
  }

  function OrNode(children: seq<Requirement>): (r: Requirement)
    ensures |children| == 1 ==> r == children[0]
    ensures |children| != 1 ==> r == Or(children)
  {
    if |children| == 1 then children[0] else Or(children)
  }

  function Atoms(codes: seq<string>): (r: seq<Requirement>)
    ensures |r| == |codes| && forall k :: 0 <= k < |codes| ==> r[k] == Atomic(codes[k])
  {
    seq(|codes|, k requires 0 <= k < |codes| => Atomic(codes[k]))
  }

  /**
   * A course list reaches `and_expr` as a single subtree that is not a requirement,
   * so as written no child survives; with `keepList` each code becomes an atom.
   */
  function ListNode(d: Dialect, codes: seq<string>): Requirement {
    if d.Current? && d.keepList then AndNode(Atoms(codes)) else AndNode([])
  }

  /**
   * The trees the parser can build: binary operator nodes over shaped children,
   * non-empty atoms, no OTHER node, and (current grammar) course-list nodes, which
   * are empty as written and hold at least two atoms when the list is kept.
   */
  predicate Shaped(d: Dialect, t: Requirement) {
    match t
    case Atomic(v) => v != ""
    case Other(_) => false
    case Or(cs) => |cs| == 2 && Shaped(d, cs[0]) && Shaped(d, cs[1])
    case And(cs) => (|cs| == 2 && Shaped(d, cs[0]) && Shaped(d, cs[1])) || (d.Current? && IsListNode(d, cs))
  }

  predicate IsListNode(d: Dialect, cs: seq<Requirement>) {
    if d.Current? && d.keepList then |cs| >= 2 && forall k :: 0 <= k < |cs| ==> cs[k].Atomic? && cs[k].value != ""
    else cs == []
  }

  predicate NonEmptyCodes(codes: seq<string>) {
    forall k :: 0 <= k < |codes| ==> codes[k] != ""
  }

  // ---------------------------------------------------------------------------
  // The parser. Each function starts at position `i` and returns the tree and the
  // position after it, or NoParse where the grammar admits no parse.

  /** What a parsing function returns: the tree and where it ends, or no parse. */
  datatype Parse = NoParse | Parsed(tree: Requirement, end: nat)

  /** The codes of a course list so far and where they end, or no list. */
  datatype CodeList = NoCodes | Codes(codes: seq<string>, end: nat)

  function Factor(d: Dialect, s: string, i: nat): (r: Parse)
    requires i <= |s|
    ensures r.Parsed? ==> i < r.end <= |s|
    decreases |s| - i, 0
  {
    var p := SkipWS(s, i);
    if p < |s| && s[p] == '(' then
      match Expr(d, s, p + 1)
      case NoParse => NoParse
      case Parsed(e, j) =>
        var q := SkipWS(s, j);
        if q < |s| && s[q] == ')' then Parsed(e, q + 1) else NoParse
    else
      match IdentifierAt(d, s, p)
      case None => NoParse
      case Some(e) => Parsed(Atomic(Lexeme(s, p, e)), e)
  }

  /** `COURSE_CODE ("," COURSE_CODE)+`, after its first code. */
  function ListMore(d: Dialect, s: string, codes: seq<string>, i: nat): (r: CodeList)
    requires i <= |s|
    ensures r.Codes? ==> i <= r.end <= |s| && |r.codes| >= |codes|
    ensures r.Codes? && NonEmptyCodes(codes) ==> NonEmptyCodes(r.codes)
    ensures r.Codes? && SkipWS(s, i) < |s| && s[SkipWS(s, i)] == ',' ==> |r.codes| > |codes|
    decreases |s| - i
  {
    var q := SkipWS(s, i);
    if q < |s| && s[q] == ',' then
      var p := SkipWS(s, q + 1);
      match CourseCodeAt(d, s, p)
      case None => NoCodes
      case Some(e) => ListMore(d, s, codes + [Lexeme(s, p, e)], e)
    else Codes(codes, i)
  }

  function Term(d: Dialect, s: string, i: nat): (r: Parse)
    requires i <= |s|
    ensures r.Parsed? ==> i < r.end <= |s|
    decreases |s| - i, 1
  {
    var p := SkipWS(s, i);
    if d.Current? && ListAhead(d, s, p) then
      var e := CourseCodeAt(d, s, p).value;
      match ListMore(d, s, [Lexeme(s, p, e)], e)
      case NoCodes => NoParse
      case Codes(codes, j) => TermTail(d, s, ListNode(d, codes), j)
    else
      match Factor(d, s, p)
      case NoParse => NoParse
      case Parsed(f, j) => TermTail(d, s, f, j)
  }

  /** `term AND factor`, repeated: each operator nests the tree so far as the left child. */
  function TermTail(d: Dialect, s: string, acc: Requirement, i: nat): (r: Parse)
    requires i <= |s|
    ensures r.Parsed? ==> i <= r.end <= |s|
    decreases |s| - i, 2
  {
    var q := SkipWS(s, i);
    if AndAt(s, q) then
      match Factor(d, s, q + 3)
      case NoParse => NoParse
      case Parsed(f, j) => TermTail(d, s, AndNode([acc, f]), j)
    else Parsed(acc, i)
  }

  function Expr(d: Dialect, s: string, i: nat): (r: Parse)
    requires i <= |s|
    ensures r.Parsed? ==> i < r.end <= |s|
    decreases |s| - i, 3
  {
    match Term(d, s, i)
    case NoParse => NoParse
    case Parsed(t, j) => ExprTail(d, s, t, j)
  }

  /** `expr OR term`, repeated, nesting to the left. */
  function ExprTail(d: Dialect, s: string, acc: Requirement, i: nat): (r: Parse)
    requires i <= |s|
    ensures r.Parsed? ==> i <= r.end <= |s|
    decreases |s| - i, 4
  {
    var q := SkipWS(s, i);
    if OrAt(s, q) then
      match Term(d, s, q + 2)
      case NoParse => NoParse
      case Parsed(t, j) => ExprTail(d, s, OrNode([acc, t]), j)
    else Parsed(acc, i)
  }

  /** The whole text as one expression, with nothing but whitespace after it. */
  function ParseAll(d: Dialect, s: string): (r: Option<Requirement>) {
    match Expr(d, s, 0)
    case NoParse => None
    case Parsed(t, j) => if SkipWS(s, j) == |s| then Some(t) else None
  }

  // What the parser builds

  lemma {:induction false} FactorShaped(d: Dialect, s: string, i: nat)
    requires i <= |s|
    ensures Factor(d, s, i).Parsed? ==> Shaped(d, Factor(d, s, i).tree)
    decreases |s| - i, 0
  {
    var p := SkipWS(s, i);
    if p < |s| && s[p] == '(' {
      ExprShaped(d, s, p + 1);
    }
  }

  lemma {:induction false} TermShaped(d: Dialect, s: string, i: nat)
    requires i <= |s|
    ensures Term(d, s, i).Parsed? ==> Shaped(d, Term(d, s, i).tree)
    decreases |s| - i, 1
  {
    var p := SkipWS(s, i);
    if d.Current? && ListAhead(d, s, p) {
      var e := CourseCodeAt(d, s, p).value;
      match ListMore(d, s, [Lexeme(s, p, e)], e)
      case NoCodes =>
      case Codes(codes, j) =>
        assert NonEmptyCodes([Lexeme(s, p, e)]);
        if d.keepList {
          assert forall k :: 0 <= k < |codes| ==> Atoms(codes)[k] == Atomic(codes[k]);
        }
        TermTailShaped(d, s, ListNode(d, codes), j);
    } else {
      FactorShaped(d, s, p);
      match Factor(d, s, p)
      case NoParse =>
      case Parsed(f, j) => TermTailShaped(d, s, f, j);
    }
  }

  lemma {:induction false} TermTailShaped(d: Dialect, s: string, acc: Requirement, i: nat)
    requires i <= |s| && Shaped(d, acc)
    ensures TermTail(d, s, acc, i).Parsed? ==> Shaped(d, TermTail(d, s, acc, i).tree)
    decreases |s| - i, 2
  {
    var q := SkipWS(s, i);
    if AndAt(s, q) {
      FactorShaped(d, s, q + 3);
      match Factor(d, s, q + 3)
      case NoParse =>
      case Parsed(f, j) => TermTailShaped(d, s, AndNode([acc, f]), j);
    }
  }

  lemma {:induction false} ExprShaped(d: Dialect, s: string, i: nat)
    requires i <= |s|
    ensures Expr(d, s, i).Parsed? ==> Shaped(d, Expr(d, s, i).tree)
    decreases |s| - i, 3
  {
    TermShaped(d, s, i);
    match Term(d, s, i)
    case NoParse =>
    case Parsed(t, j) => ExprTailShaped(d, s, t, j);
  }

  lemma {:induction false} ExprTailShaped(d: Dialect, s: string, acc: Requirement, i: nat)
    requires i <= |s| && Shaped(d, acc)
    ensures ExprTail(d, s, acc, i).Parsed? ==> Shaped(d, ExprTail(d, s, acc, i).tree)
    decreases |s| - i, 4
  {
    var q := SkipWS(s, i);
    if OrAt(s, q) {
      TermShaped(d, s, q + 2);
      match Term(d, s, q + 2)
      case NoParse =>
      case Parsed(t, j) => ExprTailShaped(d, s, OrNode([acc, t]), j);
    }
  }

  /** Every tree the parser returns is shaped: binary nodes over non-empty atoms, or course-list nodes. */
  lemma {:induction false} ParseAllShaped(d: Dialect, s: string)
    ensures ParseAll(d, s).Some? ==> Shaped(d, ParseAll(d, s).value)
  {
    ExprShaped(d, s, 0);
  }
}

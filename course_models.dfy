/**
 * `ScrapedCourse.code_parts`: a course code splits at its first digit into the
 * category letters and the number ("CSSE2310" into "CSSE" and "2310").
 */
module CourseModels {
  import opened PyText

  /** The index of the first digit at or after `i`, or the length when there is none. */
  function FirstDigit(code: string, i: nat): (k: nat)
    requires i <= |code|
    ensures i <= k <= |code| && (k < |code| ==> IsDigit(code[k]))
    ensures forall m :: i <= m < k ==> !IsDigit(code[m])
    decreases |code| - i
  {
    if i == |code| || IsDigit(code[i]) then i else FirstDigit(code, i + 1)
  }

  /**
   * The code cut before its first digit: the two parts make up the code, the
   * first holds no digit and the second is empty or starts with a digit.
   */
  function CodeParts(code: string): (r: (string, string))
    ensures r.0 + r.1 == code
    ensures forall m :: 0 <= m < |r.0| ==> !IsDigit(r.0[m])
    ensures r.1 == [] || IsDigit(r.1[0])
  {
    var k := FirstDigit(code, 0);
    assert code[..k] + code[k..] == code;
    (code[..k], code[k..])
  }

  /** `code_parts` with its loop: the first digit ends the category letters. */
  method ComputeCodeParts(code: string) returns (r: (string, string))
    ensures r == CodeParts(code)
  {
    var i := 0;
    while i < |code|
      invariant 0 <= i <= |code| && FirstDigit(code, i) == FirstDigit(code, 0)
    {
      if IsDigit(code[i]) {
        return (code[..i], code[i..]);
      }
      i := i + 1;
    }
    assert code[..|code|] == code;
    return (code, "");
  }

  /** Those three facts pin the split down: no other cut satisfies them. */
  lemma {:induction false} CodePartsUnique(code: string, p: string, s: string)
    requires p + s == code
    requires forall m :: 0 <= m < |p| ==> !IsDigit(p[m])
    requires s == [] || IsDigit(s[0])
    ensures CodeParts(code) == (p, s)
  {
    var r := CodeParts(code);
    assert s != [] ==> code[|p|] == s[0];
    assert |r.0| < |code| ==> code[|r.0|] == r.1[0];
    if |r.0| < |p| {
      assert false;
    } else if |r.0| > |p| {
      assert false;
    }
    assert r.0 == code[..|r.0|] && p == code[..|p|];
    assert r.1 == code[|r.0|..] && s == code[|p|..];
  }

  /** A code without a digit is all category: `(code, "")`. */
  lemma {:induction false} CodePartsNoDigit(code: string)
    requires forall m :: 0 <= m < |code| ==> !IsDigit(code[m])
    ensures CodeParts(code) == (code, "")
  {
    assert code + "" == code;
    CodePartsUnique(code, code, "");
  }

  /** The documented example. */
  lemma {:induction false} CodePartsExample()
    ensures CodeParts("CSSE2310") == ("CSSE", "2310")
  {
    assert "CSSE" + "2310" == "CSSE2310";
    CodePartsUnique("CSSE2310", "CSSE", "2310");
  }
}

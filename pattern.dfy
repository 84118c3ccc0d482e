/**
 * The `*` wildcard of `keys(pattern)` (src/index.ts:177-180). The source
 * builds a regular expression anchored at both ends in which every `*` of the
 * pattern becomes `.*`, which matches any run of characters other than JavaScript's
 * line terminators, and the match must cover the whole key. Every other
 * character of the pattern is handed to the regular-expression engine as is;
 * this model covers patterns in which those characters stand for themselves.
 */
module Pattern {

  /** The characters JavaScript's `.` does not match. */
  predicate IsLineTerminator(c: char) {
    c == '\n' || c == '\r' || c == '\U{2028}' || c == '\U{2029}'
  }

  /** Characters that a JavaScript regular expression reads as syntax. */
  predicate IsRegexSyntax(c: char) {
    c in "\\^$.|?+()[]{}"
  }

  /** A pattern whose characters other than `*` stand for themselves. */
  predicate PlainPattern(p: string) {
    forall i :: 0 <= i < |p| ==> !IsRegexSyntax(p[i])
  }

  /** `s` matches `p` from start to end, each `*` standing for any run without line terminators. */
  predicate GlobMatch(p: string, s: string)
    decreases |p| + |s|
  {
    if p == [] then s == []
    else if p[0] == '*' then
      GlobMatch(p[1..], s) || (s != [] && !IsLineTerminator(s[0]) && GlobMatch(p, s[1..]))
    else s != [] && s[0] == p[0] && GlobMatch(p[1..], s[1..])
  }

  /** A pattern without `*` matches exactly the key spelled the same way. */
  lemma {:induction false} LiteralMatch(p: string, s: string)
    requires '*' !in p
    ensures GlobMatch(p, s) <==> s == p
  {
    if p != [] && s != [] {
      assert '*' !in p[1..] by {
        forall i | 0 <= i < |p[1..]| ensures p[1..][i] != '*' {
          assert p[1..][i] == p[i + 1];
        }
      }
      LiteralMatch(p[1..], s[1..]);
      if s[0] == p[0] && s[1..] == p[1..] {
        assert s == [s[0]] + s[1..] && p == [p[0]] + p[1..];
      }
    }
  }

  /** The pattern `*` matches every key that holds no line terminator. */
  lemma {:induction false} StarMatch(s: string)
    ensures GlobMatch("*", s) <==> forall i :: 0 <= i < |s| ==> !IsLineTerminator(s[i])
  {
    assert "*"[1..] == [];
    if s != [] {
      StarMatch(s[1..]);
      assert forall i :: 1 <= i < |s| ==> s[i] == s[1..][i - 1];
    }
  }
}

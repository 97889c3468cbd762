/**
 * Character classes and a matcher for fixed-length patterns.
 *
 * Every regular expression the listener uses, once its alternatives are
 * split apart, is a sequence of single-character tests: a literal character
 * (case-sensitive), a literal character under the non-unicode `i` flag
 * (folded over ASCII only, because ECMAScript's Canonicalize leaves a
 * non-ASCII character alone when its upper case is ASCII), or `\s`.
 */
module Text {

  /** ASCII upper-case letter. */
  predicate IsUpper(c: char) { 'A' <= c <= 'Z' }

  /** `\d`: an ASCII decimal digit. */
  predicate IsDigit(c: char) { '0' <= c <= '9' }

  /** `[a-z0-9]` under the `i` flag: an ASCII letter of either case or a digit. */
  predicate IsAlnum(c: char) { 'a' <= c <= 'z' || 'A' <= c <= 'Z' || IsDigit(c) }

  /** `[a-z0-9-]` under the `i` flag. */
  predicate IsSlugChar(c: char) { IsAlnum(c) || c == '-' }

  /** `\s`: ECMAScript WhiteSpace and LineTerminator code points. */
  predicate IsSpace(c: char) {
    var n := c as int;
    n == 0x09 || n == 0x0A || n == 0x0B || n == 0x0C || n == 0x0D || n == 0x20 ||
    n == 0xA0 || n == 0x1680 || (0x2000 <= n <= 0x200A) || n == 0x2028 ||
    n == 0x2029 || n == 0x202F || n == 0x205F || n == 0x3000 || n == 0xFEFF
  }

  /** Lower-cases ASCII letters and leaves every other character alone. */
  function AsciiLower(c: char): (d: char)
    ensures IsUpper(c) ==> d as int == c as int + 32
    ensures !IsUpper(c) ==> d == c
    ensures !IsUpper(d)
  {
    if IsUpper(c) then (c as int + 32) as char else c
  }

  function Lower(s: string): (t: string)
    ensures |t| == |s|
    ensures forall k :: 0 <= k < |s| ==> t[k] == AsciiLower(s[k])
  {
    seq(|s|, k requires 0 <= k < |s| => AsciiLower(s[k]))
  }

  datatype Atom = Exact(c: char) | Folded(c: char) | Space

  type Pattern = seq<Atom>

  predicate AtomMatches(a: Atom, c: char) {
    match a
    case Exact(x) => c == x
    case Folded(x) => AsciiLower(c) == AsciiLower(x)
    case Space => IsSpace(c)
  }

  /** The pattern that matches `w` exactly. */
  function Exacts(w: string): (p: Pattern)
    ensures |p| == |w|
    ensures forall k :: 0 <= k < |w| ==> p[k] == Exact(w[k])
  {
    seq(|w|, k requires 0 <= k < |w| => Exact(w[k]))
  }

  /** The pattern that matches `w` ignoring ASCII case. */
  function Folds(w: string): (p: Pattern)
    ensures |p| == |w|
    ensures forall k :: 0 <= k < |w| ==> p[k] == Folded(w[k])
  {
    seq(|w|, k requires 0 <= k < |w| => Folded(w[k]))
  }

  /** `\s` + p + `\s`. */
  function Spaced(p: Pattern): (q: Pattern)
    ensures |q| == |p| + 2 && q[0] == Space && q[|q| - 1] == Space
    ensures q[1..|q| - 1] == p
  {
    [Space] + p + [Space]
  }

  /** `p` matches `s` at position `i`. */
  predicate MatchesAt(s: string, i: nat, p: Pattern) {
    i + |p| <= |s| && forall k :: 0 <= k < |p| ==> AtomMatches(p[k], s[i + k])
  }

  /** `p` matches `s` somewhere: what `RegExp.prototype.test` answers for it. */
  predicate Occurs(s: string, p: Pattern) {
    exists i: nat :: i <= |s| - |p| && MatchesAt(s, i, p)
  }

  /** `w` at position `i` of `s`, ignoring ASCII case. */
  predicate FoldedAt(s: string, i: nat, w: string) {
    i + |w| <= |s| && forall k :: 0 <= k < |w| ==> AsciiLower(s[i + k]) == AsciiLower(w[k])
  }

  /** `w` at position `i` of `s`, exactly. */
  predicate ExactAt(s: string, i: nat, w: string) {
    i + |w| <= |s| && s[i..i + |w|] == w
  }

  /** Length of the longest run of characters of `s`, from position `k` on, in the class `inClass`. */
  function Run(s: string, k: nat, inClass: char -> bool): (n: nat)
    requires k <= |s|
    ensures k + n <= |s|
    ensures forall j :: k <= j < k + n ==> inClass(s[j])
    ensures k + n == |s| || !inClass(s[k + n])
    decreases |s| - k
  {
    if k < |s| && inClass(s[k]) then 1 + Run(s, k + 1, inClass) else 0
  }

  /** A pattern with no case-sensitive atom. */
  predicate CaseBlind(p: Pattern) {
    forall k :: 0 <= k < |p| ==> !p[k].Exact?
  }

  /** A pattern with a case-sensitive upper-case letter in it. */
  predicate NeedsUpper(p: Pattern) {
    exists k :: 0 <= k < |p| && p[k].Exact? && IsUpper(p[k].c)
  }

  /** A pattern built without case-sensitive atoms is blind to ASCII case. */
  lemma {:induction false} CaseBlindIgnoresCase(s: string, p: Pattern)
    requires CaseBlind(p)
    ensures Occurs(s, p) <==> Occurs(Lower(s), p)
  {
    var t := Lower(s);
    forall i: nat | i <= |s| - |p|
      ensures MatchesAt(s, i, p) <==> MatchesAt(t, i, p)
    {
      if i + |p| <= |s| {
        forall k | 0 <= k < |p|
          ensures AtomMatches(p[k], s[i + k]) <==> AtomMatches(p[k], t[i + k])
        {
          var c := s[i + k];
          assert t[i + k] == AsciiLower(c);
          assert AsciiLower(AsciiLower(c)) == AsciiLower(c);
          assert IsSpace(AsciiLower(c)) <==> IsSpace(c);
        }
      }
    }
    if Occurs(s, p) {
      var i: nat :| i <= |s| - |p| && MatchesAt(s, i, p);
      assert MatchesAt(t, i, p);
    }
    if Occurs(t, p) {
      var i: nat :| i <= |t| - |p| && MatchesAt(t, i, p);
      assert MatchesAt(s, i, p);
    }
  }

  /** A pattern with a case-sensitive upper-case letter never matches a text without one. */
  lemma {:induction false} NeedsUpperMissesLowerText(s: string, p: Pattern)
    requires NeedsUpper(p)
    requires forall k :: 0 <= k < |s| ==> !IsUpper(s[k])
    ensures !Occurs(s, p)
  {
    var k :| 0 <= k < |p| && p[k].Exact? && IsUpper(p[k].c);
    forall i: nat | i <= |s| - |p|
      ensures !MatchesAt(s, i, p)
    {
      if i + |p| <= |s| {
        assert !AtomMatches(p[k], s[i + k]);
      }
    }
  }

  /** A pattern longer than the text never matches it. */
  lemma TooLongMisses(s: string, p: Pattern)
    requires |s| < |p|
    ensures !Occurs(s, p)
  {
  }
}

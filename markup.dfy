/**
 * The two regular expressions of the listener that read the fetched
 * markup and that the model spells out: the embedded campaign link of
 * `fetchContents` (index.js, line 88) and the entrant count of the handler
 * (index.js, line 19). `exec` finds the leftmost position at which the
 * expression matches and returns the capture group asked for.
 */
module Markup {
  import opened Wrappers
  import opened Text

  datatype Scanner =
    | GleamLink     // /(href|src)="https:\/\/gleam\.io\/(([a-z0-9]+?)\/([a-z0-9-]+?))"/gmi, group 2
    | EntryCount    // /initEntryCount\((\d+)\)/, group 1

  /** The two openings of the link expression, matched ignoring case; and that of the count, matched exactly. */
  const LinkOpening: string := "href=\"https://gleam.io/"
  const SrcOpening: string := "src=\"https://gleam.io/"
  const EntryCountOpening: string := "initEntryCount("

  /** Where the fixed opening of the expression ends, when it starts at `i`. */
  function OpeningEnd(sc: Scanner, s: string, i: nat): (r: Option<nat>)
    requires i <= |s|
    ensures r.Some? ==> i < r.value <= |s|
  {
    match sc
    case GleamLink =>
      if FoldedAt(s, i, LinkOpening) then Some(i + |LinkOpening|)
      else if FoldedAt(s, i, SrcOpening) then Some(i + |SrcOpening|)
      else None
    case EntryCount =>
      if ExactAt(s, i, EntryCountOpening) then Some(i + |EntryCountOpening|) else None
  }

  /**
   * The `<group>/<slug>` of a link whose opening ends at `j`. Each lazy class
   * run is followed by a character outside its class, so the run the
   * expression takes is the longest one.
   */
  function LinkAfter(s: string, j: nat): Option<string>
    requires j <= |s|
  {
    var a := Run(s, j, IsAlnum);
    if a == 0 || j + a == |s| || s[j + a] != '/' then None
    else
      var k := j + a + 1;
      var b := Run(s, k, IsSlugChar);
      if b == 0 || k + b == |s| || s[k + b] != '"' then None
      else Some(s[j..k + b])
  }

  /** The digits of an entrant count whose opening ends at `j`, up to the closing parenthesis. */
  function CountAfter(s: string, j: nat): Option<string>
    requires j <= |s|
  {
    var d := Run(s, j, IsDigit);
    if d == 0 || j + d == |s| || s[j + d] != ')' then None
    else Some(s[j..j + d])
  }

  /** The capture when the expression matches at exactly position `i`. */
  function CaptureAt(sc: Scanner, s: string, i: nat): Option<string>
    requires i <= |s|
  {
    match OpeningEnd(sc, s, i)
    case None => None
    case Some(j) =>
      match sc
      case GleamLink => LinkAfter(s, j)
      case EntryCount => CountAfter(s, j)
  }

  /** The first present entry of `cs` from index `from` on. */
  function Leftmost(cs: seq<Option<string>>, from: nat): (r: Option<string>)
    requires from <= |cs|
    ensures r.Some? ==> exists i :: from <= i < |cs| && cs[i] == r && forall j :: from <= j < i ==> cs[j].None?
    ensures r.None? ==> forall i :: from <= i < |cs| ==> cs[i].None?
    decreases |cs| - from
  {
    if from == |cs| then None
    else if cs[from].Some? then cs[from]
    else Leftmost(cs, from + 1)
  }

  /** The captures at every position `exec` tries, from 0 to the end of the text. */
  function Captures(sc: Scanner, s: string): (cs: seq<Option<string>>)
    ensures |cs| == |s| + 1
    ensures forall i :: 0 <= i <= |s| ==> cs[i] == CaptureAt(sc, s, i)
  {
    seq(|s| + 1, i requires 0 <= i <= |s| => CaptureAt(sc, s, i))
  }

  /** `exec`: the capture at the leftmost position where the expression matches. */
  function Exec(sc: Scanner, s: string): Option<string> {
    Leftmost(Captures(sc, s), 0)
  }

  /** `exec` answers with the leftmost capture, and with none only when the expression matches nowhere. */
  lemma ExecIsLeftmost(sc: Scanner, s: string)
    ensures Exec(sc, s).Some? ==>
              exists i :: 0 <= i <= |s| && CaptureAt(sc, s, i) == Exec(sc, s) &&
                          forall j :: 0 <= j < i ==> CaptureAt(sc, s, j).None?
    ensures Exec(sc, s).None? <==> forall i :: 0 <= i <= |s| ==> CaptureAt(sc, s, i).None?
  {
    var cs := Captures(sc, s);
    if Exec(sc, s).Some? {
      var i :| 0 <= i < |cs| && cs[i] == Exec(sc, s) && forall j :: 0 <= j < i ==> cs[j].None?;
      assert forall j :: 0 <= j < i ==> CaptureAt(sc, s, j) == cs[j];
    } else {
      assert forall i :: 0 <= i <= |s| ==> CaptureAt(sc, s, i) == cs[i];
    }
  }

  /** A link capture is `<group>/<slug>` with a non-empty alphanumeric group and a non-empty slug. */
  lemma {:induction false} LinkCaptureShape(s: string, i: nat)
    requires i <= |s| && CaptureAt(GleamLink, s, i).Some?
    ensures var c := CaptureAt(GleamLink, s, i).value;
            exists a :: 0 < a < |c| - 1 && c[a] == '/' &&
                        (forall k :: 0 <= k < a ==> IsAlnum(c[k])) &&
                        (forall k :: a < k < |c| ==> IsSlugChar(c[k]))
  {
    var j := OpeningEnd(GleamLink, s, i).value;
    LinkAfterShape(s, j);
  }

  lemma {:induction false} LinkAfterShape(s: string, j: nat)
    requires j <= |s| && LinkAfter(s, j).Some?
    ensures var c := LinkAfter(s, j).value;
            exists a :: 0 < a < |c| - 1 && c[a] == '/' &&
                        (forall k :: 0 <= k < a ==> IsAlnum(c[k])) &&
                        (forall k :: a < k < |c| ==> IsSlugChar(c[k]))
  {
    var a := Run(s, j, IsAlnum);
    var k := j + a + 1;
    var b := Run(s, k, IsSlugChar);
    var c := LinkAfter(s, j).value;
    assert c == s[j..k + b];
    assert c[a] == '/';
    assert forall m :: 0 <= m < a ==> c[m] == s[j + m];
    assert forall m :: a < m < |c| ==> c[m] == s[j + m];
  }

  /** An entrant count is a non-empty string of decimal digits. */
  lemma {:induction false} EntryCountIsDigits(s: string)
    requires Exec(EntryCount, s).Some?
    ensures var c := Exec(EntryCount, s).value;
            |c| > 0 && forall k :: 0 <= k < |c| ==> IsDigit(c[k])
  {
    ExecIsLeftmost(EntryCount, s);
    var i :| 0 <= i <= |s| && CaptureAt(EntryCount, s, i) == Exec(EntryCount, s);
    CountAfterIsDigits(s, OpeningEnd(EntryCount, s, i).value);
  }

  /** The digits read after the opening are a non-empty run of decimal digits. */
  lemma CountAfterIsDigits(s: string, j: nat)
    requires j <= |s| && CountAfter(s, j).Some?
    ensures |CountAfter(s, j).value| > 0 && forall k :: 0 <= k < |CountAfter(s, j).value| ==> IsDigit(CountAfter(s, j).value[k])
  {
    var d := Run(s, j, IsDigit);
    assert CountAfter(s, j).value == s[j..j + d];
  }

  /** The link expression matches at the start of a text that opens with a link. */
  lemma {:induction false} LinkCaptureAtStart(s: string, group: string, slug: string, rest: string)
    requires |group| > 0 && forall k :: 0 <= k < |group| ==> IsAlnum(group[k])
    requires |slug| > 0 && forall k :: 0 <= k < |slug| ==> IsSlugChar(slug[k])
    requires s == LinkOpening + (group + "/" + slug + "\"" + rest)
    ensures CaptureAt(GleamLink, s, 0) == Some(group + "/" + slug)
  {
    var j := |LinkOpening|;
    assert OpeningEnd(GleamLink, s, 0) == Some(j) by {
      assert forall m :: 0 <= m < j ==> s[m] == LinkOpening[m];
    }
    LinkAfterFound(s, j, group, slug, "\"" + rest);
  }

  /** `<group>/<slug>"` after the opening is read back as `<group>/<slug>`. */
  lemma {:induction false} LinkAfterFound(s: string, j: nat, group: string, slug: string, tail: string)
    requires |group| > 0 && forall k :: 0 <= k < |group| ==> IsAlnum(group[k])
    requires |slug| > 0 && forall k :: 0 <= k < |slug| ==> IsSlugChar(slug[k])
    requires |tail| > 0 && tail[0] == '"'
    requires j <= |s| && s[j..] == group + "/" + slug + tail
    ensures LinkAfter(s, j) == Some(group + "/" + slug)
  {
    var g := |group|;
    var k := j + g + 1;
    var t := s[j..];
    assert s[j + g] == '/' && s[j..j + g] == group by {
      assert t[g] == '/' && t[..g] == group;
    }
    RunOver(s, j, group, IsAlnum);
    assert s[k + |slug|] == '"' && s[k..k + |slug|] == slug by {
      assert t[g + 1 + |slug|] == '"' && t[g + 1..g + 1 + |slug|] == slug;
    }
    RunOver(s, k, slug, IsSlugChar);
    assert s[j..k + |slug|] == t[..g + 1 + |slug|];
  }

  /** A word of class characters followed by one outside the class is exactly the run there. */
  lemma RunOver(s: string, j: nat, w: string, inClass: char -> bool)
    requires j + |w| < |s| && s[j..j + |w|] == w
    requires forall k :: 0 <= k < |w| ==> inClass(w[k])
    requires !inClass(s[j + |w|])
    ensures Run(s, j, inClass) == |w|
  {
    assert forall m :: j <= m < j + |w| ==> s[m] == w[m - j];
    RunIs(s, j, inClass, |w|);
  }

  /** A link written at the start of the markup is found, whatever follows it. */
  lemma LinkAtStartFound(group: string, slug: string, rest: string)
    requires |group| > 0 && forall k :: 0 <= k < |group| ==> IsAlnum(group[k])
    requires |slug| > 0 && forall k :: 0 <= k < |slug| ==> IsSlugChar(slug[k])
    ensures Exec(GleamLink, LinkOpening + (group + "/" + slug + "\"" + rest)) == Some(group + "/" + slug)
  {
    LinkCaptureAtStart(LinkOpening + (group + "/" + slug + "\"" + rest), group, slug, rest);
  }

  /** A run of exactly `n` class characters followed by one outside the class has length `n`. */
  lemma {:induction false} RunIs(s: string, k: nat, inClass: char -> bool, n: nat)
    requires k + n < |s|
    requires forall m :: k <= m < k + n ==> inClass(s[m])
    requires !inClass(s[k + n])
    ensures Run(s, k, inClass) == n
    decreases n
  {
    if n > 0 {
      RunIs(s, k + 1, inClass, n - 1);
    }
  }

  /** A page that opens with `initEntryCount(<digits>)` has that entrant count, whatever follows. */
  lemma {:induction false} EntryCountAtStartFound(s: string, digits: string, rest: string)
    requires |digits| > 0 && forall k :: 0 <= k < |digits| ==> IsDigit(digits[k])
    requires s == EntryCountOpening + (digits + ")" + rest)
    ensures Exec(EntryCount, s) == Some(digits)
  {
    var j, n := |EntryCountOpening|, |digits|;
    assert OpeningEnd(EntryCount, s, 0) == Some(j) by {
      assert s[..j] == EntryCountOpening;
    }
    assert CountAfter(s, j) == Some(digits) by {
      var t := s[j..];
      assert t == digits + ")" + rest;
      assert s[j + n] == ')' && s[j..j + n] == digits by {
        assert t[n] == ')' && t[..n] == digits;
      }
      RunOver(s, j, digits, IsDigit);
    }
    assert Captures(EntryCount, s)[0] == Some(digits);
  }
}

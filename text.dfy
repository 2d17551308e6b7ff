/** Small string helpers shared by the widgets: an Option type, JavaScript's
    `trim`, `startsWith` and the first-occurrence `String.prototype.replace`. */
module Text {

  datatype Option<+T> = None | Some(value: T)

  /** The characters JavaScript's `trim` removes that occur in practice
      (space, tab, line feed, carriage return, vertical tab, form feed,
      no-break space). */
  predicate IsWhitespace(c: char) {
    c == ' ' || c == '\t' || c == '\n' || c == '\r' ||
    c == 11 as char || c == 12 as char || c == 160 as char
  }

  predicate AllWhitespace(s: string) {
    forall i :: 0 <= i < |s| ==> IsWhitespace(s[i])
  }

  function TrimStart(s: string): (r: string)
    ensures |r| <= |s| && r == s[|s| - |r|..]
    ensures r == [] || !IsWhitespace(r[0])
    ensures AllWhitespace(s[..|s| - |r|])
  {
    if s != [] && IsWhitespace(s[0]) then TrimStart(s[1..]) else s
  }

  function TrimEnd(s: string): (r: string)
    ensures |r| <= |s| && r == s[..|r|]
    ensures r == [] || !IsWhitespace(r[|r| - 1])
    ensures AllWhitespace(s[|r|..])
  {
    if s != [] && IsWhitespace(s[|s| - 1]) then TrimEnd(s[..|s| - 1]) else s
  }

  /** `s.trim()`; it is empty exactly when every character is whitespace,
      which is what the `!s.trim()` guards test. */
  function Trim(s: string): (r: string)
    ensures r == [] <==> AllWhitespace(s)
  {
    TrimEnd(TrimStart(s))
  }

  predicate StartsWith(s: string, prefix: string) {
    |prefix| <= |s| && s[..|prefix|] == prefix
  }

  predicate OccursAt(s: string, pat: string, i: nat) {
    i + |pat| <= |s| && s[i..i + |pat|] == pat
  }

  /** `s.indexOf(pat)`, with -1 as None. */
  function IndexOf(s: string, pat: string): (r: Option<nat>)
    ensures r.Some? ==> OccursAt(s, pat, r.value)
    ensures r.Some? ==> forall j :: 0 <= j < r.value ==> !OccursAt(s, pat, j)
    ensures r.None? ==> forall j :: 0 <= j ==> !OccursAt(s, pat, j)
    decreases |s|
  {
    if |s| < |pat| then None
    else if s[..|pat|] == pat then Some(0)
    else
      var rest := IndexOf(s[1..], pat);
      assert forall j :: 1 <= j ==> (OccursAt(s, pat, j) <==> OccursAt(s[1..], pat, j - 1)) by {
        forall j | 1 <= j ensures OccursAt(s, pat, j) <==> OccursAt(s[1..], pat, j - 1) {
          OccursAtTail(s, pat, j);
        }
      }
      match rest
      case None => None
      case Some(k) => Some(k + 1)
  }

  /** An occurrence at `j >= 1` is one at `j - 1` of the tail. */
  lemma OccursAtTail(s: string, pat: string, j: nat)
    requires 1 <= j && |s| > 0
    ensures OccursAt(s, pat, j) <==> OccursAt(s[1..], pat, j - 1)
  {
    if j + |pat| <= |s| {
      assert s[1..][j - 1..j - 1 + |pat|] == s[j..j + |pat|];
    }
  }

  /** `s.replace(pat, rep)` with a string pattern: only the first occurrence
      of `pat` is replaced; without an occurrence `s` comes back unchanged. */
  function ReplaceFirst(s: string, pat: string, rep: string): (r: string)
    ensures IndexOf(s, pat).None? ==> r == s
    ensures IndexOf(s, pat).Some? ==>
              var i := IndexOf(s, pat).value;
              r == s[..i] + rep + s[i + |pat|..]
  {
    match IndexOf(s, pat)
    case None => s
    case Some(i) => s[..i] + rep + s[i + |pat|..]
  }

  /** When the pattern does not start anywhere in `pre`, the first
      occurrence in `pre + pat + rest` is the one right after `pre`. */
  lemma ReplaceFirstAt(pre: string, pat: string, rest: string, rep: string)
    requires forall j :: 0 <= j < |pre| ==> !OccursAt(pre + pat + rest, pat, j)
    ensures ReplaceFirst(pre + pat + rest, pat, rep) == pre + rep + rest
  {
    var s := pre + pat + rest;
    assert s[|pre|..|pre| + |pat|] == pat;
    assert OccursAt(s, pat, |pre|);
    var i := IndexOf(s, pat).value;
    assert i == |pre|;
    assert s[..i] == pre && s[i + |pat|..] == rest;
  }

  /** The parts of a concatenation sit where they were put. */
  lemma ConcatParts(p: string, x: string, rest: string)
    ensures StartsWith(p + x + rest, p) && OccursAt(p + x + rest, x, |p|)
  {
    assert (p + x + rest)[..|p|] == p;
    assert (p + x + rest)[|p|..|p| + |x|] == x;
  }

  lemma StartsWithTrans(s: string, p: string, h: string)
    requires StartsWith(s, p) && StartsWith(p, h)
    ensures StartsWith(s, h)
  {
    assert s[..|h|] == s[..|p|][..|h|];
  }
}

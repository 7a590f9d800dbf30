/**
  The JavaScript string operations the bot relies on: truthiness of an optional
  string, `String.prototype.trim`, `toLowerCase` (ASCII letters only),
  `indexOf`/`includes`, and `replace` with a string pattern, including the
  `$`-patterns that `replace` expands in its replacement string.
*/
module JsStrings {
  import opened Wrappers

  /** A string-or-absent value is truthy when it is present and not empty. */
  predicate Truthy(s: Option<string>) {
    s.Some? && s.value != ""
  }

  /** The code points ECMAScript counts as WhiteSpace or LineTerminator, which `trim` removes. */
  const WhitespaceChars: set<char> := {
    '\t', '\n', '\U{B}', '\U{C}', '\r', ' ', '\U{A0}', '\U{1680}',
    '\U{2000}', '\U{2001}', '\U{2002}', '\U{2003}', '\U{2004}', '\U{2005}',
    '\U{2006}', '\U{2007}', '\U{2008}', '\U{2009}', '\U{200A}',
    '\U{2028}', '\U{2029}', '\U{202F}', '\U{205F}', '\U{3000}', '\U{FEFF}'
  }

  predicate IsWhitespace(c: char) {
    c in WhitespaceChars
  }

  predicate AllWhitespace(s: string) {
    forall k :: 0 <= k < |s| ==> IsWhitespace(s[k])
  }

  /** The index of the first non-whitespace character at or after `from` (or `|s|`). */
  function FirstNonWhitespace(s: string, from: nat): (i: nat)
    requires from <= |s|
    requires forall k :: 0 <= k < from ==> IsWhitespace(s[k])
    decreases |s| - from
    ensures from <= i <= |s|
    ensures forall k :: 0 <= k < i ==> IsWhitespace(s[k])
    ensures i < |s| ==> !IsWhitespace(s[i])
  {
    if from < |s| && IsWhitespace(s[from]) then FirstNonWhitespace(s, from + 1) else from
  }

  /** The end of the content of `s[lo..hi]` once the trailing whitespace of `s` is dropped. */
  function EndOfContent(s: string, lo: nat, hi: nat): (j: nat)
    requires lo <= hi <= |s|
    requires forall k :: hi <= k < |s| ==> IsWhitespace(s[k])
    decreases hi
    ensures lo <= j <= hi
    ensures forall k :: j <= k < |s| ==> IsWhitespace(s[k])
    ensures j > lo ==> !IsWhitespace(s[j - 1])
  {
    if hi > lo && IsWhitespace(s[hi - 1]) then EndOfContent(s, lo, hi - 1) else hi
  }

  /**
    `s.trim()`: the slice of `s` left between its leading and its trailing
    whitespace; empty exactly when `s` is all whitespace.
  */
  function Trim(s: string): (r: string)
    ensures |r| <= |s|
    ensures r == [] <==> AllWhitespace(s)
    ensures r != [] ==> !IsWhitespace(r[0]) && !IsWhitespace(r[|r| - 1])
    ensures exists i, j :: 0 <= i <= j <= |s| && r == s[i..j]
                           && AllWhitespace(s[..i]) && AllWhitespace(s[j..])
  {
    var i := FirstNonWhitespace(s, 0);
    var j := EndOfContent(s, i, |s|);
    assert i < |s| ==> i < j;
    assert AllWhitespace(s[..i]) && AllWhitespace(s[j..]);
    s[i..j]
  }

  /** A trimmed string is its own trim. */
  lemma TrimIdempotent(s: string)
    ensures Trim(Trim(s)) == Trim(s)
  {
  }

  /** ASCII case mapping; every other character is its own lower case. */
  function LowerChar(c: char): char {
    if 'A' <= c <= 'Z' then (c as int + 32) as char else c
  }

  /** `toLowerCase`, for ASCII letters: the same length, each character lowered. */
  function ToLower(s: string): (r: string)
    ensures |r| == |s|
    ensures forall k :: 0 <= k < |s| ==> r[k] == LowerChar(s[k])
  {
    if s == [] then [] else [LowerChar(s[0])] + ToLower(s[1..])
  }

  predicate OccursAt(s: string, pat: string, k: int) {
    0 <= k && k + |pat| <= |s| && s[k..k + |pat|] == pat
  }

  /** The first position at or after `from` where `pat` occurs in `s`. */
  function IndexOfFrom(s: string, pat: string, from: nat): (r: Option<nat>)
    decreases |s| - from
    ensures r.Some? ==> from <= r.value && OccursAt(s, pat, r.value)
  {
    if from + |pat| > |s| then None
    else if s[from..from + |pat|] == pat then Some(from)
    else IndexOfFrom(s, pat, from + 1)
  }

  /** No occurrence is skipped: nothing before the position found, nothing at all when none is found. */
  lemma {:induction false} IndexOfFromIsFirst(s: string, pat: string, from: nat)
    decreases |s| - from
    ensures IndexOfFrom(s, pat, from).Some? ==>
      forall k :: from <= k < IndexOfFrom(s, pat, from).value ==> !OccursAt(s, pat, k)
    ensures IndexOfFrom(s, pat, from).None? ==> forall k :: from <= k ==> !OccursAt(s, pat, k)
  {
    if from + |pat| <= |s| && s[from..from + |pat|] != pat {
      IndexOfFromIsFirst(s, pat, from + 1);
    }
  }

  /** `s.indexOf(pat)`, with `None` for -1. */
  function IndexOf(s: string, pat: string): (r: Option<nat>)
    ensures r.Some? ==> OccursAt(s, pat, r.value)
  {
    IndexOfFrom(s, pat, 0)
  }

  /** `indexOf` finds the first occurrence, and finds none only when there is none. */
  lemma IndexOfIsFirst(s: string, pat: string)
    ensures IndexOf(s, pat).Some? ==> forall k :: 0 <= k < IndexOf(s, pat).value ==> !OccursAt(s, pat, k)
    ensures IndexOf(s, pat).None? <==> forall k :: !OccursAt(s, pat, k)
  {
    IndexOfFromIsFirst(s, pat, 0);
  }

  /** `s.includes(pat)`. */
  predicate Includes(s: string, pat: string) {
    IndexOf(s, pat).Some?
  }

  /** `includes` holds exactly when the pattern occurs at some position. */
  lemma IncludesOccurs(s: string, pat: string)
    ensures Includes(s, pat) <==> exists k :: OccursAt(s, pat, k)
  {
    IndexOfIsFirst(s, pat);
  }

  predicate NoDollar(s: string) {
    forall k :: 0 <= k < |s| ==> s[k] != '$'
  }

  /**
    The replacement string of `replace` after its `$`-patterns are expanded,
    for a string pattern (no capture groups): `$$` gives `$`, `$&` the matched
    text, `` $` `` the text before the match, `$'` the text after it; any other
    `$` stands for itself. Without any `$` the replacement is inserted as it is.
  */
  function Expand(rep: string, matched: string, before: string, after: string): (r: string)
    ensures NoDollar(rep) ==> r == rep
  {
    if rep == [] then []
    else if rep[0] == '$' && |rep| >= 2 && rep[1] == '$' then "$" + Expand(rep[2..], matched, before, after)
    else if rep[0] == '$' && |rep| >= 2 && rep[1] == '&' then matched + Expand(rep[2..], matched, before, after)
    else if rep[0] == '$' && |rep| >= 2 && rep[1] == '`' then before + Expand(rep[2..], matched, before, after)
    else if rep[0] == '$' && |rep| >= 2 && rep[1] == '\'' then after + Expand(rep[2..], matched, before, after)
    else
      assert NoDollar(rep) ==> NoDollar(rep[1..]) by {
        if NoDollar(rep) {
          forall k | 0 <= k < |rep[1..]| ensures rep[1..][k] != '$' { assert rep[1..][k] == rep[k + 1]; }
        }
      }
      [rep[0]] + Expand(rep[1..], matched, before, after)
  }

  /**
    The substitution table of `replace` for a string pattern: each two-character
    pattern expands to its text, a `$` before any other character stays, and
    any other character is copied; the rest of the replacement string is
    expanded after it.
  */
  lemma ExpandSubstitutions(c: char, rest: string, matched: string, before: string, after: string)
    ensures Expand("$$" + rest, matched, before, after) == "$" + Expand(rest, matched, before, after)
    ensures Expand("$&" + rest, matched, before, after) == matched + Expand(rest, matched, before, after)
    ensures Expand("$`" + rest, matched, before, after) == before + Expand(rest, matched, before, after)
    ensures Expand("$'" + rest, matched, before, after) == after + Expand(rest, matched, before, after)
    ensures c !in {'$', '&', '`', '\''} ==>
      Expand(['$', c] + rest, matched, before, after) == ['$'] + Expand([c] + rest, matched, before, after)
    ensures Expand("$", matched, before, after) == "$"
    ensures c != '$' ==> Expand([c] + rest, matched, before, after) == [c] + Expand(rest, matched, before, after)
  {
    assert ([c] + rest)[1..] == rest;
    assert ("$$" + rest)[2..] == rest;
    assert ("$&" + rest)[2..] == rest;
    assert ("$`" + rest)[2..] == rest;
    assert ("$'" + rest)[2..] == rest;
    assert (['$', c] + rest)[1..] == [c] + rest;
    assert "$"[1..] == [];
  }

  /**
    `s.replace(pat, rep)` with a string pattern: only the first occurrence of
    `pat` is replaced; without one, `s` is returned unchanged.
  */
  function ReplaceFirst(s: string, pat: string, rep: string): (r: string)
    ensures IndexOf(s, pat).None? ==> r == s
  {
    match IndexOf(s, pat)
    case None => s
    case Some(p) => s[..p] + Expand(rep, pat, s[..p], s[p + |pat|..]) + s[p + |pat|..]
  }

  /**
    `replace` puts the expanded replacement in the place of the first
    occurrence of `pat`, with the text before and after that occurrence
    available to `$``/`$'`, and keeps everything around it; a string without
    `pat` is returned unchanged.
  */
  lemma ReplaceFirstAtFirst(s: string, pat: string, rep: string)
    ensures !Includes(s, pat) ==> ReplaceFirst(s, pat, rep) == s
    ensures Includes(s, pat) ==>
      exists p :: OccursAt(s, pat, p) && (forall k :: 0 <= k < p ==> !OccursAt(s, pat, k))
                  && ReplaceFirst(s, pat, rep) == s[..p] + Expand(rep, pat, s[..p], s[p + |pat|..]) + s[p + |pat|..]
  {
    if Includes(s, pat) {
      var p := IndexOf(s, pat).value;
      IndexOfIsFirst(s, pat);
      assert ReplaceFirst(s, pat, rep) == s[..p] + Expand(rep, pat, s[..p], s[p + |pat|..]) + s[p + |pat|..];
    }
  }

  /**
    With a `$`-free replacement, `replace` puts `rep` in the place of the first
    occurrence of `pat` and keeps everything around it.
  */
  lemma ReplaceFirstLiteral(s: string, pat: string, rep: string)
    requires NoDollar(rep)
    ensures !Includes(s, pat) ==> ReplaceFirst(s, pat, rep) == s
    ensures Includes(s, pat) ==>
      exists p :: OccursAt(s, pat, p) && (forall k :: 0 <= k < p ==> !OccursAt(s, pat, k))
                  && ReplaceFirst(s, pat, rep) == s[..p] + rep + s[p + |pat|..]
  {
    ReplaceFirstAtFirst(s, pat, rep);
    if Includes(s, pat) {
      var p :| OccursAt(s, pat, p) && (forall k :: 0 <= k < p ==> !OccursAt(s, pat, k))
               && ReplaceFirst(s, pat, rep) == s[..p] + Expand(rep, pat, s[..p], s[p + |pat|..]) + s[p + |pat|..];
      assert ReplaceFirst(s, pat, rep) == s[..p] + rep + s[p + |pat|..];
    }
  }
}

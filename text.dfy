/** The string operations the core uses: `String.prototype.trim`, `indexOf`
    and `replace` with a string pattern. */
module Text {

  /** The code points `trim` removes: ECMAScript WhiteSpace (tab, vertical tab,
      form feed, space, no-break space, byte order mark, the Unicode space
      separators) and LineTerminator (line feed, carriage return, line and
      paragraph separators). */
  predicate IsSpace(c: char)
  {
    c == ' ' || c == '\t' || c == '\n' || c == '\r' || c == '\U{000B}' || c == '\U{000C}'
    || c == '\U{00A0}' || c == '\U{1680}' || ('\U{2000}' <= c <= '\U{200A}')
    || c == '\U{2028}' || c == '\U{2029}' || c == '\U{202F}' || c == '\U{205F}'
    || c == '\U{3000}' || c == '\U{FEFF}'
  }

  predicate AllSpace(s: string)
  {
    forall i :: 0 <= i < |s| ==> IsSpace(s[i])
  }

  /** `s.trim()`: white space cut from both ends. */
  function Trim(s: string): (r: string)
    ensures |r| <= |s|
    decreases |s|
  {
    if s != [] && IsSpace(s[0]) then Trim(s[1..])
    else if s != [] && IsSpace(s[|s| - 1]) then Trim(s[..|s| - 1])
    else s
  }

  /** `r` is an infix of `s` with only white space before and after it. */
  ghost predicate InfixBetweenSpace(s: string, r: string)
  {
    exists i :: 0 <= i <= |s| - |r| && InfixAt(s, r, i)
  }

  ghost predicate InfixAt(s: string, r: string, i: int)
    requires 0 <= i <= |s| - |r|
  {
    r == s[i..i + |r|] && AllSpace(s[..i]) && AllSpace(s[i + |r|..])
  }

  /** The trimmed string is what is left once only white space has been cut from both ends. */
  lemma {:induction false} TrimSpec(s: string)
    ensures InfixBetweenSpace(s, Trim(s))
    decreases |s|
  {
    var r := Trim(s);
    if s != [] && IsSpace(s[0]) {
      TrimSpec(s[1..]);
      TrimSpecFront(s, r);
    } else if s != [] && IsSpace(s[|s| - 1]) {
      TrimSpec(s[..|s| - 1]);
      TrimSpecBack(s, r);
    } else {
      assert s[..0] == [] && s[|s|..] == [] && s == s[0..|s|];
      assert InfixAt(s, s, 0);
    }
  }

  lemma TrimSpecFront(s: string, r: string)
    requires s != [] && IsSpace(s[0]) && InfixBetweenSpace(s[1..], r)
    ensures InfixBetweenSpace(s, r)
  {
    var t := s[1..];
    var i :| 0 <= i <= |t| - |r| && InfixAt(t, r, i);
    assert s[..i + 1] == [s[0]] + t[..i];
    AllSpaceConcat([s[0]], t[..i]);
    assert s[i + 1 + |r|..] == t[i + |r|..];
    assert r == s[i + 1..i + 1 + |r|];
    assert InfixAt(s, r, i + 1);
  }

  lemma TrimSpecBack(s: string, r: string)
    requires s != [] && IsSpace(s[|s| - 1]) && InfixBetweenSpace(s[..|s| - 1], r)
    ensures InfixBetweenSpace(s, r)
  {
    var t := s[..|s| - 1];
    var i :| 0 <= i <= |t| - |r| && InfixAt(t, r, i);
    assert s == t + [s[|s| - 1]];
    assert s[..i] == t[..i];
    assert s[i + |r|..] == t[i + |r|..] + [s[|s| - 1]];
    AllSpaceConcat(t[i + |r|..], [s[|s| - 1]]);
    assert r == s[i..i + |r|];
    assert InfixAt(s, r, i);
  }

  /** The trimmed string neither starts nor ends with white space. */
  lemma {:induction false} TrimEnds(s: string)
    ensures Trim(s) == "" || (!IsSpace(Trim(s)[0]) && !IsSpace(Trim(s)[|Trim(s)| - 1]))
    decreases |s|
  {
    if s != [] && IsSpace(s[0]) {
      TrimEnds(s[1..]);
    } else if s != [] && IsSpace(s[|s| - 1]) {
      TrimEnds(s[..|s| - 1]);
    }
  }

  lemma AllSpaceConcat(a: string, b: string)
    requires AllSpace(a) && AllSpace(b)
    ensures AllSpace(a + b)
  {
  }

  /** A string is trimmed to nothing exactly when it is all white space. */
  lemma {:induction false} TrimEmptyIff(s: string)
    ensures Trim(s) == "" <==> AllSpace(s)
    decreases |s|
  {
    if s != [] && IsSpace(s[0]) {
      TrimEmptyIff(s[1..]);
      assert AllSpace(s) <==> AllSpace(s[1..]);
    } else if s != [] && IsSpace(s[|s| - 1]) {
      TrimEmptyIff(s[..|s| - 1]);
      assert AllSpace(s) <==> AllSpace(s[..|s| - 1]);
    }
  }

  /** A trimmed string neither starts nor ends with white space, so trimming it again changes nothing. */
  lemma TrimIdempotent(s: string)
    ensures Trim(Trim(s)) == Trim(s)
  {
    TrimEnds(s);
  }

  /** `s` holds `pat` starting at index `k`. */
  predicate OccursAt(s: string, pat: string, k: int)
  {
    0 <= k && k + |pat| <= |s| && s[k..k + |pat|] == pat
  }

  /** The first index at or after `from` where `pat` occurs in `s`, or -1. */
  function IndexFrom(s: string, pat: string, from: nat): (k: int)
    decreases |s| - from
    ensures k == -1 || (from <= k && OccursAt(s, pat, k))
    ensures forall j :: from <= j && (k == -1 || j < k) ==> !OccursAt(s, pat, j)
  {
    if from + |pat| > |s| then -1
    else if s[from..from + |pat|] == pat then from
    else IndexFrom(s, pat, from + 1)
  }

  /** `s.indexOf(pat)`. */
  function IndexOf(s: string, pat: string): (k: int)
  {
    IndexFrom(s, pat, 0)
  }

  /** `s.replace(pat, rep)` for a string pattern and a replacement without `$`
      patterns: only the first occurrence of `pat` is replaced. */
  function ReplaceFirst(s: string, pat: string, rep: string): (r: string)
    ensures (forall j :: !OccursAt(s, pat, j)) ==> r == s
    ensures forall k :: OccursAt(s, pat, k) && (forall j :: 0 <= j < k ==> !OccursAt(s, pat, j)) ==>
      r == s[..k] + rep + s[k + |pat|..]
  {
    var k := IndexOf(s, pat);
    if k == -1 then s else s[..k] + rep + s[k + |pat|..]
  }

  /** Replacing the first occurrence, when it starts at `k`. */
  lemma ReplaceFirstAt(s: string, pat: string, rep: string, k: int)
    requires OccursAt(s, pat, k)
    requires forall j :: 0 <= j < k ==> !OccursAt(s, pat, j)
    ensures ReplaceFirst(s, pat, rep) == s[..k] + rep + s[k + |pat|..]
  {
  }
}

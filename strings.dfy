/** The few string operations of Python that the answer post-processing relies on:
    `" ".join`, `str.lower`, `in` between strings and `str.split()`. */
module Strings {

  import opened Options

  /** `sep.join(ws)`. */
  function Join(ws: seq<string>, sep: string): string {
    if ws == [] then "" else if |ws| == 1 then ws[0] else ws[0] + sep + Join(ws[1..], sep)
  }

  /** `c.lower()` for one character; only the ASCII letters are folded. */
  function LowerChar(c: char): char {
    if 'A' <= c <= 'Z' then (c as int + 32) as char else c
  }

  /** `s.lower()` (ASCII letters only). */
  function Lower(s: string): (r: string)
    ensures |r| == |s|
    ensures forall i :: 0 <= i < |s| ==> r[i] == LowerChar(s[i])
  {
    seq(|s|, i requires 0 <= i < |s| => LowerChar(s[i]))
  }

  lemma LowerAppend(a: string, b: string)
    ensures Lower(a + b) == Lower(a) + Lower(b)
  {
    assert forall i :: 0 <= i < |a + b| ==> Lower(a + b)[i] == (Lower(a) + Lower(b))[i];
  }

  /** `sub in s`: `sub` occurs in `s` as a contiguous piece. */
  predicate Contains(s: string, sub: string) {
    exists i :: 0 <= i <= |s| - |sub| && IsPieceAt(s, sub, i)
  }

  predicate IsPieceAt(s: string, sub: string, i: int)
    requires 0 <= i <= |s| - |sub|
  {
    s[i..i + |sub|] == sub
  }

  /** A string that ends in `sub` contains it. */
  lemma ContainsSuffix(a: string, sub: string)
    ensures Contains(a + sub, sub)
  {
    var s := a + sub;
    assert s[|a|..|a| + |sub|] == sub;
    assert IsPieceAt(s, sub, |a|);
  }

  /** The characters `str.split()` with no argument treats as separators. */
  predicate IsSpace(c: char) {
    c in {'\U{20}', '\U{9}', '\U{A}', '\U{D}', '\U{B}', '\U{C}', '\U{1C}', '\U{1D}', '\U{1E}',
          '\U{1F}', '\U{85}', '\U{A0}', '\U{1680}', '\U{2000}', '\U{2001}', '\U{2002}',
          '\U{2003}', '\U{2004}', '\U{2005}', '\U{2006}', '\U{2007}', '\U{2008}', '\U{2009}',
          '\U{200A}', '\U{2028}', '\U{2029}', '\U{202F}', '\U{205F}', '\U{3000}'}
  }

  /** The longest prefix of `s` without a separator. */
  function Word(s: string): (w: string)
    ensures |w| <= |s| && w == s[..|w|]
    ensures forall i :: 0 <= i < |w| ==> !IsSpace(w[i])
    ensures |w| < |s| ==> IsSpace(s[|w|])
  {
    if s == [] || IsSpace(s[0]) then [] else [s[0]] + Word(s[1..])
  }

  /** `s.split()[0]` when `s.split()` is not empty: the first maximal run of non-separators. */
  function FirstToken(s: string): (r: Option<string>)
    ensures r.Some? <==> exists i :: 0 <= i < |s| && !IsSpace(s[i])
    ensures r.Some? ==> r.value != [] && forall i :: 0 <= i < |r.value| ==> !IsSpace(r.value[i])
    ensures r.Some? ==> exists k :: 0 <= k < |s| && LeadingSpaces(s, k) && !IsSpace(s[k]) && r.value == Word(s[k..])
  {
    if s == [] then None
    else if IsSpace(s[0]) then
      var r := FirstToken(s[1..]);
      assert forall i :: 1 <= i < |s| ==> s[i] == s[1..][i - 1];
      if r.Some? then ShiftToken(s, r.value); r else r
    else
      assert LeadingSpaces(s, 0) && s[0..] == s;
      Some(Word(s))
  }

  /** A token that starts after the leading separators of `s[1..]` starts after those of `s`
      when `s` begins with a separator. */
  lemma ShiftToken(s: string, t: string)
    requires s != [] && IsSpace(s[0])
    requires exists k :: 0 <= k < |s[1..]| && LeadingSpaces(s[1..], k) && !IsSpace(s[1..][k]) && t == Word(s[1..][k..])
    ensures exists k :: 0 <= k < |s| && LeadingSpaces(s, k) && !IsSpace(s[k]) && t == Word(s[k..])
  {
    var k :| 0 <= k < |s[1..]| && LeadingSpaces(s[1..], k) && !IsSpace(s[1..][k]) && t == Word(s[1..][k..]);
    assert s[1..][k..] == s[k + 1..];
    assert LeadingSpaces(s, k + 1);
  }

  /** The first `k` characters of `s` are all separators. */
  predicate LeadingSpaces(s: string, k: nat)
    requires k <= |s|
  {
    forall j :: 0 <= j < k ==> IsSpace(s[j])
  }
}

/** JavaScript's `String.prototype.trim` and the lower-casing the command loop compares with. */
module Text {

  /** The characters `trim` removes: the white space and line terminators of ECMAScript. */
  predicate IsSpace(c: char)
  {
    || c == ' ' || c == '\t' || c == '\n' || c == '\r'
    || c == '\U{000B}' || c == '\U{000C}' || c == '\U{00A0}' || c == '\U{FEFF}'
    || c == '\U{1680}' || ('\U{2000}' <= c <= '\U{200A}')
    || c == '\U{2028}' || c == '\U{2029}' || c == '\U{202F}' || c == '\U{205F}' || c == '\U{3000}'
  }

  ghost predicate AllSpace(s: string)
  {
    forall i :: 0 <= i < |s| ==> IsSpace(s[i])
  }

  /** The number of white-space characters `s` starts with. */
  function LeadingSpace(s: string): (n: nat)
    ensures n <= |s|
    ensures forall i :: 0 <= i < n ==> IsSpace(s[i])
    ensures n < |s| ==> !IsSpace(s[n])
  {
    if s == [] || !IsSpace(s[0]) then 0 else 1 + LeadingSpace(s[1..])
  }

  /** The number of white-space characters `s` ends with. */
  function TrailingSpace(s: string): (n: nat)
    ensures n <= |s|
    ensures forall i :: |s| - n <= i < |s| ==> IsSpace(s[i])
    ensures n < |s| ==> !IsSpace(s[|s| - 1 - n])
  {
    if s == [] || !IsSpace(s[|s| - 1]) then 0 else 1 + TrailingSpace(s[..|s| - 1])
  }

  /** `s.trim()`: the slice of `s` between its leading and its trailing white space. */
  function Trim(s: string): (r: string)
    ensures r == [] <==> AllSpace(s)
    ensures r != [] ==> !IsSpace(r[0]) && !IsSpace(r[|r| - 1])
    ensures LeadingSpace(s) + |r| <= |s| && r == s[LeadingSpace(s)..LeadingSpace(s) + |r|]
    ensures AllSpace(s[..LeadingSpace(s)]) && AllSpace(s[LeadingSpace(s) + |r|..])
  {
    var a := LeadingSpace(s);
    var b := TrailingSpace(s[a..]);
    assert AllSpace(s[..a]);
    assert AllSpace(s[|s| - b..]);
    s[a..|s| - b]
  }

  /** Trimming removes exactly the white space around a core that starts and ends with other characters. */
  lemma TrimPadded(pre: string, core: string, post: string)
    requires AllSpace(pre) && AllSpace(post)
    requires core != [] && !IsSpace(core[0]) && !IsSpace(core[|core| - 1])
    ensures Trim(pre + core + post) == core
  {
    var s := pre + core + post;
    var a := LeadingSpace(s);
    assert s[|pre|] == core[0];
    assert a == |pre|;
    assert s[a..] == core + post;
    var b := TrailingSpace(core + post);
    assert (core + post)[|core| - 1] == core[|core| - 1];
    assert b == |post|;
    assert s[a..|s| - b] == core;
  }

  /** Joined white space is white space. */
  lemma AllSpaceJoin(a: string, b: string)
    requires AllSpace(a) && AllSpace(b)
    ensures AllSpace(a + b)
  {
    forall i | 0 <= i < |a + b|
      ensures IsSpace((a + b)[i])
    {
      if i >= |a| {
        assert (a + b)[i] == b[i - |a|];
      }
    }
  }

  /** A line cut into three parts, with `pre` and `post` added to the outer ones. */
  lemma Regroup(s: string, i: nat, r: string, pre: string, post: string)
    requires i + |r| <= |s| && r == s[i..i + |r|]
    ensures pre + s + post == (pre + s[..i]) + r + (s[i + |r|..] + post)
  {
    assert s == s[..i] + r + s[i + |r|..];
  }

  /** White space added around a line does not change what it trims to. */
  lemma TrimIgnoresPadding(pre: string, s: string, post: string)
    requires AllSpace(pre) && AllSpace(post)
    ensures Trim(pre + s + post) == Trim(s)
  {
    if AllSpace(s) {
      AllSpaceJoin(pre, s);
      AllSpaceJoin(pre + s, post);
    } else {
      TrimPaddedCore(pre, s, post);
    }
  }

  /** The core of a line that is not all white space survives padding. */
  lemma TrimPaddedCore(pre: string, s: string, post: string)
    requires AllSpace(pre) && AllSpace(post) && !AllSpace(s)
    ensures Trim(pre + s + post) == Trim(s)
  {
    var r := Trim(s);
    var i := LeadingSpace(s);
    AllSpaceJoin(pre, s[..i]);
    AllSpaceJoin(s[i + |r|..], post);
    Regroup(s, i, r, pre, post);
    TrimPadded(pre + s[..i], r, s[i + |r|..] + post);
  }

  /** Lower-cases the ASCII letters and leaves every other character alone. */
  function LowerChar(c: char): char
  {
    if 'A' <= c <= 'Z' then (c as int + 32) as char else c
  }

  /** `s.toLowerCase()` on the letters A to Z. */
  function Lower(s: string): (r: string)
    ensures |r| == |s|
    ensures forall i :: 0 <= i < |s| ==> r[i] == LowerChar(s[i])
  {
    if s == [] then [] else [LowerChar(s[0])] + Lower(s[1..])
  }
}

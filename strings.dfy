/** The string operations the server and the extension rely on, over ASCII. */
module Strings {

  predicate IsLower(c: char) { 'a' <= c <= 'z' }

  predicate IsUpper(c: char) { 'A' <= c <= 'Z' }

  /**
   * The ASCII whitespace JavaScript's String.prototype.trim removes: tab, line
   * feed, vertical tab, form feed, carriage return and space.
   */
  predicate IsSpace(c: char) { c == ' ' || '\t' <= c <= '\r' }

  /**
   * The ASCII whitespace Python's str.strip removes: IsSpace together with the
   * four separators U+001C..U+001F, which str.isspace also counts.
   */
  predicate IsPySpace(c: char) { IsSpace(c) || '\U{1C}' <= c <= '\U{1F}' }

  function UpperChar(c: char): char
  {
    if IsLower(c) then (c as int - 32) as char else c
  }

  function LowerChar(c: char): char
  {
    if IsUpper(c) then (c as int + 32) as char else c
  }

  /** str.upper / String.prototype.toUpperCase: letters a..z become A..Z, every other character stays. */
  function Upper(s: string): (r: string)
    ensures |r| == |s|
    ensures forall i :: 0 <= i < |r| ==> !IsLower(r[i])
    ensures forall i :: 0 <= i < |s| ==> IsLower(s[i]) ==> r[i] as int == s[i] as int - 32
    ensures forall i :: 0 <= i < |s| ==> !IsLower(s[i]) ==> r[i] == s[i]
  {
    seq(|s|, i requires 0 <= i < |s| => UpperChar(s[i]))
  }

  /** str.lower: letters A..Z become a..z, every other character stays. */
  function Lower(s: string): (r: string)
    ensures |r| == |s|
    ensures forall i :: 0 <= i < |r| ==> !IsUpper(r[i])
    ensures forall i :: 0 <= i < |s| ==> IsUpper(s[i]) ==> r[i] as int == s[i] as int + 32
    ensures forall i :: 0 <= i < |s| ==> !IsUpper(s[i]) ==> r[i] == s[i]
  {
    seq(|s|, i requires 0 <= i < |s| => LowerChar(s[i]))
  }

  /** Upper-casing a string without lower-case letters changes nothing. */
  lemma UpperOfUpper(t: string)
    requires forall i :: 0 <= i < |t| ==> !IsLower(t[i])
    ensures Upper(t) == t
  {
  }

  /** Removes the leading characters that `ws` counts as whitespace. */
  function TrimLeft(s: string, ws: char -> bool): (r: string)
    ensures |r| <= |s| && r == s[|s| - |r|..] && |s| - |r| == StripStart(s, ws)
    ensures forall k :: 0 <= k < |s| - |r| ==> ws(s[k])
    ensures r != [] ==> !ws(r[0])
  {
    if s != [] && ws(s[0]) then TrimLeft(s[1..], ws) else s
  }

  /** Removes the trailing characters that `ws` counts as whitespace. */
  function TrimRight(s: string, ws: char -> bool): (r: string)
    ensures |r| <= |s| && r == s[..|r|]
    ensures forall k :: |r| <= k < |s| ==> ws(s[k])
    ensures r != [] ==> !ws(r[|r| - 1])
  {
    if s != [] && ws(s[|s| - 1]) then TrimRight(s[..|s| - 1], ws) else s
  }

  /**
   * Whitespace removed at both ends: str.strip() with `ws` = IsPySpace,
   * String.prototype.trim() with `ws` = IsSpace.
   */
  function Strip(s: string, ws: char -> bool): (r: string)
    ensures |r| <= |s|
    ensures r != [] ==> !ws(r[0]) && !ws(r[|r| - 1])
  {
    TrimRight(TrimLeft(s, ws), ws)
  }

  /**
   * The stripped string is the run of s that starts at offset
   * `StripStart(s, ws)`, and everything before and after it is whitespace.
   */
  lemma {:induction false} StripRemovesMargins(s: string, ws: char -> bool)
    ensures var r := Strip(s, ws);
      var a := StripStart(s, ws);
      && a + |r| <= |s| && r == s[a..a + |r|]
      && (forall k :: 0 <= k < a ==> ws(s[k]))
      && (forall k :: a + |r| <= k < |s| ==> ws(s[k]))
  {
    var left := TrimLeft(s, ws);
    var a := |s| - |left|;
    var r := TrimRight(left, ws);
    assert a == StripStart(s, ws);
    assert left == s[a..];
    assert r == s[a..a + |r|];
    assert forall k :: 0 <= k < a ==> ws(s[k]);
    forall k | a + |r| <= k < |s|
      ensures ws(s[k])
    {
      assert s[k] == left[k - a];
    }
  }

  /** Stripping leaves nothing exactly when every character is whitespace. */
  lemma {:induction false} StripEmptyIffAllSpace(s: string, ws: char -> bool)
    ensures Strip(s, ws) == [] <==> forall k :: 0 <= k < |s| ==> ws(s[k])
  {
    var r := Strip(s, ws);
    StripRemovesMargins(s, ws);
    if r != [] {
      var a := StripStart(s, ws);
      assert s[a] == r[0] && !ws(s[a]);
    }
  }

  /** Stripping keeps only characters of the input, so it introduces no lower-case letter. */
  lemma {:induction false} StripKeepsNoLower(u: string, ws: char -> bool)
    requires forall i :: 0 <= i < |u| ==> !IsLower(u[i])
    ensures forall i :: 0 <= i < |Strip(u, ws)| ==> !IsLower(Strip(u, ws)[i])
  {
    var c := Strip(u, ws);
    var a := StripStart(u, ws);
    StripRemovesMargins(u, ws);
    forall i | 0 <= i < |c|
      ensures !IsLower(c[i])
    {
      assert c[i] == u[a..a + |c|][i] == u[a + i];
    }
  }

  /** The number of leading whitespace characters: where the stripped run starts. */
  function StripStart(s: string, ws: char -> bool): nat
  {
    if s != [] && ws(s[0]) then 1 + StripStart(s[1..], ws) else 0
  }

  predicate EndsWith(s: string, suffix: string)
  {
    |suffix| <= |s| && s[|s| - |suffix|..] == suffix
  }

  /** Python's `sub in s` on strings: sub occurs somewhere in s (the empty string occurs everywhere). */
  predicate Contains(s: string, sub: string)
  {
    exists i | 0 <= i <= |s| - |sub| :: OccursAt(s, sub, i)
  }

  predicate OccursAt(s: string, sub: string, i: int)
  {
    0 <= i <= |s| - |sub| && s[i..i + |sub|] == sub
  }

  /** str.replace(pat, ""): every occurrence of pat found scanning from the left is deleted. */
  function RemoveAll(s: string, pat: string): (r: string)
    requires pat != []
    ensures |r| <= |s|
    decreases |s|
  {
    if |s| < |pat| then s
    else if s[..|pat|] == pat then RemoveAll(s[|pat|..], pat)
    else [s[0]] + RemoveAll(s[1..], pat)
  }

  /** Deleting ".pt" from a name followed by ".pt" gives the name back when the name has no 'p'. */
  lemma {:induction false} RemovePtSuffix(u: string)
    requires forall i :: 0 <= i < |u| ==> u[i] != 'p'
    ensures RemoveAll(u + ".pt", ".pt") == u
  {
    var s := u + ".pt";
    if u == [] {
      assert s[..3] == ".pt";
      assert s[3..] == [];
    } else {
      assert s[1] == (if |u| >= 2 then u[1] else '.');
      assert s[..3] != ".pt" by { assert s[..3][1] == s[1]; }
      assert s[1..] == u[1..] + ".pt";
      RemovePtSuffix(u[1..]);
      assert [u[0]] + u[1..] == u;
    }
  }
}

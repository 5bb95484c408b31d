/** The string operations the dashboard relies on: `toLowerCase`, `includes`
    and the emptiness test on `trim()`. */
module Text {

  function LowerChar(c: char): char {
    if 'A' <= c <= 'Z' then (c as int + 32) as char else c
  }

  /** Lower-cases the ASCII letters of `s` and leaves every other character. */
  function Lower(s: string): (r: string)
    ensures |r| == |s|
    ensures forall i :: 0 <= i < |s| ==> r[i] == LowerChar(s[i])
  {
    seq(|s|, i requires 0 <= i < |s| => LowerChar(s[i]))
  }

  predicate OccursAt(hay: string, needle: string, i: int) {
    0 <= i && i + |needle| <= |hay| && hay[i..i + |needle|] == needle
  }

  /** `hay.includes(needle)`: the empty needle occurs in every string, and
      no needle longer than the string occurs in it. */
  predicate Contains(hay: string, needle: string): (b: bool)
    ensures needle == [] ==> b
    ensures b ==> |needle| <= |hay|
  {
    assert needle == [] ==> OccursAt(hay, needle, 0);
    exists i | 0 <= i <= |hay| - |needle| :: OccursAt(hay, needle, i)
  }

  /** The characters `String.prototype.trim` removes: the ECMAScript
      WhiteSpace and LineTerminator code points. */
  predicate IsWhite(c: char) {
    c == '\t' || c == '\n' || c == '\U{000B}' || c == '\U{000C}' || c == '\r' || c == ' '
    || c == '\U{00A0}' || c == '\U{1680}' || ('\U{2000}' <= c <= '\U{200A}')
    || c == '\U{2028}' || c == '\U{2029}' || c == '\U{202F}' || c == '\U{205F}'
    || c == '\U{3000}' || c == '\U{FEFF}'
  }

  predicate Blank(s: string) {
    forall i :: 0 <= i < |s| ==> IsWhite(s[i])
  }

  /** Drops leading white space: the result is a suffix of `s` that is empty
      or starts with a non-white character, and everything dropped was white. */
  function TrimStart(s: string): (r: string)
    ensures |r| <= |s| && r == s[|s| - |r|..]
    ensures r == [] || !IsWhite(r[0])
    ensures Blank(s[..|s| - |r|])
  {
    if s != [] && IsWhite(s[0]) then TrimStart(s[1..]) else s
  }

  /** Drops trailing white space, symmetrically to TrimStart. */
  function TrimEnd(s: string): (r: string)
    ensures |r| <= |s| && r == s[..|r|]
    ensures r == [] || !IsWhite(r[|r| - 1])
    ensures Blank(s[|r|..])
  {
    if s != [] && IsWhite(s[|s| - 1]) then TrimEnd(s[..|s| - 1]) else s
  }

  /** `s.trim()`: a slice of `s` that neither starts nor ends with white
      space, with only white space cut off on either side. */
  function Trim(s: string): (r: string)
    ensures |r| <= |s|
    ensures r == [] || (!IsWhite(r[0]) && !IsWhite(r[|r| - 1]))
    ensures exists i | 0 <= i <= |s| - |r| :: OccursAt(s, r, i) && Blank(s[..i]) && Blank(s[i + |r|..])
  {
    var t := TrimStart(s);
    var r := TrimEnd(t);
    var i := |s| - |t|;
    assert s[i..i + |r|] == t[..|r|];
    assert s[i + |r|..] == t[|r|..];
    assert OccursAt(s, r, i) && Blank(s[..i]) && Blank(s[i + |r|..]);
    r
  }

  /** `s.trim()` is empty exactly when every character of `s` is white space. */
  lemma TrimEmptyIffBlank(s: string)
    ensures Trim(s) == [] <==> Blank(s)
  {
    var t := TrimStart(s);
    if Trim(s) == [] {
      assert t[|Trim(s)|..] == t;
      assert t == [];
      assert s[..|s|] == s;
    }
  }
}

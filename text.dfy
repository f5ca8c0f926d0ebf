/**
 * The string primitives the engine relies on: ASCII lower-casing (`str.lower`),
 * the regular-expression word boundary `\b`, a literal whole-word search
 * (`re.search(r'\b' + re.escape(p) + r'\b', t)`), and `str.strip`,
 * `str.startswith`, `str.endswith` and substring `in`.
 */
module Text {

  /** `str.lower` on one character, restricted to ASCII. */
  function LowerChar(c: char): char
  {
    if 'A' <= c <= 'Z' then (c as int - 'A' as int + 'a' as int) as char else c
  }

  /** `str.lower`, character by character: no upper-case letter is left, and nothing else changes. */
  function Lower(s: string): (r: string)
    ensures |r| == |s|
    ensures forall i | 0 <= i < |r| :: !('A' <= r[i] <= 'Z')
    ensures forall i | 0 <= i < |s| && !('A' <= s[i] <= 'Z') :: r[i] == s[i]
    ensures forall i | 0 <= i < |s| && 'A' <= s[i] <= 'Z' :: 'a' <= r[i] <= 'z' && r[i] as int - s[i] as int == 32
  {
    seq(|s|, i requires 0 <= i < |s| => LowerChar(s[i]))
  }

  /** The ASCII word characters of `\w`: letters, digits and underscore. */
  predicate IsWordChar(c: char)
  {
    'a' <= c <= 'z' || 'A' <= c <= 'Z' || '0' <= c <= '9' || c == '_'
  }

  /** Position `i` of `t` holds a word character; positions outside `t` do not. */
  predicate WordAt(t: string, i: int)
  {
    0 <= i < |t| && IsWordChar(t[i])
  }

  /** `\b` holds at position `k` (between `t[k-1]` and `t[k]`): exactly one side is a word character. */
  predicate Boundary(t: string, k: int)
  {
    WordAt(t, k - 1) != WordAt(t, k)
  }

  /** The literal `p` occurs in `t` at offset `i`. */
  predicate OccursAt(p: string, t: string, i: int)
  {
    0 <= i && i + |p| <= |t| && t[i..i + |p|] == p
  }

  /** The literal `p` occurs in `t` at offset `i` with `\b` on both ends. */
  predicate MatchesAt(p: string, t: string, i: int)
  {
    OccursAt(p, t, i) && Boundary(t, i) && Boundary(t, i + |p|)
  }

  /** `re.search(r'\b' + re.escape(p) + r'\b', t)` finds a match; such a match is in particular an occurrence of `p`. */
  function MatchesWord(p: string, t: string): (r: bool)
    ensures r ==> IsInfix(p, t)
  {
    exists i | 0 <= i <= |t| - |p| :: MatchesAt(p, t, i)
  }

  /** Python `p in t` for strings: `p` is a contiguous piece of `t`. */
  predicate IsInfix(p: string, t: string)
  {
    exists i | 0 <= i <= |t| - |p| :: OccursAt(p, t, i)
  }

  /** Lower-casing twice is lower-casing once. */
  lemma LowerIsIdempotent(s: string)
    ensures Lower(Lower(s)) == Lower(s)
  {
  }

  /**
   * A word that starts and ends with a word character, set off by non-word
   * characters or the ends of the text, is found.
   */
  lemma SeparatedWordMatches(a: string, p: string, b: string)
    requires p != [] && IsWordChar(p[0]) && IsWordChar(p[|p| - 1])
    requires a == [] || !IsWordChar(a[|a| - 1])
    requires b == [] || !IsWordChar(b[0])
    ensures MatchesWord(p, a + p + b)
  {
    var t := a + p + b;
    assert t[|a|..|a| + |p|] == p;
    assert !WordAt(t, |a| - 1) && WordAt(t, |a|);
    assert WordAt(t, |a| + |p| - 1) && !WordAt(t, |a| + |p|);
    assert MatchesAt(p, t, |a|);
  }

  predicate StartsWith(s: string, p: string)
  {
    |p| <= |s| && s[..|p|] == p
  }

  predicate EndsWith(s: string, p: string)
  {
    |p| <= |s| && s[|s| - |p|..] == p
  }

  /** The ASCII characters for which `str.isspace` holds: space, tab to carriage return, and 0x1C to 0x1F. */
  predicate IsSpace(c: char)
  {
    c == ' ' || 9 <= c as int <= 13 || 28 <= c as int <= 31
  }

  predicate AllSpace(s: string)
  {
    forall i :: 0 <= i < |s| ==> IsSpace(s[i])
  }

  /** `str.lstrip()`: drops the leading whitespace and nothing else. */
  function TrimStart(s: string): (r: string)
    ensures |r| <= |s| && r == s[|s| - |r|..]
    ensures forall i :: 0 <= i < |s| - |r| ==> IsSpace(s[i])
    ensures r != [] ==> !IsSpace(r[0])
  {
    if s != [] && IsSpace(s[0]) then TrimStart(s[1..]) else s
  }

  /** `str.rstrip()`: drops the trailing whitespace and nothing else. */
  function TrimEnd(s: string): (r: string)
    ensures |r| <= |s| && r == s[..|r|]
    ensures forall i :: |r| <= i < |s| ==> IsSpace(s[i])
    ensures r != [] ==> !IsSpace(r[|r| - 1])
  {
    if s != [] && IsSpace(s[|s| - 1]) then TrimEnd(s[..|s| - 1]) else s
  }

  /** `str.strip()`: the longest infix that neither starts nor ends with whitespace. */
  function Strip(s: string): (r: string)
    ensures |r| <= |s|
    ensures exists i | 0 <= i <= |s| - |r| :: OccursAt(r, s, i) && AllSpace(s[..i]) && AllSpace(s[i + |r|..])
    ensures r != [] ==> !IsSpace(r[0]) && !IsSpace(r[|r| - 1])
  {
    var left := TrimStart(s);
    var r := TrimEnd(left);
    var i := |s| - |left|;
    assert OccursAt(r, s, i) && AllSpace(s[..i]) && AllSpace(s[i + |r|..]) by {
      assert left == s[i..];
      assert r == left[..|r|];
    }
    r
  }
}

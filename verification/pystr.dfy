/**
 * Python's `str.strip()` without arguments, on Dafny strings (sequences of
 * Unicode code points).
 */
module PyStr {

  /**
   * Python's `str.isspace` for a single code point: the characters whose
   * bidirectional class is WS, B or S, or whose category is Zs.
   */
  predicate IsSpace(c: char) {
    var n := c as int;
    (0x09 <= n <= 0x0D) || (0x1C <= n <= 0x20) || n == 0x85 || n == 0xA0 ||
    n == 0x1680 || (0x2000 <= n <= 0x200A) || n == 0x2028 || n == 0x2029 ||
    n == 0x202F || n == 0x205F || n == 0x3000
  }

  /** Every character of `s` is whitespace (so the empty string is). */
  predicate AllSpace(s: string) {
    forall i :: 0 <= i < |s| ==> IsSpace(s[i])
  }

  /** `s.lstrip()`: the suffix of `s` left after its leading whitespace. */
  function LStrip(s: string): (r: string)
    ensures |r| <= |s| && r == s[|s| - |r|..]
    ensures AllSpace(s[..|s| - |r|])
    ensures r == [] || !IsSpace(r[0])
  {
    if s != [] && IsSpace(s[0]) then
      var r := LStrip(s[1..]);
      assert s[..|s| - |r|] == [s[0]] + s[1..][..|s| - 1 - |r|];
      r
    else
      s
  }

  /** `s.rstrip()`: the prefix of `s` left before its trailing whitespace. */
  function RStrip(s: string): (r: string)
    ensures |r| <= |s| && r == s[..|r|]
    ensures AllSpace(s[|r|..])
    ensures r == [] || !IsSpace(r[|r| - 1])
  {
    if s != [] && IsSpace(s[|s| - 1]) then
      var r := RStrip(s[..|s| - 1]);
      assert s[|r|..] == s[..|s| - 1][|r|..] + [s[|s| - 1]];
      r
    else
      s
  }

  /**
   * `s.strip()`: `s` without its leading and trailing whitespace. The result
   * is a slice of `s` framed by whitespace only, it neither starts nor ends
   * with whitespace, and it is empty exactly when `s` is all whitespace.
   */
  function Strip(s: string): (r: string)
    ensures exists i, j :: 0 <= i <= j <= |s| && r == s[i..j] && AllSpace(s[..i]) && AllSpace(s[j..])
    ensures r == [] || (!IsSpace(r[0]) && !IsSpace(r[|r| - 1]))
    ensures r == [] <==> AllSpace(s)
  {
    var t := LStrip(s);
    var r := RStrip(t);
    var i := |s| - |t|;
    assert r == s[i..i + |r|];
    assert s[i + |r|..] == t[|r|..];
    assert r != [] ==> r[0] == t[0];
    assert t != [] ==> t[0] == s[i];
    r
  }
}

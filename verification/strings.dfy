/** The JavaScript string operations the board relies on, over `seq<char>`:
    `startsWith`, `replace` with a string pattern, `trim`, `includes`,
    `toLowerCase`/`toUpperCase` (ASCII letters only), `slice(0, n)` and the
    decimal text a template literal produces for a count. */
module Strings {

  predicate StartsWith(s: string, prefix: string) {
    |prefix| <= |s| && s[..|prefix|] == prefix
  }

  predicate EndsWith(s: string, suffix: string) {
    |suffix| <= |s| && s[|s| - |suffix|..] == suffix
  }

  /** `q` occurs in `s` starting at index `i`. */
  predicate OccursAt(s: string, q: string, i: int) {
    0 <= i <= |s| - |q| && s[i..i + |q|] == q
  }

  /** `s.includes(q)`. */
  predicate Contains(s: string, q: string) {
    exists i :: 0 <= i <= |s| - |q| && OccursAt(s, q, i)
  }

  /** `s.replace(pattern, "")`: the first occurrence of `pattern` is cut out;
      without an occurrence the string is returned unchanged. */
  function RemoveFirst(s: string, pattern: string): (r: string)
    ensures |r| <= |s|
    ensures !Contains(s, pattern) ==> r == s
    ensures Contains(s, pattern) ==> |r| + |pattern| == |s|
    decreases |s|
  {
    if StartsWith(s, pattern) then
      assert s[0..0 + |pattern|] == pattern && OccursAt(s, pattern, 0);
      s[|pattern|..]
    else if s == [] then s
    else
      var rest := RemoveFirst(s[1..], pattern);
      ContainsPastFirst(s, pattern);
      [s[0]] + rest
  }

  /** When `s` does not start with `q`, an occurrence of `q` in `s` is an
      occurrence in its tail. */
  lemma ContainsPastFirst(s: string, q: string)
    requires s != [] && !StartsWith(s, q)
    ensures Contains(s, q) <==> Contains(s[1..], q)
  {
    if Contains(s, q) {
      var i :| 0 <= i <= |s| - |q| && OccursAt(s, q, i);
      assert i != 0 by { assert s[..|q|] == s[0..0 + |q|]; }
      assert s[1..][i - 1..i - 1 + |q|] == s[i..i + |q|];
      assert OccursAt(s[1..], q, i - 1);
    }
    if Contains(s[1..], q) {
      var i :| 0 <= i <= |s[1..]| - |q| && OccursAt(s[1..], q, i);
      assert s[i + 1..i + 1 + |q|] == s[1..][i..i + |q|];
      assert OccursAt(s, q, i + 1);
    }
  }

  /** Removing a prefix that is present gives back exactly what followed it. */
  lemma RemoveFirstOfPrefixed(prefix: string, rest: string)
    ensures RemoveFirst(prefix + rest, prefix) == rest
  {
    assert (prefix + rest)[..|prefix|] == prefix;
    assert (prefix + rest)[|prefix|..] == rest;
  }

  /** A JavaScript white-space or line-terminator code point, the set `trim` removes. */
  predicate IsSpace(c: char) {
    var n := c as int;
    n == 0x20 || 0x09 <= n <= 0x0D || n == 0xA0 || n == 0x1680 || 0x2000 <= n <= 0x200A
    || n == 0x2028 || n == 0x2029 || n == 0x202F || n == 0x205F || n == 0x3000 || n == 0xFEFF
  }

  predicate AllSpace(s: string) {
    forall i :: 0 <= i < |s| ==> IsSpace(s[i])
  }

  function TrimStart(s: string): (r: string)
    ensures |r| <= |s| && r == s[|s| - |r|..]
    ensures r == [] || !IsSpace(r[0])
    ensures AllSpace(s[..|s| - |r|])
    ensures AllSpace(s) ==> r == []
  {
    if s != [] && IsSpace(s[0]) then
      var r := TrimStart(s[1..]);
      assert s[1..][..|s[1..]| - |r|] == s[1..|s| - |r|];
      r
    else s
  }

  function TrimEnd(s: string): (r: string)
    ensures |r| <= |s| && r == s[..|r|]
    ensures r == [] || !IsSpace(r[|r| - 1])
    ensures AllSpace(s[|r|..])
  {
    if s != [] && IsSpace(s[|s| - 1]) then
      var r := TrimEnd(s[..|s| - 1]);
      assert s[|r|..] == s[..|s| - 1][|r|..] + [s[|s| - 1]];
      r
    else s
  }

  /** `s.trim()`: a slice of `s` with no white space at either end, everything
      cut off being white space; it is empty exactly when `s` is blank. */
  function Trim(s: string): (r: string)
    ensures |r| <= |s|
    ensures r == [] || (!IsSpace(r[0]) && !IsSpace(r[|r| - 1]))
    ensures r == [] <==> AllSpace(s)
  {
    var t := TrimStart(s);
    var r := TrimEnd(t);
    assert r == [] ==> AllSpace(s) by {
      if r == [] {
        assert t == [];
        assert s[..|s| - |t|] == s;
      }
    }
    r
  }

  function LowerChar(c: char): char {
    if 'A' <= c <= 'Z' then (c as int + 32) as char else c
  }

  function UpperChar(c: char): char {
    if 'a' <= c <= 'z' then (c as int - 32) as char else c
  }

  /** `s.toLowerCase()` for ASCII letters. */
  function ToLower(s: string): (r: string)
    ensures |r| == |s| && forall i :: 0 <= i < |s| ==> r[i] == LowerChar(s[i])
  {
    seq(|s|, i requires 0 <= i < |s| => LowerChar(s[i]))
  }

  /** `s.toUpperCase()` for ASCII letters. */
  function ToUpper(s: string): (r: string)
    ensures |r| == |s| && forall i :: 0 <= i < |s| ==> r[i] == UpperChar(s[i])
  {
    seq(|s|, i requires 0 <= i < |s| => UpperChar(s[i]))
  }

  predicate IsDigit(c: char) {
    '0' <= c <= '9'
  }

  /** The decimal text of `n`, as `${n}` renders a non-negative integer. */
  function NatToString(n: nat): (r: string)
    ensures |r| >= 1 && forall i :: 0 <= i < |r| ==> IsDigit(r[i])
    ensures n < 10 <==> |r| == 1
  {
    if n < 10 then ["0123456789"[n]]
    else NatToString(n / 10) + ["0123456789"[n % 10]]
  }
}

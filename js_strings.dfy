/**
 * The few pieces of JavaScript string behaviour the application relies on:
 * `String.prototype.trim` and the regular-expression class `\s` (which share
 * one set of white-space characters), `includes`, `Array.prototype.join` over
 * strings, `slice(0, n)` and the decimal rendering of integers inside template
 * strings.  A Dafny `char` is one Unicode scalar value; JavaScript strings count
 * UTF-16 code units, which differs only for characters outside the Basic
 * Multilingual Plane.
 */
module JsStrings {

  /** ECMAScript WhiteSpace and LineTerminator code points: what `trim` strips and `\s` matches. */
  predicate IsWhitespace(c: char) {
    || c == '\t' || c == '\n' || c == '\U{000B}' || c == '\U{000C}' || c == '\r'
    || c == ' ' || c == '\U{00A0}' || c == '\U{1680}'
    || ('\U{2000}' <= c <= '\U{200A}')
    || c == '\U{2028}' || c == '\U{2029}' || c == '\U{202F}' || c == '\U{205F}'
    || c == '\U{3000}' || c == '\U{FEFF}'
  }

  /** Every character of `s` is white space (the empty string included). */
  predicate IsBlank(s: string) {
    forall i :: 0 <= i < |s| ==> IsWhitespace(s[i])
  }

  /** `s.trimStart()`: the longest suffix of `s` that does not begin with white space. */
  function TrimStart(s: string): (r: string)
    ensures |r| <= |s| && r == s[|s| - |r|..]
    ensures r == [] || !IsWhitespace(r[0])
    ensures IsBlank(s[..|s| - |r|])
  {
    if s != [] && IsWhitespace(s[0]) then
      var r := TrimStart(s[1..]);
      assert s[..|s| - |r|] == [s[0]] + s[1..][..|s| - 1 - |r|];
      r
    else s
  }

  /** `s.trimEnd()`: the longest prefix of `s` that does not end with white space. */
  function TrimEnd(s: string): (r: string)
    ensures |r| <= |s| && r == s[..|r|]
    ensures r == [] || !IsWhitespace(r[|r| - 1])
    ensures IsBlank(s[|r|..])
  {
    if s != [] && IsWhitespace(s[|s| - 1]) then
      var r := TrimEnd(s[..|s| - 1]);
      TrimEndStep(s, r);
      r
    else s
  }

  /** Trimming the string without its final white space trims the string. */
  lemma TrimEndStep(s: string, r: string)
    requires s != [] && IsWhitespace(s[|s| - 1])
    requires |r| <= |s| - 1 && r == s[..|s| - 1][..|r|] && IsBlank(s[..|s| - 1][|r|..])
    ensures r == s[..|r|] && IsBlank(s[|r|..])
  {
    var t := s[..|s| - 1][|r|..];
    assert s[|r|..] == t + [s[|s| - 1]];
  }

  /** `s.trim()`. */
  function Trim(s: string): string {
    TrimEnd(TrimStart(s))
  }

  /** `s.trim()` is empty exactly when `s` consists of white space only. */
  lemma TrimEmptyIffBlank(s: string)
    ensures Trim(s) == [] <==> IsBlank(s)
  {
    var t := TrimStart(s);
    if t != [] {
      assert t[0] == s[|s| - |t|];
      assert t[0..] == t;
    } else {
      assert s[..|s|] == s;
    }
  }

  /** The result of `trim` neither starts nor ends with white space and is a slice of the input. */
  lemma TrimShape(s: string)
    ensures var r := Trim(s);
      && (r == [] || (!IsWhitespace(r[0]) && !IsWhitespace(r[|r| - 1])))
      && exists k :: OccursAt(s, r, k)
  {
    var t := TrimStart(s);
    var r := TrimEnd(t);
    var k := |s| - |t|;
    assert s[k..k + |r|] == t[..|r|];
    assert OccursAt(s, r, k);
    if r != [] {
      assert r[0] == t[0];
    }
  }

  /** `key` occurs in `s` starting at index `i`. */
  ghost predicate OccursAt(s: string, key: string, i: int) {
    0 <= i && i + |key| <= |s| && s[i..i + |key|] == key
  }

  /** `s.includes(key)`: case-sensitive substring containment. */
  function Includes(s: string, key: string): (b: bool)
    ensures b <==> exists i :: OccursAt(s, key, i)
    decreases |s|
  {
    if |key| > |s| then
      assert forall i :: !OccursAt(s, key, i);
      false
    else if s[..|key|] == key then
      assert OccursAt(s, key, 0);
      true
    else
      var b := Includes(s[1..], key);
      OccursShift(s, key);
      b
  }

  /** When `key` is not a prefix of `s`, it occurs in `s` exactly when it occurs in `s[1..]`. */
  lemma OccursShift(s: string, key: string)
    requires |key| <= |s| && s[..|key|] != key
    ensures (exists i :: OccursAt(s, key, i)) <==> (exists i :: OccursAt(s[1..], key, i))
  {
    if exists i :: OccursAt(s[1..], key, i) {
      var i :| OccursAt(s[1..], key, i);
      assert s[i + 1..i + 1 + |key|] == s[1..][i..i + |key|];
      assert OccursAt(s, key, i + 1);
    }
    if exists i :: OccursAt(s, key, i) {
      var i :| OccursAt(s, key, i);
      assert i != 0;
      assert s[1..][i - 1..i - 1 + |key|] == s[i..i + |key|];
      assert OccursAt(s[1..], key, i - 1);
    }
  }

  /** `parts.join(sep)`. */
  function Join(sep: string, parts: seq<string>): string {
    if parts == [] then ""
    else if |parts| == 1 then parts[0]
    else parts[0] + sep + Join(sep, parts[1..])
  }

  /** Appending one more part adds the separator and that part at the end. */
  lemma {:induction false} JoinSnoc(sep: string, parts: seq<string>, p: string)
    ensures Join(sep, parts + [p]) == if parts == [] then p else Join(sep, parts) + sep + p
  {
    if |parts| > 1 {
      assert (parts + [p])[1..] == parts[1..] + [p];
      JoinSnoc(sep, parts[1..], p);
    } else if |parts| == 1 {
      assert (parts + [p])[1..] == [p];
    }
  }

  /** The length of a join: all parts plus one separator between each neighbouring pair. */
  function TotalLength(parts: seq<string>): nat {
    if parts == [] then 0 else |parts[0]| + TotalLength(parts[1..])
  }

  lemma {:induction false} JoinLength(sep: string, parts: seq<string>)
    requires parts != []
    ensures |Join(sep, parts)| == TotalLength(parts) + (|parts| - 1) * |sep|
  {
    if |parts| > 1 {
      JoinLength(sep, parts[1..]);
    }
  }

  /** The index of the first occurrence of `c` in `s`. */
  function IndexOf(s: string, c: char): (i: nat)
    requires c in s
    ensures i < |s| && s[i] == c && c !in s[..i]
  {
    if s[0] == c then 0
    else
      var i := IndexOf(s[1..], c);
      assert s[1..][..i] == s[1..i + 1];
      i + 1
  }

  /** `s.split(c)` for a one-character separator: the pieces between its occurrences. */
  function SplitOn(s: string, c: char): (parts: seq<string>)
    ensures |parts| >= 1
    decreases |s|
  {
    if c !in s then [s]
    else
      var i := IndexOf(s, c);
      [s[..i]] + SplitOn(s[i + 1..], c)
  }

  /** Splitting at a first separator after a piece without one peels that piece off. */
  lemma SplitAfterPiece(p: string, c: char, rest: string)
    requires c !in p
    ensures SplitOn(p + [c] + rest, c) == [p] + SplitOn(rest, c)
  {
    var s := p + [c] + rest;
    assert s[|p|] == c;
    assert s[..|p|] == p;
    assert IndexOf(s, c) == |p|;
    assert s[|p| + 1..] == rest;
  }

  /** Splitting a join on its one-character separator gives the parts back, when no part contains it. */
  lemma {:induction false} SplitJoin(c: char, parts: seq<string>)
    requires parts != []
    requires forall k :: 0 <= k < |parts| ==> c !in parts[k]
    ensures SplitOn(Join([c], parts), c) == parts
  {
    if |parts| > 1 {
      SplitAfterPiece(parts[0], c, Join([c], parts[1..]));
      SplitJoin(c, parts[1..]);
      assert parts == [parts[0]] + parts[1..];
    }
  }

  /** `s.slice(0, n)` for a non-negative `n`. */
  function Prefix(s: string, n: nat): (r: string)
    ensures |r| == if |s| < n then |s| else n
    ensures r == s[..|r|]
  {
    if |s| <= n then s else s[..n]
  }

  predicate IsDigit(c: char) {
    '0' <= c <= '9'
  }

  function DigitChar(d: nat): (c: char)
    requires d < 10
    ensures IsDigit(c) && c as int - '0' as int == d
  {
    (d + '0' as int) as char
  }

  /** The decimal rendering of a natural number, as `${n}` produces it. */
  function NatToString(n: nat): (s: string)
    ensures |s| >= 1
    ensures forall i :: 0 <= i < |s| ==> IsDigit(s[i])
    ensures |s| > 1 ==> s[0] != '0'
  {
    if n < 10 then [DigitChar(n)] else NatToString(n / 10) + [DigitChar(n % 10)]
  }

  /** The value of a string of decimal digits. */
  function ParseNat(s: string): nat
    requires forall i :: 0 <= i < |s| ==> IsDigit(s[i])
  {
    if s == [] then 0 else assert IsDigit(s[|s| - 1]); ParseNat(s[..|s| - 1]) * 10 + (s[|s| - 1] as int - '0' as int)
  }

  /** Reading the decimal rendering back gives the number. */
  lemma {:induction false} ParseNatToString(n: nat)
    ensures ParseNat(NatToString(n)) == n
  {
    if n >= 10 {
      var s := NatToString(n);
      assert s[..|s| - 1] == NatToString(n / 10);
      ParseNatToString(n / 10);
    }
  }

  /** Different numbers are rendered differently. */
  lemma NatToStringInjective(m: nat, n: nat)
    requires NatToString(m) == NatToString(n)
    ensures m == n
  {
    ParseNatToString(m);
    ParseNatToString(n);
  }

  /** The rendering of an integer: a minus sign before the digits of a negative one. */
  function IntToString(i: int): (s: string)
    ensures i >= 0 ==> s == NatToString(i)
    ensures i < 0 ==> s == "-" + NatToString(-i)
  {
    if i < 0 then "-" + NatToString(-i) else NatToString(i)
  }

  /** A rendered integer starts with a minus sign exactly when it is negative; every other character is a digit. */
  lemma IntToStringShape(i: int)
    ensures |IntToString(i)| >= 1
    ensures IntToString(i)[0] == '-' <==> i < 0
    ensures forall k :: (if i < 0 then 1 else 0) <= k < |IntToString(i)| ==> IsDigit(IntToString(i)[k])
  {
  }

  /** Different integers are rendered differently. */
  lemma IntToStringInjective(i: int, j: int)
    requires IntToString(i) == IntToString(j)
    ensures i == j
  {
    IntToStringShape(i);
    IntToStringShape(j);
    if i < 0 {
      assert IntToString(i)[1..] == NatToString(-i);
      assert IntToString(j)[1..] == NatToString(-j);
      NatToStringInjective(-i, -j);
    } else {
      NatToStringInjective(i, j);
    }
  }
}

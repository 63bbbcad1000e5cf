/**
 * The JavaScript string operations the gateway relies on, over `seq<char>`:
 * `trim`, `includes`, `split`, `join`, the ASCII part of `toUpperCase`, and
 * the decimal rendering of a non-negative integer inside a template literal.
 */
module Strings {

  /** The code points `String.prototype.trim` removes: the WhiteSpace and LineTerminator
      sets of ECMAScript (sections 12.2 and 12.3 of ECMA-262), including every Zs character. */
  predicate IsWhitespace(c: char) {
    c == '\t' || c == '\n' || c == '\U{000B}' || c == '\U{000C}' || c == '\r' || c == ' '
    || c == '\U{00A0}' || c == '\U{1680}' || ('\U{2000}' <= c <= '\U{200A}')
    || c == '\U{2028}' || c == '\U{2029}' || c == '\U{202F}' || c == '\U{205F}'
    || c == '\U{3000}' || c == '\U{FEFF}'
  }

  predicate AllWhitespace(s: string) {
    forall i :: 0 <= i < |s| ==> IsWhitespace(s[i])
  }

  /** Drops the leading whitespace: the result is the longest suffix that does not start with whitespace. */
  function TrimStart(s: string): (r: string)
    ensures |r| <= |s| && r == s[|s| - |r|..]
    ensures AllWhitespace(s[..|s| - |r|])
    ensures r == [] || !IsWhitespace(r[0])
    decreases |s|
  {
    if |s| > 0 && IsWhitespace(s[0]) then
      var r := TrimStart(s[1..]);
      assert s[..|s| - |r|] == [s[0]] + s[1..][..|s| - 1 - |r|];
      r
    else s
  }

  /** Drops the trailing whitespace: the result is the longest prefix that does not end with whitespace. */
  function TrimEnd(s: string): (r: string)
    ensures |r| <= |s| && r == s[..|r|]
    ensures AllWhitespace(s[|r|..])
    ensures r == [] || !IsWhitespace(r[|r| - 1])
    decreases |s|
  {
    if |s| > 0 && IsWhitespace(s[|s| - 1]) then
      var r := TrimEnd(s[..|s| - 1]);
      assert s[|r|..] == s[..|s| - 1][|r|..] + [s[|s| - 1]];
      r
    else s
  }

  /** `String.prototype.trim`. */
  function Trim(s: string): string {
    TrimEnd(TrimStart(s))
  }

  /** The trimmed string is the infix of `s` left after cutting whitespace off both ends,
      and it neither starts nor ends with whitespace. */
  lemma TrimCutsOnlyWhitespace(s: string)
    ensures exists i, j :: 0 <= i <= j <= |s| && Trim(s) == s[i..j]
                           && AllWhitespace(s[..i]) && AllWhitespace(s[j..])
    ensures Trim(s) == [] || (!IsWhitespace(Trim(s)[0]) && !IsWhitespace(Trim(s)[|Trim(s)| - 1]))
  {
    TrimIsInfix(s);
    TrimEndsClean(s);
  }

  lemma TrimIsInfix(s: string)
    ensures exists i, j :: 0 <= i <= j <= |s| && Trim(s) == s[i..j]
                           && AllWhitespace(s[..i]) && AllWhitespace(s[j..])
  {
    var t := TrimStart(s);
    var r := TrimEnd(t);
    var i := |s| - |t|;
    var j := i + |r|;
    assert t == s[i..] && r == t[..|r|];
    assert r == s[i..j];
    assert AllWhitespace(s[..i]);
    assert s[j..] == t[|r|..];
    assert AllWhitespace(s[j..]);
    assert Trim(s) == s[i..j];
  }

  lemma TrimEndsClean(s: string)
    ensures Trim(s) == [] || (!IsWhitespace(Trim(s)[0]) && !IsWhitespace(Trim(s)[|Trim(s)| - 1]))
  {
    var t := TrimStart(s);
    var r := TrimEnd(t);
    if r != [] {
      assert r[0] == t[0];
    }
  }

  /** Trimming twice is trimming once. */
  lemma TrimIdempotent(s: string)
    ensures Trim(Trim(s)) == Trim(s)
  {
    var r := Trim(s);
    TrimCutsOnlyWhitespace(s);
    assert TrimStart(r) == r;
    assert TrimEnd(r) == r;
  }

  /** A string trims to "" exactly when it consists of whitespace only. */
  lemma TrimEmptyIffBlank(s: string)
    ensures Trim(s) == [] <==> AllWhitespace(s)
  {
    TrimCutsOnlyWhitespace(s);
  }

  /** `sub` appears somewhere inside `s`. */
  ghost predicate Occurs(sub: string, s: string) {
    exists pre, post :: s == pre + sub + post
  }

  /** `String.prototype.includes`, written as the scan it performs. */
  function Includes(s: string, sub: string): bool
    decreases |s|
  {
    if |sub| > |s| then false
    else s[..|sub|] == sub || Includes(s[1..], sub)
  }

  lemma IncludesIffOccurs(s: string, sub: string)
    ensures Includes(s, sub) <==> Occurs(sub, s)
  {
    IncludesOccurs(s, sub);
    OccursIncludes(s, sub);
  }

  lemma {:induction false} IncludesOccurs(s: string, sub: string)
    ensures Includes(s, sub) ==> Occurs(sub, s)
    decreases |s|
  {
    if Includes(s, sub) {
      if s[..|sub|] == sub {
        OccursAsPrefix(s, sub);
      } else {
        IncludesOccurs(s[1..], sub);
        OccursInTail(s, sub);
      }
    }
  }

  lemma OccursAsPrefix(s: string, sub: string)
    requires |sub| <= |s| && s[..|sub|] == sub
    ensures Occurs(sub, s)
  {
    assert s == [] + sub + s[|sub|..];
  }

  lemma OccursInTail(s: string, sub: string)
    requires |s| > 0 && Occurs(sub, s[1..])
    ensures Occurs(sub, s)
  {
    var pre, post :| s[1..] == pre + sub + post;
    assert s == ([s[0]] + pre) + sub + post;
  }

  lemma {:induction false} OccursIncludes(s: string, sub: string)
    ensures Occurs(sub, s) ==> Includes(s, sub)
    decreases |s|
  {
    if Occurs(sub, s) {
      var pre, post :| s == pre + sub + post;
      if pre == [] {
        assert s[..|sub|] == sub;
      } else {
        assert s[1..] == pre[1..] + sub + post;
        OccursIncludes(s[1..], sub);
      }
    }
  }

  /** A string cannot occur in one that lacks one of its characters. */
  lemma MissingCharNoOccurrence(sub: string, s: string, c: char)
    requires c in sub && c !in s
    ensures !Occurs(sub, s)
  {
    forall pre, post ensures s != pre + sub + post {
      InfixChars(pre, sub, post);
    }
  }

  lemma InfixChars(pre: string, sub: string, post: string)
    ensures forall x :: x in sub ==> x in pre + sub + post
  {
    forall x | x in sub ensures x in pre + sub + post {
      var k :| 0 <= k < |sub| && sub[k] == x;
      assert (pre + sub + post)[|pre| + k] == x;
    }
  }

  /** A string placed between two others occurs in the result. */
  lemma OccursInMiddle(pre: string, sub: string, post: string)
    ensures Occurs(sub, pre + sub + post)
  {
  }

  predicate HasPrefix(s: string, prefix: string) {
    |prefix| <= |s| && s[..|prefix|] == prefix
  }

  predicate HasSuffix(s: string, suffix: string) {
    |suffix| <= |s| && s[|s| - |suffix|..] == suffix
  }

  lemma ConcatHasSuffix(x: string, y: string)
    ensures HasSuffix(x + y, y)
  {
    assert (x + y)[|x|..] == y;
  }

  lemma SuffixExtend(x: string, y: string, z: string)
    requires HasSuffix(x, y)
    ensures HasSuffix(x + z, y + z)
  {
    assert (x + z)[|x + z| - |y + z|..] == x[|x| - |y|..] + z;
  }

  lemma SuffixTransitive(x: string, y: string, z: string)
    requires HasSuffix(x, y) && HasSuffix(y, z)
    ensures HasSuffix(x, z)
  {
    assert x[|x| - |z|..] == y[|y| - |z|..];
  }

  lemma SuffixAt(s: string, t: string, k: nat)
    requires HasSuffix(s, t) && k < |t|
    ensures s[|s| - |t| + k] == t[k]
  {
    assert s[|s| - |t|..][k] == t[k];
  }

  /** A common ending can be cancelled. */
  lemma SuffixCancel(x: string, y: string, z: string)
    ensures HasSuffix(x + z, y + z) <==> HasSuffix(x, y)
  {
    if HasSuffix(x + z, y + z) {
      assert x[|x| - |y|..] == (x + z)[|x + z| - |y + z|..][..|y|];
      assert (y + z)[..|y|] == y;
    }
    if HasSuffix(x, y) {
      SuffixExtend(x, y, z);
    }
  }

  /** Two suffixes of the same length of one string are equal. */
  lemma SuffixesOfSameLength(s: string, x: string, y: string)
    requires HasSuffix(s, x) && |x| == |y|
    ensures HasSuffix(s, y) <==> x == y
  {
  }

  /** `Array.prototype.join(glue)` on an array of strings. */
  function Join(parts: seq<string>, glue: string): string {
    if |parts| == 0 then ""
    else if |parts| == 1 then parts[0]
    else parts[0] + glue + Join(parts[1..], glue)
  }

  /** The first position of `c` in `s`. */
  function IndexOf(s: string, c: char): (i: nat)
    requires c in s
    ensures i < |s| && s[i] == c
    ensures forall k :: 0 <= k < i ==> s[k] != c
  {
    if s[0] == c then 0 else 1 + IndexOf(s[1..], c)
  }

  /** `String.prototype.split` with a one-character separator: the pieces between the
      separators, as many as there are separators plus one, empty pieces included. */
  function Split(s: string, sep: char): (parts: seq<string>)
    ensures |parts| >= 1
    ensures forall p :: p in parts ==> sep !in p
    ensures Join(parts, [sep]) == s
    decreases |s|
  {
    if sep !in s then [s]
    else
      var i := IndexOf(s, sep);
      [s[..i]] + Split(s[i + 1..], sep)
  }

  /** Splitting undoes joining, whenever the pieces do not contain the separator. */
  lemma {:induction false} SplitJoin(parts: seq<string>, sep: char)
    requires |parts| >= 1
    requires forall p :: p in parts ==> sep !in p
    ensures Split(Join(parts, [sep]), sep) == parts
  {
    assert parts[0] in parts;
    if |parts| > 1 {
      SplitFirst(parts[0], sep, Join(parts[1..], [sep]));
      SplitJoin(parts[1..], sep);
    } else {
      assert Join(parts, [sep]) == parts[0];
    }
  }

  /** Splitting stops at the first separator. */
  lemma SplitFirst(a: string, sep: char, rest: string)
    requires sep !in a
    ensures Split(a + [sep] + rest, sep) == [a] + Split(rest, sep)
  {
    var s := a + [sep] + rest;
    assert s[|a|] == sep;
    var i := IndexOf(s, sep);
    assert forall k :: 0 <= k < |a| ==> s[k] == a[k];
    assert i == |a|;
    assert s[..i] == a;
    assert s[i + 1..] == rest;
  }

  /** `toUpperCase` on one character, for the ASCII letters only. */
  function ToUpperAscii(c: char): (u: char)
    ensures 'a' <= c <= 'z' ==> 'A' <= u <= 'Z' && u as int == c as int - 32
    ensures !('a' <= c <= 'z') ==> u == c
  {
    if 'a' <= c <= 'z' then (c as int - 32) as char else c
  }

  /** `toLowerCase` on one character, for the ASCII letters only. */
  function ToLowerAscii(c: char): (l: char)
    ensures 'A' <= c <= 'Z' ==> 'a' <= l <= 'z' && l as int == c as int + 32
    ensures !('A' <= c <= 'Z') ==> l == c
  {
    if 'A' <= c <= 'Z' then (c as int + 32) as char else c
  }

  function Digit(d: nat): (c: char)
    requires d < 10
    ensures '0' <= c <= '9' && c as int - '0' as int == d
  {
    ('0' as int + d) as char
  }

  /** The base-10 rendering of `n`, as `${n}` produces it for a non-negative integer:
      digits only, and no leading zero. */
  function Decimal(n: nat): (r: string)
    ensures |r| >= 1
    ensures forall i :: 0 <= i < |r| ==> '0' <= r[i] <= '9'
    ensures n > 0 ==> r[0] != '0'
  {
    if n < 10 then [Digit(n)] else Decimal(n / 10) + [Digit(n % 10)]
  }

  predicate AllDigits(s: string) {
    forall i :: 0 <= i < |s| ==> '0' <= s[i] <= '9'
  }

  /** After a non-digit separator, a run of digits at the end of a string is read off
      unambiguously: no other run of digits behind the same separator ends the string. */
  lemma DigitsAfterSeparator(a: string, c: char, d: string, e: string)
    requires !('0' <= c <= '9') && AllDigits(d) && AllDigits(e)
    ensures HasSuffix(a + [c] + d, [c] + e) <==> d == e
  {
    var s := a + [c] + d;
    if HasSuffix(s, [c] + e) {
      if |e| < |d| {
        // the separator would have to sit inside `d`
        SuffixAt(s, [c] + e, 0);
        assert false;
      } else if |e| > |d| {
        // a digit of `e` would have to be the separator
        SuffixAt(s, [c] + e, |e| - |d|);
        assert false;
      } else {
        assert s[|s| - |e|..] == d;
        assert ([c] + e)[1..] == e;
        assert s[|s| - |e| - 1..] == [c] + e;
      }
    } else {
      assert s[|s| - |d| - 1..] == [c] + d;
    }
  }

  /** The number a string of decimal digits denotes. */
  function DigitsValue(s: string): nat
    requires forall i :: 0 <= i < |s| ==> '0' <= s[i] <= '9'
  {
    if s == [] then 0 else DigitsValue(s[..|s| - 1]) * 10 + (s[|s| - 1] as int - '0' as int)
  }

  /** Reading the decimal rendering back gives the number. */
  lemma {:induction false} DecimalRoundTrip(n: nat)
    ensures DigitsValue(Decimal(n)) == n
  {
    if n >= 10 {
      DecimalRoundTrip(n / 10);
      var r := Decimal(n);
      assert r[..|r| - 1] == Decimal(n / 10);
    }
  }

  /** Different numbers have different decimal renderings. */
  lemma DecimalInjective(m: nat, n: nat)
    ensures Decimal(m) == Decimal(n) <==> m == n
  {
    DecimalRoundTrip(m);
    DecimalRoundTrip(n);
  }
}

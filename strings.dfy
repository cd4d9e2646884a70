/**
 * String helpers shared by the SQL builder and the request binder:
 * joining with a separator, counting a character, ASCII lower-casing,
 * prefix and substring tests.
 */
module Strings {

  /** `sep.join(parts)` */
  function Join(parts: seq<string>, sep: string): (r: string)
    ensures parts == [] ==> r == ""
    ensures |parts| == 1 ==> r == parts[0]
  {
    if |parts| == 0 then ""
    else if |parts| == 1 then parts[0]
    else parts[0] + sep + Join(parts[1..], sep)
  }

  /** Number of occurrences of `c` in `s`. */
  function Count(c: char, s: string): nat
  {
    if s == [] then 0 else (if s[0] == c then 1 else 0) + Count(c, s[1..])
  }

  /** `n` copies of `s`. */
  function Repeat(s: string, n: nat): (r: seq<string>)
    ensures |r| == n && forall i :: 0 <= i < n ==> r[i] == s
  {
    seq(n, _ => s)
  }

  lemma {:induction false} CountAppend(c: char, a: string, b: string)
    ensures Count(c, a + b) == Count(c, a) + Count(c, b)
  {
    if a == [] {
      assert a + b == b;
    } else {
      assert (a + b)[1..] == a[1..] + b;
      CountAppend(c, a[1..], b);
    }
  }

  /** Joining parts that each hold `k` copies of `c`, with a separator holding none, gives `k` per part. */
  lemma {:induction false} CountJoinUniform(c: char, parts: seq<string>, sep: string, k: nat)
    requires Count(c, sep) == 0
    requires forall i :: 0 <= i < |parts| ==> Count(c, parts[i]) == k
    ensures Count(c, Join(parts, sep)) == k * |parts|
  {
    if |parts| > 1 {
      var rest := parts[1..];
      CountJoinUniform(c, rest, sep, k);
      assert Join(parts, sep) == (parts[0] + sep) + Join(rest, sep);
      CountAppend(c, parts[0] + sep, Join(rest, sep));
      CountAppend(c, parts[0], sep);
      MulStep(k, |rest|);
    }
  }

  /** Counting distributes over a concatenation of three pieces. */
  lemma Count3(c: char, a: string, b: string, d: string)
    ensures Count(c, a + b + d) == Count(c, a) + Count(c, b) + Count(c, d)
  {
    CountAppend(c, a + b, d);
    CountAppend(c, a, b);
  }

  lemma MulStep(k: nat, n: nat)
    ensures k * (n + 1) == k + k * n
  {
  }

  /** A string without any occurrence of `c`. */
  predicate Free(c: char, s: string)
  {
    forall i :: 0 <= i < |s| ==> s[i] != c
  }

  lemma {:induction false} FreeCount(c: char, s: string)
    requires Free(c, s)
    ensures Count(c, s) == 0
  {
    if s != [] {
      FreeCount(c, s[1..]);
    }
  }

  /** A text free of `c` in front adds no occurrence. */
  lemma FreeHead(c: char, s: string, b: string)
    requires Free(c, s)
    ensures Count(c, s + b) == Count(c, b)
  {
    FreeCount(c, s);
    CountAppend(c, s, b);
  }

  /** A text free of `c` at the end adds no occurrence. */
  lemma FreeTail(c: char, a: string, s: string)
    requires Free(c, s)
    ensures Count(c, a + s) == Count(c, a)
  {
    FreeCount(c, s);
    CountAppend(c, a, s);
  }

  /** A text free of `c` between two others adds no occurrence. */
  lemma FreeGlue(c: char, a: string, s: string, b: string)
    requires Free(c, s)
    ensures Count(c, a + s + b) == Count(c, a) + Count(c, b)
  {
    FreeCount(c, s);
    Count3(c, a, s, b);
  }

  predicate StartsWith(s: string, prefix: string)
  {
    |prefix| <= |s| && s[..|prefix|] == prefix
  }

  predicate OccursAt(s: string, sub: string, i: int)
  {
    0 <= i <= |s| - |sub| && s[i..i + |sub|] == sub
  }

  /** `sub in s` on Python strings. */
  predicate Contains(s: string, sub: string)
  {
    exists i | 0 <= i <= |s| - |sub| :: OccursAt(s, sub, i)
  }

  function LowerChar(c: char): char
  {
    if 'A' <= c <= 'Z' then (c as int + 32) as char else c
  }

  /** `s.lower()`, for ASCII letters only. */
  function Lower(s: string): (r: string)
    ensures |r| == |s| && forall i :: 0 <= i < |s| ==> r[i] == LowerChar(s[i])
  {
    seq(|s|, i requires 0 <= i < |s| => LowerChar(s[i]))
  }
}

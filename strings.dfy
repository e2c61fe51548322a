/**
 * The PHP string functions the SDK relies on: `strcasecmp`, `stripos`,
 * `explode` and the `(string)` cast of an integer.
 */
module Strings {

  /** ASCII lower-casing of one character, as PHP's case-insensitive functions do. */
  function LowerAscii(c: char): char
  {
    if 'A' <= c <= 'Z' then (c as int + 32) as char else c
  }

  function Lower(s: string): (r: string)
    ensures |r| == |s|
    ensures forall i :: 0 <= i < |s| ==> r[i] == LowerAscii(s[i])
  {
    seq(|s|, i requires 0 <= i < |s| => LowerAscii(s[i]))
  }

  /** `strcasecmp(a, b) == 0`. */
  predicate EqualsIgnoreCase(a: string, b: string)
  {
    Lower(a) == Lower(b)
  }

  predicate IsPrefix(p: string, s: string)
  {
    |p| <= |s| && s[..|p|] == p
  }

  /** `needle` occurs in `s` at some position, position 0 included. */
  predicate Contains(s: string, needle: string)
    decreases |s|
  {
    IsPrefix(needle, s) || (|s| > 0 && Contains(s[1..], needle))
  }

  /** `stripos(s, needle) !== false`. */
  predicate ContainsIgnoreCase(s: string, needle: string)
  {
    Contains(Lower(s), Lower(needle))
  }

  /** Number of occurrences of `c` in `s`. */
  function Count(c: char, s: string): nat
  {
    if s == [] then 0 else (if s[0] == c then 1 else 0) + Count(c, s[1..])
  }

  /** `explode(sep, s)`: the pieces of `s` between the occurrences of `sep`. */
  function Explode(sep: char, s: string): (parts: seq<string>)
    ensures |parts| == Count(sep, s) + 1
    ensures forall i :: 0 <= i < |parts| ==> sep !in parts[i]
  {
    if s == [] then [[]]
    else
      var rest := Explode(sep, s[1..]);
      if s[0] == sep then [[]] + rest else [[s[0]] + rest[0]] + rest[1..]
  }

  /** `implode(sep, parts)`: the inverse of `Explode`. */
  function Implode(sep: char, parts: seq<string>): string
    requires |parts| >= 1
  {
    if |parts| == 1 then parts[0] else parts[0] + [sep] + Implode(sep, parts[1..])
  }

  lemma {:induction false} ImplodeExplode(sep: char, s: string)
    ensures Implode(sep, Explode(sep, s)) == s
  {
    if s != [] {
      var rest := Explode(sep, s[1..]);
      ImplodeExplode(sep, s[1..]);
      if s[0] == sep {
        assert Explode(sep, s)[1..] == rest;
      } else {
        var parts := Explode(sep, s);
        assert parts[1..] == rest[1..];
        if |rest| == 1 {
          assert parts == [[s[0]] + rest[0]];
        } else {
          calc {
            Implode(sep, parts);
            parts[0] + [sep] + Implode(sep, parts[1..]);
            [s[0]] + (rest[0] + [sep] + Implode(sep, rest[1..]));
            [s[0]] + Implode(sep, rest);
          }
        }
      }
    }
  }

  /** Splitting on a separator that occurs exactly once yields the two sides of it. */
  lemma ExplodeInTwo(sep: char, s: string)
    requires |Explode(sep, s)| == 2
    ensures Explode(sep, s)[0] + [sep] + Explode(sep, s)[1] == s
  {
    ImplodeExplode(sep, s);
  }

  function DecimalDigit(d: nat): char
    requires d < 10
  {
    ('0' as int + d) as char
  }

  function NatToString(n: nat): string
  {
    if n < 10 then [DecimalDigit(n)] else NatToString(n / 10) + [DecimalDigit(n % 10)]
  }

  /** PHP's `(string)` cast of an integer: its decimal rendering. */
  function IntToString(i: int): string
  {
    if i < 0 then "-" + NatToString(-i) else NatToString(i)
  }
}

/**
 * Query strings as ordered (name, value) lists, and PHP's `urlencode` /
 * `urldecode` on them.
 *
 * PHP strings are byte strings. The encoder escapes every character below
 * 256 that is not alphanumeric or one of `-_.` as `%` plus two upper-case hex
 * digits, and writes a space as `+`. A character above 255, which no PHP
 * string holds, is left as it is.
 */
module Url {
  import opened Wrappers

  /** One query parameter. */
  type Param = (string, string)

  /** `HttpUtils::getParameterValue`: the value of the first parameter named `name`. */
  function ParameterValue<V>(params: seq<(string, V)>, name: string): Option<V>
  {
    if params == [] then None
    else if params[0].0 == name then Some(params[0].1)
    else ParameterValue(params[1..], name)
  }

  /** A lookup in a concatenation looks in the first part first. */
  lemma {:induction false} ParameterValueAppend<V>(a: seq<(string, V)>, b: seq<(string, V)>, name: string)
    ensures ParameterValue(a + b, name)
         == if ParameterValue(a, name).Some? then ParameterValue(a, name) else ParameterValue(b, name)
  {
    if a != [] {
      assert (a + b)[1..] == a[1..] + b;
      ParameterValueAppend(a[1..], b, name);
    } else {
      assert a + b == b;
    }
  }

  /** No parameter carries `name`: lookup finds nothing. */
  lemma {:induction false} ParameterValueNone<V>(params: seq<(string, V)>, name: string)
    requires forall i :: 0 <= i < |params| ==> params[i].0 != name
    ensures ParameterValue(params, name).None?
  {
    if params != [] {
      assert forall i :: 0 <= i < |params[1..]| ==> params[1..][i] == params[i + 1];
      ParameterValueNone(params[1..], name);
    }
  }

  /** A prefix without `name` does not affect its lookup. */
  lemma ParameterValueSkip<V>(a: seq<(string, V)>, b: seq<(string, V)>, name: string)
    requires forall i :: 0 <= i < |a| ==> a[i].0 != name
    ensures ParameterValue(a + b, name) == ParameterValue(b, name)
  {
    ParameterValueAppend(a, b, name);
    ParameterValueNone(a, name);
  }

  /** A parameter whose name no earlier parameter has is found by lookup. */
  lemma {:induction false} ParameterValueAt<V>(params: seq<(string, V)>, i: int)
    requires 0 <= i < |params|
    requires forall j :: 0 <= j < i ==> params[j].0 != params[i].0
    ensures ParameterValue(params, params[i].0) == Some(params[i].1)
  {
    if i > 0 {
      assert params[1..][i - 1] == params[i];
      assert forall j :: 0 <= j < i - 1 ==> params[1..][j] == params[j + 1];
      ParameterValueAt(params[1..], i - 1);
    }
  }

  /** `name=value` pairs joined by `&`, in order. */
  function Query(params: seq<Param>): string
  {
    if params == [] then ""
    else params[0].0 + "=" + params[0].1 + (if |params| == 1 then "" else "&" + Query(params[1..]))
  }

  predicate Unreserved(c: char)
  {
    ('a' <= c <= 'z') || ('A' <= c <= 'Z') || ('0' <= c <= '9') || c == '-' || c == '_' || c == '.'
  }

  predicate IsHex(c: char)
  {
    ('0' <= c <= '9') || ('a' <= c <= 'f') || ('A' <= c <= 'F')
  }

  function HexDigit(n: nat): (c: char)
    requires n < 16
    ensures IsHex(c)
  {
    if n < 10 then ('0' as int + n) as char else ('A' as int + n - 10) as char
  }

  function HexValue(c: char): (n: nat)
    requires IsHex(c)
    ensures n < 16
  {
    if '0' <= c <= '9' then c as int - '0' as int
    else if 'a' <= c <= 'f' then c as int - 'a' as int + 10
    else c as int - 'A' as int + 10
  }

  function EncodeChar(c: char): string
  {
    if Unreserved(c) then [c]
    else if c == ' ' then ['+']
    else if (c as int) < 256 then ['%', HexDigit(c as int / 16), HexDigit(c as int % 16)]
    else [c]
  }

  /** PHP's `urlencode`. */
  function UrlEncode(s: string): string
  {
    if s == [] then [] else EncodeChar(s[0]) + UrlEncode(s[1..])
  }

  /** PHP's `urldecode`: `+` is a space, `%` and two hex digits a byte, anything else itself. */
  function UrlDecode(s: string): string
  {
    if s == [] then []
    else if s[0] == '+' then [' '] + UrlDecode(s[1..])
    else if s[0] == '%' && |s| >= 3 && IsHex(s[1]) && IsHex(s[2]) then
      [(HexValue(s[1]) * 16 + HexValue(s[2])) as char] + UrlDecode(s[3..])
    else [s[0]] + UrlDecode(s[1..])
  }

  lemma {:induction false} UrlEncodeAppend(a: string, b: string)
    ensures UrlEncode(a + b) == UrlEncode(a) + UrlEncode(b)
  {
    if a != [] {
      assert (a + b)[1..] == a[1..] + b;
      UrlEncodeAppend(a[1..], b);
    } else {
      assert a + b == b;
    }
  }

  lemma DecodeEncodedChar(c: char, t: string)
    ensures UrlDecode(EncodeChar(c) + t) == [c] + UrlDecode(t)
  {
    var s := EncodeChar(c) + t;
    if !Unreserved(c) && c != ' ' && (c as int) < 256 {
      assert s[3..] == t;
      assert HexValue(s[1]) == c as int / 16;
      assert HexValue(s[2]) == c as int % 16;
    } else {
      assert s[1..] == t;
    }
  }

  /** `urldecode` undoes `urlencode`. */
  lemma {:induction false} DecodeEncode(s: string)
    ensures UrlDecode(UrlEncode(s)) == s
  {
    if s != [] {
      DecodeEncodedChar(s[0], UrlEncode(s[1..]));
      DecodeEncode(s[1..]);
    }
  }

  /**
   * Decoding distributes over a concatenation whose second part does not
   * start with a hex digit: an unfinished escape at the end of `a` cannot
   * borrow characters from `b`.
   */
  lemma {:induction false} DecodeAppend(a: string, b: string)
    requires b == [] || !IsHex(b[0])
    ensures UrlDecode(a + b) == UrlDecode(a) + UrlDecode(b)
  {
    if a != [] {
      var s := a + b;
      if a[0] == '%' && |a| >= 3 && IsHex(a[1]) && IsHex(a[2]) {
        assert s[3..] == a[3..] + b;
        DecodeAppend(a[3..], b);
      } else {
        assert s[1..] == a[1..] + b;
        DecodeAppend(a[1..], b);
      }
    } else {
      assert a + b == b;
    }
  }

  /** Decoding a base followed by an encoded query gives back the query. */
  lemma DecodeBaseAndQuery(base: string, q: string)
    ensures UrlDecode(base + UrlEncode("?" + q)) == UrlDecode(base) + "?" + q
  {
    assert ("?" + q)[1..] == q;
    assert UrlEncode("?" + q) == "%3F" + UrlEncode(q);
    DecodeAppend(base, UrlEncode("?" + q));
    DecodeEncode("?" + q);
  }
}

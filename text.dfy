/**
 * The few `str` operations of Python that the backend relies on: `strip()`,
 * `lower()`, `endswith()`, `replace(" ", "")` and `str()` of an integer.
 */
module Text {

  /** Python's `str.isspace()`: the characters `strip()` removes. */
  predicate IsWhitespace(c: char) {
    c in {'\t', '\n', '\U{0B}', '\U{0C}', '\r', '\U{1C}', '\U{1D}', '\U{1E}', '\U{1F}', ' ',
          '\U{85}', '\U{A0}', '\U{1680}', '\U{2028}', '\U{2029}', '\U{202F}',
          '\U{205F}', '\U{3000}'}
    || ('\U{2000}' <= c <= '\U{200A}')
  }

  /** Number of whitespace characters at the start of `s`. */
  function LeadingWhitespace(s: string): (n: nat)
    ensures n <= |s|
    ensures forall k :: 0 <= k < n ==> IsWhitespace(s[k])
    ensures n < |s| ==> !IsWhitespace(s[n])
  {
    if |s| > 0 && IsWhitespace(s[0]) then 1 + LeadingWhitespace(s[1..]) else 0
  }

  /** Number of whitespace characters at the end of `s`. */
  function TrailingWhitespace(s: string): (n: nat)
    ensures n <= |s|
    ensures forall k :: |s| - n <= k < |s| ==> IsWhitespace(s[k])
    ensures n < |s| ==> !IsWhitespace(s[|s| - n - 1])
  {
    if |s| > 0 && IsWhitespace(s[|s| - 1]) then 1 + TrailingWhitespace(s[..|s| - 1]) else 0
  }

  /** Python's `s.strip()`: `s` without its leading and trailing whitespace. */
  function Strip(s: string): (r: string)
    ensures |r| <= |s|
    ensures r != [] ==> !IsWhitespace(r[0]) && !IsWhitespace(r[|r| - 1])
    ensures forall c :: c in r ==> c in s
  {
    var a := LeadingWhitespace(s);
    var rest := s[a..];
    rest[..|rest| - TrailingWhitespace(rest)]
  }

  /** A string that neither starts nor ends with whitespace is its own strip. */
  lemma {:induction false} StripUnchanged(s: string)
    requires s != [] ==> !IsWhitespace(s[0]) && !IsWhitespace(s[|s| - 1])
    ensures Strip(s) == s
  {
    assert LeadingWhitespace(s) == 0;
    assert s[0..] == s;
    assert TrailingWhitespace(s) == 0;
  }

  /** Lower-cases the ASCII letters; every other character is kept. */
  function LowerChar(c: char): (d: char)
    ensures 'A' <= c <= 'Z' ==> d as int == c as int + 32
    ensures !('A' <= c <= 'Z') ==> d == c
  {
    if 'A' <= c <= 'Z' then (c as int + 32) as char else c
  }

  /** Python's `s.lower()` on the ASCII letters. */
  function Lower(s: string): (r: string)
    ensures |r| == |s|
    ensures forall k :: 0 <= k < |s| ==> r[k] == LowerChar(s[k])
  {
    seq(|s|, k requires 0 <= k < |s| => LowerChar(s[k]))
  }

  /** Python's `s.endswith(suffix)`. */
  predicate EndsWith(s: string, suffix: string) {
    |suffix| <= |s| && s[|s| - |suffix|..] == suffix
  }

  /** Python's `s.replace(c, "")` for a one-character `c`. */
  function RemoveAll(s: string, c: char): (r: string)
    ensures c !in r
    ensures |r| <= |s|
    ensures forall d :: d in r <==> d in s && d != c
  {
    if s == [] then []
    else (if s[0] == c then [] else [s[0]]) + RemoveAll(s[1..], c)
  }

  /** Removing a character from a string that does not contain it changes nothing. */
  lemma {:induction false} RemoveAllAbsent(s: string, c: char)
    requires c !in s
    ensures RemoveAll(s, c) == s
  {
    if s != [] {
      RemoveAllAbsent(s[1..], c);
    }
  }

  /** Removing `c` keeps a first and a last character that are not `c`. */
  lemma {:induction false} RemoveAllKeepsEnds(s: string, c: char)
    requires s != [] && s[0] != c && s[|s| - 1] != c
    ensures var r := RemoveAll(s, c); r != [] && r[0] == s[0] && r[|r| - 1] == s[|s| - 1]
  {
    if |s| > 1 {
      RemoveAllLast(s, c);
    }
  }

  lemma {:induction false} RemoveAllLast(s: string, c: char)
    requires s != [] && s[|s| - 1] != c
    ensures var r := RemoveAll(s, c); r != [] && r[|r| - 1] == s[|s| - 1]
  {
    if |s| > 1 {
      RemoveAllLast(s[1..], c);
    }
  }

  function DigitChar(d: nat): (c: char)
    requires d < 10
    ensures '0' <= c <= '9'
  {
    ('0' as int + d) as char
  }

  /** Decimal digits of `n`, most significant first, as Python's `str(n)`. */
  function NatToString(n: nat): (r: string)
    ensures |r| >= 1
    ensures forall k :: 0 <= k < |r| ==> '0' <= r[k] <= '9'
    ensures r[0] == '0' ==> n == 0
  {
    if n < 10 then [DigitChar(n)] else NatToString(n / 10) + [DigitChar(n % 10)]
  }

  /** Value of a string of decimal digits. */
  function ParseDigits(s: string): nat
    requires forall k :: 0 <= k < |s| ==> '0' <= s[k] <= '9'
  {
    if s == [] then 0 else ParseDigits(s[..|s| - 1]) * 10 + (s[|s| - 1] as int - '0' as int)
  }

  lemma {:induction false} ParseNatToString(n: nat)
    ensures ParseDigits(NatToString(n)) == n
  {
    if n >= 10 {
      var s := NatToString(n);
      assert s[..|s| - 1] == NatToString(n / 10);
      ParseNatToString(n / 10);
    }
  }

  /** Python's `str(i)` for an integer. */
  function IntToString(i: int): (r: string)
    ensures |r| >= 1
    ensures r[0] == '-' <==> i < 0
  {
    if i < 0 then "-" + NatToString(-i) else NatToString(i)
  }

  /** Python's `int(s)` on the strings `str` produces. */
  function ParseInt(s: string): int
    requires |s| >= 1
    requires forall k :: (s[0] == '-' && 1 <= k < |s|) || (s[0] != '-' && 0 <= k < |s|) ==> '0' <= s[k] <= '9'
  {
    if s[0] == '-' then -(ParseDigits(s[1..]) as int) else ParseDigits(s)
  }

  /** `int(str(i)) == i`; hence distinct integers have distinct decimal strings. */
  lemma {:induction false} IntToStringRoundTrip(i: int)
    ensures ParseInt(IntToString(i)) == i
  {
    if i < 0 {
      ParseNatToString(-i);
      assert IntToString(i)[1..] == NatToString(-i);
    } else {
      ParseNatToString(i);
    }
  }

  lemma IntToStringInjective(i: int, j: int)
    requires IntToString(i) == IntToString(j)
    ensures i == j
  {
    IntToStringRoundTrip(i);
    IntToStringRoundTrip(j);
  }

  /** Python's `sep.join(parts)`. */
  function Join(sep: string, parts: seq<string>): string {
    if parts == [] then "" else if |parts| == 1 then parts[0] else parts[0] + sep + Join(sep, parts[1..])
  }

  lemma JoinPair(sep: string, x: string, y: string)
    ensures Join(sep, [x, y]) == x + sep + y
  {
    assert [x, y][1..] == [y];
  }
}

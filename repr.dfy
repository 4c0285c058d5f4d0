/**
 * Python's `repr()` of the values the backend turns into text with `str()`
 * or an f-string: strings, and the JSON-like lists and dicts built from them.
 */
module PyRepr {
  import opened Wrappers
  import opened Text
  import opened Transcript

  const HexDigits := "0123456789abcdef"

  /** A character `repr` writes as a `\xNN` escape: the C0 controls and DEL, but for tab, newline and return. */
  predicate HexEscaped(c: char) {
    (c < ' ' && c !in {'\t', '\n', '\r'}) || c == '\U{7F}'
  }

  /** The escape sequence of one character inside a string literal quoted with `q`. */
  function EscapeChar(c: char, q: char): (r: string)
    ensures |r| >= 1
    ensures r[0] == '\\' <==> c == '\\' || c == q || c in {'\t', '\n', '\r'} || HexEscaped(c)
  {
    if c == '\\' then "\\\\"
    else if c == q then ['\\', q]
    else if c == '\n' then "\\n"
    else if c == '\r' then "\\r"
    else if c == '\t' then "\\t"
    else if HexEscaped(c) then "\\x" + [HexDigits[c as int / 16], HexDigits[c as int % 16]]
    else [c]
  }

  function EscapeBody(s: string, q: char): string {
    if s == [] then [] else EscapeChar(s[0], q) + EscapeBody(s[1..], q)
  }

  /** `repr` quotes with `"` only when the string holds a `'` and no `"`. */
  function QuoteFor(s: string): (q: char)
    ensures q == '"' || q == '\''
    ensures q == '"' ==> '"' !in s
  {
    if '\'' in s && '"' !in s then '"' else '\''
  }

  /** `repr(s)` for a string. */
  function StrRepr(s: string): (r: string)
    ensures |r| >= 2 && r[0] == r[|r| - 1] == QuoteFor(s)
  {
    var q := QuoteFor(s);
    [q] + EscapeBody(s, q) + [q]
  }

  function HexValue(c: char): Option<nat> {
    if '0' <= c <= '9' then Some(c as int - '0' as int)
    else if 'a' <= c <= 'f' then Some(c as int - 'a' as int + 10)
    else None
  }

  /** The string a literal body quoted with `q` denotes, or `None` if the body is not one `repr` writes. */
  function Unescape(body: string, q: char): Option<string>
    decreases |body|
  {
    if body == [] then Some([])
    else if body[0] == q then None
    else if body[0] != '\\' then
      match Unescape(body[1..], q)
      case Some(rest) => Some([body[0]] + rest)
      case None => None
    else if |body| < 2 then None
    else
      var e := body[1];
      if e == 'x' then
        if |body| < 4 then None
        else match (HexValue(body[2]), HexValue(body[3]))
          case (Some(h), Some(l)) =>
            (match Unescape(body[4..], q)
             case Some(rest) => Some([(h * 16 + l) as char] + rest)
             case None => None)
          case _ => None
      else
        var c := if e == 'n' then Some('\n') else if e == 'r' then Some('\r') else if e == 't' then Some('\t')
                 else if e == '\\' || e == q then Some(e) else None;
        match (c, Unescape(body[2..], q))
        case (Some(d), Some(rest)) => Some([d] + rest)
        case _ => None
  }

  /** Reads a quoted literal back into the string it denotes. */
  function ParseStrRepr(r: string): Option<string> {
    if |r| >= 2 && (r[0] == '\'' || r[0] == '"') && r[|r| - 1] == r[0] then Unescape(r[1..|r| - 1], r[0])
    else None
  }

  lemma HexDigitsValue(d: nat)
    requires d < 16
    ensures HexValue(HexDigits[d]) == Some(d)
  {
  }

  /** Unescaping reads exactly the escape of the first character, then carries on. */
  lemma UnescapeStep(c: char, q: char, tail: string, rest: string)
    requires q == '\'' || q == '"'
    requires Unescape(tail, q) == Some(rest)
    requires c != q || q == '\''
    ensures Unescape(EscapeChar(c, q) + tail, q) == Some([c] + rest)
  {
    var e := EscapeChar(c, q);
    if HexEscaped(c) && c != q && c != '\\' {
      var hi, lo := c as int / 16, c as int % 16;
      HexDigitsValue(hi);
      HexDigitsValue(lo);
      assert (e + tail)[4..] == tail;
    } else if e[0] == '\\' {
      assert (e + tail)[2..] == tail;
    } else {
      assert (e + tail)[1..] == tail;
    }
  }

  lemma {:induction false} UnescapeEscape(s: string, q: char)
    requires q == '"' ==> '"' !in s
    requires q == '\'' || q == '"'
    ensures Unescape(EscapeBody(s, q), q) == Some(s)
  {
    if s != [] {
      UnescapeEscape(s[1..], q);
      assert s[0] in s;
      UnescapeStep(s[0], q, EscapeBody(s[1..], q), s[1..]);
      assert [s[0]] + s[1..] == s;
    }
  }

  /** `repr` loses nothing: the literal it writes reads back as the same string. */
  lemma StrReprRoundTrip(s: string)
    ensures ParseStrRepr(StrRepr(s)) == Some(s)
  {
    var q := QuoteFor(s);
    var r := StrRepr(s);
    UnescapeEscape(s, q);
    assert r[1..|r| - 1] == EscapeBody(s, q);
  }

  lemma StrReprInjective(s: string, t: string)
    requires StrRepr(s) == StrRepr(t)
    ensures s == t
  {
    StrReprRoundTrip(s);
    StrReprRoundTrip(t);
  }

  /** `repr` of a JSON-like Python value: `None`, `True`, an int, a string, a list or a dict. */
  function JsonRepr(v: Json): string
    decreases v, 1
  {
    match v
    case JNull => "None"
    case JBool(b) => if b then "True" else "False"
    case JInt(i) => IntToString(i)
    case JStr(s) => StrRepr(s)
    case JArr(elems) => "[" + Join(", ", ElemReprs(v, elems)) + "]"
    case JObj(fields) => "{" + Join(", ", FieldReprs(v, fields)) + "}"
  }

  function ElemReprs(parent: Json, elems: seq<Json>): seq<string>
    requires forall k :: 0 <= k < |elems| ==> elems[k] < parent
    decreases parent, 0, |elems|
  {
    if elems == [] then [] else [JsonRepr(elems[0])] + ElemReprs(parent, elems[1..])
  }

  function FieldReprs(parent: Json, fields: seq<(string, Json)>): seq<string>
    requires forall k :: 0 <= k < |fields| ==> fields[k].1 < parent
    decreases parent, 0, |fields|
  {
    if fields == [] then [] else [StrRepr(fields[0].0) + ": " + JsonRepr(fields[0].1)] + FieldReprs(parent, fields[1..])
  }

  /** A two-element list is written `[a, b]`. */
  lemma ArrReprPair(a: Json, b: Json)
    ensures JsonRepr(JArr([a, b])) == "[" + JsonRepr(a) + ", " + JsonRepr(b) + "]"
  {
    var v := JArr([a, b]);
    assert [a, b][1..] == [b];
    assert ElemReprs(v, [b]) == [JsonRepr(b)] + ElemReprs(v, []);
    assert ElemReprs(v, [a, b]) == [JsonRepr(a), JsonRepr(b)];
    JoinPair(", ", JsonRepr(a), JsonRepr(b));
  }

  /** A dict of two string values is written `{'k1': 's1', 'k2': 's2'}`. */
  lemma ObjReprPair(k1: string, s1: string, k2: string, s2: string)
    ensures JsonRepr(JObj([(k1, JStr(s1)), (k2, JStr(s2))]))
         == "{" + (StrRepr(k1) + ": " + StrRepr(s1)) + ", " + (StrRepr(k2) + ": " + StrRepr(s2)) + "}"
  {
    var fs := [(k1, JStr(s1)), (k2, JStr(s2))];
    var v := JObj(fs);
    var e1, e2 := StrRepr(k1) + ": " + StrRepr(s1), StrRepr(k2) + ": " + StrRepr(s2);
    assert fs[1..] == [(k2, JStr(s2))];
    assert FieldReprs(v, [(k2, JStr(s2))]) == [e2] + FieldReprs(v, []);
    assert FieldReprs(v, fs) == [e1, e2];
    JoinPair(", ", e1, e2);
  }

  /** A string of lower-case letters needs no escape. */
  lemma {:induction false} EscapeBodyLetters(s: string, q: char)
    requires q == '\'' || q == '"'
    requires forall k :: 0 <= k < |s| ==> 'a' <= s[k] <= 'z'
    ensures EscapeBody(s, q) == s
  {
    if s != [] {
      EscapeBodyLetters(s[1..], q);
      assert [s[0]] + s[1..] == s;
    }
  }

  /** A word of lower-case letters is written between single quotes. */
  lemma WordRepr(w: string)
    requires forall k :: 0 <= k < |w| ==> 'a' <= w[k] <= 'z'
    ensures StrRepr(w) == "'" + w + "'"
  {
    assert '\'' !in w;
    EscapeBodyLetters(w, '\'');
  }
}

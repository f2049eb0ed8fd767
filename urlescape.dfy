/** The parts of Go's `net/url` package the aggregator relies on:
    QueryEscape, QueryUnescape and the parsing of a query string into
    key/value pairs (url.ParseQuery, used by URL.Query). */
module UrlEscape {
  import opened Wrappers
  import opened GoStrings

  /** The model's strings stand for Go byte strings: one character per byte. */
  predicate IsBytes(s: string) {
    forall i :: 0 <= i < |s| ==> s[i] as int < 256
  }

  /** Characters QueryEscape leaves as they are. */
  predicate Unreserved(c: char) {
    ('A' <= c <= 'Z') || ('a' <= c <= 'z') || ('0' <= c <= '9') ||
    c == '-' || c == '_' || c == '.' || c == '~'
  }

  function HexDigit(n: nat): (c: char)
    requires n < 16
    ensures Unreserved(c)
  {
    "0123456789ABCDEF"[n]
  }

  function HexValue(c: char): Option<nat> {
    if '0' <= c <= '9' then Some(c as int - '0' as int)
    else if 'a' <= c <= 'f' then Some(c as int - 'a' as int + 10)
    else if 'A' <= c <= 'F' then Some(c as int - 'A' as int + 10)
    else None
  }

  function EscapeChar(c: char): string {
    if Unreserved(c) then [c]
    else if c == ' ' then "+"
    else ['%', HexDigit((c as int / 16) % 16), HexDigit(c as int % 16)]
  }

  /** url.QueryEscape: every byte outside the unreserved set becomes %XX
      (upper-case hex), a space becomes '+'. */
  function QueryEscape(s: string): string {
    if s == [] then "" else EscapeChar(s[0]) + QueryEscape(s[1..])
  }

  /** url.QueryUnescape: %XX becomes that byte, '+' becomes a space; a '%'
      not followed by two hex digits is an error (None). */
  function QueryUnescape(s: string): Option<string>
    decreases |s|
  {
    if s == [] then Some("")
    else if s[0] == '%' then
      if |s| >= 3 && HexValue(s[1]).Some? && HexValue(s[2]).Some? then
        match QueryUnescape(s[3..])
        case None => None
        case Some(t) => Some([(16 * HexValue(s[1]).value + HexValue(s[2]).value) as char] + t)
      else None
    else
      match QueryUnescape(s[1..])
      case None => None
      case Some(t) => Some([if s[0] == '+' then ' ' else s[0]] + t)
  }

  /** Escaping keeps every byte and spends at most three characters on one. */
  lemma {:induction false} EscapeLength(s: string)
    ensures |s| <= |QueryEscape(s)| <= 3 * |s|
  {
    if s != [] {
      EscapeLength(s[1..]);
    }
  }

  /** An unescape is never longer than its input, and a text without '%'
      always unescapes, to one of the same length. */
  lemma {:induction false} UnescapeLength(s: string)
    ensures QueryUnescape(s).Some? ==> |QueryUnescape(s).value| <= |s|
    ensures '%' !in s ==> QueryUnescape(s).Some? && |QueryUnescape(s).value| == |s|
    decreases |s|
  {
    if s != [] {
      if s[0] == '%' {
        if |s| >= 3 {
          UnescapeLength(s[3..]);
        }
      } else {
        UnescapeLength(s[1..]);
        assert '%' !in s ==> '%' !in s[1..];
      }
    }
  }

  /** Prepends a text to a successful unescape. */
  function Prepend(p: string, r: Option<string>): Option<string> {
    match r
    case None => None
    case Some(t) => Some(p + t)
  }

  lemma {:induction false} EscapedAlphabet(s: string)
    ensures forall i :: 0 <= i < |QueryEscape(s)| ==>
      Unreserved(QueryEscape(s)[i]) || QueryEscape(s)[i] == '+' || QueryEscape(s)[i] == '%'
  {
    if s != [] {
      EscapedAlphabet(s[1..]);
    }
  }

  /** The escaped text holds no query-string delimiter, no '#' and no '?'. */
  lemma EscapedLacksDelimiters(s: string)
    ensures '&' !in QueryEscape(s) && '=' !in QueryEscape(s) && '#' !in QueryEscape(s)
    ensures '?' !in QueryEscape(s) && ';' !in QueryEscape(s)
  {
    EscapedAlphabet(s);
  }

  /** One step of QueryUnescape on a character other than '%'. */
  lemma UnescapeCons(c: char, t: string)
    requires c != '%'
    ensures QueryUnescape([c] + t) == Prepend([if c == '+' then ' ' else c], QueryUnescape(t))
  {
    assert ([c] + t)[0] == c && ([c] + t)[1..] == t;
  }

  /** One step of QueryUnescape on a well-formed %XX escape. */
  lemma UnescapeHex(hi: nat, lo: nat, t: string)
    requires hi < 16 && lo < 16
    ensures QueryUnescape(['%', HexDigit(hi), HexDigit(lo)] + t)
         == Prepend([(16 * hi + lo) as char], QueryUnescape(t))
  {
    var e := ['%', HexDigit(hi), HexDigit(lo)] + t;
    assert e[0] == '%' && e[1] == HexDigit(hi) && e[2] == HexDigit(lo) && e[3..] == t;
    assert HexValue(HexDigit(hi)) == Some(hi);
    assert HexValue(HexDigit(lo)) == Some(lo);
  }

  lemma PrependEmpty(r: Option<string>)
    ensures Prepend("", r) == r
  {
    match r
    case None =>
    case Some(t) => assert "" + t == t;
  }

  lemma PrependPrepend(a: string, b: string, r: Option<string>)
    ensures Prepend(a, Prepend(b, r)) == Prepend(a + b, r)
  {
    match r
    case None =>
    case Some(t) => assert a + (b + t) == (a + b) + t;
  }

  lemma ByteHexDigits(n: int)
    requires 0 <= n < 256
    ensures 16 * ((n / 16) % 16) + n % 16 == n
  {
  }

  /** Escaping one byte and unescaping it, with more text behind. */
  lemma UnescapeEscapeChar(c: char, tail: string)
    requires c as int < 256
    ensures QueryUnescape(EscapeChar(c) + tail) == Prepend([c], QueryUnescape(tail))
  {
    if Unreserved(c) {
      UnescapeCons(c, tail);
    } else if c == ' ' {
      UnescapeCons('+', tail);
    } else {
      var hi, lo := (c as int / 16) % 16, c as int % 16;
      UnescapeHex(hi, lo, tail);
      ByteHexDigits(c as int);
    }
  }

  /** Unescaping an escaped byte string followed by more text unescapes the
      escaped part back to the original. */
  lemma {:induction false} UnescapeEscapedPrefix(s: string, rest: string)
    requires IsBytes(s)
    ensures QueryUnescape(QueryEscape(s) + rest) == Prepend(s, QueryUnescape(rest))
  {
    if s != [] {
      var c := s[0];
      assert IsBytes(s[1..]);
      UnescapeEscapedPrefix(s[1..], rest);
      var tail := QueryEscape(s[1..]) + rest;
      assert QueryEscape(s) + rest == EscapeChar(c) + tail;
      assert [c] + s[1..] == s;
      UnescapeEscapeChar(c, tail);
      PrependPrepend([c], s[1..], QueryUnescape(rest));
    } else {
      assert QueryEscape(s) + rest == rest;
      PrependEmpty(QueryUnescape(rest));
    }
  }

  /** QueryUnescape inverts QueryEscape on byte strings. */
  lemma EscapeRoundTrip(s: string)
    requires IsBytes(s)
    ensures QueryUnescape(QueryEscape(s)) == Some(s)
  {
    UnescapeEscapedPrefix(s, "");
    assert QueryEscape(s) + "" == QueryEscape(s);
    assert QueryUnescape("") == Some("");
    assert s + "" == s;
  }

  /** Text without '%' and '+' unescapes to itself, whatever follows. */
  lemma {:induction false} UnescapePlainPrefix(p: string, rest: string)
    requires '%' !in p && '+' !in p
    ensures QueryUnescape(p + rest) == Prepend(p, QueryUnescape(rest))
  {
    if p != [] {
      assert p[0] in p;
      assert p + rest == [p[0]] + (p[1..] + rest);
      assert [p[0]] + p[1..] == p;
      UnescapePlainPrefix(p[1..], rest);
      UnescapeCons(p[0], p[1..] + rest);
      PrependPrepend([p[0]], p[1..], QueryUnescape(rest));
    } else {
      assert p + rest == rest;
      PrependEmpty(QueryUnescape(rest));
    }
  }

  lemma UnescapePlain(p: string)
    requires '%' !in p && '+' !in p
    ensures QueryUnescape(p) == Some(p)
  {
    UnescapePlainPrefix(p, "");
    assert p + "" == p;
    assert QueryUnescape("") == Some("");
  }

  // ---------------------------------------------------------------------
  // Query strings

  /** One `key=value` piece of a query string, both halves unescaped; None
      when the piece is skipped (empty, holding ';', or a bad escape). */
  function ParsePair(piece: string): Option<(string, string)> {
    if piece == "" || ';' in piece then None
    else
      var key := match IndexOf(piece, "=") case None => piece case Some(i) => piece[..i];
      var value := match IndexOf(piece, "=") case None => "" case Some(i) => piece[i + 1..];
      match (QueryUnescape(key), QueryUnescape(value))
      case (Some(k), Some(v)) => Some((k, v))
      case _ => None
  }

  /** url.ParseQuery, keeping the pairs in the order they appear. */
  function ParsePairs(pieces: seq<string>): seq<(string, string)> {
    if pieces == [] then []
    else
      (match ParsePair(pieces[0]) case None => [] case Some(kv) => [kv]) + ParsePairs(pieces[1..])
  }

  /** The raw query of a URL: the text after its first '?'. */
  function RawQuery(rurl: string): string {
    match IndexOf(rurl, "?")
    case None => ""
    case Some(i) => rurl[i + 1..]
  }

  function ValuesOf(pairs: seq<(string, string)>, key: string): seq<string> {
    if pairs == [] then []
    else (if pairs[0].0 == key then [pairs[0].1] else []) + ValuesOf(pairs[1..], key)
  }

  /** URL.Query()[key]: every value given for `key`, in order. */
  function QueryValues(rurl: string, key: string): seq<string> {
    ValuesOf(ParsePairs(Split(RawQuery(rurl), "&")), key)
  }

  /** URL.Query().Get(key): the first value for `key`, or "". */
  function QueryGet(rurl: string, key: string): string {
    var vs := QueryValues(rurl, key);
    if vs == [] then "" else vs[0]
  }

  /** A piece `key=value` whose key is plain and lacks '=' parses to the
      pair of the key and the unescaped value. */
  lemma ParsePlainKey(key: string, value: string)
    requires key != [] && '=' !in key && '%' !in key && '+' !in key && ';' !in key
    requires ';' !in value && QueryUnescape(value).Some?
    ensures ParsePair(key + "=" + value) == Some((key, QueryUnescape(value).value))
  {
    var piece := key + "=" + value;
    IndexAfterChar(key, '=', value);
    assert piece[..|key|] == key;
    assert piece[|key| + 1..] == value;
    UnescapePlain(key);
    assert ';' !in piece by {
      forall i | 0 <= i < |piece| ensures piece[i] != ';' {
        if i < |key| { assert piece[i] == key[i]; }
        else if i > |key| { assert piece[i] == value[i - |key| - 1]; }
      }
    }
  }

  /** A query string of one plain-keyed piece parses to that one pair. */
  lemma ParseSingle(key: string, value: string)
    requires key != [] && '=' !in key && '%' !in key && '+' !in key && ';' !in key
    requires ';' !in value && QueryUnescape(value).Some?
    ensures ParsePairs([key + "=" + value]) == [(key, QueryUnescape(value).value)]
  {
    ParsePlainKey(key, value);
    assert [key + "=" + value][1..] == [];
  }
}

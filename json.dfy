/**
 * The part of `JSON.stringify` the upload code depends on: quoting a string
 * (the `Init-State` name and balances key, the collection's item ids) and
 * an array of strings (the collection's `items`). Beside each encoder sits a
 * decoder, and the round-trip lemmas say that a reader of the stored record
 * gets back exactly the strings that were written, in order.
 */
module Json {
  import opened Basics

  function HexDigit(d: nat): (ch: char)
    requires d < 16
  {
    if d < 10 then (48 + d) as char else (87 + d) as char
  }

  predicate IsHex(ch: char) {
    '0' <= ch <= '9' || 'a' <= ch <= 'f' || 'A' <= ch <= 'F'
  }

  function HexValue(ch: char): (d: nat)
    requires IsHex(ch)
    ensures d < 16
  {
    if '0' <= ch <= '9' then ch as int - 48
    else if 'a' <= ch <= 'f' then ch as int - 87
    else ch as int - 55
  }

  /** How `JSON.stringify` writes one character inside a string literal:
      the two-character escapes for quote, backslash, backspace, form feed,
      newline, carriage return and tab; `\u00xx` with lower-case hex for the
      other control characters; every other character as itself. */
  function EscapeChar(c: char): (r: string)
    ensures |r| >= 1
  {
    if c == '"' then ['\\', '"']
    else if c == '\\' then ['\\', '\\']
    else if c as int == 0x08 then ['\\', 'b']
    else if c as int == 0x0C then ['\\', 'f']
    else if c as int == 0x0A then ['\\', 'n']
    else if c as int == 0x0D then ['\\', 'r']
    else if c as int == 0x09 then ['\\', 't']
    else if c as int < 0x20 then ['\\', 'u', '0', '0', HexDigit(c as int / 16), HexDigit(c as int % 16)]
    else [c]
  }

  function Escape(s: string): string
    decreases |s|
  {
    if |s| == 0 then "" else EscapeChar(s[0]) + Escape(s[1..])
  }

  /** `JSON.stringify(s)` for a string `s`. */
  function Quote(s: string): string {
    "\"" + Escape(s) + "\""
  }

  /** The character a two-character escape `\e` stands for, if `e` names one. */
  function SimpleEscape(e: char): Option<char> {
    if e == '"' then Some('"')
    else if e == '\\' then Some('\\')
    else if e == '/' then Some('/')
    else if e == 'b' then Some(8 as char)
    else if e == 'f' then Some(12 as char)
    else if e == 'n' then Some(10 as char)
    else if e == 'r' then Some(13 as char)
    else if e == 't' then Some(9 as char)
    else None
  }

  function Cons(c: char, r: Option<(string, string)>): Option<(string, string)> {
    match r
    case None => None
    case Some(p) => Some(([c] + p.0, p.1))
  }

  /** Reads the body of a JSON string literal whose opening quote has been
      consumed: the decoded characters, and the text after the closing quote. */
  function Unescape(t: string): (r: Option<(string, string)>)
    ensures r.Some? ==> |r.value.1| < |t|
    decreases |t|
  {
    if |t| == 0 then None
    else if t[0] == '"' then Some(("", t[1..]))
    else if t[0] != '\\' then Cons(t[0], Unescape(t[1..]))
    else if |t| < 2 then None
    else if SimpleEscape(t[1]).Some? then Cons(SimpleEscape(t[1]).value, Unescape(t[2..]))
    else if t[1] == 'u' && |t| >= 6 && IsHex(t[2]) && IsHex(t[3]) && IsHex(t[4]) && IsHex(t[5]) then
      var v := HexValue(t[2]) * 4096 + HexValue(t[3]) * 256 + HexValue(t[4]) * 16 + HexValue(t[5]);
      if v < 0xD800 || 0xE000 <= v then Cons(v as char, Unescape(t[6..])) else None
    else None
  }

  /** Reads one JSON string literal at the start of `t`. */
  function DecodeString(t: string): (r: Option<(string, string)>)
    ensures r.Some? ==> |r.value.1| < |t|
  {
    if |t| > 0 && t[0] == '"' then Unescape(t[1..]) else None
  }

  /** Reading back one escaped character. */
  lemma UnescapeChar(c: char, t: string)
    requires Unescape(t).Some?
    ensures Unescape(EscapeChar(c) + t) == Cons(c, Unescape(t))
  {
    var e := EscapeChar(c) + t;
    if c as int < 0x20 && c as int !in {0x08, 0x0C, 0x0A, 0x0D, 0x09} {
      assert e[6..] == t;
      assert HexValue(e[4]) == c as int / 16;
      assert HexValue(e[5]) == c as int % 16;
      assert (c as int) as char == c;
    } else if |EscapeChar(c)| == 2 {
      assert e[2..] == t;
    } else {
      assert e[1..] == t;
    }
  }

  /** The escaped body of a string, closed by a quote, reads back as the
      string, leaving whatever followed the quote. */
  lemma {:induction false} UnescapeEscape(s: string, rest: string)
    ensures Unescape(Escape(s) + "\"" + rest) == Some((s, rest))
    decreases |s|
  {
    if |s| == 0 {
      assert Escape(s) + "\"" + rest == "\"" + rest;
    } else {
      var tail := Escape(s[1..]) + "\"" + rest;
      UnescapeEscape(s[1..], rest);
      UnescapeChar(s[0], tail);
      assert Escape(s) == EscapeChar(s[0]) + Escape(s[1..]);
      assert Escape(s) + "\"" + rest == EscapeChar(s[0]) + tail;
      assert [s[0]] + s[1..] == s;
    }
  }

  /** `JSON.parse` of `JSON.stringify(s)` is `s`, whatever text follows. */
  lemma DecodeQuote(s: string, rest: string)
    ensures DecodeString(Quote(s) + rest) == Some((s, rest))
  {
    UnescapeEscape(s, rest);
    assert (Quote(s) + rest)[1..] == Escape(s) + "\"" + rest;
  }

  /** The comma-separated quoted items inside an array literal. */
  function Elements(items: seq<string>): string
    decreases |items|
  {
    if |items| == 0 then ""
    else if |items| == 1 then Quote(items[0])
    else Quote(items[0]) + "," + Elements(items[1..])
  }

  /** `JSON.stringify(items)` for an array of strings. */
  function StringArray(items: seq<string>): string {
    "[" + Elements(items) + "]"
  }

  /** Reads quoted items separated by commas up to and including the closing bracket. */
  function DecodeItems(t: string): (r: Option<(seq<string>, string)>)
    ensures r.Some? ==> |r.value.1| < |t|
    decreases |t|
  {
    match DecodeString(t)
    case None => None
    case Some(p) =>
      var r := p.1;
      if |r| > 0 && r[0] == ']' then Some(([p.0], r[1..]))
      else if |r| > 0 && r[0] == ',' then
        match DecodeItems(r[1..])
        case None => None
        case Some(q) => Some(([p.0] + q.0, q.1))
      else None
  }

  /** Reads one JSON array of strings at the start of `t`. */
  function DecodeArray(t: string): Option<(seq<string>, string)> {
    if |t| >= 2 && t[0] == '[' && t[1] == ']' then Some(([], t[2..]))
    else if |t| >= 1 && t[0] == '[' then DecodeItems(t[1..])
    else None
  }

  lemma DecodeItemsLast(t: string, s: string, rest: string)
    requires DecodeString(t) == Some((s, "]" + rest))
    ensures DecodeItems(t) == Some(([s], rest))
  {
    assert ("]" + rest)[1..] == rest;
  }

  lemma DecodeItemsMore(t: string, s: string, tail: string)
    requires DecodeString(t) == Some((s, "," + tail))
    ensures DecodeItems(t) == Cons2(s, DecodeItems(tail))
  {
    assert ("," + tail)[1..] == tail;
  }

  function Cons2(s: string, r: Option<(seq<string>, string)>): Option<(seq<string>, string)> {
    match r
    case None => None
    case Some(q) => Some(([s] + q.0, q.1))
  }

  lemma {:induction false} DecodeElements(items: seq<string>, rest: string)
    requires |items| >= 1
    ensures DecodeItems(Elements(items) + "]" + rest) == Some((items, rest))
    decreases |items|
  {
    var t := Elements(items) + "]" + rest;
    if |items| == 1 {
      assert t == Quote(items[0]) + ("]" + rest);
      DecodeQuote(items[0], "]" + rest);
      DecodeItemsLast(t, items[0], rest);
      assert [items[0]] == items;
    } else {
      var tail := Elements(items[1..]) + "]" + rest;
      assert t == Quote(items[0]) + ("," + tail);
      DecodeQuote(items[0], "," + tail);
      DecodeItemsMore(t, items[0], tail);
      DecodeElements(items[1..], rest);
      assert [items[0]] + items[1..] == items;
    }
  }

  /** `JSON.parse` of `JSON.stringify(items)` is `items`: same strings, same order. */
  lemma DecodeStringArray(items: seq<string>, rest: string)
    ensures DecodeArray(StringArray(items) + rest) == Some((items, rest))
  {
    if |items| == 0 {
      assert StringArray(items) + rest == "[]" + rest;
      DecodeEmptyArray(rest);
    } else {
      var body := Elements(items) + "]" + rest;
      DecodeElements(items, rest);
      ElementsStartQuoted(items);
      assert StringArray(items) + rest == "[" + body;
      DecodeOpenArray(body);
    }
  }

  lemma DecodeEmptyArray(rest: string)
    ensures DecodeArray("[]" + rest) == Some(([], rest))
  {
    assert ("[]" + rest)[2..] == rest;
  }

  lemma ElementsStartQuoted(items: seq<string>)
    requires |items| >= 1
    ensures |Elements(items)| > 0 && Elements(items)[0] == '"'
  {
    assert Quote(items[0])[0] == '"';
  }

  lemma DecodeOpenArray(body: string)
    requires |body| > 0 && body[0] == '"'
    ensures DecodeArray("[" + body) == DecodeItems(body)
  {
    assert ("[" + body)[1..] == body;
  }
}

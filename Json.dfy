/**
 * The probe text the session hands to the tokenizer: `_ ` followed by
 * `JSON.stringify` of the array of message contents.  Strings are sequences
 * of Unicode scalar values, so the lone-surrogate escapes of JSON.stringify
 * never arise.  A decoder for the stringified form is given as well; the
 * round trip shows that the probe determines every message's content.
 */
module Json {
  import opened Wrappers

  /** The sentinel put in front of the serialised contents, so that the probe is never empty. */
  const Sentinel: string := "_ "

  /** Lower-case hexadecimal digit, as in JSON.stringify's `\u00xx` escapes. */
  function HexDigit(n: int): (c: char)
    requires 0 <= n < 16
    ensures '0' <= c <= '9' || 'a' <= c <= 'f'
    ensures HexValue(c) == Some(n)
  {
    if n < 10 then ('0' as int + n) as char else ('a' as int + n - 10) as char
  }

  function HexValue(c: char): Option<int>
  {
    if '0' <= c <= '9' then Some(c as int - '0' as int)
    else if 'a' <= c <= 'f' then Some(c as int - 'a' as int + 10)
    else if 'A' <= c <= 'F' then Some(c as int - 'A' as int + 10)
    else None
  }

  /** True for the characters JSON.stringify writes as an escape sequence. */
  predicate NeedsEscape(c: char)
  {
    c == '"' || c == '\\' || (c as int) < 0x20
  }

  /** How JSON.stringify writes one character inside a string literal. */
  function EscapeChar(c: char): (e: string)
    ensures NeedsEscape(c) ==> |e| >= 2 && e[0] == '\\'
    ensures !NeedsEscape(c) ==> e == [c]
  {
    if c == '"' then ['\\', '"']
    else if c == '\\' then ['\\', '\\']
    else if c as int == 0x08 then ['\\', 'b']
    else if c == '\t' then ['\\', 't']
    else if c == '\n' then ['\\', 'n']
    else if c as int == 0x0C then ['\\', 'f']
    else if c == '\r' then ['\\', 'r']
    else if (c as int) < 0x20 then ['\\', 'u', '0', '0', HexDigit(c as int / 16), HexDigit(c as int % 16)]
    else [c]
  }

  /** The body of a JSON string literal, without its quotes. */
  function EscapeBody(s: string): string
  {
    if s == [] then [] else EscapeChar(s[0]) + EscapeBody(s[1..])
  }

  function Quote(s: string): string
  {
    ['"'] + EscapeBody(s) + ['"']
  }

  /** The elements of a stringified array, separated by commas. */
  function StringifyItems(xs: seq<string>): string
  {
    if xs == [] then []
    else if |xs| == 1 then Quote(xs[0])
    else Quote(xs[0]) + [','] + StringifyItems(xs[1..])
  }

  /** `JSON.stringify` of an array of strings: no white space between elements. */
  function Stringify(xs: seq<string>): string
  {
    ['['] + StringifyItems(xs) + [']']
  }

  /** The text given to the tokenizer for a conversation whose contents are `contents`. */
  function Probe(contents: seq<string>): (p: string)
    ensures |p| > |Sentinel| && p[..|Sentinel|] == Sentinel
  {
    Sentinel + Stringify(contents)
  }

  // ---------------------------------------------------------------------
  // Decoding the stringified form.

  /**
   * Decodes the escape sequence that follows a backslash: the character it
   * stands for and the number of characters of `t` it occupies.
   */
  function ReadEscape(t: string): (r: Option<(char, nat)>)
    ensures r.Some? ==> 1 <= r.value.1 <= |t|
  {
    if |t| == 0 then None
    else if t[0] == '"' then Some(('"', 1))
    else if t[0] == '\\' then Some(('\\', 1))
    else if t[0] == '/' then Some(('/', 1))
    else if t[0] == 'b' then Some((0x08 as char, 1))
    else if t[0] == 'f' then Some((0x0C as char, 1))
    else if t[0] == 'n' then Some(('\n', 1))
    else if t[0] == 'r' then Some(('\r', 1))
    else if t[0] == 't' then Some(('\t', 1))
    else if t[0] == 'u' && |t| >= 5 then
      match (HexValue(t[1]), HexValue(t[2]), HexValue(t[3]), HexValue(t[4]))
      case (Some(a), Some(b), Some(c), Some(d)) =>
        var v := ((a * 16 + b) * 16 + c) * 16 + d;
        if 0 <= v < 0xD800 || 0xE000 <= v < 0x11_0000 then Some((v as char, 5)) else None
      case _ => None
    else None
  }

  /**
   * Reads the body of a string literal up to its closing quote; yields the
   * decoded text and what follows the quote.
   */
  function ReadString(t: string): (r: Option<(string, string)>)
    ensures r.Some? ==> |r.value.1| < |t|
    decreases |t|
  {
    if |t| == 0 then None
    else if t[0] == '"' then Some(([], t[1..]))
    else if t[0] == '\\' then
      match ReadEscape(t[1..])
      case None => None
      case Some((c, n)) =>
        match ReadString(t[1 + n..])
        case None => None
        case Some((s, rest)) => Some(([c] + s, rest))
    else
      match ReadString(t[1..])
      case None => None
      case Some((s, rest)) => Some(([t[0]] + s, rest))
  }

  /** Reads `"…"(,"…")*]` up to the end of `t`. */
  function ReadItems(t: string): Option<seq<string>>
    decreases |t|
  {
    if |t| == 0 || t[0] != '"' then None
    else
      match ReadString(t[1..])
      case None => None
      case Some((s, rest)) =>
        if rest == [']'] then Some([s])
        else if |rest| > 0 && rest[0] == ',' then
          match ReadItems(rest[1..])
          case None => None
          case Some(ss) => Some([s] + ss)
        else None
  }

  /** Parses a JSON array of strings written without white space. */
  function Parse(t: string): Option<seq<string>>
  {
    if t == ['[', ']'] then Some([])
    else if |t| > 0 && t[0] == '[' then ReadItems(t[1..])
    else None
  }

  // ---------------------------------------------------------------------
  // Round trip.

  lemma ReadEscapeOfEscapeChar(c: char, rest: string)
    requires NeedsEscape(c)
    ensures ReadEscape(EscapeChar(c)[1..] + rest) == Some((c, |EscapeChar(c)| - 1))
  {
    var e := EscapeChar(c)[1..] + rest;
    if c != '"' && c != '\\' && c as int != 0x08 && c != '\t' && c != '\n' && c as int != 0x0C && c != '\r' {
      var hi, lo := c as int / 16, c as int % 16;
      assert e[..5] == ['u', '0', '0', HexDigit(hi), HexDigit(lo)];
      assert e[0] == 'u' && e[1] == '0' && e[2] == '0' && e[3] == HexDigit(hi) && e[4] == HexDigit(lo);
      assert ((0 * 16 + 0) * 16 + hi) * 16 + lo == c as int;
    }
  }

  lemma {:induction false} ReadStringOfEscapeBody(s: string, rest: string)
    ensures ReadString(EscapeBody(s) + ['"'] + rest) == Some((s, rest))
  {
    var t := EscapeBody(s) + ['"'] + rest;
    if s == [] {
      assert t == ['"'] + rest;
    } else {
      var c := s[0];
      var tail := EscapeBody(s[1..]) + ['"'] + rest;
      assert t == EscapeChar(c) + tail;
      ReadStringOfEscapeBody(s[1..], rest);
      if NeedsEscape(c) {
        var e := EscapeChar(c);
        assert t[1..] == e[1..] + tail;
        ReadEscapeOfEscapeChar(c, tail);
        assert t[1 + (|e| - 1)..] == tail;
      } else {
        assert t[0] == c && t[1..] == tail;
      }
      assert [c] + s[1..] == s;
    }
  }

  lemma ReadItemsAfterString(t: string, s: string, rest: string)
    requires |t| > 0 && t[0] == '"' && ReadString(t[1..]) == Some((s, rest))
    ensures rest == [']'] ==> ReadItems(t) == Some([s])
    ensures rest != [']'] && |rest| > 0 && rest[0] == ',' && ReadItems(rest[1..]).Some? ==>
              ReadItems(t) == Some([s] + ReadItems(rest[1..]).value)
  {
  }

  /** What follows the first element's closing quote in a stringified, bracket-closed list. */
  function AfterFirst(xs: seq<string>): string
    requires xs != []
  {
    if |xs| == 1 then [']'] else [','] + StringifyItems(xs[1..]) + [']']
  }

  lemma SplitFirst(xs: seq<string>)
    requires xs != []
    ensures StringifyItems(xs) + [']'] == ['"'] + (EscapeBody(xs[0]) + ['"'] + AfterFirst(xs))
  {
  }

  lemma {:induction false} ReadItemsOfStringify(xs: seq<string>)
    requires xs != []
    ensures ReadItems(StringifyItems(xs) + [']']) == Some(xs)
  {
    var more := AfterFirst(xs);
    var t := StringifyItems(xs) + [']'];
    SplitFirst(xs);
    assert t[1..] == EscapeBody(xs[0]) + ['"'] + more;
    ReadStringOfEscapeBody(xs[0], more);
    ReadItemsAfterString(t, xs[0], more);
    if |xs| > 1 {
      var rest := StringifyItems(xs[1..]) + [']'];
      assert more == [','] + rest;
      assert more[1..] == rest;
      ReadItemsOfStringify(xs[1..]);
      assert ReadItems(more[1..]) == Some(xs[1..]);
      assert [xs[0]] + xs[1..] == xs;
    } else {
      assert [xs[0]] == xs;
    }
  }

  /** Parsing undoes JSON.stringify on arrays of strings. */
  lemma ParseStringify(xs: seq<string>)
    ensures Parse(Stringify(xs)) == Some(xs)
  {
    var t := Stringify(xs);
    if xs == [] {
      assert t == ['[', ']'];
    } else {
      assert StringifyItems(xs)[0] == '"';
      assert t[1..] == StringifyItems(xs) + [']'];
      ReadItemsOfStringify(xs);
    }
  }

  /** Distinct contents give distinct probes: the probe loses no message text. */
  lemma ProbeInjective(a: seq<string>, b: seq<string>)
    requires Probe(a) == Probe(b)
    ensures a == b
  {
    assert Stringify(a) == Probe(a)[|Sentinel|..];
    assert Stringify(b) == Probe(b)[|Sentinel|..];
    ParseStringify(a);
    ParseStringify(b);
  }
}

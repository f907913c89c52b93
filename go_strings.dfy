/** The parts of Go's `strings` and `fmt` packages that the pipeline's
    decisions and messages depend on. */
module GoStrings {
  import opened Wrappers

  /** `strings.HasPrefix`. */
  predicate HasPrefix(s: string, prefix: string) {
    |prefix| <= |s| && s[..|prefix|] == prefix
  }

  /** Lower-casing of one rune, restricted to ASCII letters. */
  function LowerRune(c: char): char {
    if 'A' <= c <= 'Z' then (c as int + 32) as char else c
  }

  /** `strings.ToLower`, with ASCII lowering: the only value this pipeline
      compares a lowered string with is "bearer", and no rune outside ASCII
      lowers to one of its letters. */
  function ToLower(s: string): (r: string)
    ensures |r| == |s|
    ensures forall i :: 0 <= i < |s| ==> r[i] == LowerRune(s[i])
  {
    seq(|s|, i requires 0 <= i < |s| => LowerRune(s[i]))
  }

  // ---------------------------------------------------------------------
  // The `%q` verb: `strconv.Quote`

  function HexDigit(n: nat): char
    requires n < 16
  {
    if n < 10 then ('0' as int + n) as char else ('a' as int + n - 10) as char
  }

  function HexValue(c: char): Option<nat> {
    if '0' <= c <= '9' then Some(c as int - '0' as int)
    else if 'a' <= c <= 'f' then Some(c as int - 'a' as int + 10)
    else None
  }

  /** The letter Go uses after a backslash for a control character that has
      a short escape (\a \b \f \n \r \t \v). */
  function ShortEscape(c: char): Option<char> {
    if c as int == 7 then Some('a')
    else if c as int == 8 then Some('b')
    else if c as int == 9 then Some('t')
    else if c as int == 10 then Some('n')
    else if c as int == 11 then Some('v')
    else if c as int == 12 then Some('f')
    else if c as int == 13 then Some('r')
    else None
  }

  function ShortUnescape(e: char): Option<char> {
    if e == 'a' then Some(7 as char)
    else if e == 'b' then Some(8 as char)
    else if e == 't' then Some(9 as char)
    else if e == 'n' then Some(10 as char)
    else if e == 'v' then Some(11 as char)
    else if e == 'f' then Some(12 as char)
    else if e == 'r' then Some(13 as char)
    else None
  }

  predicate IsControl(c: char) {
    c as int < 0x20 || c as int == 0x7f
  }

  /** How `strconv.Quote` writes one rune between the quotes. */
  function EscapeRune(c: char): string {
    if c == '"' then ['\\', '"']
    else if c == '\\' then ['\\', '\\']
    else if ShortEscape(c).Some? then ['\\', ShortEscape(c).value]
    else if IsControl(c) then ['\\', 'x', HexDigit(c as int / 16), HexDigit(c as int % 16)]
    else [c]
  }

  function EscapeAll(s: string): string {
    if s == [] then "" else EscapeRune(s[0]) + EscapeAll(s[1..])
  }

  /** `fmt.Sprintf("%q", s)`. */
  function Quote(s: string): string {
    "\"" + EscapeAll(s) + "\""
  }

  function Prepend(c: char, rest: Option<string>): Option<string> {
    match rest
    case None => None
    case Some(t) => Some([c] + t)
  }

  /** Reads back the text between the quotes that `EscapeAll` wrote. */
  function Unescape(s: string): Option<string>
    decreases |s|
  {
    if s == [] then Some("")
    else if s[0] == '"' then None
    else if s[0] != '\\' then Prepend(s[0], Unescape(s[1..]))
    else if |s| < 2 then None
    else if s[1] == '"' || s[1] == '\\' then Prepend(s[1], Unescape(s[2..]))
    else if ShortUnescape(s[1]).Some? then Prepend(ShortUnescape(s[1]).value, Unescape(s[2..]))
    else if s[1] == 'x' && |s| >= 4 && HexValue(s[2]).Some? && HexValue(s[3]).Some? then
      Prepend((HexValue(s[2]).value * 16 + HexValue(s[3]).value) as char, Unescape(s[4..]))
    else None
  }

  /** `strconv.Unquote` on the strings `Quote` produces. */
  function Unquote(q: string): Option<string> {
    if |q| >= 2 && q[0] == '"' && q[|q| - 1] == '"' then Unescape(q[1..|q| - 1]) else None
  }

  lemma HexRoundTrip(n: nat)
    requires n < 16
    ensures HexValue(HexDigit(n)) == Some(n)
  {
  }

  lemma UnescapeHex(c: char, rest: string)
    requires c != '"' && c != '\\' && ShortEscape(c).None? && IsControl(c)
    ensures Unescape(EscapeRune(c) + rest) == Prepend(c, Unescape(rest))
  {
    var e := EscapeRune(c) + rest;
    var n := c as int;
    HexRoundTrip(n / 16);
    HexRoundTrip(n % 16);
    assert e[0] == '\\' && e[1] == 'x';
    assert ShortUnescape('x').None?;
    assert e[2] == HexDigit(n / 16) && e[3] == HexDigit(n % 16);
    assert e[4..] == rest;
    assert (n / 16 * 16 + n % 16) as char == c;
  }

  lemma UnescapeRune(c: char, rest: string)
    ensures Unescape(EscapeRune(c) + rest) == Prepend(c, Unescape(rest))
  {
    var e := EscapeRune(c) + rest;
    if c == '"' || c == '\\' {
      assert e[2..] == rest;
    } else if ShortEscape(c).Some? {
      assert e[2..] == rest;
    } else if IsControl(c) {
      UnescapeHex(c, rest);
    } else {
      assert e[1..] == rest;
    }
  }

  lemma {:induction false} UnescapeEscapeAll(s: string)
    ensures Unescape(EscapeAll(s)) == Some(s)
  {
    if s != [] {
      UnescapeEscapeAll(s[1..]);
      UnescapeRune(s[0], EscapeAll(s[1..]));
      assert [s[0]] + s[1..] == s;
    }
  }

  /** `%q` loses nothing: the quoted text reads back as the original. */
  lemma UnquoteQuote(s: string)
    ensures Unquote(Quote(s)) == Some(s)
  {
    var q := Quote(s);
    assert q[1..|q| - 1] == EscapeAll(s);
    UnescapeEscapeAll(s);
  }

  /** Hence two messages that quote different strings differ. */
  lemma QuoteInjective(s: string, t: string)
    requires Quote(s) == Quote(t)
    ensures s == t
  {
    UnquoteQuote(s);
    UnquoteQuote(t);
  }

  /** A rune that `%q` copies unchanged. */
  predicate Plain(c: char) {
    c != '"' && c != '\\' && !IsControl(c)
  }

  lemma {:induction false} QuotePlain(s: string)
    requires forall i :: 0 <= i < |s| ==> Plain(s[i])
    ensures Quote(s) == "\"" + s + "\""
  {
    EscapeAllPlain(s);
  }

  lemma {:induction false} EscapeAllPlain(s: string)
    requires forall i :: 0 <= i < |s| ==> Plain(s[i])
    ensures EscapeAll(s) == s
  {
    if s != [] {
      EscapeAllPlain(s[1..]);
      assert ShortEscape(s[0]).None?;
      assert [s[0]] + s[1..] == s;
    }
  }
}

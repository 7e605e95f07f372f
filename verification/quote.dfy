/** The `%q` verb of Go's fmt package, which the dispatcher uses to name an
    unknown subcommand in its log line. `%q` on a string is strconv.Quote:
    the string in double quotes, with quote, backslash and non-printable
    characters written as Go escape sequences. The inverse, `Unquote`, reads
    such a literal back, so the unresolved name can be recovered exactly from
    the log line. */
module GoQuote {
  import opened Wrappers

  /** Lower-case hexadecimal digit of a nibble, as strconv writes them. */
  function HexDigit(n: nat): (c: char)
    requires n < 16
    ensures HexValue(c) == Some(n)
  {
    "0123456789abcdef"[n]
  }

  /** Value of a hexadecimal digit in either case, as strconv reads them. */
  function HexValue(c: char): (r: Option<nat>)
    ensures r.Some? ==> r.value < 16
  {
    if '0' <= c <= '9' then Some(c as int - '0' as int)
    else if 'a' <= c <= 'f' then Some(c as int - 'a' as int + 10)
    else if 'A' <= c <= 'F' then Some(c as int - 'A' as int + 10)
    else None
  }

  /** Printable ASCII: the characters strconv copies unchanged. */
  predicate PrintableAscii(c: char) {
    ' ' <= c <= '~'
  }

  /** The one-letter escapes \a \b \f \n \r \t \v, keyed by character code. */
  function ShortEscape(code: int): Option<char> {
    if code == 7 then Some('a')
    else if code == 8 then Some('b')
    else if code == 12 then Some('f')
    else if code == 10 then Some('n')
    else if code == 13 then Some('r')
    else if code == 9 then Some('t')
    else if code == 11 then Some('v')
    else None
  }

  /** The inverse of ShortEscape: the character a one-letter escape stands for. */
  function ShortUnescape(letter: char): (r: Option<char>)
    ensures r.Some? ==> ShortEscape(r.value as int) == Some(letter)
  {
    if letter == 'a' then Some(7 as char)
    else if letter == 'b' then Some(8 as char)
    else if letter == 'f' then Some(12 as char)
    else if letter == 'n' then Some(10 as char)
    else if letter == 'r' then Some(13 as char)
    else if letter == 't' then Some(9 as char)
    else if letter == 'v' then Some(11 as char)
    else None
  }

  /** How one character is written inside a double-quoted Go literal. */
  function EscapeChar(c: char): (r: string)
    ensures 1 <= |r| <= 4
    ensures |r| == 1 <==> r[0] != '\\'
    ensures r[0] != '"' && r[0] != '\n'
  {
    if c == '"' || c == '\\' then ['\\', c]
    else if PrintableAscii(c) then [c]
    else if ShortEscape(c as int).Some? then ['\\', ShortEscape(c as int).value]
    else if c as int < 0x20 || c as int == 0x7f then
      ['\\', 'x', HexDigit(c as int / 16), HexDigit(c as int % 16)]
    else [c]  // non-ASCII: copied, where Go escapes the non-printable ones
  }

  /** The body of a quoted literal: every character escaped in turn. */
  function Escape(s: string): (r: string)
    ensures |r| >= |s|
  {
    if |s| == 0 then [] else EscapeChar(s[0]) + Escape(s[1..])
  }

  /** strconv.Quote, as `%q` renders a string. */
  function Quote(s: string): (r: string)
    ensures |r| >= |s| + 2
    ensures r[0] == '"' && r[|r| - 1] == '"'
  {
    ['"'] + Escape(s) + ['"']
  }

  /** Puts `c` in front of a successful unescape and passes None through. */
  function Prepend(c: char, rest: Option<string>): (r: Option<string>)
    ensures r.Some? <==> rest.Some?
  {
    match rest
    case Some(t) => Some([c] + t)
    case None => None
  }

  /** Reads the body of a double-quoted literal back into the string it
      denotes; None for an unescaped quote or newline, a dangling backslash,
      or an escape outside those Escape writes. */
  function Unescape(s: string): (r: Option<string>)
    decreases |s|
  {
    if |s| == 0 then Some([])
    else if s[0] == '\\' then
      if |s| < 2 then None
      else if s[1] == '"' || s[1] == '\\' then Prepend(s[1], Unescape(s[2..]))
      else if s[1] == 'x' then
        if |s| < 4 then None
        else match (HexValue(s[2]), HexValue(s[3]))
          case (Some(hi), Some(lo)) => Prepend((16 * hi + lo) as char, Unescape(s[4..]))
          case _ => None
      else match ShortUnescape(s[1])
        case Some(c) => Prepend(c, Unescape(s[2..]))
        case None => None
    else if s[0] == '"' || s[0] == '\n' then None
    else Prepend(s[0], Unescape(s[1..]))
  }

  /** The inverse of Quote: the part of strconv.Unquote that Quote's output
      needs. The \u, \U and octal escapes are not read, and \xHH stands for
      the character U+00HH rather than a raw byte. */
  function Unquote(q: string): Option<string> {
    if |q| >= 2 && q[0] == '"' && q[|q| - 1] == '"' then Unescape(q[1..|q| - 1])
    else None
  }

  /** Unescaping an escaped character followed by anything yields that
      character in front of whatever the rest unescapes to. */
  lemma UnescapeEscapeChar(c: char, t: string)
    ensures Unescape(EscapeChar(c) + t) == Prepend(c, Unescape(t))
  {
    var e := EscapeChar(c);
    var s := e + t;
    if |e| == 1 {
      assert s[1..] == t;
    } else if |e| == 2 {
      assert s[2..] == t;
      if c != '"' && c != '\\' {
        assert ShortEscape(c as int).Some?;
        assert ShortUnescape(e[1]) == Some(c);
      }
    } else {
      assert s[4..] == t;
      var n := c as int;
      assert HexValue(s[2]) == Some(n / 16);
      assert HexValue(s[3]) == Some(n % 16);
      assert (16 * (n / 16) + n % 16) as char == c;
    }
  }

  /** Unescape inverts Escape. */
  lemma {:induction false} UnescapeEscape(s: string)
    ensures Unescape(Escape(s)) == Some(s)
    decreases |s|
  {
    if |s| > 0 {
      UnescapeEscape(s[1..]);
      UnescapeEscapeChar(s[0], Escape(s[1..]));
      assert [s[0]] + s[1..] == s;
    }
  }

  /** Quoting loses nothing: Unquote recovers every string from its `%q`
      rendering, so distinct names give distinct log lines. */
  lemma QuoteRoundTrip(s: string)
    ensures Unquote(Quote(s)) == Some(s)
  {
    var q := Quote(s);
    assert q[1..|q| - 1] == Escape(s);
    UnescapeEscape(s);
  }
}

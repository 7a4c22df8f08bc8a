/**
  The credential token as the Login page stores it:
  `localStorage.setItem("token", JSON.stringify(data.token))`.

  `Stringify` is `JSON.stringify` on a token that is a string or absent
  (an absent token stringifies to `undefined`, which `setItem` turns into
  the text "undefined"). `Parse` reads a stored value back as a JSON
  string literal; `ParseStringify` proves it recovers every string token,
  so two different tokens are never stored as the same text. `Parse`
  returns `None` for "undefined"; JavaScript's `JSON.parse` throws on it.
 */
module TokenJson {
  import opened Wrappers

  /** A lowercase hexadecimal digit, as `JSON.stringify` writes them. */
  function HexDigit(n: nat): (c: char)
    requires n < 16
    ensures HexValue(c) == Some(n)
  {
    if n < 10 then ('0' as int + n) as char else ('a' as int + n - 10) as char
  }

  /** The value of a hexadecimal digit of either case. */
  function HexValue(c: char): Option<nat> {
    if '0' <= c <= '9' then Some(c as int - '0' as int)
    else if 'a' <= c <= 'f' then Some(c as int - 'a' as int + 10)
    else if 'A' <= c <= 'F' then Some(c as int - 'A' as int + 10)
    else None
  }

  /** How `JSON.stringify` writes one character of a string: the seven
      two-character escapes, `\u00XX` for the other control characters,
      and every other character as itself. */
  function EscapeChar(c: char): string {
    if c == '"' then "\\\""
    else if c == '\\' then "\\\\"
    else if c as int == 0x08 then "\\b"
    else if c == '\t' then "\\t"
    else if c == '\n' then "\\n"
    else if c as int == 0x0C then "\\f"
    else if c == '\r' then "\\r"
    else if c as int < 0x20 then "\\u00" + [HexDigit(c as int / 16), HexDigit(c as int % 16)]
    else [c]
  }

  function Escape(s: string): string {
    if s == [] then [] else EscapeChar(s[0]) + Escape(s[1..])
  }

  /** The text `setItem` stores for `JSON.stringify(token)`. */
  function Stringify(token: Option<string>): string {
    match token
    case Some(t) => "\"" + Escape(t) + "\""
    case None => "undefined"
  }

  /** Puts `c` in front of a decoded string, if there is one. */
  function Cons(c: char, rest: Option<string>): Option<string> {
    match rest
    case Some(t) => Some([c] + t)
    case None => None
  }

  /** The character a two-character escape `\e` stands for. */
  function ShortEscape(e: char): Option<char> {
    if e == '"' || e == '\\' || e == '/' then Some(e)
    else if e == 'b' then Some(0x08 as char)
    else if e == 't' then Some('\t')
    else if e == 'n' then Some('\n')
    else if e == 'f' then Some(0x0C as char)
    else if e == 'r' then Some('\r')
    else None
  }

  /** The code point written by the four hexadecimal digits of a `\u` escape. */
  function HexQuad(a: char, b: char, c: char, d: char): Option<nat> {
    match (HexValue(a), HexValue(b), HexValue(c), HexValue(d))
    case (Some(w), Some(x), Some(y), Some(z)) => Some(((w * 16 + x) * 16 + y) * 16 + z)
    case _ => None
  }

  /** The body of a JSON string literal, decoded; `None` when it holds an
      unescaped quote or control character or a malformed escape. */
  function Unescape(s: string): Option<string>
    decreases |s|
  {
    if s == [] then Some([])
    else if s[0] == '"' || s[0] as int < 0x20 then None
    else if s[0] != '\\' then Cons(s[0], Unescape(s[1..]))
    else if |s| < 2 then None
    else if s[1] != 'u' then
      match ShortEscape(s[1])
      case Some(c) => Cons(c, Unescape(s[2..]))
      case None => None
    else if |s| < 6 then None
    else
      match HexQuad(s[2], s[3], s[4], s[5])
      case Some(n) =>
        if n < 0xD800 || 0xE000 <= n < 0x11_0000 then Cons(n as char, Unescape(s[6..])) else None
      case None => None
  }

  /** A stored value read back as a JSON string: `Some` of its contents
      when it is a string literal, `None` for anything else. */
  function Parse(stored: string): Option<string> {
    if |stored| >= 2 && stored[0] == '"' && stored[|stored| - 1] == '"'
    then Unescape(stored[1..|stored| - 1])
    else None
  }

  /** Decoding undoes the escape of one character. */
  lemma UnescapeEscapeChar(c: char, rest: string)
    ensures Unescape(EscapeChar(c) + rest) == Cons(c, Unescape(rest))
  {
    var n := c as int;
    if c == '"' || c == '\\' || n == 0x08 || c == '\t' || c == '\n' || n == 0x0C || c == '\r' {
      UnescapeShortEscape(c, rest);
    } else if n < 0x20 {
      UnescapeUnicodeEscape(c, rest);
    } else {
      assert (EscapeChar(c) + rest)[1..] == rest;
    }
  }

  /** The seven two-character escapes decode back. */
  lemma UnescapeShortEscape(c: char, rest: string)
    requires c == '"' || c == '\\' || c as int == 0x08 || c == '\t' || c == '\n' || c as int == 0x0C || c == '\r'
    ensures Unescape(EscapeChar(c) + rest) == Cons(c, Unescape(rest))
  {
  }

  /** A `\u00XX` escape decodes back to its control character. */
  lemma UnescapeUnicodeEscape(c: char, rest: string)
    requires c as int < 0x20
    requires c != '"' && c != '\\' && c as int != 0x08 && c != '\t' && c != '\n' && c as int != 0x0C && c != '\r'
    ensures Unescape(EscapeChar(c) + rest) == Cons(c, Unescape(rest))
  {
  }

  /** Decoding undoes `Escape`. */
  lemma {:induction false} UnescapeEscape(s: string)
    ensures Unescape(Escape(s)) == Some(s)
  {
    if s != [] {
      UnescapeEscapeChar(s[0], Escape(s[1..]));
      UnescapeEscape(s[1..]);
      assert [s[0]] + s[1..] == s;
    }
  }

  /** Reading the stored text back gives the token that was stored; an
      absent token reads back as absent. */
  lemma ParseStringify(token: Option<string>)
    ensures Parse(Stringify(token)) == token
  {
    if token.Some? {
      var stored := Stringify(token);
      assert stored[1..|stored| - 1] == Escape(token.value);
      UnescapeEscape(token.value);
    }
  }
}

/** JSON strings as `json.dumps(..., ensure_ascii=False)` writes them (section 7
    of RFC 8259), and a reader for them. */
module JsonText {
  import opened Options

  const QUOTE: char := '\"'
  const SLASH: char := '\\'

  function HexDigit(n: nat): char
    requires n < 16
  {
    if n < 10 then '0' + n as char else 'a' + (n - 10) as char
  }

  function HexValue(c: char): Option<nat> {
    if '0' <= c <= '9' then Some((c - '0') as nat)
    else if 'a' <= c <= 'f' then Some((c - 'a') as nat + 10)
    else if 'A' <= c <= 'F' then Some((c - 'A') as nat + 10)
    else None
  }

  /** Quotes, backslashes and control characters are escaped, nothing else. */
  function Escape(c: char): string {
    if c == QUOTE then [SLASH, QUOTE]
    else if c == SLASH then [SLASH, SLASH]
    else if c == '\n' then [SLASH, 'n']
    else if c == '\r' then [SLASH, 'r']
    else if c == '\t' then [SLASH, 't']
    else if c == 8 as char then [SLASH, 'b']
    else if c == 12 as char then [SLASH, 'f']
    else if c < ' ' then [SLASH, 'u', '0', '0', HexDigit(c as nat / 16), HexDigit(c as nat % 16)]
    else [c]
  }

  function EscapeAll(s: string): string {
    if s == "" then "" else Escape(s[0]) + EscapeAll(s[1..])
  }

  function Print(s: string): string { [QUOTE] + EscapeAll(s) + [QUOTE] }

  function Short(c: char): Option<char> {
    match c
    case '\"' => Some(QUOTE)
    case '\\' => Some(SLASH)
    case '/' => Some('/')
    case 'n' => Some('\n')
    case 'r' => Some('\r')
    case 't' => Some('\t')
    case 'b' => Some(8 as char)
    case 'f' => Some(12 as char)
    case _ => None
  }

  /** The code point of four hexadecimal digits; lone surrogates are not characters here. */
  function CodePoint(t: string): Option<char>
    requires |t| >= 4
  {
    match (HexValue(t[0]), HexValue(t[1]), HexValue(t[2]), HexValue(t[3]))
    case (Some(a), Some(b), Some(c), Some(d)) =>
      var code := ((a * 16 + b) * 16 + c) * 16 + d;
      if 0 <= code < 0xD800 || 0xE000 <= code < 0x10000 then Some(code as char) else None
    case _ => None
  }

  /** One character, plain or escaped, and how much text it took. */
  function ReadChar(t: string): (r: Option<(char, nat)>)
    requires t != ""
    ensures r.Some? ==> 0 < r.value.1 <= |t|
  {
    if t[0] == SLASH then
      if |t| < 2 then None
      else if t[1] == 'u' then
        if |t| < 6 then None
        else match CodePoint(t[2..]) case Some(c) => Some((c, 6)) case None => None
      else match Short(t[1]) case Some(c) => Some((c, 2)) case None => None
    else if t[0] == QUOTE || t[0] < ' ' then None
    else Some((t[0], 1))
  }

  function ReadAll(t: string): Option<string> {
    if t == "" then None
    else if t[0] == QUOTE then if |t| == 1 then Some("") else None
    else match ReadChar(t)
      case None => None
      case Some((c, n)) =>
        match ReadAll(t[n..])
        case None => None
        case Some(rest) => Some([c] + rest)
  }

  function Parse(t: string): Option<string> {
    if t == "" || t[0] != QUOTE then None else ReadAll(t[1..])
  }

  lemma HexRoundTrip(n: nat)
    requires n < 16
    ensures HexValue(HexDigit(n)) == Some(n)
  {
  }

  lemma EscapedControl(c: char, rest: string)
    requires c < ' '
    ensures CodePoint(['0', '0', HexDigit(c as nat / 16), HexDigit(c as nat % 16)] + rest) == Some(c)
  {
    HexRoundTrip(c as nat / 16);
    HexRoundTrip(c as nat % 16);
    assert HexValue('0') == Some(0);
  }

  /** Reading an escaped character gives the character back. */
  lemma ReadEscaped(c: char, rest: string)
    ensures var t := Escape(c) + rest; t[0] != QUOTE && ReadChar(t) == Some((c, |Escape(c)|)) && t[|Escape(c)|..] == rest
  {
    var t := Escape(c) + rest;
    if |Escape(c)| == 6 {
      EscapedControl(c, rest);
      assert t[2..] == ['0', '0', HexDigit(c as nat / 16), HexDigit(c as nat % 16)] + rest;
    }
  }

  lemma {:induction false} ReadAllEscaped(s: string)
    ensures ReadAll(EscapeAll(s) + [QUOTE]) == Some(s)
  {
    if s != "" {
      var rest := EscapeAll(s[1..]) + [QUOTE];
      ReadEscaped(s[0], rest);
      ReadAllEscaped(s[1..]);
      assert EscapeAll(s) + [QUOTE] == Escape(s[0]) + rest;
      assert s == [s[0]] + s[1..];
    }
  }

  /** What is printed reads back as the text it was printed from. */
  lemma RoundTrip(s: string)
    ensures Parse(Print(s)) == Some(s)
  {
    ReadAllEscaped(s);
    assert Print(s)[1..] == EscapeAll(s) + [QUOTE];
  }

  /** No control character survives, so a printed value stays on one line. */
  lemma {:induction false} EscapedIsOneLine(s: string)
    ensures forall c <- EscapeAll(s) :: c >= ' '
    ensures |s| <= |EscapeAll(s)| <= 6 * |s|
  {
    if s != "" {
      EscapedIsOneLine(s[1..]);
      assert forall c <- Escape(s[0]) :: c >= ' ';
    }
  }
}

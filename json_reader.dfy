/**
 * A reader for the JSON text of the shapes in module Json: the independent
 * definition the renderer is checked against. It skips whitespace between
 * tokens, as any JSON reader does, so it reads the compact and the indented
 * renderings alike.
 */
module JsonReader {
  import opened Wrappers
  import opened Json

  /** Whitespace between tokens (section 2 of RFC 8259). */
  predicate IsWhitespace(c: char) {
    c == ' ' || c == '\t' || c == '\n' || c == '\r'
  }

  predicate AllWhitespace(w: string) {
    forall i | 0 <= i < |w| :: IsWhitespace(w[i])
  }

  predicate IsDigit(c: char) {
    '0' as int <= c as int <= '9' as int
  }

  /** What may follow a number: anything that does not extend it. */
  predicate EndsNumber(rest: string) {
    rest == [] || !IsDigit(rest[0])
  }

  function SkipWhitespace(s: string): (r: string)
    ensures |r| <= |s|
    ensures r == [] || !IsWhitespace(r[0])
  {
    if s != [] && IsWhitespace(s[0]) then SkipWhitespace(s[1..]) else s
  }

  function HexValue(c: char): (r: Option<nat>)
    ensures r.Some? ==> r.value < 16
  {
    if '0' <= c <= '9' then Some(c as int - '0' as int)
    else if 'A' <= c <= 'F' then Some(c as int - 'A' as int + 10)
    else if 'a' <= c <= 'f' then Some(c as int - 'a' as int + 10)
    else None
  }

  /** The character an escape sequence stands for; s starts after the reverse solidus. */
  function ParseEscape(s: string): (r: Option<(char, string)>)
    ensures r.Some? ==> |r.value.1| < |s|
  {
    if s == [] then None
    else if s[0] == '"' then Some(('"', s[1..]))
    else if s[0] == '\\' then Some(('\\', s[1..]))
    else if s[0] == '/' then Some(('/', s[1..]))
    else if s[0] == 'b' then Some((0x08 as char, s[1..]))
    else if s[0] == 't' then Some((0x09 as char, s[1..]))
    else if s[0] == 'n' then Some((0x0A as char, s[1..]))
    else if s[0] == 'f' then Some((0x0C as char, s[1..]))
    else if s[0] == 'r' then Some((0x0D as char, s[1..]))
    else if s[0] == 'u' && |s| >= 5 then
      match (HexValue(s[1]), HexValue(s[2]), HexValue(s[3]), HexValue(s[4]))
      case (Some(a), Some(b), Some(c), Some(d)) =>
        var code := ((a * 16 + b) * 16 + c) * 16 + d;
        // a lone surrogate is not a character; pairs are not read here
        if code < 0xD800 || 0xE000 <= code then Some((code as char, s[5..])) else None
      case _ => None
    else None
  }

  /** The contents of a string literal whose opening quotation mark has been read, and what follows its closing one. */
  function ParseStringBody(s: string): (r: Option<(string, string)>)
    ensures r.Some? ==> |r.value.1| < |s|
  {
    if s == [] then None
    else if s[0] == '"' then Some(([], s[1..]))
    else if s[0] == '\\' then
      match ParseEscape(s[1..])
      case None => None
      case Some((c, rest)) =>
        match ParseStringBody(rest)
        case None => None
        case Some((body, after)) => Some(([c] + body, after))
    else if s[0] as int < 0x20 then None
    else
      match ParseStringBody(s[1..])
      case None => None
      case Some((body, after)) => Some(([s[0]] + body, after))
  }

  /** Length of the run of decimal digits that s starts with. */
  function DigitRun(s: string): (k: nat)
    ensures k <= |s|
  {
    if s != [] && IsDigit(s[0]) then 1 + DigitRun(s[1..]) else 0
  }

  /** The value of a run of decimal digits. */
  function DigitsValue(s: string): int {
    if s == [] then 0 else DigitsValue(s[..|s| - 1]) * 10 + (s[|s| - 1] as int - '0' as int)
  }

  /** A run of decimal digits, at least one. */
  function ParseDigits(s: string): (r: Option<(int, string)>)
    ensures r.Some? ==> |r.value.1| < |s|
  {
    var k := DigitRun(s);
    if k == 0 then None else Some((DigitsValue(s[..k]), s[k..]))
  }

  /** An integer: an optional minus sign and a run of digits. */
  function ParseNumber(s: string): (r: Option<(Json, string)>)
    ensures r.Some? ==> |r.value.1| < |s|
  {
    if s != [] && s[0] == '-' then
      match ParseDigits(s[1..])
      case None => None
      case Some((n, rest)) => Some((JNumber(-n), rest))
    else
      match ParseDigits(s)
      case None => None
      case Some((n, rest)) => Some((JNumber(n), rest))
  }

  function ParseValue(s: string): (r: Option<(Json, string)>)
    ensures r.Some? ==> |r.value.1| < |s|
    decreases |s|, 2
  {
    var t := SkipWhitespace(s);
    if t == [] then None
    else if t[0] == '"' then
      match ParseStringBody(t[1..])
      case None => None
      case Some((str, rest)) => Some((JString(str), rest))
    else if t[0] == '[' then ParseArray(t[1..])
    else if t[0] == '{' then ParseObject(t[1..])
    else if t[0] == '-' || IsDigit(t[0]) then ParseNumber(t)
    else None
  }

  /** An array of strings whose opening bracket has been read. */
  function ParseArray(s: string): (r: Option<(Json, string)>)
    ensures r.Some? ==> |r.value.1| < |s|
  {
    var t := SkipWhitespace(s);
    if t != [] && t[0] == ']' then Some((JStringList([]), t[1..]))
    else
      match ParseItems(s)
      case None => None
      case Some((items, rest)) => Some((JStringList(items), rest))
  }

  /** One or more string elements, separated by commas, and the closing bracket. */
  function ParseItems(s: string): (r: Option<(seq<string>, string)>)
    ensures r.Some? ==> |r.value.1| < |s|
    decreases |s|
  {
    var t := SkipWhitespace(s);
    if t == [] || t[0] != '"' then None
    else
      match ParseStringBody(t[1..])
      case None => None
      case Some((item, r1)) =>
        var t1 := SkipWhitespace(r1);
        if t1 == [] then None
        else if t1[0] == ']' then Some(([item], t1[1..]))
        else if t1[0] == ',' then
          match ParseItems(t1[1..])
          case None => None
          case Some((more, r2)) => Some(([item] + more, r2))
        else None
  }

  /** An object whose opening brace has been read. */
  function ParseObject(s: string): (r: Option<(Json, string)>)
    ensures r.Some? ==> |r.value.1| < |s|
    decreases |s|, 1
  {
    var t := SkipWhitespace(s);
    if t != [] && t[0] == '}' then Some((JObject([]), t[1..]))
    else
      match ParseMembers(s)
      case None => None
      case Some((es, rest)) => Some((JObject(es), rest))
  }

  /** One or more entries, separated by commas, and the closing brace. */
  function ParseMembers(s: string): (r: Option<(seq<(string, Json)>, string)>)
    ensures r.Some? ==> |r.value.1| < |s|
    decreases |s|, 0
  {
    var t := SkipWhitespace(s);
    if t == [] || t[0] != '"' then None
    else
      match ParseStringBody(t[1..])
      case None => None
      case Some((key, r1)) =>
        var t1 := SkipWhitespace(r1);
        if t1 == [] || t1[0] != ':' then None
        else
          match ParseValue(t1[1..])
          case None => None
          case Some((v, r2)) =>
            var t2 := SkipWhitespace(r2);
            if t2 == [] then None
            else if t2[0] == '}' then Some(([(key, v)], t2[1..]))
            else if t2[0] == ',' then
              match ParseMembers(t2[1..])
              case None => None
              case Some((more, r3)) => Some(([(key, v)] + more, r3))
            else None
  }

  /** A whole text: one value, with nothing but whitespace after it. */
  function Parse(s: string): Option<Json> {
    match ParseValue(s)
    case None => None
    case Some((v, rest)) => if SkipWhitespace(rest) == [] then Some(v) else None
  }
}

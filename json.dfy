/**
 * The JSON values that the layouts put into a document, and the text that the
 * formatter's object mapper writes for them, in its compact form and in its
 * indented ("pretty") form.
 *
 * Strings are escaped as section 7 of RFC 8259 requires: the quotation mark,
 * the reverse solidus and the control characters below U+0020 are escaped,
 * with the two-character forms for backspace, tab, line feed, form feed and
 * carriage return and the six-character form \u00XX (upper-case hex digits)
 * for the other control characters. Every other character is written as is.
 */
module Json {

  datatype Json =
    | JString(s: string)
    | JNumber(n: int)
    | JStringList(items: seq<string>)
    | JObject(entries: seq<(string, Json)>)
      /** A value the object mapper has no serializer for (an arbitrary object put into a map). */
    | JOpaque(typeName: string)

  /** The mapper can write the value: nothing inside it is opaque. */
  predicate Renderable(v: Json)
    decreases v
  {
    match v
    case JOpaque(_) => false
    case JObject(es) => forall i | 0 <= i < |es| :: Renderable(es[i].1)
    case _ => true
  }

  /** The line separator of the indenting printer; the platform's is taken to be a line feed. */
  const NL: string := "\n"

  const HEX_DIGITS: string := "0123456789ABCDEF"

  /** A character that is written inside a JSON string without an escape. */
  predicate Plain(c: char) {
    c != '"' && c != '\\' && c as int >= 0x20
  }

  function EscapeChar(c: char): string {
    if c == '"' then "\\\""
    else if c == '\\' then "\\\\"
    else if c as int == 0x08 then "\\b"
    else if c as int == 0x09 then "\\t"
    else if c as int == 0x0A then "\\n"
    else if c as int == 0x0C then "\\f"
    else if c as int == 0x0D then "\\r"
    else if c as int < 0x20 then "\\u00" + [HEX_DIGITS[c as int / 16], HEX_DIGITS[c as int % 16]]
    else [c]
  }

  function Escape(s: string): string {
    if s == [] then [] else EscapeChar(s[0]) + Escape(s[1..])
  }

  /** A JSON string literal: the escaped text between quotation marks. */
  function Quote(s: string): string {
    "\"" + Escape(s) + "\""
  }

  function DigitChar(d: nat): char
    requires d < 10
  {
    "0123456789"[d]
  }

  /** Decimal digits of a natural number, most significant first, without leading zeros. */
  function NatToString(n: nat): string
    decreases n
  {
    if n < 10 then [DigitChar(n)] else NatToString(n / 10) + [DigitChar(n % 10)]
  }

  function IntToString(n: int): string {
    if n < 0 then "-" + NatToString(-n) else NatToString(n)
  }

  /** Two spaces per level of nesting. */
  function Indent(depth: nat): string {
    if depth == 0 then "" else "  " + Indent(depth - 1)
  }

  /** What the indenting printer writes before an object entry or a closing brace; nothing in compact form. */
  function LineBreak(pretty: bool, depth: nat): string {
    if pretty then NL + Indent(depth) else ""
  }

  /** Between a key and its value. */
  function KeySeparator(pretty: bool): string {
    if pretty then " : " else ":"
  }

  /** Inside the brackets of a non-empty array, and after each comma between its elements. */
  function ArraySpace(pretty: bool): string {
    if pretty then " " else ""
  }

  /**
   * The text written for v, whose enclosing objects are `depth` levels deep.
   * Entries and elements keep their order in the value.
   */
  function Render(v: Json, pretty: bool, depth: nat): string
    requires Renderable(v)
    decreases v, 1
  {
    match v
    case JString(s) => Quote(s)
    case JNumber(n) => IntToString(n)
    case JStringList(items) =>
      if items == [] then (if pretty then "[ ]" else "[]")
      else "[" + ArraySpace(pretty) + Items(items, pretty) + ArraySpace(pretty) + "]"
    case JObject(es) =>
      if es == [] then (if pretty then "{ }" else "{}")
      else "{" + Members(es, 0, pretty, depth + 1) + LineBreak(pretty, depth) + "}"
  }

  /** The elements of a non-empty array of strings, separated by commas. */
  function Items(items: seq<string>, pretty: bool): string
    requires items != []
  {
    Quote(items[0]) + (if |items| == 1 then "" else "," + ArraySpace(pretty) + Items(items[1..], pretty))
  }

  /** The entries es[i..] of an object whose entries are `depth` levels deep, separated by commas. */
  function Members(es: seq<(string, Json)>, i: nat, pretty: bool, depth: nat): string
    requires i < |es|
    requires forall j | 0 <= j < |es| :: Renderable(es[j].1)
    decreases JObject(es), 0, |es| - i
  {
    LineBreak(pretty, depth) + Quote(es[i].0) + KeySeparator(pretty) + Render(es[i].1, pretty, depth)
    + (if i == |es| - 1 then "" else "," + Members(es, i + 1, pretty, depth))
  }

  /** No character of s is a control character, so in particular s holds no line break. */
  predicate SingleLine(s: string) {
    forall i | 0 <= i < |s| :: s[i] as int >= 0x20
  }

  lemma SingleLineConcat(a: string, b: string)
    requires SingleLine(a) && SingleLine(b)
    ensures SingleLine(a + b)
  {
    forall i | 0 <= i < |a + b| ensures (a + b)[i] as int >= 0x20 {
      if i >= |a| {
        assert (a + b)[i] == b[i - |a|];
      }
    }
  }

  lemma {:induction false} EscapeLength(s: string)
    ensures |Escape(s)| >= |s|
    ensures |Escape(s)| == |s| <==> forall i | 0 <= i < |s| :: Plain(s[i])
    decreases |s|
  {
    if s != [] {
      EscapeLength(s[1..]);
      assert forall i | 1 <= i < |s| :: s[i] == s[1..][i - 1];
      if forall i | 0 <= i < |s[1..]| :: Plain(s[1..][i]) {
        assert (forall i | 0 <= i < |s| :: Plain(s[i])) <==> Plain(s[0]);
      }
    }
  }

  /** A string of plain characters is written verbatim; any other string is written longer. */
  lemma {:induction false} EscapeVerbatim(s: string)
    ensures Escape(s) == s <==> forall i | 0 <= i < |s| :: Plain(s[i])
    decreases |s|
  {
    EscapeLength(s);
    if s != [] && forall i | 0 <= i < |s| :: Plain(s[i]) {
      assert forall i | 0 <= i < |s[1..]| :: Plain(s[1..][i]) by {
        forall i | 0 <= i < |s[1..]| ensures Plain(s[1..][i]) {
          assert s[1..][i] == s[i + 1];
        }
      }
      EscapeVerbatim(s[1..]);
      assert [s[0]] + s[1..] == s;
    }
  }

  lemma EscapeCharSingleLine(c: char)
    ensures SingleLine(EscapeChar(c))
  {
    if !Plain(c) && c as int < 0x20 {
      assert forall k | 0 <= k < 16 :: HEX_DIGITS[k] as int >= 0x20;
    }
  }

  /** An escaped string has no control character left in it. */
  lemma {:induction false} EscapeSingleLine(s: string)
    ensures SingleLine(Escape(s))
    decreases |s|
  {
    if s != [] {
      EscapeSingleLine(s[1..]);
      EscapeCharSingleLine(s[0]);
      SingleLineConcat(EscapeChar(s[0]), Escape(s[1..]));
    }
  }

  lemma QuoteSingleLine(s: string)
    ensures SingleLine(Quote(s))
  {
    EscapeSingleLine(s);
    SingleLineConcat("\"", Escape(s));
    SingleLineConcat("\"" + Escape(s), "\"");
  }

  lemma {:induction false} NatToStringSingleLine(n: nat)
    ensures SingleLine(NatToString(n))
    decreases n
  {
    if n >= 10 {
      NatToStringSingleLine(n / 10);
      SingleLineConcat(NatToString(n / 10), [DigitChar(n % 10)]);
    }
  }

  lemma {:induction false} ItemsSingleLine(items: seq<string>)
    requires items != []
    ensures SingleLine(Items(items, false))
    decreases |items|
  {
    QuoteSingleLine(items[0]);
    if |items| > 1 {
      ItemsSingleLine(items[1..]);
      SingleLineConcat(",", Items(items[1..], false));
      SingleLineConcat(Quote(items[0]), "," + Items(items[1..], false));
    }
  }

  /** The compact form of a value is a single line: it holds no line break or other control character. */
  lemma {:induction false} CompactSingleLine(v: Json, depth: nat)
    requires Renderable(v)
    ensures SingleLine(Render(v, false, depth))
    decreases v, 1
  {
    match v
    case JString(s) => QuoteSingleLine(s);
    case JNumber(n) =>
      NatToStringSingleLine(if n < 0 then -n else n);
      if n < 0 {
        SingleLineConcat("-", NatToString(-n));
      }
    case JStringList(items) =>
      if items != [] {
        ItemsSingleLine(items);
        SingleLineConcat("[", Items(items, false));
        SingleLineConcat("[" + Items(items, false), "]");
      }
    case JObject(es) =>
      if es != [] {
        MembersSingleLine(es, 0, depth + 1);
        SingleLineConcat("{", Members(es, 0, false, depth + 1));
        SingleLineConcat("{" + Members(es, 0, false, depth + 1), "}");
      }
  }

  lemma {:induction false} MembersSingleLine(es: seq<(string, Json)>, i: nat, depth: nat)
    requires i < |es|
    requires forall j | 0 <= j < |es| :: Renderable(es[j].1)
    ensures SingleLine(Members(es, i, false, depth))
    decreases JObject(es), 0, |es| - i
  {
    var lb, q := LineBreak(false, depth), Quote(es[i].0);
    var r := Render(es[i].1, false, depth);
    var tail := if i == |es| - 1 then "" else "," + Members(es, i + 1, false, depth);
    QuoteSingleLine(es[i].0);
    CompactSingleLine(es[i].1, depth);
    if i < |es| - 1 {
      MembersSingleLine(es, i + 1, depth);
      SingleLineConcat(",", Members(es, i + 1, false, depth));
    }
    SingleLineConcat(lb, q);
    SingleLineConcat(lb + q, ":");
    SingleLineConcat(lb + q + ":", r);
    SingleLineConcat(lb + q + ":" + r, tail);
  }
}

/**
 * The renderer and the reader agree: reading back the text written for a
 * value, compact or indented, gives that value, entries in their order.
 */
module JsonRoundTrip {
  import opened Wrappers
  import opened Json
  import opened JsonReader

  lemma {:induction false} SkipOver(w: string, x: string)
    requires AllWhitespace(w)
    ensures SkipWhitespace(w + x) == SkipWhitespace(x)
    decreases |w|
  {
    if w != [] {
      assert IsWhitespace(w[0]);
      assert AllWhitespace(w[1..]) by {
        forall i | 0 <= i < |w[1..]| ensures IsWhitespace(w[1..][i]) {
          assert w[1..][i] == w[i + 1];
        }
      }
      var s := w + x;
      assert s[0] == w[0] && s[1..] == w[1..] + x;
      assert SkipWhitespace(s) == SkipWhitespace(s[1..]);
      SkipOver(w[1..], x);
    } else {
      assert w + x == x;
    }
  }

  lemma {:induction false} IndentIsWhitespace(depth: nat)
    ensures AllWhitespace(Indent(depth))
  {
    if depth > 0 {
      IndentIsWhitespace(depth - 1);
    }
  }

  lemma LineBreakIsWhitespace(pretty: bool, depth: nat)
    ensures AllWhitespace(LineBreak(pretty, depth))
  {
    IndentIsWhitespace(depth);
  }

  /** The whitespace-then-token shape the renderer produces, for a token that is not whitespace. */
  lemma SkipTo(w: string, x: string)
    requires AllWhitespace(w)
    requires x != [] && !IsWhitespace(x[0])
    ensures SkipWhitespace(w + x) == x
  {
    SkipOver(w, x);
  }

  lemma HexDigitsRead(k: nat)
    requires k < 16
    ensures HexValue(HEX_DIGITS[k]) == Some(k)
  {
  }

  /** One escaped character is read back as that character. */
  lemma EscapeCharRead(c: char, t: string)
    ensures ParseStringBody(EscapeChar(c) + t) ==
      match ParseStringBody(t)
      case None => None
      case Some((body, after)) => Some(([c] + body, after))
  {
    var e := EscapeChar(c);
    var s := e + t;
    if Plain(c) {
      assert e == [c];
      assert s[1..] == t;
    } else if c as int < 0x20 && c as int !in {0x08, 0x09, 0x0A, 0x0C, 0x0D} {
      var hi, lo := c as int / 16, c as int % 16;
      assert e == "\\u00" + [HEX_DIGITS[hi], HEX_DIGITS[lo]];
      HexDigitsRead(hi);
      HexDigitsRead(lo);
      assert s[0] == '\\' && s[1..] == "u00" + [HEX_DIGITS[hi], HEX_DIGITS[lo]] + t;
      assert s[1..][5..] == t;
      assert ParseEscape(s[1..]) == Some((c, t));
    } else {
      assert |e| == 2 && e[0] == '\\';
      assert s[0] == '\\' && s[1..] == [e[1]] + t;
      assert ParseEscape(s[1..]) == Some((c, t));
    }
  }

  /** An escaped string followed by its closing quotation mark is read back as the string. */
  lemma {:induction false} EscapeRead(s: string, rest: string)
    ensures ParseStringBody(Escape(s) + "\"" + rest) == Some((s, rest))
    decreases |s|
  {
    if s == [] {
      assert Escape(s) + "\"" + rest == "\"" + rest;
    } else {
      var tail := Escape(s[1..]) + "\"" + rest;
      assert Escape(s) + "\"" + rest == EscapeChar(s[0]) + tail;
      EscapeRead(s[1..], rest);
      EscapeCharRead(s[0], tail);
      assert [s[0]] + s[1..] == s;
    }
  }

  lemma QuoteRead(s: string, rest: string)
    ensures SkipWhitespace(Quote(s) + rest) == Quote(s) + rest
    ensures (Quote(s) + rest)[0] == '"'
    ensures ParseStringBody((Quote(s) + rest)[1..]) == Some((s, rest))
  {
    assert (Quote(s) + rest)[1..] == Escape(s) + "\"" + rest;
    EscapeRead(s, rest);
  }

  lemma {:induction false} NatToStringDigits(n: nat)
    ensures NatToString(n) != []
    ensures forall i | 0 <= i < |NatToString(n)| :: IsDigit(NatToString(n)[i])
    decreases n
  {
    if n >= 10 {
      NatToStringDigits(n / 10);
    }
  }

  lemma {:induction false} NatToStringValue(n: nat)
    ensures forall i | 0 <= i < |NatToString(n)| :: IsDigit(NatToString(n)[i])
    ensures DigitsValue(NatToString(n)) == n
    decreases n
  {
    NatToStringDigits(n);
    if n >= 10 {
      NatToStringValue(n / 10);
      var s := NatToString(n);
      assert s[..|s| - 1] == NatToString(n / 10);
    }
  }

  lemma {:induction false} DigitRunOver(x: string, rest: string)
    requires forall i | 0 <= i < |x| :: IsDigit(x[i])
    requires EndsNumber(rest)
    ensures DigitRun(x + rest) == |x|
    decreases |x|
  {
    if x != [] {
      assert (x + rest)[1..] == x[1..] + rest;
      DigitRunOver(x[1..], rest);
    }
  }

  lemma ParseValueNumber(s: string)
    requires s != [] && (s[0] == '-' || IsDigit(s[0]))
    ensures ParseValue(s) == ParseNumber(s)
  {
    assert SkipWhitespace(s) == s;
  }

  lemma DigitsRead(digits: string, rest: string)
    requires digits != [] && forall i | 0 <= i < |digits| :: IsDigit(digits[i])
    requires EndsNumber(rest)
    ensures ParseDigits(digits + rest) == Some((DigitsValue(digits), rest))
  {
    var t := digits + rest;
    DigitRunOver(digits, rest);
    assert t[..|digits|] == digits;
    assert t[|digits|..] == rest;
  }

  lemma ParseUnsigned(digits: string, rest: string)
    requires digits != [] && forall i | 0 <= i < |digits| :: IsDigit(digits[i])
    requires EndsNumber(rest)
    ensures ParseNumber(digits + rest) == Some((JNumber(DigitsValue(digits)), rest))
  {
    DigitsRead(digits, rest);
    assert (digits + rest)[0] == digits[0];
  }

  lemma ParseNegative(digits: string, rest: string)
    requires digits != [] && forall i | 0 <= i < |digits| :: IsDigit(digits[i])
    requires EndsNumber(rest)
    ensures ParseNumber("-" + digits + rest) == Some((JNumber(-DigitsValue(digits)), rest))
  {
    DigitsRead(digits, rest);
    var t := digits + rest;
    var s := "-" + digits + rest;
    assert s == ['-'] + t;
    assert s[0] == '-';
    assert s[1..] == t;
    assert ParseDigits(s[1..]) == Some((DigitsValue(digits), rest));
  }

  lemma NumberRead(n: int, rest: string)
    requires EndsNumber(rest)
    ensures ParseValue(IntToString(n) + rest) == Some((JNumber(n), rest))
  {
    var m: nat := if n < 0 then -n else n;
    var digits := NatToString(m);
    NatToStringValue(m);
    NatToStringDigits(m);
    if n < 0 {
      ParseNegative(digits, rest);
      assert IntToString(n) + rest == "-" + digits + rest;
    } else {
      ParseUnsigned(digits, rest);
      assert IntToString(n) + rest == digits + rest;
    }
    ParseValueNumber(IntToString(n) + rest);
  }

  // One step of each reader function, stated on its own so that the proofs below stay small.

  lemma ValueString(s: string, str: string, rest: string)
    requires s != [] && s[0] == '"' && ParseStringBody(s[1..]) == Some((str, rest))
    ensures ParseValue(s) == Some((JString(str), rest))
  {
    assert SkipWhitespace(s) == s;
  }

  lemma ValueArray(s: string)
    requires s != [] && s[0] == '['
    ensures ParseValue(s) == ParseArray(s[1..])
  {
    assert SkipWhitespace(s) == s;
  }

  lemma ValueObject(s: string)
    requires s != [] && s[0] == '{'
    ensures ParseValue(s) == ParseObject(s[1..])
  {
    assert SkipWhitespace(s) == s;
  }

  lemma ValueAfterWhitespace(w: string, s: string)
    requires AllWhitespace(w)
    ensures ParseValue(w + s) == ParseValue(s)
  {
    SkipOver(w, s);
  }

  lemma ArrayEmpty(s: string, rest: string)
    requires SkipWhitespace(s) == "]" + rest
    ensures ParseArray(s) == Some((JStringList([]), rest))
  {
    assert ("]" + rest)[1..] == rest;
  }

  lemma ArrayItems(s: string, items: seq<string>, rest: string)
    requires SkipWhitespace(s) != [] && SkipWhitespace(s)[0] == '"'
    requires ParseItems(s) == Some((items, rest))
    ensures ParseArray(s) == Some((JStringList(items), rest))
  {
  }

  lemma ObjectEmpty(s: string, rest: string)
    requires SkipWhitespace(s) == "}" + rest
    ensures ParseObject(s) == Some((JObject([]), rest))
  {
    assert ("}" + rest)[1..] == rest;
  }

  lemma ObjectMembers(s: string, es: seq<(string, Json)>, rest: string)
    requires SkipWhitespace(s) != [] && SkipWhitespace(s)[0] == '"'
    requires ParseMembers(s) == Some((es, rest))
    ensures ParseObject(s) == Some((JObject(es), rest))
  {
  }

  lemma ItemsLast(s: string, item: string, after: string, rest: string)
    requires SkipWhitespace(s) != [] && SkipWhitespace(s)[0] == '"'
    requires ParseStringBody(SkipWhitespace(s)[1..]) == Some((item, after))
    requires SkipWhitespace(after) == "]" + rest
    ensures ParseItems(s) == Some(([item], rest))
  {
    assert ("]" + rest)[1..] == rest;
  }

  lemma ItemsMore(s: string, item: string, after: string, next: string, more: seq<string>, rest: string)
    requires SkipWhitespace(s) != [] && SkipWhitespace(s)[0] == '"'
    requires ParseStringBody(SkipWhitespace(s)[1..]) == Some((item, after))
    requires SkipWhitespace(after) == "," + next
    requires ParseItems(next) == Some((more, rest))
    ensures ParseItems(s) == Some(([item] + more, rest))
  {
    assert ("," + next)[1..] == next;
  }

  lemma MembersLast(s: string, key: string, r1: string, v: Json, r2: string, rest: string)
    requires SkipWhitespace(s) != [] && SkipWhitespace(s)[0] == '"'
    requires ParseStringBody(SkipWhitespace(s)[1..]) == Some((key, r1))
    requires SkipWhitespace(r1) != [] && SkipWhitespace(r1)[0] == ':'
    requires ParseValue(SkipWhitespace(r1)[1..]) == Some((v, r2))
    requires SkipWhitespace(r2) == "}" + rest
    ensures ParseMembers(s) == Some(([(key, v)], rest))
  {
    assert ("}" + rest)[1..] == rest;
  }

  lemma MembersMore(s: string, key: string, r1: string, v: Json, r2: string, next: string,
                    more: seq<(string, Json)>, rest: string)
    requires SkipWhitespace(s) != [] && SkipWhitespace(s)[0] == '"'
    requires ParseStringBody(SkipWhitespace(s)[1..]) == Some((key, r1))
    requires SkipWhitespace(r1) != [] && SkipWhitespace(r1)[0] == ':'
    requires ParseValue(SkipWhitespace(r1)[1..]) == Some((v, r2))
    requires SkipWhitespace(r2) == "," + next
    requires ParseMembers(next) == Some((more, rest))
    ensures ParseMembers(s) == Some(([(key, v)] + more, rest))
  {
    assert ("," + next)[1..] == next;
  }

  /** What follows a rendered value inside an object, or at the end of the text, does not extend a number. */
  lemma EndsWithClose(w: string, close: char, rest: string)
    requires AllWhitespace(w) && !IsDigit(close)
    ensures EndsNumber(w + [close] + rest)
  {
    if w != [] {
      assert (w + [close] + rest)[0] == w[0];
    }
  }

  /** Regroups a left-nested concatenation so that the reader's rest of input is the tail after the first piece. */
  lemma Concat3(a: string, b: string, c: string)
    ensures a + b + c == a + (b + c)
  {
  }

  /** Concat3 for four pieces. */
  lemma Concat4(a: string, b: string, c: string, d: string)
    ensures a + b + c + d == a + (b + c + d)
  {
  }

  /** Concat3 for five pieces. */
  lemma Concat5(a: string, b: string, c: string, d: string, e: string)
    ensures a + b + c + d + e == a + (b + c + d + e)
  {
  }

  /** Concat3 for six pieces. */
  lemma Concat6(a: string, b: string, c: string, d: string, e: string, f: string)
    ensures a + b + c + d + e + f == a + (b + c + d + e + f)
  {
  }

  /** A suffix of a sequence is its first element followed by the next suffix. */
  lemma SliceCons<T>(s: seq<T>, i: nat)
    requires i < |s|
    ensures s[i..] == [s[i]] + s[i + 1..]
  {
  }

  /** The text after an item's (or entry's) first token, regrouped as the reader meets it. */
  lemma ItemShape(w0: string, q: string, sp: string, i1: string, w: string, r: string)
    ensures w0 + (q + ("," + sp + i1)) + w + "]" + r == w0 + (q + ("," + (sp + i1 + w + "]" + r)))
  {
  }

  /** The text of an entry that is not the last one, regrouped as the reader meets it. */
  lemma EntryShape(a: string, x: string, y: string, w: string, c: string, r: string)
    ensures a + (x + y) + w + c + r == a + (x + y + w + c + r)
  {
  }

  /** A key or array element, after whitespace, is read back as that string. */
  lemma StringAfterWhitespace(w: string, s: string, after: string)
    requires AllWhitespace(w)
    ensures SkipWhitespace(w + (Quote(s) + after)) == Quote(s) + after
    ensures (Quote(s) + after) != [] && (Quote(s) + after)[0] == '"'
    ensures ParseStringBody((Quote(s) + after)[1..]) == Some((s, after))
  {
    QuoteRead(s, after);
    SkipTo(w, Quote(s) + after);
  }

  /** One object entry: its key, the key separator and its value are read back in turn. */
  lemma EntryRead(k: string, v: Json, pretty: bool, depth: nat, after: string)
    requires Renderable(v)
    requires ParseValue(Render(v, pretty, depth) + after) == Some((v, after))
    ensures var s := LineBreak(pretty, depth) + Quote(k) + KeySeparator(pretty) + Render(v, pretty, depth) + after;
            var r1 := KeySeparator(pretty) + Render(v, pretty, depth) + after;
            && SkipWhitespace(s) != [] && SkipWhitespace(s)[0] == '"'
            && ParseStringBody(SkipWhitespace(s)[1..]) == Some((k, r1))
            && SkipWhitespace(r1) != [] && SkipWhitespace(r1)[0] == ':'
            && ParseValue(SkipWhitespace(r1)[1..]) == Some((v, after))
  {
    var sp := ArraySpace(pretty);
    var lb, q, ks, rv := LineBreak(pretty, depth), Quote(k), KeySeparator(pretty), Render(v, pretty, depth);
    var a2 := rv + after;
    var r1 := ks + rv + after;
    assert ks == sp + ":" + sp;
    Concat3(ks, rv, after);
    Concat4(sp, ":", sp, a2);
    Concat3(":", sp, a2);
    assert r1 == sp + (":" + (sp + a2));
    Concat5(lb, q, ks, rv, after);
    Concat4(q, ks, rv, after);
    assert lb + q + ks + rv + after == lb + (q + r1);
    LineBreakIsWhitespace(pretty, depth);
    StringAfterWhitespace(lb, k, r1);
    SkipTo(sp, ":" + (sp + a2));
    assert (":" + (sp + a2))[1..] == sp + a2;
    ValueAfterWhitespace(sp, a2);
  }

  lemma ItemsReadOne(item: string, pretty: bool, w0: string, w: string, rest: string)
    requires AllWhitespace(w0) && AllWhitespace(w)
    ensures var text := w0 + Items([item], pretty) + w + "]" + rest;
            && SkipWhitespace(text) != [] && SkipWhitespace(text)[0] == '"'
            && ParseItems(text) == Some(([item], rest))
  {
    var after := w + ("]" + rest);
    var text := w0 + Items([item], pretty) + w + "]" + rest;
    assert Items([item], pretty) == Quote(item);
    assert text == w0 + (Quote(item) + after);
    StringAfterWhitespace(w0, item, after);
    SkipTo(w, "]" + rest);
    ItemsLast(text, item, after, rest);
  }

  lemma ItemsReadStep(items: seq<string>, pretty: bool, w0: string, w: string, rest: string)
    requires |items| > 1
    requires AllWhitespace(w0) && AllWhitespace(w)
    requires ParseItems(ArraySpace(pretty) + Items(items[1..], pretty) + w + "]" + rest) == Some((items[1..], rest))
    ensures var text := w0 + Items(items, pretty) + w + "]" + rest;
            && SkipWhitespace(text) != [] && SkipWhitespace(text)[0] == '"'
            && ParseItems(text) == Some((items, rest))
  {
    var next := ArraySpace(pretty) + Items(items[1..], pretty) + w + "]" + rest;
    var after := "," + next;
    var text := w0 + Items(items, pretty) + w + "]" + rest;
    var q, i1 := Quote(items[0]), Items(items[1..], pretty);
    assert Items(items, pretty) == q + ("," + ArraySpace(pretty) + i1);
    ItemShape(w0, q, ArraySpace(pretty), i1, w, rest);
    assert text == w0 + (q + after);
    StringAfterWhitespace(w0, items[0], after);
    assert SkipWhitespace(after) == after;
    ItemsMore(text, items[0], after, next, items[1..], rest);
    assert [items[0]] + items[1..] == items;
  }

  /** Reading array elements back, from the first one (after whitespace) to the closing bracket. */
  lemma {:induction false} ItemsRead(items: seq<string>, pretty: bool, w0: string, w: string, rest: string)
    requires items != []
    requires AllWhitespace(w0) && AllWhitespace(w)
    ensures var text := w0 + Items(items, pretty) + w + "]" + rest;
            && SkipWhitespace(text) != [] && SkipWhitespace(text)[0] == '"'
            && ParseItems(text) == Some((items, rest))
    decreases |items|
  {
    if |items| == 1 {
      ItemsReadOne(items[0], pretty, w0, w, rest);
      assert items == [items[0]];
    } else {
      ItemsRead(items[1..], pretty, ArraySpace(pretty), w, rest);
      ItemsReadStep(items, pretty, w0, w, rest);
    }
  }

  lemma StringRead(s: string, pretty: bool, depth: nat, rest: string)
    ensures ParseValue(Render(JString(s), pretty, depth) + rest) == Some((JString(s), rest))
  {
    QuoteRead(s, rest);
    ValueString(Render(JString(s), pretty, depth) + rest, s, rest);
  }

  lemma ListRead(items: seq<string>, pretty: bool, depth: nat, rest: string)
    ensures ParseValue(Render(JStringList(items), pretty, depth) + rest) == Some((JStringList(items), rest))
  {
    if items == [] {
      EmptyListRead(pretty, depth, rest);
    } else {
      var text := Render(JStringList(items), pretty, depth) + rest;
      var sp, i0 := ArraySpace(pretty), Items(items, pretty);
      var inner := sp + i0 + sp + "]" + rest;
      assert Render(JStringList(items), pretty, depth) == "[" + sp + i0 + sp + "]";
      Concat6("[", sp, i0, sp, "]", rest);
      ValueArray(text);
      ItemsRead(items, pretty, sp, sp, rest);
      ArrayItems(inner, items, rest);
    }
  }

  lemma EmptyListRead(pretty: bool, depth: nat, rest: string)
    ensures ParseValue(Render(JStringList([]), pretty, depth) + rest) == Some((JStringList([]), rest))
  {
    var text := Render(JStringList([]), pretty, depth) + rest;
    var sp := ArraySpace(pretty);
    assert text == "[" + (sp + ("]" + rest));
    ValueArray(text);
    SkipTo(sp, "]" + rest);
    ArrayEmpty(sp + ("]" + rest), rest);
  }

  lemma EmptyObjectRead(pretty: bool, depth: nat, rest: string)
    ensures ParseValue(Render(JObject([]), pretty, depth) + rest) == Some((JObject([]), rest))
  {
    var text := Render(JObject([]), pretty, depth) + rest;
    var sp := ArraySpace(pretty);
    assert text == "{" + (sp + ("}" + rest));
    ValueObject(text);
    SkipTo(sp, "}" + rest);
    ObjectEmpty(sp + ("}" + rest), rest);
  }

  lemma ObjectRead(es: seq<(string, Json)>, pretty: bool, depth: nat, rest: string)
    requires es != [] && Renderable(JObject(es))
    requires var inner := Members(es, 0, pretty, depth + 1) + LineBreak(pretty, depth) + "}" + rest;
             && SkipWhitespace(inner) != [] && SkipWhitespace(inner)[0] == '"'
             && ParseMembers(inner) == Some((es, rest))
    ensures ParseValue(Render(JObject(es), pretty, depth) + rest) == Some((JObject(es), rest))
  {
    var text := Render(JObject(es), pretty, depth) + rest;
    var m := Members(es, 0, pretty, depth + 1);
    var inner := m + LineBreak(pretty, depth) + "}" + rest;
    assert Render(JObject(es), pretty, depth) == "{" + m + LineBreak(pretty, depth) + "}";
    Concat5("{", m, LineBreak(pretty, depth), "}", rest);
    assert text == "{" + inner;
    ValueObject(text);
    ObjectMembers(inner, es, rest);
  }

  /** Reading back the text written for a value, followed by anything that does not extend a number. */
  lemma {:induction false} ValueRead(v: Json, pretty: bool, depth: nat, rest: string)
    requires Renderable(v)
    requires EndsNumber(rest)
    ensures ParseValue(Render(v, pretty, depth) + rest) == Some((v, rest))
    decreases v, 1
  {
    match v
    case JString(s) =>
      StringRead(s, pretty, depth, rest);
    case JNumber(n) =>
      NumberRead(n, rest);
    case JStringList(items) =>
      ListRead(items, pretty, depth, rest);
    case JObject(es) =>
      if es == [] {
        EmptyObjectRead(pretty, depth, rest);
      } else {
        LineBreakIsWhitespace(pretty, depth);
        MembersRead(es, 0, pretty, depth + 1, LineBreak(pretty, depth), rest);
        assert es[0..] == es;
        ObjectRead(es, pretty, depth, rest);
      }
  }

  lemma MembersReadLast(es: seq<(string, Json)>, i: nat, pretty: bool, depth: nat, w: string, rest: string)
    requires i == |es| - 1
    requires forall j | 0 <= j < |es| :: Renderable(es[j].1)
    requires AllWhitespace(w)
    requires ParseValue(Render(es[i].1, pretty, depth) + (w + "}" + rest)) == Some((es[i].1, w + "}" + rest))
    ensures var text := Members(es, i, pretty, depth) + w + "}" + rest;
            && SkipWhitespace(text) != [] && SkipWhitespace(text)[0] == '"'
            && ParseMembers(text) == Some((es[i..], rest))
  {
    var k, v := es[i].0, es[i].1;
    var after := w + "}" + rest;
    var text := Members(es, i, pretty, depth) + w + "}" + rest;
    LastEntryShape(es, i, pretty, depth, w, rest);
    EntryRead(k, v, pretty, depth, after);
    Concat3(w, "}", rest);
    SkipTo(w, "}" + rest);
    MembersLast(text, k, KeySeparator(pretty) + Render(v, pretty, depth) + after, v, after, rest);
    assert es[i..] == [(k, v)];
  }

  /** The last entry's text, followed by the object's closing. */
  lemma LastEntryShape(es: seq<(string, Json)>, i: nat, pretty: bool, depth: nat, w: string, rest: string)
    requires i == |es| - 1
    requires forall j | 0 <= j < |es| :: Renderable(es[j].1)
    ensures Members(es, i, pretty, depth) + w + "}" + rest
         == LineBreak(pretty, depth) + Quote(es[i].0) + KeySeparator(pretty) + Render(es[i].1, pretty, depth) + (w + "}" + rest)
  {
    var head := LineBreak(pretty, depth) + Quote(es[i].0) + KeySeparator(pretty) + Render(es[i].1, pretty, depth);
    assert Members(es, i, pretty, depth) == head + "";
    assert head + "" == head;
    Concat4(head, w, "}", rest);
  }

  lemma MembersReadStep(es: seq<(string, Json)>, i: nat, pretty: bool, depth: nat, w: string, rest: string)
    requires i < |es| - 1
    requires forall j | 0 <= j < |es| :: Renderable(es[j].1)
    requires AllWhitespace(w)
    requires var after := "," + Members(es, i + 1, pretty, depth) + w + "}" + rest;
             ParseValue(Render(es[i].1, pretty, depth) + after) == Some((es[i].1, after))
    requires ParseMembers(Members(es, i + 1, pretty, depth) + w + "}" + rest) == Some((es[i + 1..], rest))
    ensures var text := Members(es, i, pretty, depth) + w + "}" + rest;
            && SkipWhitespace(text) != [] && SkipWhitespace(text)[0] == '"'
            && ParseMembers(text) == Some((es[i..], rest))
  {
    var (k, v) := es[i];
    var next := Members(es, i + 1, pretty, depth) + w + "}" + rest;
    var m1 := Members(es, i + 1, pretty, depth);
    var after := "," + m1 + w + "}" + rest;
    Concat5(",", m1, w, "}", rest);
    assert after == "," + next;
    var text := Members(es, i, pretty, depth) + w + "}" + rest;
    var head := LineBreak(pretty, depth) + Quote(k) + KeySeparator(pretty) + Render(v, pretty, depth);
    assert Members(es, i, pretty, depth) == head + ("," + m1);
    EntryShape(head, ",", m1, w, "}", rest);
    assert text == head + after;
    EntryRead(k, v, pretty, depth, after);
    assert SkipWhitespace(after) == after;
    MembersMore(text, k, KeySeparator(pretty) + Render(v, pretty, depth) + after, v, after, next, es[i + 1..], rest);
    SliceCons(es, i);
  }

  /** Reading the entries es[i..] back, up to the closing brace. */
  lemma {:induction false} MembersRead(es: seq<(string, Json)>, i: nat, pretty: bool, depth: nat, w: string, rest: string)
    requires i < |es|
    requires forall j | 0 <= j < |es| :: Renderable(es[j].1)
    requires AllWhitespace(w)
    ensures var text := Members(es, i, pretty, depth) + w + "}" + rest;
            && SkipWhitespace(text) != [] && SkipWhitespace(text)[0] == '"'
            && ParseMembers(text) == Some((es[i..], rest))
    decreases JObject(es), 0, |es| - i
  {
    if i == |es| - 1 {
      EndsWithClose(w, '}', rest);
      assert w + "}" + rest == w + ['}'] + rest;
      ValueRead(es[i].1, pretty, depth, w + "}" + rest);
      MembersReadLast(es, i, pretty, depth, w, rest);
    } else {
      var after := "," + Members(es, i + 1, pretty, depth) + w + "}" + rest;
      assert EndsNumber(after);
      ValueRead(es[i].1, pretty, depth, after);
      MembersRead(es, i + 1, pretty, depth, w, rest);
      MembersReadStep(es, i, pretty, depth, w, rest);
    }
  }

  /**
   * The whole text written for a value, followed by any run of whitespace
   * (such as a line separator), is read back as exactly that value.
   */
  lemma ReadBack(v: Json, pretty: bool, sep: string)
    requires Renderable(v)
    requires AllWhitespace(sep)
    ensures Parse(Render(v, pretty, 0) + sep) == Some(v)
  {
    assert EndsNumber(sep) by {
      if sep != [] {
        assert IsWhitespace(sep[0]);
      }
    }
    ValueRead(v, pretty, 0, sep);
    SkipOver(sep, []);
    assert sep + [] == sep;
  }
}

/**
 * The formatter both JSON layouts hand their map to: the object mapper writes
 * the map into a string buffer, compact or indented, and a line separator is
 * appended when configured.
 */
module Formatter {
  import opened Wrappers
  import opened Json
  import opened JsonReader
  import opened JsonRoundTrip
  import opened Document

  /** A Java int. */
  newtype Int32 = x: int | -0x8000_0000 <= x < 0x8000_0000

  /** Initial capacity of the output buffer when the caller gives none. */
  const DEFAULT_BUFFER_SIZE: Int32 := 512

  /** The platform line separator, taken to be a line feed. */
  const LINE_SEPARATOR: string := "\n"

  const FORMAT_FAILURE: string := "Unable to format map as a JSON"

  /** What the string buffer reports when asked for a negative capacity. */
  const NEGATIVE_BUFFER_SIZE: string := "Negative buffer size"

  /** An IllegalArgumentException and its message. */
  datatype FormatError = IllegalArgument(message: string)

  function Terminator(appendLineSeparator: bool): string {
    if appendLineSeparator then LINE_SEPARATOR else ""
  }

  /**
   * The text written for the map m. It fails exactly when the mapper cannot
   * write some value of m, and then with the formatter's message and no text;
   * otherwise the text reads back as m, entries in their order.
   */
  function Format(prettyPrint: bool, appendLineSeparator: bool, m: Document): (r: Result<string, FormatError>)
    ensures r.Success? <==> Renderable(JObject(m))
    ensures r.Failure? ==> r.error == IllegalArgument(FORMAT_FAILURE)
    ensures r.Success? ==> Parse(r.value) == Some(JObject(m))
  {
    if Renderable(JObject(m)) then
      ReadBack(JObject(m), prettyPrint, Terminator(appendLineSeparator));
      Success(Render(JObject(m), prettyPrint, 0) + Terminator(appendLineSeparator))
    else
      Failure(IllegalArgument(FORMAT_FAILURE))
  }

  /** With the separator switched on, the output is the output without it followed by exactly one separator. */
  lemma SeparatorLaw(prettyPrint: bool, m: Document)
    ensures Format(prettyPrint, true, m).Success? == Format(prettyPrint, false, m).Success?
    ensures Format(prettyPrint, true, m).Success? ==>
      Format(prettyPrint, true, m).value == Format(prettyPrint, false, m).value + LINE_SEPARATOR
    ensures Format(prettyPrint, true, m).Failure? ==> Format(prettyPrint, true, m) == Format(prettyPrint, false, m)
  {
    assert Terminator(false) == [];
    if Renderable(JObject(m)) {
      assert Render(JObject(m), prettyPrint, 0) + [] == Render(JObject(m), prettyPrint, 0);
    }
  }

  /** The text of an object ends with its closing brace, in either form. */
  lemma ObjectEndsWithBrace(m: Document, pretty: bool)
    requires Renderable(JObject(m))
    ensures var body := Render(JObject(m), pretty, 0); |body| > 0 && body[|body| - 1] == '}'
  {
    if m != [] {
      var body := Render(JObject(m), pretty, 0);
      var head := "{" + Members(m, 0, pretty, 1) + LineBreak(pretty, 0);
      assert body == head + "}";
      assert body[|body| - 1] == "}"[0];
    }
  }

  /**
   * In either form the text ends with the object's closing brace followed by
   * the separator when it is switched on and by nothing otherwise: it ends in
   * a line break exactly when the separator is switched on.
   */
  lemma EndsWithSeparator(prettyPrint: bool, appendLineSeparator: bool, m: Document)
    requires Format(prettyPrint, appendLineSeparator, m).Success?
    ensures var text := Format(prettyPrint, appendLineSeparator, m).value;
            && (appendLineSeparator ==> |text| >= 2 && text[|text| - 2] == '}' && text[|text| - 1] == '\n')
            && (!appendLineSeparator ==> |text| >= 1 && text[|text| - 1] == '}')
            && (appendLineSeparator <==> |text| > 0 && text[|text| - 1] == '\n')
  {
    var body := Render(JObject(m), prettyPrint, 0);
    ObjectEndsWithBrace(m, prettyPrint);
    var text := Format(prettyPrint, appendLineSeparator, m).value;
    if appendLineSeparator {
      assert text == body + "\n";
      assert text[|text| - 2] == body[|body| - 1];
    } else {
      assert text == body + [];
    }
  }

  /**
   * Compact output is one line: with the separator switched off it holds no
   * line break at all; with it switched on, its only line break is the last character.
   */
  lemma CompactIsOneLine(appendLineSeparator: bool, m: Document)
    requires Format(false, appendLineSeparator, m).Success?
    ensures var text := Format(false, appendLineSeparator, m).value;
            && (forall i | 0 <= i < |text| - 1 :: text[i] != '\n')
            && (appendLineSeparator <==> |text| > 0 && text[|text| - 1] == '\n')
  {
    var body := Render(JObject(m), false, 0);
    CompactSingleLine(JObject(m), 0);
    var text := Format(false, appendLineSeparator, m).value;
    if appendLineSeparator {
      assert text == body + "\n";
    } else {
      assert text == body + [];
      if |text| > 0 {
        assert text[|text| - 1] == body[|body| - 1];
      }
    }
  }

  class DropwizardJsonFormatter {
    /** Whether the object mapper indents its output. */
    const prettyPrint: bool
    const doesAppendLineSeparator: bool
    const bufferSize: Int32

    constructor(prettyPrint: bool, doesAppendLineSeparator: bool, bufferSize: Int32)
      ensures this.prettyPrint == prettyPrint
      ensures this.doesAppendLineSeparator == doesAppendLineSeparator
      ensures this.bufferSize == bufferSize
    {
      this.prettyPrint := prettyPrint;
      this.doesAppendLineSeparator := doesAppendLineSeparator;
      this.bufferSize := bufferSize;
    }

    constructor WithDefaultBufferSize(prettyPrint: bool, doesAppendLineSeparator: bool)
      ensures this.prettyPrint == prettyPrint
      ensures this.doesAppendLineSeparator == doesAppendLineSeparator
      ensures this.bufferSize == DEFAULT_BUFFER_SIZE
    {
      this.prettyPrint := prettyPrint;
      this.doesAppendLineSeparator := doesAppendLineSeparator;
      this.bufferSize := DEFAULT_BUFFER_SIZE;
    }

    /** The outcome of ToJson(m): the buffer size is only a capacity, unless it is negative. */
    function Output(m: Document): Result<string, FormatError> {
      if bufferSize < 0 then Failure(IllegalArgument(NEGATIVE_BUFFER_SIZE))
      else Format(prettyPrint, doesAppendLineSeparator, m)
    }

    /** Writes m into a fresh buffer, then the separator when configured. */
    method ToJson(m: Document) returns (r: Result<string, FormatError>)
      ensures r == Output(m)
      ensures r.Success? ==> Parse(r.value) == Some(JObject(m))
    {
      if bufferSize < 0 {
        return Failure(IllegalArgument(NEGATIVE_BUFFER_SIZE));
      }
      var writer: string := "";
      if !Renderable(JObject(m)) {
        return Failure(IllegalArgument(FORMAT_FAILURE));
      }
      writer := writer + Render(JObject(m), prettyPrint, 0);
      assert writer == Render(JObject(m), prettyPrint, 0);
      if doesAppendLineSeparator {
        writer := writer + LINE_SEPARATOR;
      } else {
        assert writer == writer + Terminator(false);
      }
      r := Success(writer);
    }
  }

  /** Two formatters that differ only in a non-negative buffer size write the same text. */
  lemma BufferSizeIsOnlyCapacity(f: DropwizardJsonFormatter, g: DropwizardJsonFormatter, m: Document)
    requires f.prettyPrint == g.prettyPrint && f.doesAppendLineSeparator == g.doesAppendLineSeparator
    requires f.bufferSize >= 0 && g.bufferSize >= 0
    ensures f.Output(m) == g.Output(m)
    ensures f.Output(m) == Format(f.prettyPrint, f.doesAppendLineSeparator, m)
  {
  }

  /** A string of characters that need no escape. */
  predicate AllPlain(s: string) {
    forall i | 0 <= i < |s| :: Plain(s[i])
  }

  function InQuotes(s: string): string {
    "\"" + s + "\""
  }

  /** A string of plain characters is written between quotation marks as it is. */
  lemma QuotePlain(s: string)
    requires AllPlain(s)
    ensures Quote(s) == InQuotes(s)
  {
    EscapeVerbatim(s);
  }

  /**
   * The shape of the map in the formatter's examples: a name and a list of three
   * hobbies, in that order (there: "name" to "Jim", "hobbies" to "Reading",
   * "Biking" and "Snorkeling").
   */
  function ExampleMap(k1: string, v1: string, k2: string, a: string, b: string, c: string): Document {
    [(k1, JString(v1)), (k2, JStringList([a, b, c]))]
  }

  /** The words of the formatter's examples need no escape, so the example lemmas below apply to them. */
  lemma ExampleWordsArePlain()
    ensures AllPlain("name") && AllPlain("Jim") && AllPlain("hobbies")
    ensures AllPlain("Reading") && AllPlain("Biking") && AllPlain("Snorkeling")
  {
  }

  /** Regroups the nested concatenation Items gives for three elements into the flat text of the list. */
  lemma ListShape(sp: string, qa: string, qb: string, qc: string)
    ensures "[" + sp + (qa + ("," + sp + (qb + ("," + sp + qc)))) + sp + "]"
         == "[" + sp + qa + "," + sp + qb + "," + sp + qc + sp + "]"
  {
  }

  lemma ListOfThree(a: string, b: string, c: string, pretty: bool, depth: nat)
    requires AllPlain(a) && AllPlain(b) && AllPlain(c)
    ensures Render(JStringList([a, b, c]), pretty, depth) ==
      "[" + ArraySpace(pretty) + InQuotes(a) + "," + ArraySpace(pretty) + InQuotes(b) + ","
      + ArraySpace(pretty) + InQuotes(c) + ArraySpace(pretty) + "]"
  {
    QuotePlain(a);
    QuotePlain(b);
    QuotePlain(c);
    var sp := ArraySpace(pretty);
    var hs := [a, b, c];
    assert hs[1..] == [b, c] && hs[1..][1..] == [c];
    assert Items([c], pretty) == InQuotes(c) + "";
    assert InQuotes(c) + "" == InQuotes(c);
    assert Items([b, c], pretty) == InQuotes(b) + ("," + sp + InQuotes(c));
    assert Items(hs, pretty) == InQuotes(a) + ("," + sp + (InQuotes(b) + ("," + sp + InQuotes(c))));
    ListShape(sp, InQuotes(a), InQuotes(b), InQuotes(c));
  }

  /** Regroups the nested concatenation Members gives for two entries into the flat text of the object. */
  lemma ObjectShape(lb1: string, q1: string, ks: string, r1: string, q2: string, r2: string, lb0: string)
    ensures "{" + (lb1 + q1 + ks + r1 + ("," + (lb1 + q2 + ks + r2 + ""))) + lb0 + "}"
         == "{" + lb1 + q1 + ks + r1 + "," + lb1 + q2 + ks + r2 + lb0 + "}"
  {
  }

  /** Drops the empty separators of the compact form from the flat text of the example. */
  lemma CompactShape(q1: string, v: string, q2: string, qa: string, qb: string, qc: string)
    ensures "{" + "" + q1 + ":" + v + "," + "" + q2 + ":" + ("[" + "" + qa + "," + "" + qb + "," + "" + qc + "" + "]") + "" + "}" + ""
         == "{" + q1 + ":" + v + "," + q2 + ":" + "[" + qa + "," + qb + "," + qc + "]" + "}"
  {
  }

  /** Joins the single-space separators of the indented form into the text of the example. */
  lemma PrettyShape(q1: string, v: string, q2: string, qa: string, qb: string, qc: string)
    ensures "{" + "\n  " + q1 + " : " + v + "," + "\n  " + q2 + " : "
            + ("[" + " " + qa + "," + " " + qb + "," + " " + qc + " " + "]") + "\n" + "}" + ""
         == "{" + "\n  " + q1 + " : " + v + "," + "\n  " + q2 + " : "
            + "[ " + qa + ", " + qb + ", " + qc + " ]" + "\n" + "}"
  {
  }

  lemma ExampleText(k1: string, v1: string, k2: string, a: string, b: string, c: string, pretty: bool)
    requires AllPlain(k1) && AllPlain(v1) && AllPlain(k2) && AllPlain(a) && AllPlain(b) && AllPlain(c)
    ensures Render(JObject(ExampleMap(k1, v1, k2, a, b, c)), pretty, 0) ==
      "{" + LineBreak(pretty, 1) + InQuotes(k1) + KeySeparator(pretty) + InQuotes(v1) + ","
      + LineBreak(pretty, 1) + InQuotes(k2) + KeySeparator(pretty)
      + ("[" + ArraySpace(pretty) + InQuotes(a) + "," + ArraySpace(pretty) + InQuotes(b) + ","
         + ArraySpace(pretty) + InQuotes(c) + ArraySpace(pretty) + "]")
      + LineBreak(pretty, 0) + "}"
  {
    var es := ExampleMap(k1, v1, k2, a, b, c);
    QuotePlain(k1);
    QuotePlain(v1);
    QuotePlain(k2);
    ListOfThree(a, b, c, pretty, 1);
    var lb1, ks := LineBreak(pretty, 1), KeySeparator(pretty);
    var r2 := Render(JStringList([a, b, c]), pretty, 1);
    assert Members(es, 1, pretty, 1) == lb1 + InQuotes(k2) + ks + r2 + "";
    assert Members(es, 0, pretty, 1) == lb1 + InQuotes(k1) + ks + InQuotes(v1) + ("," + Members(es, 1, pretty, 1));
    ObjectShape(lb1, InQuotes(k1), ks, InQuotes(v1), InQuotes(k2), r2, LineBreak(pretty, 0));
  }

  /**
   * The compact examples: no whitespace at all, keys in insertion order, and
   * the separator at the end when configured.
   */
  lemma CompactExample(k1: string, v1: string, k2: string, a: string, b: string, c: string)
    requires AllPlain(k1) && AllPlain(v1) && AllPlain(k2) && AllPlain(a) && AllPlain(b) && AllPlain(c)
    ensures var text := "{" + InQuotes(k1) + ":" + InQuotes(v1) + "," + InQuotes(k2) + ":"
                        + "[" + InQuotes(a) + "," + InQuotes(b) + "," + InQuotes(c) + "]" + "}";
            && Format(false, false, ExampleMap(k1, v1, k2, a, b, c)) == Success(text)
            && Format(false, true, ExampleMap(k1, v1, k2, a, b, c)) == Success(text + "\n")
  {
    ExampleText(k1, v1, k2, a, b, c, false);
    CompactShape(InQuotes(k1), InQuotes(v1), InQuotes(k2), InQuotes(a), InQuotes(b), InQuotes(c));
    assert Renderable(JObject(ExampleMap(k1, v1, k2, a, b, c)));
    assert Format(false, false, ExampleMap(k1, v1, k2, a, b, c)).value
        == Render(JObject(ExampleMap(k1, v1, k2, a, b, c)), false, 0) + "";
    SeparatorLaw(false, ExampleMap(k1, v1, k2, a, b, c));
  }

  /**
   * The indented examples: one entry per line indented by two spaces, " : "
   * after each key, "[ a, b ]" for a list, the closing brace on a line of its
   * own, and the separator at the end when configured.
   */
  lemma PrettyExample(k1: string, v1: string, k2: string, a: string, b: string, c: string)
    requires AllPlain(k1) && AllPlain(v1) && AllPlain(k2) && AllPlain(a) && AllPlain(b) && AllPlain(c)
    ensures var text := "{" + "\n  " + InQuotes(k1) + " : " + InQuotes(v1) + "," + "\n  " + InQuotes(k2) + " : "
                        + "[ " + InQuotes(a) + ", " + InQuotes(b) + ", " + InQuotes(c) + " ]" + "\n" + "}";
            && Format(true, false, ExampleMap(k1, v1, k2, a, b, c)) == Success(text)
            && Format(true, true, ExampleMap(k1, v1, k2, a, b, c)) == Success(text + "\n")
  {
    ExampleText(k1, v1, k2, a, b, c, true);
    assert Indent(1) == "  " && Indent(0) == "";
    assert LineBreak(true, 1) == "\n  " && LineBreak(true, 0) == "\n";
    PrettyShape(InQuotes(k1), InQuotes(v1), InQuotes(k2), InQuotes(a), InQuotes(b), InQuotes(c));
    assert Renderable(JObject(ExampleMap(k1, v1, k2, a, b, c)));
    assert Format(true, false, ExampleMap(k1, v1, k2, a, b, c)).value
        == Render(JObject(ExampleMap(k1, v1, k2, a, b, c)), true, 0) + "";
    SeparatorLaw(true, ExampleMap(k1, v1, k2, a, b, c));
  }
}

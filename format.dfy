/**
 * format.go: the string and JSON renderings of an `Error` with an error
 * type, a severity and a list of operations, and of a list of errors.
 * Every renderer builds its output by successive writes; the result is
 * returned as the text written. A renderer reads the error through a
 * `View`: the fields it uses, the context as rendered text values, the
 * bytes `encoding/json` produces for the context map, and the text the
 * message is translated to.
 */
module Format {
  import opened Wrappers
  import Text
  import Render
  import Severity
  import Ctx
  import Localization
  import CommonError

  const MultilinePrefix := "the following errors occurred:"
  const MultilineSeparator := "\n"
  const MultilineIndent := "* "
  const MsgSeparator := " -- "

  /** What the renderers read from one `Error`. */
  datatype View = View(
    errorType: string,
    severity: Severity.Severity,
    operations: seq<string>,
    ctx: map<string, string>,
    ctxJSON: string,
    msg: string,
    text: string)

  /**
   * The view of `e`, nil for a nil `e`. `enc` plays `json.Marshal` on the
   * context map (`None` is a nil map); the message text is the one
   * `writeTranslate` is given, translated as `writeTranslateMsg` does.
   */
  function ViewOf(e: CommonError.Error?, dflt: Option<Localization.Localizer>,
                  enc: Option<map<string, string>> -> string): (v: Option<View>)
    reads e, if e != null then {e.contextInfo} else {}
    ensures e == null <==> v == None
    ensures e != null ==>
      (v.value.operations == e.operations.GetOr([])
       && v.value.ctx == Ctx.Entries(e.contextInfo)
       && v.value.text == Localization.Translate(e.msg, e.id, e.localizer, dflt, e.translateContext))
  {
    if e == null then None
    else
      Some(View(e.errorType, e.severity, e.operations.GetOr([]), Ctx.Entries(e.contextInfo),
                enc(if e.contextInfo == null then None else Some(e.contextInfo.entries)),
                e.msg, Localization.Translate(e.msg, e.id, e.localizer, dflt, e.translateContext)))
  }

  /** Whether any bracketed section precedes the message. */
  predicate HasSection(e: View)
  {
    e.errorType != "" || e.severity > Severity.SeverityUnknown || |e.operations| > 0 || |e.ctx| > 0
  }

  /** `[type]` when the error type is set. */
  function TypeSection(e: View): string
  {
    if e.errorType != "" then "[" + e.errorType + "]" else ""
  }

  /** `[SEVERITY]` when the severity is above unknown. */
  function SeveritySection(e: View): string
  {
    if e.severity > Severity.SeverityUnknown then "[" + Severity.String(e.severity) + "]" else ""
  }

  /** `[op1,op2,...]` when there are operations. */
  function OperationsSection(e: View): string
  {
    if |e.operations| > 0 then "[" + Text.Join(e.operations, ",") + "]" else ""
  }

  /** `<k:v,...>` with sorted keys when there is context. */
  ghost function ContextSection(e: View): string
  {
    if |e.ctx| > 0 then "<" + Render.CtxBody(e.ctx, false) + ">" else ""
  }

  /** The sections, each only when present, in that order. */
  ghost function Head(e: View): string
  {
    TypeSection(e) + SeveritySection(e) + OperationsSection(e) + ContextSection(e)
  }

  /** The string rendering: nothing for nil; the sections, ` -- ` when both sections and a message exist, then the message. */
  ghost function StringText(v: Option<View>): string
  {
    match v
    case None => ""
    case Some(e) => Head(e) + (if HasSection(e) && |e.msg| > 0 then MsgSeparator else "") + e.text
  }

  /** `StringFormat(buf, e)`. */
  method StringFormat(v: Option<View>) returns (out: string)
    ensures out == StringText(v)
  {
    if v.None? {
      return "";
    }
    var e := v.value;
    var writeDelim;
    out, writeDelim := WriteSections(e);
    if writeDelim && |e.msg| > 0 {
      out := out + MsgSeparator;
    }
    out := out + e.text;
  }

  /** The section writes of `StringFormat`; `writeDelim` records whether any was made. */
  method WriteSections(e: View) returns (out: string, writeDelim: bool)
    ensures out == Head(e)
    ensures writeDelim == HasSection(e)
  {
    writeDelim := false;
    out := "";
    if e.errorType != "" {
      out := "[" + e.errorType + "]";
      writeDelim := true;
    }
    if e.severity > Severity.SeverityUnknown {
      var sev := "[" + Severity.String(e.severity) + "]";
      out := out + sev;
      writeDelim := true;
    }
    if |e.operations| > 0 {
      var ops := Render.WriteJoined(e.operations);
      var sec := "[" + ops + "]";
      out := out + sec;
      writeDelim := true;
    }
    assert out == TypeSection(e) + SeveritySection(e) + OperationsSection(e);
    if |e.ctx| > 0 {
      var sec := WriteContextSection(e);
      out := out + sec;
      writeDelim := true;
    }
  }

  /** Writes `<`, the sorted context entries and `>`. */
  method WriteContextSection(e: View) returns (sec: string)
    requires |e.ctx| > 0
    ensures sec == ContextSection(e)
  {
    var body := Render.WriteCtxBody(e.ctx, false);
    sec := "<" + body + ">";
  }

  /** The sections are empty exactly when none is present. */
  lemma HeadEmptyIffNoSection(e: View)
    ensures Head(e) == "" <==> !HasSection(e)
  {
    if HasSection(e) {
      assert |Head(e)| > 0;
    }
  }

  /** An error with no sections renders as its message alone. */
  lemma MessageOnly(e: View)
    requires !HasSection(e)
    ensures StringText(Some(e)) == e.text
  {
  }

  /** An empty message never gets the ` -- ` separator. */
  lemma NoSeparatorWithoutMessage(e: View)
    requires e.msg == "" && e.text == ""
    ensures StringText(Some(e)) == Head(e)
  {
  }

  /**
   * A typed error of severity ERROR with one operation, two context
   * entries and a message renders every section, then ` -- `, then the
   * message, as in `[not found][ERROR][write]<hello:world,my:name> -- hello`.
   */
  lemma StringFullExample(t: string, op: string, k1: string, v1: string, k2: string, v2: string, msg: string)
    requires t != "" && msg != "" && Text.Less(k1, k2)
    ensures StringText(Some(View(t, Severity.SeverityError, [op], map[k1 := v1, k2 := v2], "", msg, msg)))
            == "[" + t + "]" + "[ERROR]" + ("[" + op + "]")
               + ("<" + (Render.Pair(k1, v1, false) + "," + Render.Pair(k2, v2, false)) + ">")
               + " -- " + msg
  {
    var e := View(t, Severity.SeverityError, [op], map[k1 := v1, k2 := v2], "", msg, msg);
    assert SeveritySection(e) == "[ERROR]";
    assert OperationsSection(e) == "[" + op + "]";
    assert ContextSection(e) == "<" + (Render.Pair(k1, v1, false) + "," + Render.Pair(k2, v2, false)) + ">" by {
      Render.CtxBodyTwo(k1, v1, k2, v2, false);
      assert k1 in e.ctx;
    }
  }

  /** `"error_type":"<type>",` */
  function TypeKey(e: View): string
  {
    "\"error_type\":" + Render.Quote(e.errorType) + ","
  }

  /** `"severity":"<SEVERITY>",` */
  function SeverityKey(e: View): string
  {
    "\"severity\":" + Render.Quote(Severity.String(e.severity)) + ","
  }

  /** `"operations":["op1","op2"],` */
  function OperationsKey(e: View): string
  {
    "\"operations\":[" + Text.Join(Render.QuoteAll(e.operations), ",") + "],"
  }

  /** `"context":<json.Marshal of the map>,` */
  function ContextKey(e: View): string
  {
    "\"context\":" + e.ctxJSON + ","
  }

  /** `"msg":"<text>"`, where an empty message is the string "null". */
  function MsgKey(e: View): string
  {
    "\"msg\":" + Render.Quote(if |e.msg| == 0 then "null" else e.text)
  }

  /** The JSON rendering: `null` for nil, else the five keys in a fixed order. */
  function JSONText(v: Option<View>): (r: string)
    ensures v.None? ==> r == "null"
  {
    match v
    case None => "null"
    case Some(e) => "{" + TypeKey(e) + SeverityKey(e) + OperationsKey(e) + ContextKey(e) + MsgKey(e) + "}"
  }

  /** `JSONFormat(buf, e)`. */
  method JSONFormat(v: Option<View>) returns (out: string)
    ensures out == JSONText(v)
  {
    if v.None? {
      return "null";
    }
    var e := v.value;
    out := "{";
    var key := "\"error_type\":" + Render.Quote(e.errorType) + ",";
    out := out + key;
    key := "\"severity\":" + Render.Quote(Severity.String(e.severity)) + ",";
    out := out + key;
    var ops := "";
    if |e.operations| > 0 {
      ops := Render.WriteJoined(Render.QuoteAll(e.operations));
    }
    key := "\"operations\":[" + ops + "],";
    out := out + key;
    key := "\"context\":" + e.ctxJSON + ",";
    out := out + key;
    var msg := "null";
    if |e.msg| > 0 {
      msg := e.text;
    }
    key := "\"msg\":" + Render.Quote(msg);
    out := out + key;
    out := out + "}";
  }

  /** An empty message is rendered as the JSON string "null", whatever the translation. */
  lemma JSONEmptyMessage(e: View)
    requires e.msg == ""
    ensures MsgKey(e) == "\"msg\":\"null\""
  {
  }

  /** A typed error of severity ERROR with one operation, a two-entry context and a message. */
  const JSONSample := View("not found", Severity.SeverityError, ["write"],
                           map["hello" := "world", "hi" := "there"],
                           "{\"hello\":\"world\",\"hi\":\"there\"}", "hello", "hello")

  lemma JSONSampleKeys()
    ensures TypeKey(JSONSample) == "\"error_type\":\"not found\","
    ensures SeverityKey(JSONSample) == "\"severity\":\"ERROR\","
    ensures ContextKey(JSONSample) == "\"context\":" + "{\"hello\":\"world\",\"hi\":\"there\"}" + ","
    ensures MsgKey(JSONSample) == "\"msg\":\"hello\""
  {
    JSONSampleType();
    JSONSampleSeverity();
    JSONSampleMsg();
  }

  lemma JSONSampleType()
    ensures TypeKey(JSONSample) == "\"error_type\":\"not found\","
  {
  }

  lemma JSONSampleSeverity()
    ensures SeverityKey(JSONSample) == "\"severity\":\"ERROR\","
  {
    assert Severity.String(JSONSample.severity) == "ERROR";
  }

  lemma JSONSampleMsg()
    ensures MsgKey(JSONSample) == "\"msg\":\"hello\""
  {
  }

  lemma JSONSampleOperations()
    ensures OperationsKey(JSONSample) == "\"operations\":[\"write\"],"
  {
    var q := Render.QuoteAll(JSONSample.operations);
    assert q[0] == "\"write\"";
    assert q == ["\"write\""];
  }

  /** The JSON expected for `JSONSample`: the five keys in order, the context as encoded, the message last. */
  lemma JSONExample()
    ensures JSONText(Some(JSONSample))
            == "{" + "\"error_type\":\"not found\"," + "\"severity\":\"ERROR\"," + "\"operations\":[\"write\"],"
               + ("\"context\":" + "{\"hello\":\"world\",\"hi\":\"there\"}" + ",") + "\"msg\":\"hello\"" + "}"
  {
    JSONSampleKeys();
    JSONSampleOperations();
  }

  /** One line per error: the indent, its `Error()` text, a newline. */
  function Lines(es: seq<string>): (r: string)
  {
    if |es| == 0 then ""
    else Lines(es[..|es| - 1]) + MultilineIndent + es[|es| - 1] + MultilineSeparator
  }

  /** The multi-error rendering: nothing for no errors, else the prefix line and one line per error. */
  function MultiText(es: seq<string>): (r: string)
    ensures |es| == 0 <==> r == ""
  {
    if |es| == 0 then "" else MultilinePrefix + MultilineSeparator + Lines(es)
  }

  /** What `StringMultierrFormatFunc` leaves behind: all it wrote, or what it wrote before `Error()` panicked on a nil element. */
  datatype Outcome = Written(text: string) | Panic(partial: string)

  /** The position of the first nil element, `|es|` when there is none. */
  function FirstNil(es: seq<Option<string>>): (k: nat)
    ensures k <= |es|
    ensures forall i :: 0 <= i < k ==> es[i].Some?
    ensures k < |es| ==> es[k].None?
  {
    if |es| == 0 || es[0].None? then 0 else 1 + FirstNil(es[1..])
  }

  /** The `Error()` texts of a list without nil elements. */
  function Texts(es: seq<Option<string>>): (ts: seq<string>)
    requires forall i :: 0 <= i < |es| ==> es[i].Some?
    ensures |ts| == |es| && forall i :: 0 <= i < |es| ==> ts[i] == es[i].value
  {
    seq(|es|, i requires 0 <= i < |es| => es[i].value)
  }

  /**
   * The multi-error rendering of a list that may hold nil elements: with
   * none, the text `MultiText` gives; otherwise a panic, once the prefix
   * line, the lines of the elements before the first nil one and that
   * line's indent are written.
   */
  function MultiOutcome(es: seq<Option<string>>): (r: Outcome)
    ensures r.Panic? <==> exists i :: 0 <= i < |es| && es[i].None?
    ensures (forall i :: 0 <= i < |es| ==> es[i].Some?) ==> r == Written(MultiText(Texts(es)))
  {
    var k := FirstNil(es);
    if k == |es| then
      assert es[..k] == es;
      Written(MultiText(Texts(es)))
    else Panic(MultilinePrefix + MultilineSeparator + Lines(Texts(es[..k])) + MultilineIndent)
  }

  /** `StringMultierrFormatFunc(w, es)`: each element is `Some` of its `Error()` text, or `None` for a nil `error`. */
  method StringMultierrFormatFunc(es: seq<Option<string>>) returns (r: Outcome)
    ensures r == MultiOutcome(es)
  {
    if |es| == 0 {
      return Written("");
    }
    var out := MultilinePrefix + MultilineSeparator;
    for i := 0 to |es|
      invariant forall j :: 0 <= j < i ==> es[j].Some?
      invariant out == MultilinePrefix + MultilineSeparator + Lines(Texts(es[..i]))
    {
      out := out + MultilineIndent;
      if es[i].None? {
        assert FirstNil(es) == i;
        return Panic(out);
      }
      var ts := Texts(es[..i + 1]);
      assert ts[..i] == Texts(es[..i]);
      out := out + es[i].value + MultilineSeparator;
    }
    assert es[..|es|] == es;
    return Written(out);
  }

  /** A nil element panics exactly at its own line: the lines before it are all written. */
  lemma NilPanicsAtItsLine(es: seq<Option<string>>, x: string)
    requires forall i :: 0 <= i < |es| ==> es[i].Some?
    ensures MultiOutcome(es + [None]) == Panic(MultilinePrefix + MultilineSeparator + Lines(Texts(es)) + "* ")
    ensures MultiOutcome(es + [None, Some(x)]) == MultiOutcome(es + [None])
  {
    var a := es + [None];
    var b := es + [None, Some(x)];
    assert forall i :: 0 <= i < |es| ==> a[i] == es[i] && b[i] == es[i];
    assert a[|es|] == None && b[|es|] == None;
    assert FirstNil(a) == |es|;
    assert FirstNil(b) == |es|;
    assert a[..|es|] == es;
    assert b[..|es|] == es;
  }

  /** One more error adds exactly one line at the end. */
  lemma MultiSnoc(es: seq<string>, x: string)
    requires |es| > 0
    ensures MultiText(es + [x]) == MultiText(es) + "* " + x + "\n"
  {
    assert (es + [x])[..|es|] == es;
  }

  /** The rendering expected for two plain errors. */
  lemma MultiExample()
    ensures MultiText(["hello1", "hello2"]) == "the following errors occurred:\n" + "* hello1\n" + "* hello2\n"
  {
    assert ["hello1", "hello2"][..1] == ["hello1"];
    assert ["hello1"][..0] == [];
    assert Lines(["hello1"]) == "* " + "hello1" + "\n";
    assert Lines(["hello1", "hello2"]) == "* " + "hello1" + "\n" + "* " + "hello2" + "\n";
  }

  /** An element of the list as `errors.As` sees it: an `*Error` (possibly nil), or anything else. */
  datatype Elem = AsError(view: Option<View>) | NotError

  /** One element of `messages`: the JSON of an `*Error`, else `"%v"` of the nil `*Error`, whose text is `nilText`. */
  function ElemText(x: Elem, nilText: string): string
  {
    match x
    case AsError(v) => JSONText(v)
    case NotError => Render.Quote(nilText)
  }

  function ElemTexts(es: seq<Elem>, nilText: string): (r: seq<string>)
    ensures |r| == |es| && forall i :: 0 <= i < |es| ==> r[i] == ElemText(es[i], nilText)
  {
    seq(|es|, i requires 0 <= i < |es| => ElemText(es[i], nilText))
  }

  /** The multi-error JSON: `count` is the number of elements, `messages` their JSON in order; an empty list is preceded by `null`. */
  function MultiJSONText(es: seq<Elem>, nilText: string): string
  {
    (if |es| == 0 then "null" else "") + ("{" + Render.CountKey(|es|) + Render.MessagesKey(ElemTexts(es, nilText)) + "}")
  }

  /** `JSONMultierrFuncFormat(w, es)`. */
  method JSONMultierrFuncFormat(es: seq<Elem>, nilText: string) returns (out: string)
    ensures out == MultiJSONText(es, nilText)
  {
    out := "";
    if |es| == 0 {
      out := "null";
    }
    // The object that follows, written piece by piece.
    var obj := "{";
    var count := "\"count\":" + Text.Itoa(|es|) + ",";
    obj := obj + count;
    var msgs := WriteMessages(es, nilText);
    var messages := "\"messages\":[" + msgs + "]";
    obj := obj + messages;
    obj := obj + "}";
    out := out + obj;
  }

  /** The `switch len(es)` of `JSONMultierrFuncFormat`: the elements' JSON, comma-separated. */
  method WriteMessages(es: seq<Elem>, nilText: string) returns (out: string)
    ensures out == Text.Join(ElemTexts(es, nilText), ",")
  {
    ghost var texts := ElemTexts(es, nilText);
    if |es| == 0 {
      return "";
    }
    out := WriteElem(es[0], nilText);
    assert texts[..1] == [texts[0]];
    for i := 1 to |es|
      invariant out == Text.Join(texts[..i], ",")
    {
      var next := WriteElem(es[i], nilText);
      Text.JoinSnoc(texts[..i], texts[i], ",");
      assert texts[..i + 1] == texts[..i] + [texts[i]];
      out := out + "," + next;
    }
    assert texts[..|es|] == texts;
  }

  /** `writeErrFn(e)`. */
  method WriteElem(x: Elem, nilText: string) returns (out: string)
    ensures out == ElemText(x, nilText)
  {
    match x {
      case AsError(v) => out := JSONFormat(v);
      case NotError => out := "\"" + nilText + "\"";
    }
  }

  /** For a non-empty list the object comes first and its count reads back as the number of elements. */
  lemma MultiJSONCount(es: seq<Elem>, nilText: string)
    requires |es| > 0
    ensures MultiJSONText(es, nilText) == "{" + Render.CountKey(|es|) + Render.MessagesKey(ElemTexts(es, nilText)) + "}"
    ensures Text.ParseDecimal(Text.Itoa(|es|)) == |es|
  {
    var rest := "{" + Render.CountKey(|es|) + Render.MessagesKey(ElemTexts(es, nilText)) + "}";
    assert MultiJSONText(es, nilText) == "" + rest;
    Text.ItoaRoundTrip(|es|);
  }

  /** An empty list writes `null` and then still writes the object. */
  lemma MultiJSONEmpty(nilText: string)
    ensures MultiJSONText([], nilText) == "null" + ("{" + "\"count\":0," + "\"messages\":[]" + "}")
  {
    assert Text.Itoa(0) == "0";
    assert Render.MessagesKey([]) == "\"messages\":[]";
  }
}

/**
 * format_json.go: the JSON rendering of an `Error` of error.go /
 * errors.go (id, operation, context, message) and of a list of them.
 * The context map is written by a JSON encoder; the bytes it writes are
 * part of the view (`ctxJSON`).
 */
module FormatJSON {
  import opened Wrappers
  import Text
  import Render
  import Objects
  import Ctx
  import Localization
  import ErrorRecord

  /** What the renderer reads from one `Error`. */
  datatype View = View(id: string, operation: string, ctx: map<string, string>, ctxJSON: string,
                       msg: string, text: string)

  /** The view of `e`, nil for a nil `e`; `enc` plays the JSON encoder on the context map. */
  function ViewOf(e: ErrorRecord.Error?, dflt: Option<Localization.Localizer>,
                  enc: map<string, string> -> string): (v: Option<View>)
    reads e, if e != null then {e.contextInfo} else {}
    ensures e == null <==> v == None
    ensures e != null ==>
      (v.value.id == Objects.Contents(ErrorRecord.ID(e))
       && v.value.operation == Objects.Contents(ErrorRecord.Operation(e))
       && v.value.ctx == Ctx.Entries(e.contextInfo)
       && v.value.msg == Objects.Contents(ErrorRecord.Msg(e))
       && v.value.text == ErrorRecord.TranslatedMsg(e, dflt))
  {
    if e == null then None
    else
      var ctx := Ctx.Entries(e.contextInfo);
      Some(View(Objects.Contents(ErrorRecord.ID(e)), Objects.Contents(ErrorRecord.Operation(e)),
                ctx, enc(ctx), Objects.Contents(ErrorRecord.Msg(e)), ErrorRecord.TranslatedMsg(e, dflt)))
  }

  /** `"id":"<id>",` */
  function IdKey(e: View): string
  {
    "\"id\":" + Render.Quote(e.id) + ","
  }

  /** `"operation":"<operation>",` */
  function OperationKey(e: View): string
  {
    "\"operation\":" + Render.Quote(e.operation) + ","
  }

  /** `"context":<encoded map>,`, or `"context":null,` for an empty one. */
  function ContextKey(e: View): (r: string)
    ensures |e.ctx| == 0 ==> r == "\"context\":null,"
  {
    "\"context\":" + (if |e.ctx| > 0 then e.ctxJSON else "null") + ","
  }

  /** `"msg":"<text>"`, where an empty message is the empty string. */
  function MsgKey(e: View): (r: string)
    ensures |e.msg| == 0 ==> r == "\"msg\":\"\""
  {
    "\"msg\":" + Render.Quote(if |e.msg| > 0 then e.text else "")
  }

  /** The JSON rendering: `null` for nil, else the keys `id`, `operation`, `context`, `msg` in that order. */
  function JSONText(v: Option<View>): (r: string)
    ensures v.None? ==> r == "null"
    ensures v.Some? ==> |r| >= 2 && r[0] == '{' && r[|r| - 1] == '}'
  {
    match v
    case None => "null"
    case Some(e) => "{" + IdKey(e) + OperationKey(e) + ContextKey(e) + MsgKey(e) + "}"
  }

  /** `JSONFormat(buf, e)`. */
  method JSONFormat(v: Option<View>) returns (out: string)
    ensures out == JSONText(v)
  {
    if v.None? {
      return "null";
    }
    var e := v.value;
    out := "{";
    var key := "\"id\":" + Render.Quote(e.id) + ",";
    out := out + key;
    key := "\"operation\":" + Render.Quote(e.operation) + ",";
    out := out + key;
    var ctx := "null";
    if |e.ctx| > 0 {
      ctx := e.ctxJSON;
    }
    key := "\"context\":" + ctx + ",";
    out := out + key;
    var msg := "";
    if |e.msg| > 0 {
      msg := e.text;
    }
    key := "\"msg\":" + Render.Quote(msg);
    out := out + key;
    out := out + "}";
  }

  /** The rendering of a list: `null` for none, else the count and the elements' JSON in order. */
  function MultiJSONText(es: seq<Option<View>>): (r: string)
  {
    if |es| == 0 then "null"
    else "{" + Render.CountKey(|es|) + Render.MessagesKey(Texts(es)) + "}"
  }

  /** The JSON of every element, in order. */
  function Texts(es: seq<Option<View>>): (r: seq<string>)
    ensures |r| == |es| && forall i :: 0 <= i < |es| ==> r[i] == JSONText(es[i])
  {
    seq(|es|, i requires 0 <= i < |es| => JSONText(es[i]))
  }

  /** What the source does for a list: the text written, or a panic after `partial` was written. */
  datatype Outcome = Written(text: string) | Panic(partial: string)

  /**
   * `JSONMultierrFuncFormat` as written: for an empty list it writes `null`,
   * does not return, writes the head of the object and then indexes
   * `es[0]` in the `default` branch, which panics.
   */
  function MultiJSONAsWritten(es: seq<Option<View>>): (r: Outcome)
    ensures r.Panic? <==> |es| == 0
  {
    if |es| == 0 then Panic("null" + "{" + Render.CountKey(0) + "\"messages\":[")
    else Written("{" + Render.CountKey(|es|) + Render.MessagesKey(Texts(es)) + "}")
  }

  /** The empty list reaches the out-of-range index. */
  lemma EmptyListPanics()
    ensures MultiJSONAsWritten([]) == Panic("null" + "{" + "\"count\":0," + "\"messages\":[")
  {
    assert Text.Itoa(0) == "0";
  }

  /** On every non-empty list the code as written and the corrected rendering agree. */
  lemma AsWrittenAgreesWhenNonEmpty(es: seq<Option<View>>)
    requires |es| > 0
    ensures MultiJSONAsWritten(es) == Written(MultiJSONText(es))
  {
  }

  /** The corrected rendering is `null` exactly for the empty list, and otherwise a count that reads back as the length. */
  lemma MultiJSONShape(es: seq<Option<View>>)
    ensures MultiJSONText(es) == "null" <==> |es| == 0
    ensures |es| > 0 ==> Text.ParseDecimal(Text.Itoa(|es|)) == |es|
  {
    if |es| > 0 {
      Text.ItoaRoundTrip(|es|);
      assert MultiJSONText(es)[0] == '{';
    }
  }

  /** `JSONMultierrFuncFormat(w, es)`, returning after `null` for an empty list. */
  method JSONMultierrFuncFormat(es: seq<Option<View>>) returns (out: string)
    ensures out == MultiJSONText(es)
  {
    if |es| == 0 {
      return "null";
    }
    out := "{";
    var count := "\"count\":" + Text.Itoa(|es|) + ",";
    out := out + count;
    var msgs := WriteMessages(es);
    var messages := "\"messages\":[" + msgs + "]";
    out := out + messages;
    out := out + "}";
  }

  /** The element loop: the first element's JSON, then `,` and each further one. */
  method WriteMessages(es: seq<Option<View>>) returns (out: string)
    requires |es| > 0
    ensures out == Text.Join(Texts(es), ",")
  {
    ghost var texts := Texts(es);
    out := JSONFormat(es[0]);
    assert texts[..1] == [texts[0]];
    for i := 1 to |es|
      invariant out == Text.Join(texts[..i], ",")
    {
      var next := JSONFormat(es[i]);
      Text.JoinPrefixStep(texts, i, ",");
      out := out + "," + next;
    }
    assert texts[..|es|] == texts;
  }
}

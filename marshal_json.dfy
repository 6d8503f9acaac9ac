/**
 * marshal_json.go: `MarshalJSON`. A single error is written as an object
 * with the keys `id`, `operation`, `fileLine`, `context` and `msg`; the
 * context is written by the library itself, keys sorted and every value
 * quoted; an aggregate as its count and the list of its errors' objects.
 */
module MarshalJSON {
  import opened Wrappers
  import Text
  import Render
  import Objects

  /** What `jsonFormat` reads from one `Error`: the bytes each object writes, the context, the message and its translation. */
  datatype View = View(id: string, operation: string, fileLine: string,
                       ctx: map<string, string>, msg: string, text: string)

  /** What the marshaller is given: nil, an aggregate (its `Errors()`), an `*Error`, or any other value. */
  datatype Input = Nil | Multi(errors: seq<Option<View>>) | Single(error: Option<View>) | Other

  /** `"id":"<id>",` */
  function IdKey(e: View): string
  {
    "\"id\":" + Render.Quote(e.id) + ","
  }

  /** `"operation":"<operation>",` */
  function OperationKey(e: View): string
  {
    "\"operation\":" + Render.Quote(e.operation) + ","
  }

  /** `"fileLine":"<file line>",` */
  function FileLineKey(e: View): string
  {
    "\"fileLine\":" + Render.Quote(e.fileLine) + ","
  }

  /** `{"k":"v",...}` with sorted keys for a non-empty context, `null` for an empty one. */
  ghost function ContextValue(ctx: map<string, string>): (r: string)
    ensures |ctx| == 0 <==> r == "null"
  {
    if |ctx| > 0 then "{" + Render.CtxBody(ctx, true) + "}" else "null"
  }

  /** `"context":<context>,` */
  ghost function ContextKey(e: View): string
  {
    "\"context\":" + ContextValue(e.ctx) + ","
  }

  /** `"msg":"<text>"`, where an empty message is the empty string. */
  function MsgKey(e: View): (r: string)
    ensures |e.msg| == 0 ==> r == "\"msg\":\"\""
  {
    "\"msg\":" + Render.Quote(if |e.msg| > 0 then e.text else "")
  }

  /** `jsonFormat`: `null` for nil, else the five keys in a fixed order. */
  ghost function JSONText(v: Option<View>): (r: string)
    ensures v.None? ==> r == "null"
    ensures v.Some? ==> |r| >= 2 && r[0] == '{' && r[|r| - 1] == '}'
  {
    match v
    case None => "null"
    case Some(e) => "{" + IdKey(e) + OperationKey(e) + FileLineKey(e) + ContextKey(e) + MsgKey(e) + "}"
  }

  /** The JSON of every element, in order. */
  ghost function Texts(es: seq<Option<View>>): (r: seq<string>)
    ensures |r| == |es| && forall i :: 0 <= i < |es| ==> r[i] == JSONText(es[i])
  {
    seq(|es|, i requires 0 <= i < |es| => JSONText(es[i]))
  }

  /** `jsonMultierrFormat`: `null` for no errors, else their count and their JSON in order. */
  ghost function MultiJSONText(es: seq<Option<View>>): string
  {
    if |es| == 0 then "null"
    else "{" + Render.CountKey(|es|) + Render.MessagesKey(Texts(es)) + "}"
  }

  /** `jsonMarshalTo`: what is written for each kind of input. */
  ghost function MarshalText(i: Input): string
  {
    match i
    case Nil => ""
    case Multi(es) => MultiJSONText(es)
    case Single(v) => JSONText(v)
    case Other => ""
  }

  /** `jsonFormat(buf, e)`. */
  method JSONFormat(v: Option<View>) returns (out: string)
    ensures out == JSONText(v)
  {
    if v.None? {
      return "null";
    }
    var e := v.value;
    out := "{";
    var key := "\"id\":" + Render.Quote(e.id) + ",";
    out := out + key;
    key := "\"operation\":" + Render.Quote(e.operation) + ",";
    out := out + key;
    key := "\"fileLine\":" + Render.Quote(e.fileLine) + ",";
    out := out + key;
    var ctx := WriteContextValue(e.ctx);
    key := "\"context\":" + ctx + ",";
    out := out + key;
    var msg := "";
    if |e.msg| > 0 {
      msg := e.text;
    }
    key := "\"msg\":" + Render.Quote(msg);
    out := out + key;
    out := out + "}";
  }

  /** The context branch of `jsonFormat`. */
  method WriteContextValue(ctx: map<string, string>) returns (out: string)
    ensures out == ContextValue(ctx)
  {
    if |ctx| == 0 {
      return "null";
    }
    var body := Render.WriteCtxBody(ctx, true);
    out := "{" + body + "}";
  }

  /** `jsonMultierrFormat(w, es)`. */
  method JSONMultierrFormat(es: seq<Option<View>>) returns (out: string)
    ensures out == MultiJSONText(es)
  {
    var l := |es|;
    if l == 0 {
      return "null";
    }
    out := "{";
    var count := "\"count\":" + Text.Itoa(l) + ",";
    out := out + count;
    var msgs := WriteMessages(es);
    var messages := "\"messages\":[" + msgs + "]";
    out := out + messages;
    out := out + "}";
  }

  /** The `switch l` of `jsonMultierrFormat`: the first error's JSON, then `,` and each further one. */
  method WriteMessages(es: seq<Option<View>>) returns (out: string)
    requires |es| > 0
    ensures out == Text.Join(Texts(es), ",")
  {
    ghost var texts := Texts(es);
    out := JSONFormat(es[0]);
    assert texts[..1] == [texts[0]];
    for i := 1 to |es|
      invariant out == Text.Join(texts[..i], ",")
    {
      var next := JSONFormat(es[i]);
      assert next == texts[i];
      Text.JoinPrefixStep(texts, i, ",");
      out := out + "," + next;
    }
    assert texts[..|es|] == texts;
  }

  /** `jsonMarshalTo(i, dst)` / `MarshalJSON.MarshalTo`: the text written; the error is always nil. */
  method MarshalTo(i: Input) returns (written: string, err: Option<string>)
    ensures written == MarshalText(i)
    ensures err == None
  {
    err := None;
    match i {
      case Nil => written := "";
      case Multi(es) => written := JSONMultierrFormat(es);
      case Single(v) => written := JSONFormat(v);
      case Other => written := "";
    }
  }

  /** `MarshalJSON.Marshal(i)`: an empty slice for nil, else the bytes `MarshalTo` writes; never an error. */
  method Marshal(i: Input) returns (data: Objects.Slice, err: Option<string>)
    ensures data != Objects.Nil
    ensures Objects.Contents(data) == MarshalText(i)
    ensures err == None
  {
    if i.Nil? {
      return Objects.Slice([]), None;
    }
    var written, _ := MarshalTo(i);
    return Objects.Slice(written), None;
  }

  /** Nil writes nothing and a value of another type writes nothing, while a nil `*Error` writes `null`. */
  lemma NilAndOther()
    ensures MarshalText(Nil) == "" && MarshalText(Other) == ""
    ensures MarshalText(Single(None)) == "null"
  {
  }

  /** The aggregate rendering is `null` exactly for no errors; otherwise its count reads back as their number. */
  lemma MultiJSONShape(es: seq<Option<View>>)
    ensures MultiJSONText(es) == "null" <==> |es| == 0
    ensures |es| > 0 ==> Text.ParseDecimal(Text.Itoa(|es|)) == |es|
  {
    if |es| > 0 {
      Text.ItoaRoundTrip(|es|);
      assert MultiJSONText(es)[0] == '{';
    }
  }

  /** A one-entry context is written as one quoted pair. */
  lemma ContextSingle(k: string, v: string)
    ensures ContextValue(map[k := v]) == "{" + ("\"" + k + "\"" + ":" + ("\"" + v + "\"")) + "}"
  {
    Render.CtxBodySingle(k, v, true);
    assert k in map[k := v];
  }
}

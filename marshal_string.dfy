/**
 * marshal_string.go: `MarshalString`, the marshaller behind `Error()`.
 * A single error is written as its file-line, error-type and operation
 * objects (each followed by a space when it wrote anything), its context
 * `{k:v,...} ` with sorted keys, and its message; an aggregate as the
 * numbered multi-line list. What each object writes is part of the view.
 */
module MarshalString {
  import opened Wrappers
  import Text
  import Render
  import Objects

  const Separator := " "

  /** What `stringFormat` reads from one `Error`: the bytes each object writes, the context, the translated message. */
  datatype View = View(fileLine: string, errorType: string, operation: string,
                       ctx: map<string, string>, text: string)

  /** What the marshaller is given: nil, an aggregate (its `Errors()`, nil entries included), an `*Error`, or any other value. */
  datatype Input = Nil | Multi(errors: seq<Option<View>>) | Single(error: Option<View>) | Other

  /** `writeobject`: the object's bytes, then a space only if it wrote at least one byte. */
  function ObjectText(o: string): (r: string)
    ensures |o| == 0 <==> r == ""
  {
    if |o| > 0 then o + Separator else ""
  }

  /** `writecontext`: nothing for an empty context, else `{k:v,...}` with sorted keys and a space. */
  ghost function ContextText(ctx: map<string, string>): (r: string)
    ensures |ctx| == 0 <==> r == ""
  {
    if |ctx| == 0 then "" else "{" + Render.CtxBody(ctx, false) + "}" + Separator
  }

  /** `stringFormat`: nothing for nil; else file-line, error type, operation, context and message, in that order. */
  ghost function StringText(v: Option<View>): string
  {
    match v
    case None => ""
    case Some(e) =>
      ObjectText(e.fileLine) + ObjectText(e.errorType) + ObjectText(e.operation) + ContextText(e.ctx) + e.text
  }

  /** Each element's `Error()` text, `None` for a nil element. */
  ghost function Texts(es: seq<Option<View>>): (r: seq<Option<string>>)
    ensures |r| == |es|
  {
    seq(|es|, i requires 0 <= i < |es| => Entry(es[i]))
  }

  /** One element's `Error()` text, `None` for a nil element. */
  ghost function Entry(v: Option<View>): Option<string>
  {
    if v.None? then None else Some(StringText(v))
  }

  /** `stringMarshalTo`: what is written for each kind of input. */
  ghost function MarshalText(i: Input): string
  {
    match i
    case Nil => ""
    case Multi(es) => Render.NumberedText(Texts(es))
    case Single(v) => StringText(v)
    case Other => ""
  }

  /** `writeobject(buf, o)`. */
  method WriteObject(o: string) returns (out: string)
    ensures out == ObjectText(o)
  {
    out := o;
    var n := |o|;
    if n > 0 {
      out := out + Separator;
    }
  }

  /** `writecontext(buf, ctxs)`. */
  method WriteContext(ctx: map<string, string>) returns (out: string)
    ensures out == ContextText(ctx)
  {
    if |ctx| == 0 {
      return "";
    }
    var body := Render.WriteCtxBody(ctx, false);
    out := "{" + body + "}";
    out := out + Separator;
  }

  /** `stringFormat(buf, e)`. */
  method StringFormat(v: Option<View>) returns (out: string)
    ensures out == StringText(v)
  {
    if v.None? {
      return "";
    }
    var e := v.value;
    out := WriteObject(e.fileLine);
    var next := WriteObject(e.errorType);
    out := out + next;
    next := WriteObject(e.operation);
    out := out + next;
    next := WriteContext(e.ctx);
    out := out + next;
    out := out + e.text;
  }

  /** `stringMultierrFormat(w, es)`: each non-nil element numbered by its position, rendered as its `Error()`. */
  method StringMultierrFormat(es: seq<Option<View>>) returns (out: string)
    ensures out == Render.NumberedText(Texts(es))
  {
    if |es| == 0 {
      return "";
    }
    ghost var ts := Texts(es);
    out := Render.MultilinePrefix + "\n";
    for i := 0 to |es|
      invariant out == Render.NumberedBody(ts[..i])
    {
      var line := WriteEntry(i + 1, es[i]);
      assert ts[i] == Entry(es[i]);
      Render.NumberedStep(ts, i);
      out := out + line;
    }
    assert ts[..|es|] == ts;
  }

  /** One turn of the loop: `\t#<n> <Error()>\n` for a non-nil element, nothing for a nil one. */
  method WriteEntry(n: nat, v: Option<View>) returns (line: string)
    ensures line == Render.NumberedLine(n, Entry(v))
  {
    if v.None? {
      return "";
    }
    var text := StringFormat(v);
    line := "\t#" + Text.Itoa(n) + " " + text + "\n";
  }

  /** `stringMarshalTo(i, dst)` / `MarshalString.MarshalTo`: the text written; the error is always nil. */
  method MarshalTo(i: Input) returns (written: string, err: Option<string>)
    ensures written == MarshalText(i)
    ensures err == None
  {
    err := None;
    match i {
      case Nil => written := "";
      case Multi(es) => written := StringMultierrFormat(es);
      case Single(v) => written := StringFormat(v);
      case Other => written := "";
    }
  }

  /** `MarshalString.Marshal(i)`: an empty slice for nil, else the bytes `MarshalTo` writes; never an error. */
  method Marshal(i: Input) returns (data: Objects.Slice, err: Option<string>)
    ensures data != Objects.Nil
    ensures Objects.Contents(data) == MarshalText(i)
    ensures err == None
  {
    if i.Nil? {
      return Objects.Slice([]), None;
    }
    var written, _ := MarshalTo(i);
    return Objects.Slice(written), None;
  }

  /** A nil `*Error` and a value of another type both write nothing. */
  lemma NothingForNilOrOther()
    ensures MarshalText(Single(None)) == "" && MarshalText(Other) == "" && MarshalText(Nil) == ""
  {
  }

  /** An aggregate with no errors writes nothing either. */
  lemma NothingForEmptyAggregate()
    ensures MarshalText(Multi([])) == ""
  {
  }

  /** An error with only a message (no file-line, type, operation or context) renders as the message. */
  lemma MessageOnly(text: string)
    ensures StringText(Some(View("", "", "", map[], text))) == text
  {
  }

  /**
   * An operation, a two-entry context and a message, as in
   * `[write] {hello:world,my:name} hello`.
   */
  lemma OperationContextExample(op: string, k1: string, v1: string, k2: string, v2: string, msg: string)
    requires op != "" && Text.Less(k1, k2)
    ensures StringText(Some(View("", "", op, map[k1 := v1, k2 := v2], msg)))
            == op + " " + ("{" + (Render.Pair(k1, v1, false) + "," + Render.Pair(k2, v2, false)) + "}" + " ") + msg
  {
    var e := View("", "", op, map[k1 := v1, k2 := v2], msg);
    ContextTwo(k1, v1, k2, v2);
    var c := ContextText(e.ctx);
    assert ObjectText("") == "";
    assert ObjectText(op) == op + " ";
    assert StringText(Some(e)) == "" + "" + (op + " ") + c + msg;
  }

  /** A two-entry context is written in key order, then a space. */
  lemma ContextTwo(k1: string, v1: string, k2: string, v2: string)
    requires Text.Less(k1, k2)
    ensures ContextText(map[k1 := v1, k2 := v2])
            == "{" + (Render.Pair(k1, v1, false) + "," + Render.Pair(k2, v2, false)) + "}" + " "
  {
    Render.CtxBodyTwo(k1, v1, k2, v2, false);
    assert k1 in map[k1 := v1, k2 := v2];
  }

  /** An aggregate of one error is the prefix line and that error as number 1. */
  lemma SingleElementAggregate(v: View)
    ensures MarshalText(Multi([Some(v)])) == Render.MultilinePrefix + "\n" + ("\t#1 " + StringText(Some(v)) + "\n")
  {
    var ts := Texts([Some(v)]);
    assert ts == [Some(StringText(Some(v)))];
    assert ts[..0] == [];
    assert Render.NumberedBody(ts) == Render.NumberedBody(ts[..0]) + Render.NumberedLine(1, ts[0]);
    assert Text.Itoa(1) == "1";
    assert Render.NumberedLine(1, ts[0]) == "\t#1 " + StringText(Some(v)) + "\n";
  }
}

/**
 * format_string.go: the default string rendering of an `Error` of
 * error.go / errors.go (operation, context, message) and the numbered
 * rendering of a list of them.
 */
module FormatString {
  import opened Wrappers
  import Text
  import Render
  import Objects
  import Ctx
  import Localization
  import ErrorRecord

  const OpDelimiter := ": "
  const MsgSeparator := " -- "

  /** What the renderer reads from one `Error`: the bytes of its operation and message, its context, and the translated message. */
  datatype View = View(operation: string, ctx: map<string, string>, msg: string, text: string)

  /** The view of `e`, nil for a nil `e`; `dflt` is `DefaultLocalizer`. */
  function ViewOf(e: ErrorRecord.Error?, dflt: Option<Localization.Localizer>): (v: Option<View>)
    reads e, if e != null then {e.contextInfo} else {}
    ensures e == null <==> v == None
    ensures e != null ==>
      (v.value.operation == Objects.Contents(ErrorRecord.Operation(e))
       && v.value.ctx == Ctx.Entries(e.contextInfo)
       && v.value.msg == Objects.Contents(ErrorRecord.Msg(e))
       && v.value.text == ErrorRecord.TranslatedMsg(e, dflt))
  {
    if e == null then None
    else
      Some(View(Objects.Contents(ErrorRecord.Operation(e)), Ctx.Entries(e.contextInfo),
                Objects.Contents(ErrorRecord.Msg(e)), ErrorRecord.TranslatedMsg(e, dflt)))
  }

  /** Whether an operation or a context precedes the message. */
  predicate HasSection(e: View)
  {
    |e.operation| > 0 || |e.ctx| > 0
  }

  /** `op: ` when there is an operation. */
  function OpSection(e: View): string
  {
    if |e.operation| > 0 then e.operation + OpDelimiter else ""
  }

  /** `{k:v,...}` with sorted keys when there is context. */
  ghost function CtxSection(e: View): string
  {
    if |e.ctx| > 0 then "{" + Render.CtxBody(e.ctx, false) + "}" else ""
  }

  /** The separator: only between a section and a non-empty message. */
  function Separator(e: View): string
  {
    if HasSection(e) && |e.msg| > 0 then MsgSeparator else ""
  }

  /** The string rendering: nothing for nil; else the operation, the context, the separator, the message. */
  ghost function StringText(v: Option<View>): string
  {
    match v
    case None => ""
    case Some(e) => OpSection(e) + CtxSection(e) + Separator(e) + e.text
  }

  /** `StringFormat(buf, e)`. */
  method StringFormat(v: Option<View>) returns (out: string)
    ensures out == StringText(v)
  {
    if v.None? {
      return "";
    }
    var e := v.value;
    var writeDelim;
    out, writeDelim := WriteSections(e);
    if writeDelim && |e.msg| > 0 {
      out := out + MsgSeparator;
    }
    out := out + e.text;
  }

  /** The operation and context writes of `StringFormat`; `writeDelim` records whether any was made. */
  method WriteSections(e: View) returns (out: string, writeDelim: bool)
    ensures out == OpSection(e) + CtxSection(e)
    ensures writeDelim == HasSection(e)
  {
    writeDelim := false;
    out := "";
    if |e.operation| > 0 {
      out := e.operation + OpDelimiter;
      writeDelim := true;
    }
    if |e.ctx| > 0 {
      var sec := WriteContextSection(e);
      out := out + sec;
      writeDelim := true;
    }
  }

  /** Writes `{`, the sorted context entries and `}`. */
  method WriteContextSection(e: View) returns (sec: string)
    requires |e.ctx| > 0
    ensures sec == CtxSection(e)
  {
    var body := Render.WriteCtxBody(e.ctx, false);
    sec := "{" + body + "}";
  }

  /** The message is always the last thing written. */
  lemma MessageLast(e: View)
    ensures var s := StringText(Some(e)); |s| >= |e.text| && s[|s| - |e.text|..] == e.text
  {
    var h := OpSection(e) + CtxSection(e) + Separator(e);
    assert StringText(Some(e)) == h + e.text;
  }

  /** Without an operation and a context the rendering is the message alone. */
  lemma MessageOnly(e: View)
    requires !HasSection(e)
    ensures StringText(Some(e)) == e.text
  {
  }

  /** With an empty message no separator is written. */
  lemma NoSeparatorWithoutMessage(e: View)
    requires |e.msg| == 0
    ensures StringText(Some(e)) == OpSection(e) + CtxSection(e) + e.text
  {
  }

  /** With a section and a non-empty message the separator stands right before the message. */
  lemma SeparatorBeforeMessage(e: View)
    requires HasSection(e) && |e.msg| > 0
    ensures StringText(Some(e)) == OpSection(e) + CtxSection(e) + MsgSeparator + e.text
  {
  }

  /**
   * An operation, a one-entry context and a message, untranslated, as in
   * `write: {hello:world} -- connection error`.
   */
  lemma OperationContextExample(op: string, k: string, v: string, msg: string)
    requires op != "" && msg != ""
    ensures StringText(Some(View(op, map[k := v], msg, msg)))
            == op + ": " + ("{" + Render.Pair(k, v, false) + "}") + " -- " + msg
  {
    Render.CtxBodySingle(k, v, false);
    assert k in map[k := v];
  }

  /** `StringMultierrFormatFunc(w, es)`, each element given as its `Error()` text, `None` for a nil element. */
  method StringMultierrFormatFunc(es: seq<Option<string>>) returns (out: string)
    ensures out == Render.NumberedText(es)
  {
    out := Render.WriteNumbered(es);
  }
}

/**
 * The methods error.go and errors.go define on their `Error` record:
 * `New`, `WithOptions` (copy, then run the options on the copy),
 * `Marshal` (explicit marshaller, else the default, else an error),
 * `Error()` (always the string marshaller), and `Is` / `As` / `Unwrap`.
 * `DefaultLocalizer` and `DefaultMarshaller` are globals of the source;
 * here they are parameters.
 */
module ObjectError {
  import opened Wrappers
  import Objects
  import Ctx
  import Localization
  import ErrorRecord
  import Setters
  import MarshalString
  import MarshalJSON

  /** The message of `ErrUnknownMarshaller`. */
  const UnknownMarshallerMsg := "marshaller not found"

  /** The two marshallers the package defines. */
  datatype Marshaller = StringMarshaller | JSONMarshaller

  /** The fields of `New(msg)` before its options run: only the message is set. */
  function Initial(msg: string): (f: ErrorRecord.Fields)
    ensures f.msg == Some(Objects.NewObjectFromString(msg))
    ensures f == ErrorRecord.ZeroFields().(msg := f.msg)
  {
    ErrorRecord.ZeroFields().(msg := Some(Objects.NewObjectFromString(msg)))
  }

  /** errors.go `New(msg, ops...)`: the message first, then the options in order. */
  method New(msg: string, ops: seq<Setters.Setter>) returns (e: ErrorRecord.Error)
    modifies Setters.Installed(ops)
    ensures fresh(e)
    ensures Setters.Attrs(e.Snapshot()) == Setters.Attrs(Setters.ApplyAll(Initial(msg), ops))
    ensures Setters.NoAppend(ops) ==> e.Snapshot() == Setters.ApplyAll(Initial(msg), ops)
    ensures Setters.NoReplace(ops) ==> Ctx.Entries(e.contextInfo) == Setters.Appends(map[], ops)
    ensures var st := Setters.CtxRun(Setters.CtxStart(null, old(Setters.Store(Setters.Installed(ops)))), ops);
            Setters.Tracks(e, st) && (st.ref.Created? ==> fresh(e.contextInfo))
  {
    e := new ErrorRecord.Error(Initial(msg));
    assert Setters.MapOf(e) + Setters.Installed(ops) == Setters.Installed(ops);
    Setters.ApplyEach(e, ops);
  }

  /**
   * `WithOptions(ops...)`: nil for a nil receiver; otherwise a new `Error`
   * holding a shallow copy of the receiver, with the options applied to
   * the copy. The receiver's fields stay as they were, but the context
   * map is shared, so insertions into it are seen through the receiver.
   */
  method WithOptions(e: ErrorRecord.Error?, ops: seq<Setters.Setter>) returns (r: ErrorRecord.Error?)
    modifies Setters.MapOf(e), Setters.Installed(ops)
    ensures e == null <==> r == null
    ensures e != null ==> fresh(r) && !Is(r, ErrorTarget(e))
    ensures e != null ==> e.Snapshot() == old(e.Snapshot())
    ensures e != null ==> Setters.Attrs(r.Snapshot()) == Setters.Attrs(Setters.ApplyAll(e.Snapshot(), ops))
    ensures e != null && Setters.NoAppend(ops) ==> r.Snapshot() == Setters.ApplyAll(e.Snapshot(), ops)
    ensures e != null && Setters.NoReplace(ops) ==>
              Ctx.Entries(r.contextInfo) == Setters.Appends(old(Ctx.Entries(e.contextInfo)), ops)
    ensures e != null && Setters.NoReplace(ops) && e.contextInfo != null ==>
              r.contextInfo == e.contextInfo
              && e.contextInfo.entries == Setters.Appends(old(e.contextInfo.entries), ops)
    ensures e != null ==>
              var st := Setters.CtxRun(old(Setters.CtxBefore(e, ops)), ops);
              Setters.Tracks(r, st) && (st.ref.Created? ==> fresh(r.contextInfo))
  {
    if e == null {
      return null;
    }
    ghost var before := Setters.CtxBefore(e, ops);
    r := new ErrorRecord.Error(e.Snapshot());
    assert Setters.CtxBefore(r, ops) == before;
    Setters.ApplyEach(r, ops);
  }

  /** The string marshaller's view of `e`: no file-line and no error type, the operation, the context, the translated message. */
  function StringView(e: ErrorRecord.Error?, dflt: Option<Localization.Localizer>): (v: Option<MarshalString.View>)
    reads e, if e != null then {e.contextInfo} else {}
    ensures e == null <==> v == None
    ensures e != null ==>
      v.value.operation == Objects.Contents(ErrorRecord.Operation(e))
      && v.value.ctx == Ctx.Entries(e.contextInfo)
      && v.value.text == ErrorRecord.TranslatedMsg(e, dflt)
  {
    if e == null then None
    else Some(MarshalString.View("", "", Objects.Contents(ErrorRecord.Operation(e)),
                                 Ctx.Entries(e.contextInfo), ErrorRecord.TranslatedMsg(e, dflt)))
  }

  /** The JSON marshaller's view of `e`: its id, operation, context, message and translated message; no file-line. */
  function JSONView(e: ErrorRecord.Error?, dflt: Option<Localization.Localizer>): (v: Option<MarshalJSON.View>)
    reads e, if e != null then {e.contextInfo} else {}
    ensures e == null <==> v == None
    ensures e != null ==>
      v.value.id == Objects.Contents(ErrorRecord.ID(e))
      && v.value.operation == Objects.Contents(ErrorRecord.Operation(e))
      && v.value.ctx == Ctx.Entries(e.contextInfo)
      && v.value.msg == Objects.Contents(ErrorRecord.Msg(e))
      && v.value.text == ErrorRecord.TranslatedMsg(e, dflt)
  {
    if e == null then None
    else Some(MarshalJSON.View(Objects.Contents(ErrorRecord.ID(e)), Objects.Contents(ErrorRecord.Operation(e)), "",
                               Ctx.Entries(e.contextInfo), Objects.Contents(ErrorRecord.Msg(e)),
                               ErrorRecord.TranslatedMsg(e, dflt)))
  }

  /** The marshaller `Marshal` uses: the first explicit one, else the default, else none. */
  function Selected(fn: seq<Marshaller>, dflt: Option<Marshaller>): (m: Option<Marshaller>)
    ensures |fn| > 0 ==> m == Some(fn[0])
    ensures |fn| == 0 ==> m == dflt
  {
    if |fn| > 0 then Some(fn[0]) else dflt
  }

  /** The bytes marshaller `m` produces for `e` (a nil `*Error` is a non-nil interface value). */
  ghost function MarshalledText(m: Marshaller, e: ErrorRecord.Error?, loc: Option<Localization.Localizer>): string
    reads e, if e != null then {e.contextInfo} else {}
  {
    match m
    case StringMarshaller => MarshalString.MarshalText(MarshalString.Single(StringView(e, loc)))
    case JSONMarshaller => MarshalJSON.MarshalText(MarshalJSON.Single(JSONView(e, loc)))
  }

  /**
   * `Marshal(fn...)`: the selected marshaller's bytes and error; with no
   * marshaller at all, a nil slice and `ErrUnknownMarshaller`.
   */
  method Marshal(e: ErrorRecord.Error?, fn: seq<Marshaller>, dflt: Option<Marshaller>,
                 loc: Option<Localization.Localizer>) returns (data: Objects.Slice, err: Option<string>)
    ensures Selected(fn, dflt).None? ==> data == Objects.Nil && err == Some(UnknownMarshallerMsg)
    ensures Selected(fn, dflt).Some? ==>
              data != Objects.Nil && err == None
              && Objects.Contents(data) == MarshalledText(Selected(fn, dflt).value, e, loc)
  {
    var m := Selected(fn, dflt);
    if m.None? {
      return Objects.Nil, Some(UnknownMarshallerMsg);
    }
    match m.value {
      case StringMarshaller =>
        data, err := MarshalString.Marshal(MarshalString.Single(StringView(e, loc)));
      case JSONMarshaller =>
        data, err := MarshalJSON.Marshal(MarshalJSON.Single(JSONView(e, loc)));
    }
  }

  /** `Error()`: the string marshaller's rendering, whatever the default marshaller is; nil gives "". */
  method Error(e: ErrorRecord.Error?, loc: Option<Localization.Localizer>) returns (s: string)
    ensures s == MarshalString.StringText(StringView(e, loc))
    ensures e == null ==> s == ""
  {
    var data, _ := MarshalString.Marshal(MarshalString.Single(StringView(e, loc)));
    s := Objects.Contents(data);
  }

  /** `Error()` and `Marshal(&MarshalString{})` yield the same bytes, and so does `Marshal()` whenever the string marshaller is the default. */
  lemma ErrorIsStringMarshal(e: ErrorRecord.Error?, loc: Option<Localization.Localizer>)
    ensures MarshalledText(StringMarshaller, e, loc) == MarshalString.StringText(StringView(e, loc))
    ensures MarshalledText(Selected([], Some(StringMarshaller)).value, e, loc)
            == MarshalString.StringText(StringView(e, loc))
  {
  }

  /** A target of `Is`: an `*Error` (possibly nil), or an error of another type. */
  datatype ErrorTarget = ErrorTarget(ptr: ErrorRecord.Error?) | OtherError

  /** `Is(target)`: pointer identity against an `*Error`; false for every other type. */
  predicate Is(e: ErrorRecord.Error?, target: ErrorTarget)
  {
    match target
    case ErrorTarget(p) => p == e
    case OtherError => false
  }

  /** A `**Error` variable `As` can fill. */
  class ErrorRef {
    var value: ErrorRecord.Error?

    constructor ()
      ensures value == null
    {
      value := null;
    }
  }

  /** A target of `As`: a `**Error`, or a value of another type. */
  datatype AsTarget = ErrorPtr(cell: ErrorRef) | OtherTarget

  /** The variable a target names, if any. */
  function Cells(t: AsTarget): set<ErrorRef>
  {
    if t.ErrorPtr? then {t.cell} else {}
  }

  /** `As(target)`: a `**Error` receives the receiver and the answer is true; anything else is false and untouched. */
  method As(e: ErrorRecord.Error?, target: AsTarget) returns (ok: bool)
    modifies Cells(target)
    ensures ok <==> target.ErrorPtr?
    ensures ok ==> target.cell.value == e
  {
    match target {
      case ErrorPtr(cell) =>
        cell.value := e;
        ok := true;
      case OtherTarget =>
        ok := false;
    }
  }

  /** `Unwrap()`: an `Error` wraps nothing. */
  function Unwrap(e: ErrorRecord.Error?): (r: Option<ErrorRecord.Error>)
    ensures r == None
  {
    None
  }

  /** `Is` holds for the error itself and for no other `*Error`, nil included when the receiver is not nil. */
  lemma IsIdentity(e: ErrorRecord.Error?, x: ErrorRecord.Error?)
    ensures Is(e, ErrorTarget(e))
    ensures Is(e, ErrorTarget(x)) <==> x == e
    ensures !Is(e, OtherError)
  {
  }

  /** `New` with no options holds the message and nothing else; its string rendering is the message alone when not translated. */
  method NewPlain(msg: string) returns (e: ErrorRecord.Error)
    ensures fresh(e)
    ensures e.Snapshot() == Initial(msg)
    ensures MarshalString.StringText(StringView(e, None)) == msg
  {
    e := New(msg, []);
    assert Setters.ApplyAll(Initial(msg), []) == Initial(msg);
    MarshalString.MessageOnly(msg);
    assert StringView(e, None) == Some(MarshalString.View("", "", "", map[], msg));
  }
}

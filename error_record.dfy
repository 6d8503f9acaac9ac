/**
 * The `Error` record of error.go / errors.go: id, message and operation
 * held as `Objecter` values (each may be a nil interface), a translate
 * context, a localizer and a shared context map, with the nil-safe
 * getters both files define.
 */
module ErrorRecord {
  import opened Wrappers
  import Objects
  import Ctx
  import Localization

  /** A value snapshot of every field of an `Error`; `None` is a nil interface. */
  datatype Fields = Fields(
    id: Option<Objects.Object>,
    msg: Option<Objects.Object>,
    operation: Option<Objects.Object>,
    translateContext: Option<Localization.TranslateContext>,
    localizer: Option<Localization.Localizer>,
    contextInfo: Ctx.CtxMap?)

  /** The zero `Error{}`: every field nil. */
  function ZeroFields(): (f: Fields)
    ensures f.id == None && f.msg == None && f.operation == None
    ensures f.translateContext == None && f.localizer == None && f.contextInfo == null
  {
    Fields(None, None, None, None, None, null)
  }

  class Error {
    var id: Option<Objects.Object>
    var msg: Option<Objects.Object>
    var operation: Option<Objects.Object>
    var translateContext: Option<Localization.TranslateContext>
    var localizer: Option<Localization.Localizer>
    var contextInfo: Ctx.CtxMap?

    /** All fields at once. */
    function Snapshot(): Fields
      reads this
    {
      Fields(id, msg, operation, translateContext, localizer, contextInfo)
    }

    /** `new(Error)` followed by writing `f` into it (also `*newerr = *e`). */
    constructor (f: Fields)
      ensures Snapshot() == f
    {
      id := f.id;
      msg := f.msg;
      operation := f.operation;
      translateContext := f.translateContext;
      localizer := f.localizer;
      contextInfo := f.contextInfo;
    }
  }

  /** The object a nil-safe getter returns for a field: the stored one, or `NewObjectEmpty()` when nil. */
  function Field(o: Option<Objects.Object>): (r: Objects.Object)
    ensures o.None? ==> r == Objects.NewObjectEmpty()
    ensures o.Some? ==> r == o.value
  {
    match o
    case None => Objects.NewObjectEmpty()
    case Some(v) => v
  }

  /** `ID()`: never a nil interface; the empty object for a nil receiver or a nil field. */
  function ID(e: Error?): (r: Objects.Object)
    reads e
    ensures e == null || e.id.None? ==> r == Objects.NewObjectEmpty()
    ensures e != null && e.id.Some? ==> r == e.id.value
  {
    if e == null then Objects.NewObjectEmpty() else Field(e.id)
  }

  /** `Msg()`: never a nil interface; the empty object for a nil receiver or a nil field. */
  function Msg(e: Error?): (r: Objects.Object)
    reads e
    ensures e == null || e.msg.None? ==> r == Objects.NewObjectEmpty()
    ensures e != null && e.msg.Some? ==> r == e.msg.value
  {
    if e == null then Objects.NewObjectEmpty() else Field(e.msg)
  }

  /** `Operation()`: never a nil interface; the empty object for a nil receiver or a nil field. */
  function Operation(e: Error?): (r: Objects.Object)
    reads e
    ensures e == null || e.operation.None? ==> r == Objects.NewObjectEmpty()
    ensures e != null && e.operation.Some? ==> r == e.operation.value
  {
    if e == null then Objects.NewObjectEmpty() else Field(e.operation)
  }

  /** `ContextInfo()`: the stored map reference (the source dereferences the receiver, so it must not be nil). */
  function ContextInfo(e: Error): (r: Ctx.CtxMap?)
    reads e
    ensures r == e.Snapshot().contextInfo
  {
    e.contextInfo
  }

  /** `TranslateContext()`: the stored translate context. */
  function TranslateContext(e: Error): (r: Option<Localization.TranslateContext>)
    reads e
    ensures r == e.Snapshot().translateContext
  {
    e.translateContext
  }

  /**
   * The message as `WriteTranslateMsg` writes it for this record: the
   * translation decision of translate.go applied to the message's and the
   * id's bytes.
   */
  function TranslatedMsg(e: Error, dflt: Option<Localization.Localizer>): (r: string)
    reads e
    ensures |Objects.Contents(Msg(e))| == 0 ==> r == []
  {
    Localization.Translate(Objects.Contents(Msg(e)), Objects.Contents(ID(e)), e.localizer, dflt, e.translateContext)
  }
}

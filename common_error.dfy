/**
 * The `Error` record used by the setters in options_common.go,
 * error_operation.go, context_info.go, error_type.go and translate.go and
 * by the renderers in format.go: string fields, a severity, a list of
 * operations that may be nil, a shared context map, an optional
 * formatting function, a localizer and a translate context.
 */
module CommonError {
  import opened Wrappers
  import Ctx
  import Localization
  import Severity

  /** Names a user-supplied `FormatFn`; the function itself is not modelled. */
  type FormatFnId = nat

  /** A value snapshot of every field of an `Error`. */
  datatype Fields = Fields(
    id: string,
    msg: string,
    severity: Severity.Severity,
    errorType: string,
    operations: Option<seq<string>>,
    contextInfo: Ctx.CtxMap?,
    formatFn: Option<FormatFnId>,
    localizer: Option<Localization.Localizer>,
    translateContext: Option<Localization.TranslateContext>)

  /** The zero `Error{}`: empty strings, unknown severity, every reference nil. */
  function ZeroFields(): (f: Fields)
    ensures f.id == [] && f.msg == [] && f.errorType == []
    ensures f.severity == Severity.SeverityUnknown
    ensures f.operations == None && f.contextInfo == null && f.formatFn == None
    ensures f.localizer == None && f.translateContext == None
  {
    Fields([], [], Severity.SeverityUnknown, [], None, null, None, None, None)
  }

  class Error {
    var id: string
    var msg: string
    var severity: Severity.Severity
    var errorType: string
    var operations: Option<seq<string>>
    var contextInfo: Ctx.CtxMap?
    var formatFn: Option<FormatFnId>
    var localizer: Option<Localization.Localizer>
    var translateContext: Option<Localization.TranslateContext>

    /** All fields at once. */
    function Snapshot(): Fields
      reads this
    {
      Fields(id, msg, severity, errorType, operations, contextInfo, formatFn, localizer, translateContext)
    }

    /** `&Error{}` followed by writing `f` into it. */
    constructor (f: Fields)
      ensures Snapshot() == f
    {
      id := f.id;
      msg := f.msg;
      severity := f.severity;
      errorType := f.errorType;
      operations := f.operations;
      contextInfo := f.contextInfo;
      formatFn := f.formatFn;
      localizer := f.localizer;
      translateContext := f.translateContext;
    }
  }
}

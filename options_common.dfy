/**
 * options_common.go: the `Options` closures that each write a single
 * field of an `Error`, and do nothing on a nil target.
 */
module OptionsCommon {
  import opened Wrappers
  import Severity
  import CommonError

  /** One option value: which field it writes and with what. */
  datatype Setter =
    | SetFormatFn(fn: CommonError.FormatFnId)
    | SetMsg(msg: string)
    | SetSeverity(severity: Severity.Severity)
    | SetID(id: string)
    | SetErrorType(etype: string)

  /** The field a setter writes, by name. */
  function Target(s: Setter): string
  {
    match s
    case SetFormatFn(_) => "formatFn"
    case SetMsg(_) => "msg"
    case SetSeverity(_) => "severity"
    case SetID(_) => "id"
    case SetErrorType(_) => "errorType"
  }

  /** The record after the setter ran: its own field holds the new value, every other field is as before. */
  function ApplyOption(f: CommonError.Fields, s: Setter): (r: CommonError.Fields)
    ensures r.formatFn == (if s.SetFormatFn? then Some(s.fn) else f.formatFn)
    ensures r.msg == (if s.SetMsg? then s.msg else f.msg)
    ensures r.severity == (if s.SetSeverity? then s.severity else f.severity)
    ensures r.id == (if s.SetID? then s.id else f.id)
    ensures r.errorType == (if s.SetErrorType? then s.etype else f.errorType)
    ensures r.operations == f.operations && r.contextInfo == f.contextInfo
    ensures r.localizer == f.localizer && r.translateContext == f.translateContext
  {
    match s
    case SetFormatFn(fn) => f.(formatFn := Some(fn))
    case SetMsg(m) => f.(msg := m)
    case SetSeverity(v) => f.(severity := v)
    case SetID(i) => f.(id := i)
    case SetErrorType(t) => f.(errorType := t)
  }

  /** Runs the option on `e`; a nil `e` is left alone. */
  method Apply(e: CommonError.Error?, s: Setter)
    modifies e
    ensures e != null ==> e.Snapshot() == ApplyOption(old(e.Snapshot()), s)
  {
    if e == null {
      return;
    }
    match s
    case SetFormatFn(fn) => e.formatFn := Some(fn);
    case SetMsg(m) => e.msg := m;
    case SetSeverity(v) => e.severity := v;
    case SetID(i) => e.id := i;
    case SetErrorType(t) => e.errorType := t;
  }

  /** Two setters of the same field: the later value is what remains. */
  lemma LastWins(f: CommonError.Fields, a: Setter, b: Setter)
    requires Target(a) == Target(b)
    ensures ApplyOption(ApplyOption(f, a), b) == ApplyOption(f, b)
  {
  }

  /** Setters of different fields may run in either order. */
  lemma DifferentFieldsCommute(f: CommonError.Fields, a: Setter, b: Setter)
    requires Target(a) != Target(b)
    ensures ApplyOption(ApplyOption(f, a), b) == ApplyOption(ApplyOption(f, b), a)
  {
  }
}

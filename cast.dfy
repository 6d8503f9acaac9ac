/**
 * cast.go: copying an `*Error` or an aggregate into the plain output
 * structures `ErrorOut` and `MultierrorOut`, and turning any `error` into
 * an `*Error`. The record is the one of error.go and the aggregate the
 * len/last one of multierror.go.go.
 */
module CastOut {
  import opened Wrappers
  import Objects
  import Ctx
  import Localization
  import ErrorRecord
  import ObjectError
  import LenLastAggregate

  /** The four fields of an `ErrorOut`, as a value. */
  datatype OutFields = OutFields(message: string, operation: string, id: string, context: Ctx.CtxMap?)

  /** The fields of a zero `ErrorOut`. */
  const ZeroOut := OutFields("", "", "", null)

  class ErrorOut {
    var message: string
    var operation: string
    var id: string
    var context: Ctx.CtxMap?

    /** `var out ErrorOut`. */
    constructor ()
      ensures Fields() == ZeroOut
    {
      message, operation, id, context := "", "", "", null;
    }

    function Fields(): OutFields
      reads this
    {
      OutFields(message, operation, id, context)
    }

    /** `(*ErrorOut).Cast(e)`: an `*Error` fills every field; any other value leaves the output as it was. */
    method Cast(v: Value, loc: Option<Localization.Localizer>)
      requires v.Record? ==> v.p != null
      modifies this
      ensures v.Record? ==> Fields() == Copied(v.p, loc)
      ensures !v.Record? ==> unchanged(this)
    {
      if v.Record? {
        var x := v.p;
        id := Objects.String(ErrorRecord.ID(x));
        context := ErrorRecord.ContextInfo(x);
        message := ErrorRecord.TranslatedMsg(x, loc);
        operation := Objects.String(ErrorRecord.Operation(x));
      }
    }
  }

  /** What `(*ErrorOut).Cast` copies out of a record: the translated message, the operation and id as text, the very context map. */
  function Copied(x: ErrorRecord.Error, loc: Option<Localization.Localizer>): (f: OutFields)
    reads x
    ensures f.id == Objects.Contents(ErrorRecord.ID(x))
    ensures f.operation == Objects.Contents(ErrorRecord.Operation(x))
    ensures f.context == x.Snapshot().contextInfo
    ensures f.message == ErrorRecord.TranslatedMsg(x, loc)
  {
    OutFields(ErrorRecord.TranslatedMsg(x, loc), Objects.String(ErrorRecord.Operation(x)),
              Objects.String(ErrorRecord.ID(x)), ErrorRecord.ContextInfo(x))
  }

  /** The value given to a `Cast` method: an `*Error`, a len/last aggregate, or anything else. */
  datatype Value = Record(p: ErrorRecord.Error?) | Aggregate(m: LenLastAggregate.MultiError) | Other

  class MultierrorOut {
    var count: int
    var errors: seq<ErrorOut>
    var title: string

    /** `var out MultierrorOut`. */
    constructor ()
      ensures count == 0 && errors == [] && title == ""
    {
      count, errors, title := 0, [], "";
    }

    /**
     * `(*MultierrorOut).Cast(e)`: an aggregate sets `Count` to its length
     * and `Errors` to one new `ErrorOut` per entry, in order, each filled by
     * the entry's `CastTo` (left zero for a nil entry); `Title` is kept. Any
     * other value leaves the output as it was.
     */
    method Cast(v: Value, loc: Option<Localization.Localizer>)
      requires v.Aggregate? ==> LenLastAggregate.Consistent(v.m)
      modifies this
      ensures title == old(title)
      ensures !v.Aggregate? ==> unchanged(this)
      ensures v.Aggregate? ==> count == LenLastAggregate.Len(v.m) && |errors| == |v.m.errors|
      ensures v.Aggregate? ==> forall k :: 0 <= k < |errors| ==> fresh(errors[k])
      ensures v.Aggregate? ==> forall k, l :: 0 <= k < l < |errors| ==> errors[k] != errors[l]
      ensures v.Aggregate? ==> forall k :: 0 <= k < |errors| ==> errors[k].Fields() == EntryOut(v.m.errors[k], loc)
    {
      if v.Aggregate? {
        var es := LenLastAggregate.Errors(Some(v.m));
        var outs: seq<ErrorOut> := [];
        for i := 0 to |es|
          invariant unchanged(this)
          invariant |outs| == i
          invariant forall k :: 0 <= k < i ==> fresh(outs[k])
          invariant forall k, l :: 0 <= k < l < i ==> outs[k] != outs[l]
          invariant forall k :: 0 <= k < i ==> outs[k].Fields() == EntryOut(es[k], loc)
        {
          var out := new ErrorOut();
          // `e.CastTo(&out)`: the caster is never nil, the entry may be.
          if es[i] != null {
            out.Cast(Record(es[i]), loc);
          }
          outs := outs + [out];
        }
        count := LenLastAggregate.Len(v.m);
        errors := outs;
      }
    }
  }

  /** What one aggregate entry becomes: zero for a nil pointer, else the copied record. */
  function EntryOut(p: ErrorRecord.Error?, loc: Option<Localization.Localizer>): (f: OutFields)
    reads p
    ensures p == null ==> f == ZeroOut
  {
    if p == null then ZeroOut else Copied(p, loc)
  }

  /** The `Caster` given to `CastTo`: one of the two output structures, or nil. */
  datatype Caster = ErrorCaster(eo: ErrorOut) | MultiCaster(mo: MultierrorOut) | NilCaster

  function Target(c: Caster): set<object>
  {
    match c
    case ErrorCaster(eo) => {eo}
    case MultiCaster(mo) => {mo}
    case NilCaster => {}
  }

  /** `(*Error).CastTo(c)`: nothing for a nil receiver or caster, otherwise `c.Cast(e)`. */
  method RecordCastTo(e: ErrorRecord.Error?, c: Caster, loc: Option<Localization.Localizer>)
    modifies Target(c)
    ensures e == null || c.NilCaster? ==> unchanged(Target(c))
    ensures e != null && c.ErrorCaster? ==> c.eo.Fields() == Copied(e, loc)
    ensures c.MultiCaster? ==> unchanged(c.mo)
  {
    if e != null && !c.NilCaster? {
      match c {
        case ErrorCaster(eo) => eo.Cast(Record(e), loc);
        case MultiCaster(mo) => mo.Cast(Record(e), loc);
      }
    }
  }

  /** `(*multiError).CastTo(c)`: nothing for a nil receiver or caster, otherwise `c.Cast(merr)`. */
  method AggregateCastTo(m: Option<LenLastAggregate.MultiError>, c: Caster, loc: Option<Localization.Localizer>)
    requires m.Some? ==> LenLastAggregate.Consistent(m.value)
    modifies Target(c)
    ensures m.None? || c.NilCaster? ==> unchanged(Target(c))
    ensures c.ErrorCaster? ==> unchanged(c.eo)
    ensures m.Some? && c.MultiCaster? ==>
              c.mo.count == LenLastAggregate.Len(m.value) && |c.mo.errors| == |m.value.errors|
              && forall k :: 0 <= k < |c.mo.errors| ==> c.mo.errors[k].Fields() == EntryOut(m.value.errors[k], loc)
  {
    if m.Some? && !c.NilCaster? {
      match c {
        case ErrorCaster(eo) => eo.Cast(Aggregate(m.value), loc);
        case MultiCaster(mo) => mo.Cast(Aggregate(m.value), loc);
      }
    }
  }

  /** A non-nil `error` given to `Cast`: an `*Error` (possibly a nil pointer), or another error by its `Error()` text. */
  datatype Input = Ptr(p: ErrorRecord.Error?) | Foreign(text: string)

  /** What `Cast` does: returns a pointer, or panics. */
  datatype Outcome = Returned(e: ErrorRecord.Error?) | Panic

  /** `simpleCast(err)`: the pointer if `err` is an `*Error`. */
  function SimpleCast(err: Option<Input>): (r: (ErrorRecord.Error?, bool))
    ensures r.1 <==> err.Some? && err.value.Ptr?
    ensures r.1 ==> r.0 == err.value.p
    ensures !r.1 ==> r.0 == null
  {
    if err.Some? && err.value.Ptr? then (err.value.p, true) else (null, false)
  }

  /**
   * `Cast(err)` as written: a nil `err` fails the type assertion and reaches
   * `err.Error()` on a nil interface, although the comment promises nil.
   */
  method CastAsWritten(err: Option<Input>) returns (out: Outcome)
    ensures err.None? ==> out.Panic?
    ensures err.Some? && err.value.Ptr? ==> out == Returned(err.value.p)
    ensures err.Some? && err.value.Foreign? ==>
              out.Returned? && out.e != null && fresh(out.e) && out.e.Snapshot() == ObjectError.Initial(err.value.text)
  {
    var (e, ok) := SimpleCast(err);
    if ok {
      return Returned(e);
    }
    if err.None? {
      return Panic;
    }
    var made := ObjectError.NewPlain(err.value.text);
    out := Returned(made);
  }

  /** `Cast(err)` as its comment describes it: nil for nil, the very pointer for an `*Error`, else `New(err.Error())`. */
  method Cast(err: Option<Input>) returns (e: ErrorRecord.Error?)
    ensures err.None? ==> e == null
    ensures err.Some? && err.value.Ptr? ==> e == err.value.p
    ensures err.Some? && err.value.Foreign? ==>
              e != null && fresh(e) && e.Snapshot() == ObjectError.Initial(err.value.text)
  {
    if err.None? {
      return null;
    }
    var out := CastAsWritten(err);
    e := out.e;
  }

  /** Given nil, the code as written panics where the corrected `Cast` returns nil. */
  method CastNil() returns (asWritten: Outcome, corrected: ErrorRecord.Error?)
    ensures asWritten.Panic? && corrected == null
  {
    asWritten := CastAsWritten(None);
    corrected := Cast(None);
  }
}

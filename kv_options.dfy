/**
 * options.go: the `Options` closures for the layout whose attributes are
 * byte slices and whose context is an ordered list of key/value pairs
 * (`CtxKV`). Each setter writes one field through the pointer and does
 * nothing on a nil target; `AppendContextInfo` appends one pair at the end,
 * creating the list first when it is nil.
 */
module KVOptions {
  import Objects

  /** One `struct{ Key, Value []byte }`. */
  datatype Pair = Pair(key: seq<Objects.Byte>, value: seq<Objects.Byte>)

  /** `CtxKV`: a nil list, or an allocated (possibly empty) one. */
  datatype CtxKV = NilKV | KV(pairs: seq<Pair>)

  /** The pairs a list holds; a nil list holds none. */
  function Pairs(c: CtxKV): seq<Pair>
  {
    if c.NilKV? then [] else c.pairs
  }

  /** The record's fields, as a value. */
  datatype Fields = Fields(
    msg: Objects.Slice,
    id: Objects.Slice,
    operation: Objects.Slice,
    errorType: Objects.Slice,
    contextInfo: CtxKV)

  class Error {
    var msg: Objects.Slice
    var id: Objects.Slice
    var operation: Objects.Slice
    var errorType: Objects.Slice
    var contextInfo: CtxKV

    function Snapshot(): Fields
      reads this
    {
      Fields(msg, id, operation, errorType, contextInfo)
    }

    /** `&Error{...}` with the given fields. */
    constructor (f: Fields)
      ensures Snapshot() == f
    {
      msg, id, operation, errorType, contextInfo := f.msg, f.id, f.operation, f.errorType, f.contextInfo;
    }
  }

  /** One option value. */
  datatype Setter =
    | SetMsg(msg: string)
    | SetID(id: string)
    | SetOperation(operation: string)
    | SetErrorType(errorType: string)
    | SetContextInfo(ctx: CtxKV)
    | AppendContextInfo(key: string, value: string)

  /** The field a setter writes, by name. */
  function Target(s: Setter): string
  {
    match s
    case SetMsg(_) => "msg"
    case SetID(_) => "id"
    case SetOperation(_) => "operation"
    case SetErrorType(_) => "errorType"
    case SetContextInfo(_) => "contextInfo"
    case AppendContextInfo(_, _) => "contextInfo"
  }

  /** The list after `AppendContextInfo(key, value)`: the old pairs, then the new one. */
  function Appended(c: CtxKV, key: string, value: string): (r: CtxKV)
    ensures r.KV?
    ensures Pairs(r) == Pairs(c) + [Pair(key, value)]
  {
    var base := if c.NilKV? then KV([]) else c;
    KV(base.pairs + [Pair(key, value)])
  }

  /** The fields after the setter ran on a non-nil record. */
  function ApplyOption(f: Fields, s: Setter): (r: Fields)
  {
    match s
    case SetMsg(m) => f.(msg := Objects.Slice(m))
    case SetID(i) => f.(id := Objects.Slice(i))
    case SetOperation(o) => f.(operation := Objects.Slice(o))
    case SetErrorType(t) => f.(errorType := Objects.Slice(t))
    case SetContextInfo(c) => f.(contextInfo := c)
    case AppendContextInfo(k, v) => f.(contextInfo := Appended(f.contextInfo, k, v))
  }

  /** The value a field holds, by name. */
  function Get(f: Fields, name: string): (Objects.Slice, CtxKV)
  {
    if name == "msg" then (f.msg, NilKV)
    else if name == "id" then (f.id, NilKV)
    else if name == "operation" then (f.operation, NilKV)
    else if name == "errorType" then (f.errorType, NilKV)
    else (Objects.Nil, f.contextInfo)
  }

  /** Running an option: nothing on a nil record, else the setter's one field write. */
  method Apply(e: Error?, s: Setter)
    modifies e
    ensures e != null ==> e.Snapshot() == ApplyOption(old(e.Snapshot()), s)
  {
    if e == null {
      return;
    }
    match s {
      case SetMsg(m) => e.msg := Objects.Slice(m);
      case SetID(i) => e.id := Objects.Slice(i);
      case SetOperation(o) => e.operation := Objects.Slice(o);
      case SetErrorType(t) => e.errorType := Objects.Slice(t);
      case SetContextInfo(c) => e.contextInfo := c;
      case AppendContextInfo(k, v) =>
        if e.contextInfo.NilKV? {
          e.contextInfo := KV([]);
        }
        e.contextInfo := KV(e.contextInfo.pairs + [Pair(k, v)]);
    }
  }

  /** A setter changes only the field it names, and the string setters store the string's bytes. */
  lemma OnlyTargetChanges(f: Fields, s: Setter, name: string)
    requires name in {"msg", "id", "operation", "errorType", "contextInfo"}
    ensures name != Target(s) ==> Get(ApplyOption(f, s), name) == Get(f, name)
    ensures s.SetMsg? ==> Objects.Contents(ApplyOption(f, s).msg) == s.msg
    ensures s.SetID? ==> Objects.Contents(ApplyOption(f, s).id) == s.id
    ensures s.SetOperation? ==> Objects.Contents(ApplyOption(f, s).operation) == s.operation
    ensures s.SetErrorType? ==> Objects.Contents(ApplyOption(f, s).errorType) == s.errorType
  {
  }

  /** `AppendContextInfo` keeps every existing pair, duplicate keys included, and adds exactly one at the end. */
  lemma AppendKeepsPairs(f: Fields, key: string, value: string)
    ensures var after := Pairs(ApplyOption(f, AppendContextInfo(key, value)).contextInfo);
            |after| == |Pairs(f.contextInfo)| + 1
            && after[..|Pairs(f.contextInfo)|] == Pairs(f.contextInfo)
            && after[|after| - 1] == Pair(key, value)
  {
    var after := Pairs(ApplyOption(f, AppendContextInfo(key, value)).contextInfo);
    assert after == Pairs(f.contextInfo) + [Pair(key, value)];
  }

  /** Appending the same key twice keeps both pairs, in order. */
  lemma DuplicateKeysKept(f: Fields, key: string, v1: string, v2: string)
    ensures Pairs(ApplyOption(ApplyOption(f, AppendContextInfo(key, v1)), AppendContextInfo(key, v2)).contextInfo)
            == Pairs(f.contextInfo) + [Pair(key, v1), Pair(key, v2)]
  {
    var p := Pairs(f.contextInfo);
    assert (p + [Pair(key, v1)]) + [Pair(key, v2)] == p + [Pair(key, v1), Pair(key, v2)];
  }

  /** Two setters of different fields can run in either order. */
  lemma DifferentFieldsCommute(f: Fields, a: Setter, b: Setter)
    requires Target(a) != Target(b)
    ensures ApplyOption(ApplyOption(f, a), b) == ApplyOption(ApplyOption(f, b), a)
  {
  }

  /** Of two setters that replace the same field, the later one wins. */
  lemma LaterReplaceWins(f: Fields, a: Setter, b: Setter)
    requires Target(a) == Target(b) && !b.AppendContextInfo?
    ensures ApplyOption(ApplyOption(f, a), b) == ApplyOption(f, b)
  {
  }
}

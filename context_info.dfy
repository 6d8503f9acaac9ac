/**
 * context_info.go: replacing the context map of an `Error` and inserting
 * one key into it in place.
 */
module ContextInfo {
  import Ctx
  import CommonError

  /** `SetContextInfo(ctx)`: a nil `e` is left alone; otherwise its map reference is replaced. */
  method SetContextInfo(e: CommonError.Error?, ctx: Ctx.CtxMap?)
    modifies e
    ensures e != null ==> e.Snapshot() == old(e.Snapshot()).(contextInfo := ctx)
  {
    if e == null {
      return;
    }
    e.contextInfo := ctx;
  }

  /**
   * `AppendContextInfo(key, value)`: a nil `e` is left alone; a missing map
   * is first created; then `key` is set to `value` in place, so the map
   * object stays the same and every other key keeps its value.
   */
  method AppendContextInfo(e: CommonError.Error?, key: string, value: string)
    modifies e, if e != null then {e.contextInfo} else {}
    ensures e != null ==> e.Snapshot() == old(e.Snapshot()).(contextInfo := e.contextInfo)
    ensures e != null ==> e.contextInfo != null && e.contextInfo.entries == old(Ctx.Entries(e.contextInfo))[key := value]
    ensures e != null && old(e.contextInfo) != null ==> e.contextInfo == old(e.contextInfo)
    ensures e != null && old(e.contextInfo) == null ==> fresh(e.contextInfo)
  {
    if e == null {
      return;
    }
    if e.contextInfo == null {
      e.contextInfo := new Ctx.CtxMap(map[]);
    }
    e.contextInfo.entries := e.contextInfo.entries[key := value];
  }

  /** `ContextInfo()`: the stored map reference, nil included. */
  function ContextInfo(e: CommonError.Error): (r: Ctx.CtxMap?)
    reads e
    ensures r == e.Snapshot().contextInfo
  {
    e.contextInfo
  }

  /** Two errors that share one map both see an insertion made through either of them. */
  method SharedMapSeesAppend(a: CommonError.Error, b: CommonError.Error, key: string, value: string)
    requires a != b && a.contextInfo != null && a.contextInfo == b.contextInfo
    modifies a, a.contextInfo
    ensures b.contextInfo == a.contextInfo
    ensures Ctx.Entries(b.contextInfo) == old(a.contextInfo.entries)[key := value]
    ensures Ctx.Entries(b.contextInfo)[key] == value
  {
    AppendContextInfo(a, key, value);
  }
}

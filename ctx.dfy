/**
 * `CtxMap`: the context attached to an error. A Go map is a reference,
 * so two errors can share one map and an insertion through either is
 * seen by both; the model keeps the map behind a heap object for that
 * reason. Values are kept as the text `%v` renders for them.
 */
module Ctx {

  class CtxMap {
    var entries: map<string, string>

    /** `make(CtxMap)` when `m` is empty, a map literal otherwise. */
    constructor (m: map<string, string>)
      ensures entries == m
    {
      entries := m;
    }
  }

  /** `len(ctx)`: a nil map has no entries. */
  function Entries(m: CtxMap?): (r: map<string, string>)
    reads m
    ensures m == null ==> r == map[]
    ensures m != null ==> r == m.entries
  {
    if m == null then map[] else m.entries
  }
}

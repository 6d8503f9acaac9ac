/**
 * constructor.go, lines 99-214: the `Options` closures for the record of
 * error.go / errors.go. Each writes one field through the pointer and
 * does nothing on a nil target; `AppendContextInfo` inserts into the
 * (possibly shared) context map in place, creating it first when nil.
 * `SetErrorType` writes the `operation` field, as the source does.
 */
module Setters {
  import opened Wrappers
  import Objects
  import Ctx
  import Localization
  import ErrorRecord

  /** One option value. */
  datatype Setter =
    | SetMsg(msg: string)
    | SetID(id: string)
    | SetOperation(operation: string)
    | SetErrorType(errorType: string)
    | SetTranslateContext(tctx: Option<Localization.TranslateContext>)
    | SetLocalizer(localizer: Option<Localization.Localizer>)
    | SetContextInfo(ctx: Ctx.CtxMap?)
    | AppendContextInfo(key: string, value: string)

  /** The field a setter writes, by name. */
  function Target(s: Setter): string
  {
    match s
    case SetMsg(_) => "msg"
    case SetID(_) => "id"
    case SetOperation(_) => "operation"
    case SetErrorType(_) => "operation"
    case SetTranslateContext(_) => "translateContext"
    case SetLocalizer(_) => "localizer"
    case SetContextInfo(_) => "contextInfo"
    case AppendContextInfo(_, _) => "contextInfo"
  }

  /** Every field but the context map reference. */
  function Attrs(f: ErrorRecord.Fields): ErrorRecord.Fields
  {
    f.(contextInfo := null)
  }

  /**
   * The fields after the setter ran. An `AppendContextInfo` writes into the
   * map rather than into a field of the record; its effect is stated by
   * `Apply` and `Appends`.
   */
  function ApplyOption(f: ErrorRecord.Fields, s: Setter): (r: ErrorRecord.Fields)
    ensures r.msg == (if s.SetMsg? then Some(Objects.NewObjectFromString(s.msg)) else f.msg)
    ensures r.id == (if s.SetID? then Some(Objects.NewObjectFromString(s.id)) else f.id)
    ensures r.operation == (if s.SetOperation? then Some(Objects.NewObjectFromString(s.operation))
                            else if s.SetErrorType? then Some(Objects.NewObjectFromString(s.errorType))
                            else f.operation)
    ensures r.translateContext == (if s.SetTranslateContext? then s.tctx else f.translateContext)
    ensures r.localizer == (if s.SetLocalizer? then s.localizer else f.localizer)
    ensures r.contextInfo == (if s.SetContextInfo? then s.ctx else f.contextInfo)
  {
    match s
    case SetMsg(m) => f.(msg := Some(Objects.NewObjectFromString(m)))
    case SetID(i) => f.(id := Some(Objects.NewObjectFromString(i)))
    case SetOperation(o) => f.(operation := Some(Objects.NewObjectFromString(o)))
    case SetErrorType(t) => f.(operation := Some(Objects.NewObjectFromString(t)))
    case SetTranslateContext(t) => f.(translateContext := t)
    case SetLocalizer(l) => f.(localizer := l)
    case SetContextInfo(m) => f.(contextInfo := m)
    case AppendContextInfo(_, _) => f
  }

  /** The options applied left to right. */
  function ApplyAll(f: ErrorRecord.Fields, ops: seq<Setter>): ErrorRecord.Fields
  {
    if |ops| == 0 then f else ApplyOption(ApplyAll(f, ops[..|ops| - 1]), ops[|ops| - 1])
  }

  /** The context entries after the `AppendContextInfo` options among `ops`, in order. */
  function Appends(entries: map<string, string>, ops: seq<Setter>): map<string, string>
  {
    if |ops| == 0 then entries
    else
      var before := Appends(entries, ops[..|ops| - 1]);
      match ops[|ops| - 1]
      case AppendContextInfo(k, v) => before[k := v]
      case _ => before
  }

  /** No option among `ops` replaces the context map reference. */
  predicate NoReplace(ops: seq<Setter>)
  {
    forall i :: 0 <= i < |ops| ==> !ops[i].SetContextInfo?
  }

  /** No option among `ops` inserts into the context map. */
  predicate NoAppend(ops: seq<Setter>)
  {
    forall i :: 0 <= i < |ops| ==> !ops[i].AppendContextInfo?
  }

  /** The maps the `SetContextInfo` options among `ops` install. */
  function Installed(ops: seq<Setter>): set<Ctx.CtxMap>
  {
    set i | 0 <= i < |ops| && ops[i].SetContextInfo? && ops[i].ctx != null :: ops[i].ctx
  }

  /** The map of `e`, if any. */
  function MapOf(e: ErrorRecord.Error?): set<Ctx.CtxMap>
    reads e
  {
    if e != null && e.contextInfo != null then {e.contextInfo} else {}
  }

  /** Where a record's context map reference points while the options run. */
  datatype CtxRef =
    | NoMap
      /** A map that existed before the options ran (the record's own, or one an option installs). */
    | Shared(m: Ctx.CtxMap)
      /** A map `AppendContextInfo` made because the reference was nil. */
    | Created

  /**
   * The context maps as the options see them: the reference, the entries
   * of every map that existed before, and the entries of a map made along
   * the way.
   */
  datatype CtxState = CtxState(ref: CtxRef, store: map<Ctx.CtxMap, map<string, string>>, created: map<string, string>)

  /** The entries of each map in `ms`. */
  function Store(ms: set<Ctx.CtxMap>): (r: map<Ctx.CtxMap, map<string, string>>)
    reads ms
    ensures r.Keys == ms
  {
    map m | m in ms :: m.entries
  }

  /** The state before any option runs, for the reference `cur`. */
  function CtxStart(cur: Ctx.CtxMap?, store: map<Ctx.CtxMap, map<string, string>>): CtxState
  {
    CtxState(if cur == null then NoMap else Shared(cur), store, map[])
  }

  /** The reference points at a map whose entries are kept in the store. */
  predicate Known(st: CtxState)
  {
    st.ref.Shared? ==> st.ref.m in st.store
  }

  /**
   * One option's effect on the context maps: `SetContextInfo` moves the
   * reference; `AppendContextInfo` inserts into the map it points at, or
   * into a new map when it is nil; every other option leaves them alone.
   */
  function CtxStep(st: CtxState, s: Setter): (r: CtxState)
    requires Known(st)
    requires s.SetContextInfo? && s.ctx != null ==> s.ctx in st.store
    ensures Known(r) && r.store.Keys == st.store.Keys
  {
    match s
    case SetContextInfo(m) => st.(ref := if m == null then NoMap else Shared(m))
    case AppendContextInfo(k, v) =>
      (match st.ref
       case NoMap => st.(ref := Created, created := map[k := v])
       case Shared(m) => st.(store := st.store[m := st.store[m][k := v]])
       case Created => st.(created := st.created[k := v]))
    case _ => st
  }

  /** The options' effect on the context maps, left to right. */
  function CtxRun(st: CtxState, ops: seq<Setter>): (r: CtxState)
    requires Known(st) && Installed(ops) <= st.store.Keys
    ensures Known(r) && r.store.Keys == st.store.Keys
  {
    if |ops| == 0 then st
    else
      var init := ops[..|ops| - 1];
      InstalledPrefix(ops, |ops| - 1);
      var last := ops[|ops| - 1];
      assert last.SetContextInfo? && last.ctx != null ==> last.ctx in Installed(ops);
      CtxStep(CtxRun(st, init), last)
  }

  /** The context maps a record `e` reaches before `ops` run on it. */
  function CtxBefore(e: ErrorRecord.Error, ops: seq<Setter>): (st: CtxState)
    reads e, MapOf(e), Installed(ops)
    ensures Known(st) && Installed(ops) <= st.store.Keys
    ensures st.store.Keys == MapOf(e) + Installed(ops)
  {
    CtxStart(e.contextInfo, Store(MapOf(e) + Installed(ops)))
  }

  /** `e`'s context reference and the maps in the store agree with `st`, except that a `Created` map is only named by `e`. */
  predicate Tracks(e: ErrorRecord.Error, st: CtxState)
    reads e, e.contextInfo, st.store.Keys
  {
    && (st.ref.NoMap? ==> e.contextInfo == null)
    && (st.ref.Shared? ==> e.contextInfo == st.ref.m)
    && (st.ref.Created? ==> e.contextInfo != null && e.contextInfo.entries == st.created)
    && forall m :: m in st.store ==> m.entries == st.store[m]
  }

  /** Runs one option on `e`; a nil `e` is left alone. */
  method Apply(e: ErrorRecord.Error?, s: Setter)
    modifies e, MapOf(e)
    ensures e != null && !s.AppendContextInfo? ==> e.Snapshot() == ApplyOption(old(e.Snapshot()), s)
    ensures e != null && !s.AppendContextInfo? && old(e.contextInfo) != null ==>
              old(e.contextInfo).entries == old(e.contextInfo.entries)
    ensures e != null && s.AppendContextInfo? ==>
              (Attrs(e.Snapshot()) == Attrs(old(e.Snapshot()))
               && e.contextInfo != null
               && e.contextInfo.entries == old(Ctx.Entries(e.contextInfo))[s.key := s.value]
               && (old(e.contextInfo) != null ==> e.contextInfo == old(e.contextInfo))
               && (old(e.contextInfo) == null ==> fresh(e.contextInfo)))
  {
    if e == null {
      return;
    }
    match s
    case SetMsg(m) => e.msg := Some(Objects.NewObjectFromString(m));
    case SetID(i) => e.id := Some(Objects.NewObjectFromString(i));
    case SetOperation(o) => e.operation := Some(Objects.NewObjectFromString(o));
    case SetErrorType(t) => e.operation := Some(Objects.NewObjectFromString(t));
    case SetTranslateContext(t) => e.translateContext := t;
    case SetLocalizer(l) => e.localizer := l;
    case SetContextInfo(m) => e.contextInfo := m;
    case AppendContextInfo(k, v) =>
      if e.contextInfo == null {
        e.contextInfo := new Ctx.CtxMap(map[]);
      }
      e.contextInfo.entries := e.contextInfo.entries[k := v];
  }

  /** The maps a prefix of the options installs are among those all of them install. */
  lemma InstalledPrefix(ops: seq<Setter>, i: nat)
    requires i <= |ops|
    ensures Installed(ops[..i]) <= Installed(ops)
  {
    forall m | m in Installed(ops[..i]) ensures m in Installed(ops) {
      var j :| 0 <= j < i && ops[..i][j].SetContextInfo? && ops[..i][j].ctx != null && ops[..i][j].ctx == m;
      assert ops[j] == ops[..i][j];
    }
  }

  /**
   * What holds once the first `i` options ran on a record that started
   * with fields `f0`, context entries `ent0` and maps `st0`: its fields are
   * now `snap` and its context entries `ent`.
   */
  ghost predicate RanFrom(snap: ErrorRecord.Fields, ent: map<string, string>, ops: seq<Setter>, i: nat,
                          f0: ErrorRecord.Fields, ent0: map<string, string>, st0: CtxState, st: CtxState)
    requires i <= |ops|
  {
    && Attrs(snap) == Attrs(ApplyAll(f0, ops[..i]))
    && (NoAppend(ops[..i]) ==> snap == ApplyAll(f0, ops[..i]))
    && (NoReplace(ops[..i]) ==> ent == Appends(ent0, ops[..i]))
    && (NoReplace(ops[..i]) && f0.contextInfo != null ==> snap.contextInfo == f0.contextInfo)
    && Known(st0) && Installed(ops) <= st0.store.Keys
    && Installed(ops[..i]) <= st0.store.Keys && st == CtxRun(st0, ops[..i])
  }

  /** `Ran` for the record `e`, whose maps also agree with `st`. */
  ghost predicate Ran(e: ErrorRecord.Error, ops: seq<Setter>, i: nat, f0: ErrorRecord.Fields,
                      ent0: map<string, string>, st0: CtxState, st: CtxState)
    requires i <= |ops|
    reads e, e.contextInfo, st.store.Keys
  {
    RanFrom(e.Snapshot(), Ctx.Entries(e.contextInfo), ops, i, f0, ent0, st0, st) && Tracks(e, st)
  }

  /** How one option changes a record's fields `snap` into `snap2` and its context entries `ent` into `ent2`. */
  ghost predicate Stepped(snap: ErrorRecord.Fields, ent: map<string, string>,
                          snap2: ErrorRecord.Fields, ent2: map<string, string>, s: Setter)
  {
    && (!s.AppendContextInfo? ==> snap2 == ApplyOption(snap, s))
    && (!s.AppendContextInfo? && !s.SetContextInfo? ==> ent2 == ent)
    && (s.AppendContextInfo? ==>
          Attrs(snap2) == Attrs(snap) && ent2 == ent[s.key := s.value]
          && (snap.contextInfo != null ==> snap2.contextInfo == snap.contextInfo))
  }

  /** `RanFrom` carries over one more option. */
  lemma RanFromStep(snap: ErrorRecord.Fields, ent: map<string, string>, snap2: ErrorRecord.Fields,
                    ent2: map<string, string>, ops: seq<Setter>, i: nat,
                    f0: ErrorRecord.Fields, ent0: map<string, string>, st0: CtxState, st: CtxState)
    requires i < |ops| && RanFrom(snap, ent, ops, i, f0, ent0, st0, st)
    requires Stepped(snap, ent, snap2, ent2, ops[i])
    ensures RanFrom(snap2, ent2, ops, i + 1, f0, ent0, st0, CtxStep(st, ops[i]))
  {
    PrefixStep(ops, i, f0, ent0, st0);
    if ops[i].SetContextInfo? && ops[i].ctx != null {
      assert ops[i].ctx in Installed(ops);
    }
  }

  /** The option folds over the first `i + 1` options, one step past the first `i`. */
  lemma PrefixStep(ops: seq<Setter>, i: nat, f0: ErrorRecord.Fields, ent0: map<string, string>, st0: CtxState)
    requires i < |ops|
    ensures ApplyAll(f0, ops[..i + 1]) == ApplyOption(ApplyAll(f0, ops[..i]), ops[i])
    ensures NoAppend(ops[..i + 1]) <==> NoAppend(ops[..i]) && !ops[i].AppendContextInfo?
    ensures NoReplace(ops[..i + 1]) <==> NoReplace(ops[..i]) && !ops[i].SetContextInfo?
    ensures Appends(ent0, ops[..i + 1])
            == if ops[i].AppendContextInfo? then Appends(ent0, ops[..i])[ops[i].key := ops[i].value]
               else Appends(ent0, ops[..i])
    ensures Installed(ops[..i + 1]) <= Installed(ops)
    ensures Known(st0) && Installed(ops) <= st0.store.Keys ==>
              CtxRun(st0, ops[..i + 1]) == CtxStep(CtxRun(st0, ops[..i]), ops[i])
  {
    assert ops[..i + 1][..i] == ops[..i];
    assert ops[..i + 1][i] == ops[i];
    InstalledPrefix(ops, i + 1);
  }

  /** `Apply`, in the terms of `Stepped`, and the step it takes on the context maps as `CtxStep` states it. */
  method ApplyTracked(e: ErrorRecord.Error, s: Setter, ghost st: CtxState) returns (ghost r: CtxState)
    requires Known(st) && (s.SetContextInfo? && s.ctx != null ==> s.ctx in st.store)
    requires Tracks(e, st) && (st.ref.Created? ==> e.contextInfo !in st.store)
    modifies e, MapOf(e)
    ensures Stepped(old(e.Snapshot()), old(Ctx.Entries(e.contextInfo)), e.Snapshot(), Ctx.Entries(e.contextInfo), s)
    ensures r == CtxStep(st, s) && Tracks(e, r)
    ensures e.contextInfo == old(e.contextInfo) || (s.SetContextInfo? && e.contextInfo == s.ctx)
            || fresh(e.contextInfo)
    ensures r.ref.Created? ==> (st.ref.Created? && e.contextInfo == old(e.contextInfo)) || fresh(e.contextInfo)
  {
    Apply(e, s);
    r := CtxStep(st, s);
  }

  /** One turn of the loop of `ApplyEach`: `Apply` with option `i`. */
  method ApplyStep(e: ErrorRecord.Error, ops: seq<Setter>, i: nat, ghost f0: ErrorRecord.Fields,
                   ghost ent0: map<string, string>, ghost st0: CtxState, ghost st: CtxState)
    returns (ghost r: CtxState)
    requires i < |ops| && Ran(e, ops, i, f0, ent0, st0, st)
    requires st.ref.Created? ==> e.contextInfo !in st.store
    modifies e, MapOf(e)
    ensures Ran(e, ops, i + 1, f0, ent0, st0, r)
    ensures e.contextInfo == null || e.contextInfo == old(e.contextInfo) || e.contextInfo in Installed(ops)
            || fresh(e.contextInfo)
    ensures r.ref.Created? ==> (st.ref.Created? && e.contextInfo == old(e.contextInfo)) || fresh(e.contextInfo)
  {
    var s := ops[i];
    ghost var snap := e.Snapshot();
    ghost var ent := Ctx.Entries(e.contextInfo);
    if s.SetContextInfo? && s.ctx != null {
      assert s.ctx in Installed(ops);
    }
    r := ApplyTracked(e, s, st);
    RanFromStep(snap, ent, e.Snapshot(), Ctx.Entries(e.contextInfo), ops, i, f0, ent0, st0, st);
  }

  /**
   * `for _, op := range ops { op(e) }`. Every field but the map follows
   * `ApplyAll`; without `AppendContextInfo` the map reference does too;
   * without `SetContextInfo` the existing map (if any) is kept and receives
   * the insertions in order. In general the reference and the entries of
   * every map involved follow `CtxRun`: an insertion goes to whichever map
   * the reference names at that moment, a map the caller passed in
   * included, and to a new map when the reference is nil.
   */
  method ApplyEach(e: ErrorRecord.Error, ops: seq<Setter>)
    modifies e, MapOf(e), Installed(ops)
    ensures Attrs(e.Snapshot()) == Attrs(ApplyAll(old(e.Snapshot()), ops))
    ensures NoAppend(ops) ==> e.Snapshot() == ApplyAll(old(e.Snapshot()), ops)
    ensures NoReplace(ops) ==> Ctx.Entries(e.contextInfo) == Appends(old(Ctx.Entries(e.contextInfo)), ops)
    ensures NoReplace(ops) && old(e.contextInfo) != null ==> e.contextInfo == old(e.contextInfo)
    ensures var st := CtxRun(old(CtxBefore(e, ops)), ops);
            Tracks(e, st) && (st.ref.Created? ==> fresh(e.contextInfo))
  {
    ghost var f0 := e.Snapshot();
    ghost var ent0 := Ctx.Entries(e.contextInfo);
    ghost var st0 := CtxBefore(e, ops);
    ghost var st := st0;
    assert ops[..0] == [];
    for i := 0 to |ops|
      invariant e.contextInfo == null || e.contextInfo == old(e.contextInfo)
                || e.contextInfo in Installed(ops) || fresh(e.contextInfo)
      invariant Ran(e, ops, i, f0, ent0, st0, st)
      invariant st.ref.Created? ==> fresh(e.contextInfo)
    {
      st := ApplyStep(e, ops, i, f0, ent0, st0, st);
    }
    assert ops[..|ops|] == ops;
  }

  /**
   * Without `SetContextInfo`, the reference keeps naming the same existing
   * map and only that map changes: it receives exactly the insertions
   * `Appends` states.
   */
  lemma {:induction false} CtxRunKeepsMap(st: CtxState, ops: seq<Setter>)
    requires Known(st) && st.ref.Shared? && NoReplace(ops)
    ensures Installed(ops) == {}
    ensures CtxRun(st, ops) == st.(store := st.store[st.ref.m := Appends(st.store[st.ref.m], ops)])
  {
    if |ops| > 0 {
      var init := ops[..|ops| - 1];
      assert forall i :: 0 <= i < |init| ==> init[i] == ops[i];
      CtxRunKeepsMap(st, init);
    }
  }

  /**
   * A map installed by `SetContextInfo` and then inserted into: the
   * reference names it, and that caller-owned map, not the record's
   * earlier one, gains the entry.
   */
  lemma InstallThenAppend(st: CtxState, m: Ctx.CtxMap, k: string, v: string)
    requires Known(st) && m in st.store
    ensures Installed([SetContextInfo(m), AppendContextInfo(k, v)]) == {m}
    ensures var r := CtxRun(st, [SetContextInfo(m), AppendContextInfo(k, v)]);
            r.ref == Shared(m) && r.store == st.store[m := st.store[m][k := v]] && r.created == st.created
  {
    var ops := [SetContextInfo(m), AppendContextInfo(k, v)];
    assert ops[0].ctx in Installed(ops);
    assert ops[..1] == [SetContextInfo(m)];
    assert ops[..1][..0] == [];
    var mid := st.(ref := Shared(m));
    assert CtxRun(st, ops[..1]) == mid;
    assert CtxRun(st, ops) == CtxStep(mid, AppendContextInfo(k, v));
  }

  /** Two setters of the same field: the later value is what remains. */
  lemma LastWins(f: ErrorRecord.Fields, a: Setter, b: Setter)
    requires Target(a) == Target(b) && !a.AppendContextInfo? && !b.AppendContextInfo?
    ensures ApplyOption(ApplyOption(f, a), b) == ApplyOption(f, b)
  {
  }

  /** `SetOperation` and `SetErrorType` share the `operation` field: whichever runs last wins. */
  lemma OperationAndErrorTypeShareField(f: ErrorRecord.Fields, op: string, t: string)
    ensures ApplyAll(f, [SetOperation(op), SetErrorType(t)]).operation == Some(Objects.NewObjectFromString(t))
    ensures ApplyAll(f, [SetErrorType(t), SetOperation(op)]).operation == Some(Objects.NewObjectFromString(op))
  {
    assert [SetOperation(op), SetErrorType(t)][..1] == [SetOperation(op)];
    assert [SetErrorType(t), SetOperation(op)][..1] == [SetErrorType(t)];
  }

  /** Inserting twice under one key keeps the later value; other keys are untouched. */
  lemma AppendLastWins(m: map<string, string>, k: string, v1: string, v2: string)
    ensures Appends(m, [AppendContextInfo(k, v1), AppendContextInfo(k, v2)]) == m[k := v2]
  {
    var ops := [AppendContextInfo(k, v1), AppendContextInfo(k, v2)];
    assert ops[..1] == [AppendContextInfo(k, v1)];
    assert ops[..1][..0] == [];
    assert Appends(m, ops[..1]) == m[k := v1];
    assert m[k := v1][k := v2] == m[k := v2];
  }

  /** Options that set no message leave the message as it was. */
  lemma {:induction false} MsgUntouched(f: ErrorRecord.Fields, ops: seq<Setter>)
    requires forall j :: 0 <= j < |ops| ==> !ops[j].SetMsg?
    ensures ApplyAll(f, ops).msg == f.msg
  {
    if |ops| > 0 {
      MsgUntouched(f, ops[..|ops| - 1]);
    }
  }

  /** The message is the one of the last `SetMsg` among the options. */
  lemma {:induction false} LastSetMsgWins(f: ErrorRecord.Fields, ops: seq<Setter>, i: nat)
    requires i < |ops| && ops[i].SetMsg?
    requires forall j :: i < j < |ops| ==> !ops[j].SetMsg?
    ensures ApplyAll(f, ops).msg == Some(Objects.NewObjectFromString(ops[i].msg))
  {
    if i < |ops| - 1 {
      LastSetMsgWins(f, ops[..|ops| - 1], i);
    }
  }
}

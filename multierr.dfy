/**
 * multierr.go: the aggregate as a plain slice of `*Error`. `fromSlice`
 * counts the non-nil entries first and returns nil when there are none;
 * otherwise it flattens them with `appendError`. `Wrap` returns a nil
 * side's partner unchanged. `Error()` is the numbered multi-line format
 * of format_string.go, each entry rendered by its own `Error()`.
 */
module MultiErrSlice {
  import opened Wrappers
  import Ctx
  import Localization
  import ErrorRecord
  import ObjectError
  import MarshalString
  import Render
  import FormatString
  import Aggregate

  /** `inspectResult`. */
  datatype InspectResult = InspectResult(count: nat, capacity: nat)

  /** `inspect(errors)`: the number of non-nil entries and the length of the flattened list. */
  method Inspect(xs: seq<Option<Aggregate.Err>>) returns (res: InspectResult)
    ensures res.count == Aggregate.Count(xs)
    ensures res.capacity == |Aggregate.Flat(xs)|
  {
    res := InspectResult(0, 0);
    for i := 0 to |xs|
      invariant res.count == Aggregate.Count(xs[..i])
      invariant res.capacity == Aggregate.Capacity(xs[..i])
    {
      Aggregate.FlatStep(xs, i);
      if xs[i].None? {
        continue;
      }
      res := res.(count := res.count + 1);
      if xs[i].value.Agg? {
        res := res.(capacity := res.capacity + |xs[i].value.children|);
      } else {
        res := res.(capacity := res.capacity + 1);
      }
    }
    assert xs[..|xs|] == xs;
    Aggregate.CapacityIsLength(xs);
  }

  /**
   * `fromSlice(errors)`: nil when no entry is non-nil; otherwise the
   * flattened list, which is as long as `inspect` predicted.
   */
  method FromSlice(xs: seq<Option<Aggregate.Err>>) returns (r: Option<seq<ErrorRecord.Error?>>)
    ensures r.None? <==> Aggregate.Count(xs) == 0
    ensures r.Some? ==> Aggregate.Realises(r.value, Aggregate.Flat(xs))
    ensures r.Some? ==> forall k :: 0 <= k < |r.value| && Aggregate.Flat(xs)[k].Convert? ==> fresh(r.value[k])
  {
    var res := Inspect(xs);
    if res.count == 0 {
      return None;
    }
    var errs := Aggregate.AppendAll(xs);
    r := Some(errs);
  }

  /** `Combine(errors...)`. */
  method Combine(xs: seq<Option<Aggregate.Err>>) returns (r: Option<Aggregate.Err>)
    ensures r.None? <==> Aggregate.Count(xs) == 0
    ensures r.Some? ==> r.value.Agg? && Aggregate.Realises(r.value.children, Aggregate.Flat(xs))
    ensures r.Some? ==> forall k :: 0 <= k < |r.value.children| && Aggregate.Flat(xs)[k].Convert? ==> fresh(r.value.children[k])
  {
    var m := FromSlice(xs);
    if m.None? {
      return None;
    }
    r := Some(Aggregate.Agg(m.value));
  }

  /** `Wrap(left, right)`: a nil side gives the other side itself; otherwise the two flattened into one aggregate. */
  method Wrap(left: Option<Aggregate.Err>, right: Option<Aggregate.Err>) returns (r: Option<Aggregate.Err>)
    ensures left.None? ==> r == right
    ensures left.Some? && right.None? ==> r == left
    ensures left.Some? && right.Some? ==>
              r.Some? && r.value.Agg?
              && Aggregate.Realises(r.value.children, Aggregate.Slots(left.value) + Aggregate.Slots(right.value))
    ensures left.Some? && right.Some? ==>
              forall k :: (0 <= k < |r.value.children|
                             && (Aggregate.Slots(left.value) + Aggregate.Slots(right.value))[k].Convert?)
                            ==> fresh(r.value.children[k])
  {
    if left.None? {
      return right;
    }
    if right.None? {
      return left;
    }
    WrapFlat(left.value, right.value);
    r := Combine([left, right]);
  }

  /** Two non-nil entries flatten to the first one's entries followed by the second one's. */
  lemma WrapFlat(l: Aggregate.Err, r: Aggregate.Err)
    ensures Aggregate.Flat([Some(l), Some(r)]) == Aggregate.Slots(l) + Aggregate.Slots(r)
    ensures Aggregate.Count([Some(l), Some(r)]) == 2
  {
    var xs := [Some(l), Some(r)];
    assert xs[..1] == [Some(l)];
    assert xs[..1][..0] == [];
    assert Aggregate.Flat(xs[..1]) == Aggregate.Flat(xs[..1][..0]) + Aggregate.Entry(Some(l));
    assert Aggregate.Flat(xs) == Aggregate.Flat(xs[..1]) + Aggregate.Entry(Some(r));
  }

  /** `Errors(err)`: an aggregate's own list; nil for nil; otherwise a one-entry list, a foreign error converted. */
  method Errors(err: Option<Aggregate.Err>) returns (r: Option<seq<ErrorRecord.Error?>>)
    ensures err.None? <==> r.None?
    ensures err.Some? && err.value.Agg? ==> r == Some(err.value.children)
    ensures err.Some? && err.value.Ptr? ==> r == Some([err.value.p])
    ensures err.Some? && err.value.Foreign? ==>
              r.Some? && |r.value| == 1 && fresh(r.value[0])
              && r.value[0].Snapshot() == ObjectError.Initial(err.value.text)
  {
    if err.None? {
      return None;
    }
    match err.value {
      case Agg(cs) =>
        r := Some(cs);
      case Ptr(p) =>
        var one := Aggregate.AppendError([], err.value);
        assert Aggregate.Slots(err.value)[0] == Aggregate.Keep(p);
        assert one[0] == one[0 + 0];
        assert one == [p];
        r := Some(one);
      case Foreign(t) =>
        var one := Aggregate.AppendError([], err.value);
        assert Aggregate.Slots(err.value)[0] == Aggregate.Convert(t);
        assert one[0] == one[0 + 0];
        r := Some(one);
    }
  }

  /** `Unwrap()`: the newest (last) entry, or nil for an empty list. */
  function Unwrap(merr: seq<ErrorRecord.Error?>): (r: Option<Aggregate.Err>)
    ensures |merr| == 0 <==> r.None?
    ensures |merr| > 0 ==> r == Some(Aggregate.Ptr(merr[|merr| - 1]))
  {
    if |merr| == 0 then None else Some(Aggregate.Ptr(merr[|merr| - 1]))
  }

  /** What each entry's `Error()` renders: the string marshaller's view of the record, nil for a nil entry. */
  function Views(merr: seq<ErrorRecord.Error?>, loc: Option<Localization.Localizer>): (r: seq<Option<MarshalString.View>>)
    reads Aggregate.Targets(merr), Maps(merr)
    ensures |r| == |merr| && forall k :: 0 <= k < |merr| ==> r[k] == ObjectError.StringView(merr[k], loc)
  {
    seq(|merr|, k reads Aggregate.Targets(merr), Maps(merr) requires 0 <= k < |merr| => ObjectError.StringView(merr[k], loc))
  }

  /** The context maps the entries hold. */
  function Maps(merr: seq<ErrorRecord.Error?>): set<Ctx.CtxMap?>
    reads Aggregate.Targets(merr)
  {
    set p: ErrorRecord.Error | p in merr :: p.contextInfo
  }

  /**
   * `Error()`: "" for an empty list, else the numbered multi-line format of
   * the entries' `Error()` texts. Each entry's `Error()` is the string
   * marshaller applied to its view (`ObjectError.Error`), so the texts are
   * rendered from the views taken once, up front.
   */
  method Error(merr: seq<ErrorRecord.Error?>, loc: Option<Localization.Localizer>) returns (s: string)
    ensures |merr| == 0 ==> s == ""
    ensures s == Render.NumberedText(MarshalString.Texts(Views(merr, loc)))
  {
    if |merr| == 0 {
      return "";
    }
    var views := Views(merr, loc);
    var ts := CollectTexts(views);
    assert Views(merr, loc) == views;
    s := FormatString.StringMultierrFormatFunc(ts);
    assert Views(merr, loc) == views;
  }

  /** The entries' `Error()` texts, one by one, in order; nil for a nil entry. */
  method CollectTexts(views: seq<Option<MarshalString.View>>) returns (ts: seq<Option<string>>)
    ensures ts == MarshalString.Texts(views)
  {
    ts := [];
    for i := 0 to |views|
      invariant |ts| == i
      invariant forall k :: 0 <= k < i ==> ts[k] == MarshalString.Entry(views[k])
    {
      var t := WriteEntry(views[i]);
      ts := ts + [t];
    }
  }

  /** One entry's text, as the loop of the numbered format asks for it: its `Error()`, nil for a nil entry. */
  method WriteEntry(v: Option<MarshalString.View>) returns (t: Option<string>)
    ensures t == MarshalString.Entry(v)
  {
    if v.None? {
      return None;
    }
    var text := MarshalString.StringFormat(v);
    t := Some(text);
  }
}

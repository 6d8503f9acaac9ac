/**
 * multierror.go.go (and its duplicate in constructor.go, lines 41-94):
 * the aggregate that stores its list with a cached length and index of the
 * last entry. `fromSlice` always returns an aggregate, even an empty one,
 * so `Wrap` is exactly `fromSlice([left, right])`.
 */
module LenLastAggregate {
  import opened Wrappers
  import ErrorRecord
  import Aggregate

  /** `multiError{errors, len, last}`. */
  datatype MultiError = MultiError(errors: seq<ErrorRecord.Error?>, len: int, last: int)

  /** The cached fields agree with the list: `len` is its length, `last` its final index (0 when empty). */
  predicate Consistent(m: MultiError)
  {
    m.len == |m.errors| && m.last == (if |m.errors| > 0 then |m.errors| - 1 else 0)
  }

  /** `fromSlice(errors)`: the flattened list with its length and last index; never nil. */
  method FromSlice(xs: seq<Option<Aggregate.Err>>) returns (m: MultiError)
    ensures Consistent(m)
    ensures Aggregate.Realises(m.errors, Aggregate.Flat(xs))
    ensures forall k :: 0 <= k < |m.errors| && Aggregate.Flat(xs)[k].Convert? ==> fresh(m.errors[k])
  {
    var nonNilErrs := Aggregate.AppendAll(xs);
    var last := 0;
    var len := |nonNilErrs|;
    if len > 0 {
      last := len - 1;
    }
    m := MultiError(nonNilErrs, len, last);
  }

  /** `Combine(errors...)`. */
  method Combine(xs: seq<Option<Aggregate.Err>>) returns (m: MultiError)
    ensures Consistent(m)
    ensures Aggregate.Realises(m.errors, Aggregate.Flat(xs))
    ensures forall k :: 0 <= k < |m.errors| && Aggregate.Flat(xs)[k].Convert? ==> fresh(m.errors[k])
  {
    m := FromSlice(xs);
  }

  /** `Wrap(left, right)`: `fromSlice([left, right])`, so a nil side contributes nothing but an aggregate is still returned. */
  method Wrap(left: Option<Aggregate.Err>, right: Option<Aggregate.Err>) returns (m: MultiError)
    ensures Consistent(m)
    ensures Aggregate.Realises(m.errors, Aggregate.Entry(left) + Aggregate.Entry(right))
    ensures forall k :: (0 <= k < |m.errors| && (Aggregate.Entry(left) + Aggregate.Entry(right))[k].Convert?)
                        ==> fresh(m.errors[k])
  {
    PairFlat(left, right);
    m := FromSlice([left, right]);
  }

  /** The two entries of `Wrap` flatten to the left one's entries, then the right one's. */
  lemma PairFlat(l: Option<Aggregate.Err>, r: Option<Aggregate.Err>)
    ensures Aggregate.Flat([l, r]) == Aggregate.Entry(l) + Aggregate.Entry(r)
  {
    var xs := [l, r];
    assert xs[..1] == [l];
    assert xs[..1][..0] == [];
    assert Aggregate.Flat(xs[..1]) == Aggregate.Flat(xs[..1][..0]) + Aggregate.Entry(l);
    assert Aggregate.Flat(xs) == Aggregate.Flat(xs[..1]) + Aggregate.Entry(r);
  }

  /** `Wrap(nil, nil)` is an empty aggregate, and `Wrap(nil, e)` an aggregate of the one pointer `e`. */
  lemma WrapWithNil(p: ErrorRecord.Error?)
    ensures Aggregate.Entry(None) + Aggregate.Entry(None) == []
    ensures Aggregate.Entry(None) + Aggregate.Entry(Some(Aggregate.Ptr(p))) == [Aggregate.Keep(p)]
    ensures Aggregate.Entry(Some(Aggregate.Ptr(p))) + Aggregate.Entry(None) == [Aggregate.Keep(p)]
  {
  }

  /** `Errors()`: a copy of the list; an empty list for a nil receiver. */
  function Errors(m: Option<MultiError>): (r: seq<ErrorRecord.Error?>)
    ensures m.None? ==> r == []
    ensures m.Some? ==> r == m.value.errors
  {
    if m.None? then [] else m.value.errors
  }

  /** `Len()`: the cached length. */
  function Len(m: MultiError): (n: int)
    ensures Consistent(m) ==> n == |Errors(Some(m))|
  {
    m.len
  }

  /** `Last()`: nil for an empty list, else the entry at the cached last index, which is the newest one. */
  function Last(m: MultiError): (r: ErrorRecord.Error?)
    requires Consistent(m)
    ensures |m.errors| == 0 ==> r == null
    ensures |m.errors| > 0 ==> r == m.errors[|m.errors| - 1]
  {
    var es := Errors(Some(m));
    if |es| == 0 then null else es[m.last]
  }

  /** `Unwrap()`: the newest entry, as `Last`. */
  function Unwrap(m: MultiError): (r: ErrorRecord.Error?)
    requires Consistent(m)
    ensures r == Last(m)
  {
    Last(m)
  }

  /** An aggregate given to another builder: its `Errors()`. */
  function AsErr(m: MultiError): (x: Aggregate.Err)
    ensures x.Agg? && x.children == m.errors
  {
    Aggregate.Agg(Errors(Some(m)))
  }

  /** Wrapping an aggregate in a pointer appends the pointer as the new last entry, which `Last` then returns. */
  lemma {:induction false} WrapAppends(m: MultiError, p: ErrorRecord.Error?, w: MultiError)
    requires Consistent(w)
    requires Aggregate.Realises(w.errors, Aggregate.Entry(Some(AsErr(m))) + Aggregate.Entry(Some(Aggregate.Ptr(p))))
    ensures w.errors == m.errors + [p]
    ensures Last(w) == p
  {
    var s := Aggregate.Entry(Some(AsErr(m))) + Aggregate.Entry(Some(Aggregate.Ptr(p)));
    assert |s| == |m.errors| + 1;
    forall k | 0 <= k < |w.errors|
      ensures w.errors[k] == (m.errors + [p])[k]
    {
      assert Aggregate.Made(w.errors[k], s[k]);
      if k < |m.errors| {
        assert s[k] == Aggregate.Keep(m.errors[k]);
      } else {
        assert s[k] == Aggregate.Keep(p);
      }
    }
  }
}

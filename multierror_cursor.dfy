/**
 * multierror.go: the aggregate that keeps a list of `error` values, a
 * cursor remembering where `FindByID` last found an id, and a `copyNeeded`
 * flag that lets `Wrap` append to the left aggregate's list once without
 * copying. `fromSlice` returns nil or the single non-nil entry itself when
 * it can, and otherwise a new flat aggregate.
 */
module MultiErrorCursor {
  import opened Wrappers
  import Objects
  import ErrorRecord

  /** A non-nil `error` value: an `*Error` (possibly a nil pointer), an error of another type, or an aggregate. */
  datatype Err = Ptr(p: ErrorRecord.Error?) | Foreign(text: string) | Agg(m: MultiError)

  class MultiError {
    var errors: seq<Err>
    /** `cur`: the index `FindByID` tries first. */
    var cur: nat
    /** `copyNeeded`: `None` is a nil `*atomic.Bool`. */
    var copyNeeded: Option<bool>

    /** The composite literal `&multiError{...}`. */
    constructor (errors: seq<Err>, cur: nat, copyNeeded: Option<bool>)
      ensures this.errors == errors && this.cur == cur && this.copyNeeded == copyNeeded
    {
      this.errors := errors;
      this.cur := cur;
      this.copyNeeded := copyNeeded;
    }

    /** The cursor indexes an entry whenever there is one. */
    predicate CursorInRange()
      reads this
    {
      |errors| == 0 || cur < |errors|
    }

    /** What `fromSlice` and `Wrap` build: at least two entries, none of them an aggregate, the cursor on one of them. */
    predicate Valid()
      reads this
    {
      |errors| >= 2 && cur < |errors| && forall i :: 0 <= i < |errors| ==> !errors[i].Agg?
    }
  }

  /** An entry that is an aggregate. */
  predicate IsAgg(x: Option<Err>)
  {
    x.Some? && x.value.Agg?
  }

  /** The aggregates among the entries. */
  function Aggs(xs: seq<Option<Err>>): set<MultiError>
  {
    set i | 0 <= i < |xs| && IsAgg(xs[i]) :: xs[i].value.m
  }

  /** Every aggregate among the entries was built by this file. */
  predicate AllValid(xs: seq<Option<Err>>)
    reads Aggs(xs)
  {
    forall i :: 0 <= i < |xs| && IsAgg(xs[i]) ==> xs[i].value.m.Valid()
  }

  /** What one entry contributes to a flat list: nothing for nil, an aggregate's entries, or the error itself. */
  function Entry(x: Option<Err>): seq<Err>
    reads if IsAgg(x) then {x.value.m} else {}
  {
    match x
    case None => []
    case Some(e) => if e.Agg? then e.m.errors else [e]
  }

  /** The flat list of the first `n` entries. */
  function FlatUpTo(xs: seq<Option<Err>>, n: nat): seq<Err>
    requires n <= |xs|
    reads Aggs(xs)
  {
    if n == 0 then [] else FlatUpTo(xs, n - 1) + Entry(xs[n - 1])
  }

  /** The flat list of all entries, in order. */
  function Flat(xs: seq<Option<Err>>): seq<Err>
    reads Aggs(xs)
  {
    FlatUpTo(xs, |xs|)
  }

  /** The number of non-nil entries among the first `n`. */
  function CountUpTo(xs: seq<Option<Err>>, n: nat): (c: nat)
    requires n <= |xs|
    ensures c <= n
  {
    if n == 0 then 0 else CountUpTo(xs, n - 1) + (if xs[n - 1].Some? then 1 else 0)
  }

  /** The number of non-nil entries. */
  function Count(xs: seq<Option<Err>>): nat
  {
    CountUpTo(xs, |xs|)
  }

  /** The index of the first non-nil entry at or after `from`, or `|xs|` if there is none. */
  function FirstNonNil(xs: seq<Option<Err>>, from: nat): (r: nat)
    requires from <= |xs|
    ensures from <= r <= |xs|
    ensures r < |xs| ==> xs[r].Some?
    ensures forall j :: from <= j < r ==> xs[j].None?
    decreases |xs| - from
  {
    if from == |xs| then |xs| else if xs[from].Some? then from else FirstNonNil(xs, from + 1)
  }

  /** Whether some entry is an aggregate. */
  predicate ContainsAgg(xs: seq<Option<Err>>)
  {
    exists i :: 0 <= i < |xs| && IsAgg(xs[i])
  }

  /** Entries that are all nil contribute nothing and count nothing. */
  lemma {:induction false} NilPrefix(xs: seq<Option<Err>>, n: nat)
    requires n <= |xs|
    requires forall j :: 0 <= j < n ==> xs[j].None?
    ensures FlatUpTo(xs, n) == [] && CountUpTo(xs, n) == 0
  {
    if n > 0 {
      NilPrefix(xs, n - 1);
    }
  }

  /** Over built aggregates, flattening yields no aggregate and at least one entry per non-nil entry. */
  lemma {:induction false} FlatShape(xs: seq<Option<Err>>, n: nat)
    requires n <= |xs| && AllValid(xs)
    ensures |FlatUpTo(xs, n)| >= CountUpTo(xs, n)
    ensures forall k :: 0 <= k < |FlatUpTo(xs, n)| ==> !FlatUpTo(xs, n)[k].Agg?
  {
    if n > 0 {
      FlatShape(xs, n - 1);
      var a: seq<Err>, b: seq<Err> := FlatUpTo(xs, n - 1), Entry(xs[n - 1]);
      var s: seq<Err> := a + b;
      assert FlatUpTo(xs, n) == s;
      if IsAgg(xs[n - 1]) {
        assert xs[n - 1].value.m.Valid();
      }
      forall k | 0 <= k < |s|
        ensures !s[k].Agg?
      {
        if k >= |a| {
          assert s[k] == b[k - |a|];
        }
      }
    }
  }

  /** When every entry is non-nil and none is an aggregate, the flat list is the entries themselves. */
  lemma {:induction false} LeavesFlat(xs: seq<Option<Err>>, n: nat)
    requires n <= |xs|
    requires forall j :: 0 <= j < |xs| ==> xs[j].Some? && !xs[j].value.Agg?
    ensures FlatUpTo(xs, n) == seq(n, j requires 0 <= j < n && j < |xs| => xs[j].value)
  {
    if n > 0 {
      LeavesFlat(xs, n - 1);
    }
  }

  /** A count equal to the length means no entry is nil. */
  lemma {:induction false} FullCount(xs: seq<Option<Err>>, n: nat)
    requires n <= |xs| && CountUpTo(xs, n) == n
    ensures forall j :: 0 <= j < n ==> xs[j].Some?
  {
    if n > 0 {
      FullCount(xs, n - 1);
    }
  }

  /** A positive count means there is a first non-nil entry. */
  lemma SomeNonNil(xs: seq<Option<Err>>)
    requires Count(xs) > 0
    ensures FirstNonNil(xs, 0) < |xs|
  {
    if FirstNonNil(xs, 0) == |xs| {
      NilPrefix(xs, |xs|);
    }
  }

  /** `inspectResult`. */
  datatype InspectResult = InspectResult(count: nat, capacity: nat, firstErrorIdx: nat, containsMultiError: bool)

  /** `inspect(errors)`. */
  method Inspect(xs: seq<Option<Err>>) returns (res: InspectResult)
    ensures res.count == Count(xs)
    ensures res.capacity == |Flat(xs)|
    ensures res.count > 0 ==> res.firstErrorIdx == FirstNonNil(xs, 0)
    ensures res.count == 0 ==> res.firstErrorIdx == 0
    ensures res.containsMultiError <==> ContainsAgg(xs)
  {
    res := InspectResult(0, 0, 0, false);
    var first := true;
    for i := 0 to |xs|
      invariant res.count == CountUpTo(xs, i)
      invariant res.capacity == |FlatUpTo(xs, i)|
      invariant first <==> res.count == 0
      invariant res.count == 0 ==> res.firstErrorIdx == 0 && forall j :: 0 <= j < i ==> xs[j].None?
      invariant res.count > 0 ==> res.firstErrorIdx < i && xs[res.firstErrorIdx].Some?
                                  && forall j :: 0 <= j < res.firstErrorIdx ==> xs[j].None?
      invariant res.containsMultiError <==> exists j :: 0 <= j < i && IsAgg(xs[j])
    {
      if xs[i].None? {
        continue;
      }
      res := res.(count := res.count + 1);
      if first {
        first := false;
        res := res.(firstErrorIdx := i);
      }
      match xs[i].value {
        case Agg(m) =>
          res := res.(capacity := res.capacity + |m.errors|, containsMultiError := true);
        case _ =>
          res := res.(capacity := res.capacity + 1);
      }
    }
    if res.count > 0 {
      var f := FirstNonNil(xs, 0);
      assert f == res.firstErrorIdx;
    }
  }

  /** The literal of the corrected source: `copyNeeded` starts as a false flag. */
  method NewAggregate(errors: seq<Err>, cur: nat) returns (m: MultiError)
    ensures fresh(m) && m.errors == errors && m.cur == cur && m.copyNeeded == Some(false)
  {
    m := new MultiError(errors, cur, Some(false));
  }

  /** The literal as multierror.go writes it (lines 44-47, 246 and 263): `copyNeeded` is left a nil pointer. */
  method NewAggregateAsWritten(errors: seq<Err>, cur: nat) returns (m: MultiError)
    ensures fresh(m) && m.errors == errors && m.cur == cur && m.copyNeeded == None
  {
    m := new MultiError(errors, cur, None);
  }

  /**
   * `fromSlice(errors)`: nil for no non-nil entry, the only non-nil entry
   * itself for one, and otherwise a new flat aggregate of all entries.
   */
  method FromSlice(xs: seq<Option<Err>>) returns (r: Option<Err>)
    requires AllValid(xs)
    ensures r.None? <==> Count(xs) == 0
    ensures Count(xs) == 1 ==> FirstNonNil(xs, 0) < |xs| && r == xs[FirstNonNil(xs, 0)]
    ensures Count(xs) >= 2 ==>
              r.Some? && r.value.Agg? && fresh(r.value.m) && r.value.m.Valid()
              && r.value.m.errors == Flat(xs) && r.value.m.copyNeeded == Some(false) && r.value.m.cur == 0
  {
    if |xs| == 0 {
      return None;
    }
    if |xs| == 1 {
      assert Count(xs) == (if xs[0].Some? then 1 else 0);
      assert FirstNonNil(xs, 0) == (if xs[0].Some? then 0 else 1);
      return xs[0];
    }
    var res := Inspect(xs);
    if res.count == 0 {
      return None;
    }
    SomeNonNil(xs);
    if res.count == 1 {
      return xs[res.firstErrorIdx];
    }
    var m := BuildFlat(xs, res);
    r := Some(Agg(m));
  }

  /**
   * The last part of `fromSlice`, for two or more non-nil entries: the
   * entries themselves when none is nil or an aggregate, otherwise the
   * entries from the first non-nil one on, aggregates spliced in.
   */
  method BuildFlat(xs: seq<Option<Err>>, res: InspectResult) returns (m: MultiError)
    requires AllValid(xs) && Count(xs) >= 2 && FirstNonNil(xs, 0) < |xs|
    requires res.count == Count(xs) && res.firstErrorIdx == FirstNonNil(xs, 0)
    requires res.containsMultiError <==> ContainsAgg(xs)
    ensures fresh(m) && m.Valid() && m.errors == Flat(xs) && m.copyNeeded == Some(false) && m.cur == 0
  {
    FlatShape(xs, |xs|);
    if res.count == |xs| && !res.containsMultiError {
      FullCount(xs, |xs|);
      var out := seq(|xs|, j requires 0 <= j < |xs| => xs[j].value);
      LeavesFlat(xs, |xs|);
      assert forall o :: o in Aggs(xs) ==> allocated(o);
      m := NewAggregate(out, res.firstErrorIdx);
      assert m.errors == Flat(xs);
      return;
    }
    assert |Flat(xs)| >= 2;
    assert forall o :: o in Aggs(xs) ==> allocated(o);
    var nonNilErrs := CollectFrom(xs, res.firstErrorIdx);
    assert nonNilErrs == Flat(xs);
    assert forall i :: 0 <= i < |nonNilErrs| ==> !nonNilErrs[i].Agg?;
    m := NewAggregate(nonNilErrs, 0);
    assert m.errors == Flat(xs);
  }

  /** `Combine(errors...)`: `fromSlice(errors)`. */
  method Combine(xs: seq<Option<Err>>) returns (r: Option<Err>)
    requires AllValid(xs)
    ensures r.None? <==> Count(xs) == 0
    ensures Count(xs) == 1 ==> FirstNonNil(xs, 0) < |xs| && r == xs[FirstNonNil(xs, 0)]
    ensures Count(xs) >= 2 ==>
              r.Some? && r.value.Agg? && fresh(r.value.m) && r.value.m.Valid()
              && r.value.m.errors == Flat(xs) && r.value.m.copyNeeded == Some(false) && r.value.m.cur == 0
  {
    r := FromSlice(xs);
  }

  /** The loop of `fromSlice` over `errors[firstErrorIdx:]`: aggregates spliced in, other errors kept. */
  method CollectFrom(xs: seq<Option<Err>>, first: nat) returns (out: seq<Err>)
    requires first <= |xs| && forall j :: 0 <= j < first ==> xs[j].None?
    ensures out == Flat(xs)
  {
    NilPrefix(xs, first);
    out := [];
    for i := first to |xs|
      invariant out == FlatUpTo(xs, i)
    {
      assert FlatUpTo(xs, i + 1) == FlatUpTo(xs, i) + Entry(xs[i]);
      match xs[i] {
        case None =>
        case Some(e) =>
          if e.Agg? {
            out := out + e.m.errors;
          } else {
            out := out + [e];
          }
      }
    }
  }

  /** What `Wrap` does: returns an error, or panics. */
  datatype Outcome = Returned(err: Option<Err>) | Panic

  /** The cases in which `Wrap` reaches `l.copyNeeded.Swap` with a nil flag. */
  predicate SwapsNil(l: Option<Err>, r: Option<Err>)
    reads if IsAgg(l) then {l.value.m} else {}
  {
    l.Some? && r.Some? && !r.value.Agg? && l.value.Agg? && l.value.m.copyNeeded.None?
  }

  /**
   * `Wrap(left, right)`: a nil side gives the other side itself. Two
   * non-aggregates become a new two-entry aggregate; an aggregate and a
   * non-aggregate the first time give the aggregate's list with the right
   * error appended (the flag is swapped to true); every other case goes
   * through `fromSlice`.
   */
  method Wrap(l: Option<Err>, r: Option<Err>) returns (out: Outcome)
    requires AllValid([l, r])
    modifies if IsAgg(l) then {l.value.m} else {}
    ensures l.None? ==> out == Returned(r)
    ensures l.Some? && r.None? ==> out == Returned(l)
    ensures out.Panic? <==> old(SwapsNil(l, r))
    ensures IsAgg(l) ==> l.value.m.errors == old(l.value.m.errors) && l.value.m.cur == old(l.value.m.cur)
    ensures IsAgg(l) && r.Some? && !r.value.Agg? && old(l.value.m.copyNeeded).Some? ==>
              l.value.m.copyNeeded == Some(true)
    ensures out.Returned? && l.Some? && r.Some? ==>
              out.err.Some? && out.err.value.Agg? && fresh(out.err.value.m) && out.err.value.m.Valid()
              && out.err.value.m.errors == old(Entry(l) + Entry(r)) && out.err.value.m.copyNeeded == Some(false)
              && out.err.value.m.cur
                 == if IsAgg(l) && !r.value.Agg? && old(l.value.m.copyNeeded) == Some(false) then old(l.value.m.cur) else 0
  {
    if l.None? {
      return Returned(r);
    }
    if r.None? {
      return Returned(l);
    }
    PairFlat(l, r);
    if !r.value.Agg? {
      if l.value.Agg? {
        var lm := l.value.m;
        assert lm.Valid() by {
          assert IsAgg([l, r][0]);
        }
        if lm.copyNeeded.None? {
          return Panic;
        }
        var wasSet := lm.copyNeeded.value;
        lm.copyNeeded := Some(true);
        if !wasSet {
          var es := lm.errors + [r.value];
          assert forall i :: 0 <= i < |es| ==> !es[i].Agg? by {
            forall i | 0 <= i < |es|
              ensures !es[i].Agg?
            {
              if i < |lm.errors| {
                assert es[i] == lm.errors[i];
              }
            }
          }
          var m := NewAggregate(es, lm.cur);
          return Returned(Some(Agg(m)));
        }
      } else {
        var m := NewAggregate([l.value, r.value], 0);
        return Returned(Some(Agg(m)));
      }
    }
    PairFlat(l, r);
    assert forall o :: o in Aggs([l, r]) ==> allocated(o);
    var res := FromSlice([l, r]);
    out := Returned(res);
    assert Entry(l) == old(Entry(l)) by {
      if IsAgg(l) {
        assert l.value.m.errors == old(l.value.m.errors);
      }
    }
  }

  /** The two entries of `Wrap` flatten to the left one's entries, then the right one's, and both count. */
  lemma PairFlat(l: Option<Err>, r: Option<Err>)
    requires l.Some? && r.Some?
    ensures Flat([l, r]) == Entry(l) + Entry(r)
    ensures Count([l, r]) == 2
  {
    var xs := [l, r];
    assert FlatUpTo(xs, 1) == FlatUpTo(xs, 0) + Entry(l);
    assert FlatUpTo(xs, 2) == FlatUpTo(xs, 1) + Entry(r);
    assert CountUpTo(xs, 1) == 1;
  }

  /** `Errors()`: a copy of the list; nothing for a nil receiver. */
  function Errors(m: MultiError?): (r: seq<Err>)
    reads m
    ensures m == null ==> r == []
    ensures m != null ==> r == m.errors
  {
    if m == null then [] else m.errors
  }

  /** `Len()`: the number of entries. */
  function Len(m: MultiError): (n: nat)
    reads m
    ensures n == |Errors(m)|
  {
    |m.errors|
  }

  /** `Last()` as written: the entry at index 0, that is the oldest one, or nil for no entries. */
  function LastAsWritten(m: MultiError): (r: Option<Err>)
    reads m
    ensures |m.errors| > 0 ==> r == Some(m.errors[0])
  {
    if |m.errors| == 0 then None else Some(m.errors[0])
  }

  /** `Last()` as its comment describes it: the newest entry, or nil for no entries. */
  function Last(m: MultiError): (r: Option<Err>)
    reads m
    ensures |m.errors| == 0 <==> r.None?
    ensures |m.errors| > 0 ==> r == Some(m.errors[|m.errors| - 1])
  {
    if |m.errors| == 0 then None else Some(m.errors[|m.errors| - 1])
  }

  /** `Unwrap()`: `Last()`. */
  function Unwrap(m: MultiError): (r: Option<Err>)
    reads m
    ensures r == Last(m)
  {
    Last(m)
  }

  /** Wrapping two errors and asking for the newest: the code as written answers with the older one. */
  method LastAfterWrap(a: ErrorRecord.Error?, b: ErrorRecord.Error?) returns (m: MultiError)
    requires a != b
    ensures LastAsWritten(m) == Some(Ptr(a))
    ensures Last(m) == Some(Ptr(b))
  {
    var out := Wrap(Some(Ptr(a)), Some(Ptr(b)));
    m := out.err.value.m;
  }

  /** An aggregate as multierror.go builds it, wrapped in one more error, reaches the nil flag and panics. */
  method WrapOnSourceAggregatePanics(a: ErrorRecord.Error?, b: ErrorRecord.Error?, c: ErrorRecord.Error?)
    returns (out: Outcome)
    ensures out.Panic?
  {
    var m := NewAggregateAsWritten([Ptr(a), Ptr(b)], 0);
    out := Wrap(Some(Agg(m)), Some(Ptr(c)));
  }

  /** With the flag initialised, wrapping an aggregate in an error never panics and appends the error as the newest entry. */
  method WrapOnBuiltAggregate(xs: seq<Option<Err>>, c: ErrorRecord.Error?) returns (out: Outcome)
    requires AllValid(xs) && Count(xs) >= 2
    ensures out.Returned? && out.err.Some? && out.err.value.Agg?
    ensures Last(out.err.value.m) == Some(Ptr(c))
  {
    var built := FromSlice(xs);
    out := Wrap(built, Some(Ptr(c)));
  }

  /** `true` when `x` is an `*Error` whose id has the bytes `id`. */
  predicate HasID(x: Err, id: seq<Objects.Byte>)
    reads if x.Ptr? then {x.p} else {}
  {
    x.Ptr? && Objects.Contents(ErrorRecord.ID(x.p)) == id
  }

  /** The pointers among the entries. */
  function Ptrs(es: seq<Err>): set<ErrorRecord.Error?>
  {
    set i | 0 <= i < |es| && es[i].Ptr? :: es[i].p
  }

  /** The first index at or after `from` whose entry has the id, if any. */
  function FirstWithID(es: seq<Err>, id: seq<Objects.Byte>, from: nat): (r: Option<nat>)
    requires from <= |es|
    reads Ptrs(es)
    ensures r.Some? ==> from <= r.value < |es| && HasID(es[r.value], id)
                        && forall j :: from <= j < r.value ==> !HasID(es[j], id)
    ensures r.None? ==> forall j :: from <= j < |es| ==> !HasID(es[j], id)
    decreases |es| - from
  {
    if from == |es| then None
    else if HasID(es[from], id) then Some(from)
    else FirstWithID(es, id, from + 1)
  }

  /**
   * `FindByID(id)`: the entry under the cursor if it has the id; otherwise
   * the first entry with the id, which moves the cursor there; otherwise
   * nil and false with the cursor left alone.
   */
  method FindByID(m: MultiError, id: seq<Objects.Byte>) returns (r: Option<Err>, ok: bool)
    requires m.CursorInRange()
    modifies m
    ensures m.errors == old(m.errors) && m.copyNeeded == old(m.copyNeeded) && m.CursorInRange()
    ensures ok ==> m.cur < |m.errors| && r.Some? && HasID(r.value, id) && r == Some(m.errors[m.cur])
    ensures !ok ==> r.None? && m.cur == old(m.cur)
    ensures |m.errors| > 0 && old(HasID(m.errors[m.cur], id)) ==> ok && m.cur == old(m.cur)
    ensures |m.errors| > 0 && !old(HasID(m.errors[m.cur], id)) ==>
              (ok <==> FirstWithID(m.errors, id, 0).Some?)
              && (ok ==> m.cur == FirstWithID(m.errors, id, 0).value)
  {
    if |m.errors| == 0 {
      return None, false;
    }
    if HasID(m.errors[m.cur], id) {
      return Some(m.errors[m.cur]), true;
    }
    ghost var hit := FirstWithID(m.errors, id, 0);
    for i := 0 to |m.errors|
      invariant m.cur == old(m.cur)
      invariant hit.None? || i <= hit.value
      invariant forall j :: 0 <= j < i ==> !HasID(m.errors[j], id)
    {
      if HasID(m.errors[i], id) {
        m.cur := i;
        return Some(m.errors[i]), true;
      }
    }
    return None, false;
  }
}

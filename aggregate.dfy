/**
 * The element rules shared by the `[]*Error` aggregates of multierr.go,
 * multierror.go.go and constructor.go: `appendError` and the loop of
 * `fromSlice` that skips nil entries. An `*Error` is kept as the same
 * pointer (a nil pointer included), an aggregate contributes its errors in
 * order, and an error of another type becomes a new `Error` holding its
 * `Error()` text as the message.
 */
module Aggregate {
  import opened Wrappers
  import ErrorRecord
  import ObjectError

  /** A non-nil `error` value: an `*Error` (possibly a nil pointer), an aggregate given by its `Errors()`, or another error given by its `Error()` text. */
  datatype Err = Ptr(p: ErrorRecord.Error?) | Agg(children: seq<ErrorRecord.Error?>) | Foreign(text: string)

  /** One entry of the result: a pointer taken over as it is, or a new `Error` made from a message. */
  datatype Slot = Keep(p: ErrorRecord.Error?) | Convert(text: string)

  /** What `appendError` appends for `x`. */
  function Slots(x: Err): (r: seq<Slot>)
    ensures x.Ptr? ==> r == [Keep(x.p)]
    ensures x.Foreign? ==> r == [Convert(x.text)]
    ensures x.Agg? ==> |r| == |x.children| && forall k :: 0 <= k < |r| ==> r[k] == Keep(x.children[k])
  {
    match x
    case Ptr(p) => [Keep(p)]
    case Agg(cs) => seq(|cs|, k requires 0 <= k < |cs| => Keep(cs[k]))
    case Foreign(t) => [Convert(t)]
  }

  /** How many entries `x` contributes: its number of errors for an aggregate, one otherwise. */
  function Size(x: Err): (n: nat)
  {
    if x.Agg? then |x.children| else 1
  }

  /** What one input entry contributes: nothing for nil. */
  function Entry(x: Option<Err>): seq<Slot>
  {
    if x.None? then [] else Slots(x.value)
  }

  /** The entries of the flattened list, nil entries dropped, in order. */
  function Flat(xs: seq<Option<Err>>): seq<Slot>
  {
    if |xs| == 0 then [] else Flat(xs[..|xs| - 1]) + Entry(xs[|xs| - 1])
  }

  /** The number of non-nil entries (`inspect`'s `Count`). */
  function Count(xs: seq<Option<Err>>): (n: nat)
    ensures n <= |xs|
  {
    if |xs| == 0 then 0
    else Count(xs[..|xs| - 1]) + (if xs[|xs| - 1].None? then 0 else 1)
  }

  /** The total number of entries after flattening (`inspect`'s `Capacity`). */
  function Capacity(xs: seq<Option<Err>>): nat
  {
    if |xs| == 0 then 0
    else Capacity(xs[..|xs| - 1]) + (if xs[|xs| - 1].None? then 0 else Size(xs[|xs| - 1].value))
  }

  /** `Capacity` is exactly the length of the flattened list. */
  lemma {:induction false} CapacityIsLength(xs: seq<Option<Err>>)
    ensures |Flat(xs)| == Capacity(xs)
  {
    if |xs| > 0 {
      CapacityIsLength(xs[..|xs| - 1]);
    }
  }

  /** Flattening is compositional: the entries of `xs + ys` are those of `xs`, then those of `ys`. */
  lemma {:induction false} FlatAppend(xs: seq<Option<Err>>, ys: seq<Option<Err>>)
    ensures Flat(xs + ys) == Flat(xs) + Flat(ys)
  {
    if |ys| == 0 {
      assert xs + ys == xs;
    } else {
      var init := ys[..|ys| - 1];
      FlatAppend(xs, init);
      FlatAppendStep(xs, ys);
      SlotsAssoc(Flat(xs), Flat(init), Entry(ys[|ys| - 1]));
    }
  }

  lemma SlotsAssoc(a: seq<Slot>, b: seq<Slot>, c: seq<Slot>)
    ensures (a + b) + c == a + (b + c)
  {
  }

  /** The last entry of `ys` is the last entry of `xs + ys`. */
  lemma FlatAppendStep(xs: seq<Option<Err>>, ys: seq<Option<Err>>)
    requires |ys| > 0
    ensures Flat(xs + ys) == Flat(xs + ys[..|ys| - 1]) + Entry(ys[|ys| - 1])
    ensures Flat(ys) == Flat(ys[..|ys| - 1]) + Entry(ys[|ys| - 1])
  {
    var zs := xs + ys;
    assert zs[..|zs| - 1] == xs + ys[..|ys| - 1];
  }

  /** Without non-nil entries nothing is left. */
  lemma {:induction false} NoEntriesWithoutErrors(xs: seq<Option<Err>>)
    requires Count(xs) == 0
    ensures Flat(xs) == []
  {
    if |xs| > 0 {
      NoEntriesWithoutErrors(xs[..|xs| - 1]);
    }
  }

  /** One step of the `fromSlice` loop: one more input entry adds its entries at the end. */
  lemma FlatStep(xs: seq<Option<Err>>, i: nat)
    requires i < |xs|
    ensures Flat(xs[..i + 1]) == Flat(xs[..i]) + Entry(xs[i])
    ensures Count(xs[..i + 1]) == Count(xs[..i]) + (if xs[i].None? then 0 else 1)
    ensures Capacity(xs[..i + 1]) == Capacity(xs[..i]) + (if xs[i].None? then 0 else Size(xs[i].value))
  {
    assert xs[..i + 1][..i] == xs[..i];
  }

  /** `p` is what the result holds for `s`: the very pointer, or a non-nil `Error` whose only field is the message. */
  ghost predicate Made(p: ErrorRecord.Error?, s: Slot)
    reads p
  {
    match s
    case Keep(q) => p == q
    case Convert(t) => p != null && p.Snapshot() == ObjectError.Initial(t)
  }

  /** The non-nil errors a list points to. */
  function Targets(r: seq<ErrorRecord.Error?>): set<ErrorRecord.Error>
  {
    set p: ErrorRecord.Error | p in r
  }

  /** `r` holds, position by position, the entries `slots` describe. */
  ghost predicate Realises(r: seq<ErrorRecord.Error?>, slots: seq<Slot>)
    reads Targets(r)
  {
    |r| == |slots| && forall k :: 0 <= k < |r| ==> Made(r[k], slots[k])
  }

  /** `New(text)`: a new `Error` holding only the message. */
  method NewFromText(text: string) returns (e: ErrorRecord.Error)
    ensures fresh(e) && e.Snapshot() == ObjectError.Initial(text)
  {
    e := new ErrorRecord.Error(ObjectError.Initial(text));
  }

  /** `appendError(errors, x)` for a non-nil `x`. */
  method AppendError(acc: seq<ErrorRecord.Error?>, x: Err) returns (r: seq<ErrorRecord.Error?>)
    ensures |r| == |acc| + |Slots(x)| && r[..|acc|] == acc
    ensures forall k :: 0 <= k < |Slots(x)| ==> Made(r[|acc| + k], Slots(x)[k])
    ensures forall k :: 0 <= k < |Slots(x)| && Slots(x)[k].Convert? ==> fresh(r[|acc| + k])
  {
    match x {
      case Ptr(p) =>
        r := acc + [p];
      case Agg(cs) =>
        r := acc + cs;
      case Foreign(t) =>
        var e := NewFromText(t);
        r := acc + [e];
    }
  }

  /** The loop of `fromSlice`: `appendError` on every non-nil entry, starting from an empty list. */
  method AppendAll(xs: seq<Option<Err>>) returns (r: seq<ErrorRecord.Error?>)
    ensures Realises(r, Flat(xs))
    ensures forall k :: 0 <= k < |r| && Flat(xs)[k].Convert? ==> fresh(r[k])
  {
    r := [];
    for i := 0 to |xs|
      invariant Realises(r, Flat(xs[..i]))
      invariant forall k :: 0 <= k < |r| && Flat(xs[..i])[k].Convert? ==> fresh(r[k])
    {
      FlatStep(xs, i);
      if xs[i].Some? {
        r := AppendStep(r, xs[..i], xs[i].value);
      }
    }
    assert xs[..|xs|] == xs;
  }

  /** One non-nil entry of the loop, stated against the entries so far. */
  method AppendStep(acc: seq<ErrorRecord.Error?>, done: seq<Option<Err>>, x: Err) returns (r: seq<ErrorRecord.Error?>)
    requires Realises(acc, Flat(done))
    ensures Realises(r, Flat(done) + Slots(x))
    ensures forall k :: 0 <= k < |acc| ==> r[k] == acc[k]
    ensures forall k :: |acc| <= k < |r| && Slots(x)[k - |acc|].Convert? ==> fresh(r[k])
  {
    r := AppendError(acc, x);
    ghost var s := Flat(done) + Slots(x);
    forall k | 0 <= k < |r|
      ensures Made(r[k], s[k])
    {
      if k < |acc| {
        assert r[k] == r[..|acc|][k];
      } else {
        assert s[k] == Slots(x)[k - |acc|];
        assert r[k] == r[|acc| + (k - |acc|)];
      }
    }
  }
}

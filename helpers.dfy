/**
 * helpers.go: lookups over an error that may be an `Errorer`, an aggregate
 * (anything with `Errors()` or `WrappedErrors()`), or some other error.
 * Every search runs over the aggregate's children in their stored order and
 * stops at the first match.
 */
module Helpers {
  import opened Wrappers

  /**
   * An `Errorer` as these helpers use it: its `ID()`, its message, its
   * `ErrorType()`, and whether its own `ErrorOrNil()` returns itself
   * (`failing`) or nil.
   */
  datatype Errorer = Errorer(id: string, msg: string, errorType: string, failing: bool)

  /** A non-nil `error` value. */
  datatype Err =
    | Leaf(e: Errorer)
      /** Has `Errors() []error` (this package's aggregate). */
    | Errors(children: seq<Option<Err>>)
      /** Has `WrappedErrors() []error` (a go-multierror aggregate). */
    | Wrapped(children: seq<Option<Err>>)
      /** Any other error, by its `Error()` text. */
    | Plain(text: string)

  /** `GetErrorType(err)`: the error type of an `*Error`, "" for anything else. */
  function GetErrorType(err: Option<Err>): (t: string)
    ensures !(err.Some? && err.value.Leaf?) ==> t == ""
  {
    if err.Some? && err.value.Leaf? then err.value.e.errorType else ""
  }

  /** `GetID(err)`: the id of an `*Error`, "" for anything else. */
  function GetID(err: Option<Err>): (id: string)
    ensures !(err.Some? && err.value.Leaf?) ==> id == ""
  {
    if err.Some? && err.value.Leaf? then err.value.e.id else ""
  }

  /** `simpleCast(err)`: the `Errorer` if `err` is one. */
  function SimpleCast(err: Option<Err>): (r: Option<Errorer>)
    ensures r.Some? <==> err.Some? && err.value.Leaf?
  {
    if err.Some? && err.value.Leaf? then Some(err.value.e) else None
  }

  /** `true` when `x` is an `Errorer`. */
  predicate IsLeaf(x: Option<Err>)
  {
    x.Some? && x.value.Leaf?
  }

  /** The loop of `errsFn` from index `from`: the first child that is an `Errorer`. */
  function FirstErrorer(errs: seq<Option<Err>>, from: nat): (r: Option<Errorer>)
    requires from <= |errs|
    ensures r.None? <==> forall i :: from <= i < |errs| ==> !IsLeaf(errs[i])
    ensures r.Some? ==> exists i :: from <= i < |errs| && errs[i] == Some(Leaf(r.value))
                                   && forall j :: from <= j < i ==> !IsLeaf(errs[j])
    decreases |errs| - from
  {
    if from == |errs| then None
    else if IsLeaf(errs[from]) then Some(errs[from].value.e)
    else FirstErrorer(errs, from + 1)
  }

  /** `errsFn(errs)`. */
  function ErrsFn(errs: seq<Option<Err>>): (r: Option<Errorer>)
    ensures r == FirstErrorer(errs, 0)
  {
    FirstErrorer(errs, 0)
  }

  /** `true` for an error `cast` succeeds on: an aggregate of either kind, or an `Errorer`. */
  predicate Castable(err: Option<Err>)
  {
    err.Some? && !err.value.Plain?
  }

  /** `cast(err)`: an aggregate's first `Errorer` child (nil if it has none), an `Errorer` itself, or no success. */
  function CastErr(err: Option<Err>): (r: (Option<Errorer>, bool))
    ensures r.1 <==> Castable(err)
    ensures !r.1 ==> r.0.None?
    ensures IsLeaf(err) ==> r.0 == Some(err.value.e)
    ensures err.Some? && (err.value.Errors? || err.value.Wrapped?) ==> r.0 == FirstErrorer(err.value.children, 0)
  {
    match err
    case None => (None, false)
    case Some(x) =>
      match x
      case Errors(cs) => (ErrsFn(cs), true)
      case Wrapped(cs) => (ErrsFn(cs), true)
      case Leaf(e) => (Some(e), true)
      case Plain(_) => (None, false)
  }

  /** What `ErrorOrNil` does: returns an error or nil, or panics. */
  datatype Outcome = Returned(err: Option<Err>) | Panic

  /** An `Errorer`'s own `ErrorOrNil()`: itself, or nil for a warning. */
  function OwnErrorOrNil(e: Errorer): (r: Option<Err>)
    ensures r.Some? <==> e.failing
    ensures r.Some? ==> r.value == Leaf(e)
  {
    if e.failing then Some(Leaf(e)) else None
  }

  /**
   * `ErrorOrNil(err)` as written: a castable error hands over to the
   * `ErrorOrNil()` of what `cast` found, which for an aggregate is only its
   * first `Errorer` child, and a nil interface when it has none.
   */
  function ErrorOrNilAsWritten(err: Option<Err>): (r: Outcome)
    ensures !Castable(err) ==> r == Returned(err)
    ensures r.Panic? <==> Castable(err) && CastErr(err).0.None?
  {
    var (e, ok) := CastErr(err);
    if !ok then Returned(err)
    else if e.None? then Panic
    else Returned(OwnErrorOrNil(e.value))
  }

  /** A result that counts as an error: any error other than an `Errorer` that is a warning. */
  predicate IsFailure(x: Err)
  {
    !x.Leaf? || x.e.failing
  }

  /** The first non-nil answer among `rs`, searching from `from`. */
  function FirstAnswer(rs: seq<Option<Err>>, from: nat): (r: Option<Err>)
    requires from <= |rs|
    ensures r.None? <==> forall i :: from <= i < |rs| ==> rs[i].None?
    ensures r.Some? ==> exists i :: from <= i < |rs| && rs[i] == r
                                   && forall j :: from <= j < i ==> rs[j].None?
    decreases |rs| - from
  {
    if from == |rs| then None
    else if rs[from].Some? then rs[from]
    else FirstAnswer(rs, from + 1)
  }

  /**
   * `ErrorOrNil(err)` as its comment describes it: an error is returned when
   * at least one error in the chain is a failure, and only an `Errorer`
   * that is a warning does not count. An aggregate therefore gives the
   * answer of its first child that has one (nil when none has), an
   * `Errorer` its own `ErrorOrNil()`, and any other error comes back
   * unchanged.
   */
  function ErrorOrNil(err: Option<Err>): (r: Option<Err>)
    ensures !Castable(err) ==> r == err
    ensures IsLeaf(err) ==> r == OwnErrorOrNil(err.value.e)
    ensures r.Some? ==> IsFailure(r.value) && !r.value.Errors? && !r.value.Wrapped?
    ensures err.Some? && (err.value.Errors? || err.value.Wrapped?) ==>
              (r.None? <==> forall i :: 0 <= i < |err.value.children| ==> ErrorOrNil(err.value.children[i]).None?)
    ensures err.Some? && (err.value.Errors? || err.value.Wrapped?) && r.Some? ==>
              exists i :: 0 <= i < |err.value.children| && ErrorOrNil(err.value.children[i]) == r
                          && forall j :: 0 <= j < i ==> ErrorOrNil(err.value.children[j]).None?
    decreases err
  {
    match err
    case None => None
    case Some(x) =>
      match x
      case Errors(cs) =>
        var rs := seq(|cs|, i requires 0 <= i < |cs| => ErrorOrNil(cs[i]));
        assert forall i :: 0 <= i < |cs| ==> rs[i] == ErrorOrNil(cs[i]);
        FirstAnswer(rs, 0)
      case Wrapped(cs) =>
        var rs := seq(|cs|, i requires 0 <= i < |cs| => ErrorOrNil(cs[i]));
        assert forall i :: 0 <= i < |cs| ==> rs[i] == ErrorOrNil(cs[i]);
        FirstAnswer(rs, 0)
      case Leaf(e) => OwnErrorOrNil(e)
      case Plain(_) => err
  }

  /** The corrected `ErrorOrNil` never returns a warning or an aggregate, and applying it twice changes nothing. */
  lemma ErrorOrNilIdempotent(err: Option<Err>)
    ensures ErrorOrNil(err).Some? ==> IsFailure(ErrorOrNil(err).value)
    ensures ErrorOrNil(ErrorOrNil(err)) == ErrorOrNil(err)
  {
    var r := ErrorOrNil(err);
    if r.Some? && r.value.Leaf? {
      assert OwnErrorOrNil(r.value.e) == r;
    }
  }

  /**
   * The corrected `ErrorOrNil` agrees with the code whenever what `cast`
   * finds is a failure and no child that is not an `Errorer` is an error
   * in its own right.
   */
  lemma {:induction false} ErrorOrNilAgrees(err: Option<Err>)
    requires Castable(err) && CastErr(err).0.Some? && CastErr(err).0.value.failing
    requires err.value.Errors? || err.value.Wrapped? ==>
               forall i :: 0 <= i < |err.value.children| && !IsLeaf(err.value.children[i]) ==>
                 ErrorOrNil(err.value.children[i]).None?
    ensures ErrorOrNilAsWritten(err) == Returned(ErrorOrNil(err))
  {
    if !IsLeaf(err) {
      var cs := err.value.children;
      var e := FirstErrorer(cs, 0).value;
      var k :| 0 <= k < |cs| && cs[k] == Some(Leaf(e)) && forall j :: 0 <= j < k ==> !IsLeaf(cs[j]);
      assert ErrorOrNil(cs[k]) == Some(Leaf(e));
      var i :| 0 <= i < |cs| && ErrorOrNil(cs[i]) == ErrorOrNil(err)
                && forall j :: 0 <= j < i ==> ErrorOrNil(cs[j]).None?;
      assert ErrorOrNil(err).Some?;
      if i < k {
        assert false;
      } else if k < i {
        assert false;
      }
    }
  }

  /** A warning first and a failure second: the code as written answers nil, the intended answer is the failure. */
  lemma WarningFirstHidesFailure(w: Errorer, f: Errorer)
    requires !w.failing && f.failing
    ensures ErrorOrNilAsWritten(Some(Errors([Some(Leaf(w)), Some(Leaf(f))]))) == Returned(None)
    ensures ErrorOrNil(Some(Errors([Some(Leaf(w)), Some(Leaf(f))]))) == Some(Leaf(f))
  {
    var err := Some(Errors([Some(Leaf(w)), Some(Leaf(f))]));
    var cs := err.value.children;
    assert FirstErrorer(cs, 0) == Some(w);
    assert ErrorOrNil(cs[0]) == None && ErrorOrNil(cs[1]) == Some(Leaf(f));
  }

  /**
   * An aggregate holding one plain error: the code as written calls a method
   * on a nil interface; the intended answer is that error, since it is not
   * a warning.
   */
  lemma NoErrorerPanics(text: string)
    ensures ErrorOrNilAsWritten(Some(Errors([Some(Plain(text))]))) == Panic
    ensures ErrorOrNil(Some(Errors([Some(Plain(text))]))) == Some(Plain(text))
  {
    var err := Some(Errors([Some(Plain(text))]));
    var cs := err.value.children;
    assert FirstErrorer(cs, 1) == None;
    assert ErrorOrNil(cs[0]) == Some(Plain(text));
  }

  /** `Cast(err)` of helpers.go: what `cast` finds for a castable error, else a new `Error` with `err.Error()` as its message. */
  function Cast(err: Option<Err>): (r: Option<Errorer>)
    ensures err.None? ==> r.None?
    ensures IsLeaf(err) ==> r == Some(err.value.e)
    ensures Castable(err) ==> r == CastErr(err).0
    ensures err.Some? && err.value.Plain? ==> r == Some(New(err.value.text))
  {
    if err.None? then None
    else
      var (e, ok) := CastErr(err);
      if ok then e else Some(New(err.value.text))
  }

  /** `New(text)` as an `Errorer`: no id, no type, and a failure. */
  function New(text: string): (e: Errorer)
    ensures e.msg == text && e.id == "" && e.errorType == "" && e.failing
  {
    Errorer("", text, "", true)
  }

  /** `true` when `x` is an `Errorer` with the id. */
  predicate HasID(x: Option<Err>, id: string)
  {
    IsLeaf(x) && x.value.e.id == id
  }

  /** The loop of `checkIDFn` from index `from`: the first `Errorer` child with the id. */
  function CheckID(errs: seq<Option<Err>>, id: string, from: nat): (r: Option<Errorer>)
    requires from <= |errs|
    ensures r.None? <==> forall i :: from <= i < |errs| ==> !HasID(errs[i], id)
    ensures r.Some? ==> r.value.id == id
                        && exists i :: from <= i < |errs| && errs[i] == Some(Leaf(r.value))
                                       && forall j :: from <= j < i ==> !HasID(errs[j], id)
    decreases |errs| - from
  {
    if from == |errs| then None
    else if HasID(errs[from], id) then Some(errs[from].value.e)
    else CheckID(errs, id, from + 1)
  }

  /**
   * `findByID(err, id)`: for an aggregate, its first `Errorer` child with
   * the id; for an `Errorer`, itself, found when its id matches; any other
   * error is never found.
   */
  function FindByID(err: Option<Err>, id: string): (r: (Option<Errorer>, bool))
    ensures r.1 ==> r.0.Some? && r.0.value.id == id
    ensures !Castable(err) ==> r == (None, false)
    ensures IsLeaf(err) ==> r == (Some(err.value.e), err.value.e.id == id)
    ensures err.Some? && (err.value.Errors? || err.value.Wrapped?) ==>
              r.0 == CheckID(err.value.children, id, 0) && (r.1 <==> r.0.Some?)
  {
    match err
    case None => (None, false)
    case Some(x) =>
      match x
      case Errors(cs) => var e := CheckID(cs, id, 0); (e, e.Some?)
      case Wrapped(cs) => var e := CheckID(cs, id, 0); (e, e.Some?)
      case Leaf(e) => (Some(e), e.id == id)
      case Plain(_) => (None, false)
  }

  /** `UnwrapByID(err, id)`: what `findByID` found, or nil on a miss. */
  function UnwrapByID(err: Option<Err>, id: string): (r: Option<Errorer>)
    ensures r.Some? ==> r.value.id == id
    ensures r.Some? <==> FindByID(err, id).1
    ensures r.Some? ==> r == FindByID(err, id).0
  {
    var (e, ok) := FindByID(err, id);
    if ok then e else None
  }

  /** `Contains(err, id)`: whether `findByID` succeeds, which is exactly when `UnwrapByID` finds an error with the id. */
  function Contains(err: Option<Err>, id: string): (b: bool)
    ensures b <==> UnwrapByID(err, id).Some?
    ensures b ==> UnwrapByID(err, id).value.id == id
  {
    FindByID(err, id).1
  }

  /** Among children with equal ids, the one stored first is found; one stored later is not. */
  lemma FirstOfDuplicatesWins(a: Errorer, b: Errorer, rest: seq<Option<Err>>)
    requires a.id == b.id && a != b
    ensures UnwrapByID(Some(Errors([Some(Leaf(a))] + rest + [Some(Leaf(b))])), a.id) == Some(a)
  {
    var cs := [Some(Leaf(a))] + rest + [Some(Leaf(b))];
    assert HasID(cs[0], a.id);
  }
}

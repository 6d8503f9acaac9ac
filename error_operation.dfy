/**
 * error_operation.go: the list of operations of an `Error`. Both
 * options build a new slice and assign it, so whoever held the old slice
 * keeps seeing the old contents; here lists are values, which gives the
 * same guarantee.
 */
module ErrorOperation {
  import opened Wrappers
  import CommonError

  /** `AppendOperations(ops...)` (a call without arguments passes nil) and `SetOperations(ops...)`. */
  datatype OpsSetter =
    | AppendOperations(more: Option<seq<string>>)
    | SetOperations(ops: seq<string>)

  /** The list after the option ran on a non-nil error holding `current`. */
  function NewOperations(current: Option<seq<string>>, s: OpsSetter): (r: Option<seq<string>>)
    ensures s.AppendOperations? && s.more.None? ==> r == current
    ensures s.AppendOperations? && s.more.Some? ==> r == Some(current.GetOr([]) + s.more.value)
    ensures s.SetOperations? ==> r == Some(s.ops)
  {
    match s
    case AppendOperations(None) => current
    case AppendOperations(Some(ops)) => Some(current.GetOr([]) + ops)
    case SetOperations(ops) => Some(ops)
  }

  /** Runs the option on `e`; only `operations` changes, and a nil `e` is left alone. */
  method Apply(e: CommonError.Error?, s: OpsSetter)
    modifies e
    ensures e != null ==>
      e.Snapshot() == old(e.Snapshot()).(operations := NewOperations(old(e.operations), s))
  {
    if e == null {
      return;
    }
    match s {
      case AppendOperations(ops) =>
        if ops.None? {
          return;
        }
        var grown := e.operations.GetOr([]);
        grown := grown + ops.value;
        e.operations := Some(grown);
      case SetOperations(ops) =>
        e.operations := Some(ops);
    }
  }

  /** `Operations()`: the stored list as it is, nil included. */
  function Operations(e: CommonError.Error): (r: Option<seq<string>>)
    reads e
    ensures r == e.Snapshot().operations
  {
    e.operations
  }

  /** A record that was never given operations reports nil. */
  lemma ZeroHasNoOperations()
    ensures CommonError.ZeroFields().operations == None
  {
  }

  /** Two appends in a row equal one append of both lists, in order. */
  lemma AppendTwice(current: Option<seq<string>>, a: seq<string>, b: seq<string>)
    ensures NewOperations(NewOperations(current, AppendOperations(Some(a))), AppendOperations(Some(b)))
            == NewOperations(current, AppendOperations(Some(a + b)))
  {
    assert current.GetOr([]) + a + b == current.GetOr([]) + (a + b);
  }

  /** An append after a set extends exactly the list that was set. */
  lemma SetThenAppend(current: Option<seq<string>>, a: seq<string>, b: seq<string>)
    ensures NewOperations(NewOperations(current, SetOperations(a)), AppendOperations(Some(b)))
            == Some(a + b)
  {
  }

  /** A set discards whatever was stored before. */
  lemma SetForgets(c1: Option<seq<string>>, c2: Option<seq<string>>, a: seq<string>)
    ensures NewOperations(c1, SetOperations(a)) == NewOperations(c2, SetOperations(a))
  {
  }
}

/**
 * constructor.go, lines 1-29: `New(i)` takes its message from a string,
 * an `error`, a `String()` method or a `func() string`, and anything else
 * (nil included) gives an empty message; `NewWith(ops...)` runs the options
 * on a zero `Error`.
 */
module Constructor {
  import opened Wrappers
  import Ctx
  import Objects
  import ErrorRecord
  import Setters
  import ObjectError

  /** What `New` is given, by the case of its type switch that matches; a value of several kinds takes the first case. */
  datatype Input =
    | Str(s: string)
    | ErrorValue(errorText: string)
    | StringerValue(stringText: string)
    | StringFunc(result: string)
    | Other

  /** The message `New` picks. */
  function Message(i: Input): (m: string)
    ensures i.Other? ==> m == ""
  {
    match i
    case Str(s) => s
    case ErrorValue(t) => t
    case StringerValue(t) => t
    case StringFunc(t) => t
    case Other => ""
  }

  /** `NewWith(ops...)`: a zero `Error` with the options applied in order. */
  method NewWith(ops: seq<Setters.Setter>) returns (e: ErrorRecord.Error)
    modifies Setters.Installed(ops)
    ensures fresh(e)
    ensures Setters.Attrs(e.Snapshot()) == Setters.Attrs(Setters.ApplyAll(ErrorRecord.ZeroFields(), ops))
    ensures Setters.NoAppend(ops) ==> e.Snapshot() == Setters.ApplyAll(ErrorRecord.ZeroFields(), ops)
    ensures Setters.NoReplace(ops) ==> Ctx.Entries(e.contextInfo) == Setters.Appends(map[], ops)
    ensures var st := Setters.CtxRun(Setters.CtxStart(null, old(Setters.Store(Setters.Installed(ops)))), ops);
            Setters.Tracks(e, st) && (st.ref.Created? ==> fresh(e.contextInfo))
  {
    e := new ErrorRecord.Error(ErrorRecord.ZeroFields());
    assert Setters.MapOf(e) + Setters.Installed(ops) == Setters.Installed(ops);
    Setters.ApplyEach(e, ops);
  }

  /** `New(i)`: `NewWith(SetMsg(msg))`, i.e. an `Error` holding only the message. */
  method New(i: Input) returns (e: ErrorRecord.Error)
    ensures fresh(e)
    ensures e.Snapshot() == ObjectError.Initial(Message(i))
  {
    var msg := Message(i);
    SetMsgOnly(msg);
    e := NewWith([Setters.SetMsg(msg)]);
  }

  /** A single `SetMsg` on the zero `Error` yields exactly the fields `New(msg)` of errors.go starts from. */
  lemma SetMsgOnly(msg: string)
    ensures Setters.NoAppend([Setters.SetMsg(msg)])
    ensures Setters.Installed([Setters.SetMsg(msg)]) == {}
    ensures Setters.ApplyAll(ErrorRecord.ZeroFields(), [Setters.SetMsg(msg)]) == ObjectError.Initial(msg)
  {
    var ops := [Setters.SetMsg(msg)];
    assert ops[..0] == [];
  }

  /** With two `SetMsg` options the later message is the one kept. */
  lemma LaterSetMsgWins(a: string, b: string)
    ensures Setters.ApplyAll(ErrorRecord.ZeroFields(), [Setters.SetMsg(a), Setters.SetMsg(b)]).msg
            == Some(Objects.NewObjectFromString(b))
  {
    Setters.LastSetMsgWins(ErrorRecord.ZeroFields(), [Setters.SetMsg(a), Setters.SetMsg(b)], 1);
  }
}

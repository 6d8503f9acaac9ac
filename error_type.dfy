/** error_type.go: the named string type `ErrorType` and its option and getter. */
module ErrorTypes {
  import CommonError

  /** `type ErrorType string`. */
  type ErrorType = string

  /** `NewErrorType(s)`: the conversion keeps the text. */
  function NewErrorType(s: string): (t: ErrorType)
    ensures |t| == |s| && forall i :: 0 <= i < |s| ==> t[i] == s[i]
  {
    s
  }

  /** `ErrorType.String()`. */
  function String(t: ErrorType): (s: string)
    ensures |s| == |t| && forall i :: 0 <= i < |t| ==> s[i] == t[i]
  {
    t
  }

  /** `UnknownErrorType`, the default type. */
  const UnknownErrorType: ErrorType := NewErrorType("UNKNOWN_TYPE")

  /** `NewErrorType(s).String() == s`. */
  lemma RoundTrip(s: string)
    ensures String(NewErrorType(s)) == s
  {
  }

  /** The default type prints as UNKNOWN_TYPE. */
  lemma UnknownText()
    ensures String(UnknownErrorType) == "UNKNOWN_TYPE"
  {
  }

  /** `SetErrorType(t)`: a nil `e` is left alone; otherwise only `errorType` changes. */
  method SetErrorType(e: CommonError.Error?, t: ErrorType)
    modifies e
    ensures e != null ==> e.Snapshot() == old(e.Snapshot()).(errorType := t)
  {
    if e == null {
      return;
    }
    e.errorType := t;
  }

  /** `ErrorType()`: the stored type. */
  function ErrorTypeOf(e: CommonError.Error): (t: ErrorType)
    reads e
    ensures t == e.Snapshot().errorType
  {
    e.errorType
  }
}

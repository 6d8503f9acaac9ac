/**
 * The error-kind enumeration of the real-world example application:
 * `IntErr` is a Go `int`; ENo (0) through EInputBody (7) are named.
 */
module IntErrKind {

  type IntErr = int

  const ENo: IntErr := 0
  const EUnknown: IntErr := 1
  const EValidation: IntErr := 2
  const ENotFound: IntErr := 3
  const EInternal: IntErr := 4
  const EDuplicate: IntErr := 5
  const EEmpty: IntErr := 6
  const EInputBody: IntErr := 7

  /** The seven names, indexed by `constant - 1`. */
  const Names: seq<string> :=
    ["Unknown", "Validation", "NotFound", "Internal", "Duplicate", "Empty", "InputBody"]

  /** `ParseIntErr(s)`: the constant named `s`, EUnknown for any other text. */
  function ParseIntErr(s: string): (r: IntErr)
    ensures EUnknown <= r <= EInputBody
    ensures forall i :: 0 <= i < |Names| && Names[i] == s ==> r == i + 1
    ensures s !in Names ==> r == EUnknown
  {
    match s
    case "Unknown" => EUnknown
    case "Validation" => EValidation
    case "NotFound" => ENotFound
    case "Internal" => EInternal
    case "Duplicate" => EDuplicate
    case "Empty" => EEmpty
    case "InputBody" => EInputBody
    case _ => EUnknown
  }

  /** `IntErr.String()`: the constant's name, "Unknown" outside EUnknown..EInputBody. */
  function String(r: IntErr): (s: string)
    ensures s in Names
    ensures EUnknown <= r <= EInputBody ==> s == Names[r - 1]
    ensures !(EUnknown <= r <= EInputBody) ==> s == "Unknown"
  {
    match r
    case 1 => "Unknown"
    case 2 => "Validation"
    case 3 => "NotFound"
    case 4 => "Internal"
    case 5 => "Duplicate"
    case 6 => "Empty"
    case 7 => "InputBody"
    case _ => "Unknown"
  }

  /** `IntErr.Status()`: the HTTP status code the example answers with. */
  function Status(r: IntErr): (code: int)
    ensures r == EValidation ==> code == 422
    ensures r == ENotFound ==> code == 404
    ensures r == EDuplicate ==> code == 409
    ensures r == EEmpty ==> code == 410
    ensures r == EInputBody ==> code == 400
    ensures r !in {EValidation, ENotFound, EDuplicate, EEmpty, EInputBody} ==> code == 500
  {
    match r
    case 2 => 422
    case 3 => 404
    case 5 => 409
    case 6 => 410
    case 7 => 400
    case _ => 500
  }

  /** The names are pairwise different, so each one parses to its own constant. */
  lemma NamesDistinct()
    ensures forall i, j :: 0 <= i < j < |Names| ==> Names[i] != Names[j]
  {
  }

  /** Every named constant from EUnknown to EInputBody survives a string round trip. */
  lemma StringRoundTrip(r: IntErr)
    requires EUnknown <= r <= EInputBody
    ensures ParseIntErr(String(r)) == r
  {
    NamesDistinct();
  }

  /** ENo and values out of range print as "Unknown" and so come back as EUnknown. */
  lemma OutOfRangeCollapses(r: IntErr)
    requires !(EUnknown <= r <= EInputBody)
    ensures ParseIntErr(String(r)) == EUnknown
    ensures ParseIntErr(String(r)) != r
  {
  }

  /** Any string parses to a constant that prints back as a name, so parse is idempotent on names. */
  lemma ParseStringParse(s: string)
    ensures String(ParseIntErr(s)) == (if s in Names then s else "Unknown")
  {
    NamesDistinct();
  }
}

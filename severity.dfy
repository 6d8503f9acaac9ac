/**
 * The severity enumeration of the log package: a `uint32` whose meaningful
 * values are Warn (1) and Error (2); Unknown (0) and Ends (3) only bound
 * the range.
 */
module Severity {
  import opened Wrappers
  import Text

  /** `Severity uint32`. */
  type Severity = x: int | 0 <= x < 0x1_0000_0000

  const SeverityUnknown: Severity := 0
  const SeverityWarn: Severity := 1
  const SeverityError: Severity := 2
  const SeverityEnds: Severity := 3

  /** The text of `ErrNotValidSeverity`. */
  const ErrNotValidSeverity: string := "not a valid severity"

  /** `Uint32()`: the raw number. */
  function Uint32(s: Severity): (r: Severity)
  {
    s
  }

  /** `Valid()`: strictly between Unknown and Ends, i.e. Warn or Error. */
  function Valid(s: Severity): (b: bool)
    ensures b <==> s == SeverityWarn || s == SeverityError
  {
    SeverityUnknown < s < SeverityEnds
  }

  /** `String()`: ERROR, WARN, and UNKNOWN for every other value. */
  function String(s: Severity): (r: string)
    ensures r == "ERROR" <==> s == SeverityError
    ensures r == "WARN" <==> s == SeverityWarn
    ensures r == "UNKNOWN" <==> !Valid(s)
  {
    match s
    case 2 => "ERROR"
    case 1 => "WARN"
    case _ => "UNKNOWN"
  }

  /** The spellings `ParseSeverityString` accepts for Warn, after lower-casing. */
  predicate IsWarnWord(w: string)
  {
    w == "w" || w == "warn" || w == "warning"
  }

  /** The spellings `ParseSeverityString` accepts for Error, after lower-casing. */
  predicate IsErrorWord(w: string)
  {
    w == "e" || w == "error" || w == "err"
  }

  /** `ParseSeverityString(v)`: the pair (severity, error). */
  function ParseSeverityString(v: string): (r: (Severity, Option<string>))
    ensures r.1 == None <==> IsWarnWord(Text.ToLower(v)) || IsErrorWord(Text.ToLower(v))
    ensures r.1 == None ==> Valid(r.0)
    ensures r.1 == None && IsWarnWord(Text.ToLower(v)) ==> r.0 == SeverityWarn
    ensures r.1 == None && IsErrorWord(Text.ToLower(v)) ==> r.0 == SeverityError
    ensures r.1 != None ==> r == (SeverityUnknown, Some(ErrNotValidSeverity))
  {
    var w := Text.ToLower(v);
    if IsWarnWord(w) then (SeverityWarn, None)
    else if IsErrorWord(w) then (SeverityError, None)
    else (SeverityUnknown, Some(ErrNotValidSeverity))
  }

  /** `ParseSeverityUint(v)`: the pair (severity, error). */
  function ParseSeverityUint(v: Severity): (r: (Severity, Option<string>))
    ensures r.1 == None <==> v == SeverityWarn || v == SeverityError
    ensures r.1 == None ==> r.0 == v
    ensures r.1 != None ==> r == (SeverityUnknown, Some(ErrNotValidSeverity))
  {
    if !Valid(v) then (SeverityUnknown, Some(ErrNotValidSeverity)) else (v, None)
  }

  /** Every valid severity survives `ParseSeverityUint(s.Uint32())`. */
  lemma ParseUintRoundTrip(s: Severity)
    requires Valid(s)
    ensures ParseSeverityUint(Uint32(s)) == (s, None)
  {
  }

  /** Only 1 and 2 are accepted: 0, 3 and 100 are rejected. */
  lemma ParseUintRejects()
    ensures ParseSeverityUint(0) == (SeverityUnknown, Some(ErrNotValidSeverity))
    ensures ParseSeverityUint(3) == (SeverityUnknown, Some(ErrNotValidSeverity))
    ensures ParseSeverityUint(100) == (SeverityUnknown, Some(ErrNotValidSeverity))
  {
  }

  /** Upper-case ASCII words lower-case letter by letter. */
  lemma LowerOfWords()
    ensures Text.ToLower("WARN") == "warn"
    ensures Text.ToLower("ERROR") == "error"
    ensures Text.ToLower("Warning") == "warning"
  {
    assert Text.ToLower("WARN") == "warn";
    assert Text.ToLower("ERROR") == "error";
    assert Text.ToLower("Warning") == "warning";
  }

  /**
   * `ParseSeverityString(s.String())` gives back every valid `s`, because
   * parsing lower-cases "WARN" and "ERROR" first.
   */
  lemma ParseStringRoundTrip(s: Severity)
    requires Valid(s)
    ensures ParseSeverityString(String(s)) == (s, None)
  {
    LowerOfWords();
  }

  /** Case does not matter: every mixed-case spelling of "warning" is Warn. */
  lemma ParseStringCaseInsensitive(v: string)
    requires Text.ToLower(v) == "warning"
    ensures ParseSeverityString(v) == (SeverityWarn, None)
  {
  }
}

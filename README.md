# ovsinc/errors in Dafny

A model of the Go library `github.com/ovsinc/errors`. The library provides an
`Error` record with these parts:

- an id, a message and an operation;
- a context map, shared between errors;
- an optional localizer and translate context, used to translate the message.

The library also provides:

- aggregates ("multi-errors") that flatten lists of errors;
- string and JSON renderers and marshallers;
- helpers that look errors up by id, cast them to `Error`, or keep only failures.

The repository has several layouts of the record and of the aggregate side
by side. The files disagree on the record's fields, so each layout has its
own module here:

- `ErrorRecord` (error.go / errors.go), with the options of constructor.go
  (`Setters`), the constructors (`Constructor`) and the methods
  (`ObjectError`).
- `CommonError`, the record that options_common.go, error_operation.go,
  context_info.go, error_type.go, translate.go and format.go use. It has
  string fields, a severity, an operation list and a formatting function.
- `KVOptions`, the record of options.go. Its attributes are byte slices and
  its context is an ordered list of pairs.
- Three aggregates:
  - `MultiErrSlice`: a slice of `*Error` (multierr.go);
  - `LenLastAggregate`: a slice with a cached length and last index
    (multierror.go.go, duplicated in constructor.go);
  - `MultiErrorCursor`: a list of `error` values with a search cursor and a
    copy-on-wrap flag (multierror.go).

  `Aggregate` holds the element rules the first two share.
- `Helpers` (helpers.go) and `CastOut` (cast.go).

How the model is built:

- Records whose fields the source updates through a pointer are Dafny
  classes. The options are methods that modify them, and each method is
  proved equal to a pure function on a snapshot of the fields.
- A Go map is a reference type, so the context map is a heap object
  (`Ctx.CtxMap`). Insertions through one error are then seen by every error
  that shares the map, as in Go.
- Every renderer writes its output piece by piece in a loop. Each one is a
  method whose result is proved equal to a specification function of the
  error's view.
- `sort.Strings` is modelled by `Text.SortKeys`. The key order it produces is
  proved unique, so the rendered context never depends on Go's randomised
  map iteration.

Six places where the code does not do what its comments and names promise
are listed under "## Findings". In each case the model keeps the code as
written next to a corrected version, and proves the discrepancy on a
concrete input.

## Model

| member | source | states |
|---|---|---|
| Objects.NewObjectEmpty | object.go:13-15 | the empty object is non-nil and has no bytes |
| Objects.NewObjectFromBytes | object.go:17-19 | the object holds the slice's bytes and is nil exactly when the slice is nil |
| Objects.NewObjectFromString | object.go:21-23 | a converted string is never nil and holds the string's bytes |
| Objects.String | object.go:25-30 | an empty object reads as "", otherwise as its bytes |
| Objects.Bytes | object.go:32-37 | the result is never a nil slice and holds the object's bytes |
| Objects.ToBuffer | object.go:39-44 | the buffer holds exactly the bytes `Bytes()` returns |
| Objects.StringRoundTrip | object.go:21-30 | reading back a string-built object gives the string |
| Objects.BytesRoundTrip | object.go:17-37 | reading back a byte-built object gives the slice, except that nil comes back empty and allocated |
| Objects.EmptyObject | object.go:13-44 | the empty object reads as "", as an empty slice and as an empty buffer |
| Severity.Valid | log/severity.go:64-66 | valid exactly for Warn and Error |
| Severity.String | log/severity.go:70-85 | "ERROR" exactly for Error, "WARN" exactly for Warn, "UNKNOWN" exactly for invalid values |
| Severity.ParseSeverityString | log/severity.go:15-28 | succeeds exactly on the lower-cased warn/warning and error words, and each word maps to its severity; any other text gives Unknown with the not-valid error |
| Severity.ParseSeverityUint | log/severity.go:32-38 | accepts exactly 1 and 2 and returns them unchanged; every other value gives Unknown with the error |
| Severity.ParseUintRoundTrip | log/severity.go:32-61 | every valid severity survives `ParseSeverityUint(s.Uint32())` |
| Severity.ParseUintRejects | log/severity.go:32-38 | 0, 3 and 100 are rejected |
| Severity.LowerOfWords | log/severity.go:16 | "WARN", "ERROR" and "Warning" lower-case to the words the switch expects |
| Severity.ParseStringRoundTrip | log/severity.go:15-85 | parsing the printed name of a valid severity gives it back |
| Severity.ParseStringCaseInsensitive | log/severity.go:15-28 | every spelling of "warning" in any letter case parses to Warn |
| IntErrKind.ParseIntErr | _examples/real_world_example/error.go:9-30 | each name parses to its own constant; any other text gives EUnknown |
| IntErrKind.String | _examples/real_world_example/error.go:43-64 | a named constant prints its name; any value outside EUnknown..EInputBody prints "Unknown" |
| IntErrKind.Status | _examples/real_world_example/error.go:66-83 | the HTTP status for each kind: 422, 404, 409, 410, 400, and 500 otherwise |
| IntErrKind.NamesDistinct | _examples/real_world_example/error.go:43-64 | the printed names are pairwise different |
| IntErrKind.StringRoundTrip | _examples/real_world_example/error.go:9-64 | every named constant survives print-then-parse |
| IntErrKind.OutOfRangeCollapses | _examples/real_world_example/error.go:9-64 | ENo and out-of-range values do not survive the round trip; they come back as EUnknown |
| IntErrKind.ParseStringParse | _examples/real_world_example/error.go:9-64 | parse-then-print gives back any name and maps everything else to "Unknown" |
| Text.SortKeys | format.go:132-136 | the collected and sorted keys are the strictly sorted list of the map's keys, whatever order the map hands them out in |
| Text.CollectKeys | format.go:132-135 | the `range` loop gathers every key of the map exactly once, in an order the map chooses |
| Text.SortedSeq | format.go:136 | the sorted key list is strictly sorted and holds exactly the keys |
| Text.SortedUnique | format.go:136 | two strictly sorted lists with the same elements are equal, so the sorted order is unique |
| Text.LessTotal | format.go:136 | Go's byte-wise string order is total on distinct strings |
| Text.LessTransitive | format.go:136 | Go's string order is transitive |
| Text.Itoa | format_string.go:82 | `strconv.Itoa` on a non-negative number is a non-empty run of decimal digits with no leading zero |
| Text.ItoaRoundTrip | format_string.go:82 | the printed number reads back as the number |
| Text.ItoaInjective | format_string.go:82 | different numbers print differently |
| Text.ToLower | log/severity.go:16 | lower-casing keeps the length and maps each ASCII letter to its lower case |
| Text.JoinSnoc | format.go:118-126 | joining one more part adds the separator and that part |
| Text.RuneLen | translate.go:91 | a character takes one to four bytes in UTF-8, and one exactly when it is ASCII |
| Text.Utf8Len | translate.go:91 | the byte length of a string lies between its character count and four times it, and equals the character count exactly when every character is ASCII |
| Text.Utf8LenAppend | translate.go:110 | the byte length of a concatenation is the sum of the byte lengths of its parts |
| Localization.Select | translate.go:85-91 | the error's own localizer wins; the default one is used only without it |
| Localization.Config | translate.go:97-104 | the message id is the lookup key, and the translate context's fields are copied in when present |
| Localization.Translate | translate.go:78-112 | an empty message writes nothing; no localizer or a failed lookup writes the raw message; otherwise the translation |
| Localization.OwnLocalizerWins | translate.go:85-91 | with a per-error localizer, the default one does not affect the output |
| Localization.RawOrLocalized | translate.go:93-111 | the output is always the raw message or a text the selected localizer produced |
| Localization.TranslateAsWritten | translate.go:106 | the code as written calls `LocalizeWithTag` on a nil `*i18n.Localizer` exactly when the message is non-empty and only the default localizer is set |
| Localization.AsWrittenAgreesWhenItWrites | translate.go:78-112 | whenever the code as written does not fail, it writes what the corrected decision writes |
| Localization.DefaultOnlyCallsNilLocalizer | translate.go:106 | counterexample: "boom" with only the default localizer reaches the nil-localizer call as written and translates when corrected |
| Ctx.CtxMap.constructor | error.go:44 | a new context map holds the given entries |
| Ctx.Entries | error.go:44 | a nil map has no entries |
| CommonError.Error.constructor | format.go:93-151 | the record holds the given fields |
| OptionsCommon.ApplyOption | options_common.go:7-54 | each setter writes its own field and leaves every other field as it was |
| OptionsCommon.Apply | options_common.go:7-54 | running an option on a non-nil error gives exactly `ApplyOption` of the old fields |
| OptionsCommon.LastWins | options_common.go:7-54 | of two setters of the same field, the later one wins |
| OptionsCommon.DifferentFieldsCommute | options_common.go:7-54 | setters of different fields can run in either order |
| ErrorOperation.NewOperations | error_operation.go:7-31 | appending nil keeps the list; appending a list adds it after the current one (nil counts as empty); setting replaces the list |
| ErrorOperation.Apply | error_operation.go:7-31 | only the operation list changes, as `NewOperations` says |
| ErrorOperation.Operations | error_operation.go:36-38 | the getter returns the stored list, nil included |
| ErrorOperation.ZeroHasNoOperations | error_operation.go:36-38 | a record that never got operations reports nil |
| ErrorOperation.AppendTwice | error_operation.go:7-18 | two appends equal one append of both lists, in order |
| ErrorOperation.SetThenAppend | error_operation.go:7-31 | an append after a set extends exactly the list that was set |
| ErrorOperation.SetForgets | error_operation.go:24-31 | a set discards what was stored before |
| ContextInfo.SetContextInfo | context_info.go:6-13 | only the map reference changes |
| ContextInfo.AppendContextInfo | context_info.go:16-26 | the key gets the value in the same map object, which is created when nil; every other key and field is kept |
| ContextInfo.ContextInfo | context_info.go:31-33 | the getter returns the stored map reference |
| ContextInfo.SharedMapSeesAppend | context_info.go:16-26 | two errors that share one map both see an insertion made through either of them |
| ErrorTypes.NewErrorType | error_type.go:4-6 | the conversion keeps the text |
| ErrorTypes.String | error_type.go:11-13 | printing keeps the text |
| ErrorTypes.RoundTrip | error_type.go:4-13 | `NewErrorType(s).String() == s` |
| ErrorTypes.UnknownText | error_type.go:16 | the default type prints as UNKNOWN_TYPE |
| ErrorTypes.SetErrorType | error_type.go:21-28 | only the error type changes; a nil error is left alone |
| ErrorTypes.ErrorTypeOf | error_type.go:33-35 | the getter returns the stored type |
| Translate.SetTranslateContext | translate.go:26-33 | only the translate context changes |
| Translate.SetLocalizer | translate.go:38-45 | only the localizer changes |
| Translate.WriteTranslateMsg | translate.go:63-111 | writes the corrected translation of the message and returns the byte count `io.WriteString` reports, its UTF-8 length (between one and four bytes per character, zero exactly when nothing is written); an empty message writes 0 bytes |
| Translate.TranslateMsg | translate.go:69-76 | returns exactly the text `WriteTranslateMsg` writes |
| ErrorRecord.ZeroFields | error.go:48-55 | the zero record has every field nil |
| ErrorRecord.Error.constructor | error.go:66-67 | the new record holds the given fields, as the copy `*newerr = *e` does |
| ErrorRecord.Field | error.go:80-105 | a nil field reads as the empty object, otherwise as the stored one |
| ErrorRecord.ID | error.go:80-86 | never nil: the empty object for a nil receiver or a nil field, else the stored id |
| ErrorRecord.Msg | error.go:90-96 | never nil: the empty object for a nil receiver or a nil field, else the stored message |
| ErrorRecord.Operation | error.go:100-105 | never nil: the empty object for a nil receiver or a nil field, else the stored operation |
| ErrorRecord.ContextInfo | error.go:155-157 | returns the stored map reference |
| ErrorRecord.TranslateContext | error.go:108-110 | returns the stored translate context |
| ErrorRecord.TranslatedMsg | translate.go:78-83 | an empty message translates to nothing |
| Setters.ApplyOption | constructor.go:104-200 | each setter writes its field; `SetErrorType` writes the operation field; every other field is kept |
| Setters.Apply | constructor.go:104-214 | a non-nil record follows `ApplyOption`; `AppendContextInfo` inserts the key into the same map, or into a new one when nil, and changes no attribute |
| Setters.ApplyEach | constructor.go:23-29 | the options run in order: the attributes follow `ApplyAll`, and the map follows the insertions when no option replaces it; in general the record's map reference and the entries of every map it or an option names follow `CtxRun`, and a map made along the way is new |
| Setters.CtxStep | constructor.go:190-214 | `SetContextInfo` moves the reference and touches no entries; `AppendContextInfo` inserts into the map the reference names, or into a new map when it is nil; the set of existing maps is kept |
| Setters.CtxRun | constructor.go:23-29 | the options' effect on the context maps, left to right, never losing track of the map the reference names |
| Setters.CtxRunKeepsMap | constructor.go:204-214 | without `SetContextInfo` the reference keeps naming the same map, which alone changes, by exactly the insertions of `Appends` |
| Setters.InstallThenAppend | constructor.go:190-214 | `[SetContextInfo(m), AppendContextInfo(k, v)]`: the reference names `m`, and the caller's map `m` itself gains the entry |
| Setters.LastWins | constructor.go:104-200 | of two setters of one field, the later one wins |
| Setters.OperationAndErrorTypeShareField | constructor.go:130-164 | `SetOperation` and `SetErrorType` overwrite each other, whichever runs last |
| Setters.AppendLastWins | constructor.go:204-214 | inserting twice under one key keeps the later value |
| Setters.MsgUntouched | constructor.go:104-111 | options without `SetMsg` keep the message |
| Setters.LastSetMsgWins | constructor.go:104-111 | the message is the one of the last `SetMsg` |
| Constructor.Message | constructor.go:8-21 | a value of no supported kind gives the empty message |
| Constructor.NewWith | constructor.go:23-29 | a fresh record equal to the options applied in order to the zero record; its map and every installed map follow `CtxRun` from a nil reference |
| Constructor.New | constructor.go:8-21 | a fresh record holding only the chosen message |
| Constructor.SetMsgOnly | constructor.go:8-21 | one `SetMsg` on the zero record gives exactly the fields `New(msg)` of errors.go sets |
| Constructor.LaterSetMsgWins | constructor.go:23-29 | with two `SetMsg` options the later message is kept |
| ObjectError.Initial | errors.go:53-56 | `New(msg)` starts from the zero record with only the message set |
| ObjectError.New | errors.go:53-61 | a fresh record: the message first, then the options in order; its map and every installed map follow `CtxRun` from a nil reference |
| ObjectError.WithOptions | error.go:60-74 | nil for nil; otherwise a fresh copy with the options applied. The receiver's fields are kept, but the context map is shared and receives the copy's insertions. In general the copy's map and every map involved follow `CtxRun` from the receiver's map. |
| ObjectError.StringView | marshal_string.go:88-99 | the string marshaller reads the operation, the context entries and the translated message through the getters |
| ObjectError.JSONView | marshal_json.go:52-107 | the JSON marshaller reads the id, the operation, the context, the message and its translation through the getters |
| ObjectError.Selected | error.go:114-123 | the first explicit marshaller, else the default one |
| ObjectError.Marshal | error.go:114-125 | with no marshaller at all, a nil slice and `ErrUnknownMarshaller`; otherwise the selected marshaller's bytes and no error |
| ObjectError.Error | error.go:191-195 | `Error()` is always the string marshaller's rendering; nil gives "" |
| ObjectError.ErrorIsStringMarshal | error.go:191-195 | `Error()` equals `Marshal(&MarshalString{})`, and equals `Marshal()` when the string marshaller is the default |
| ObjectError.ErrorRef.constructor | error.go:206-216 | a new `*Error` cell holds nil |
| ObjectError.As | error.go:206-216 | succeeds exactly for a `**Error` target, which then holds the receiver |
| ObjectError.Unwrap | error.go:218-220 | a record wraps nothing |
| ObjectError.IsIdentity | error.go:197-204 | `Is` holds for the error itself, for no other `*Error`, and for no other error type |
| ObjectError.NewPlain | errors.go:53-61 | without options the record holds just the message, and an untranslated rendering is the message alone |
| Render.ConcatSnoc | format.go:93-151 | one more write adds its text at the end |
| Render.WriteJoined | format.go:118-126 | the first item, then `,` before each further one, is `strings.Join(items, ",")` |
| Render.QuoteAll | format.go:59-68 | every item is quoted, in order |
| Render.Quote | format.go:60-62 | a quoted item starts and ends with `"` |
| Render.Pair | format_string.go:46-49 | an entry is `key:value`, or `"key":"value"` in JSON |
| Render.Pairs | format_string.go:46-50 | the entries for the given keys, in the keys' order |
| Render.WriteCtxBody | format_string.go:41-50 | the context loop writes the entries in sorted key order, whatever order the map iterates in |
| Render.CtxBodySingle | format_string.go:46 | a one-entry context renders as that entry |
| Render.CtxBodyTwo | format_string.go:41-50 | two keys render in Go string order, whichever way round they were inserted |
| Render.NumberedLine | format_string.go:77-86 | a nil element writes nothing |
| Render.NumberedBody | format_string.go:74-86 | the text written is never empty: it starts with the prefix line |
| Render.NumberedStep | format_string.go:77-86 | one more element adds its numbered line, or nothing, at the end |
| Render.NumberedText | format_string.go:68-87 | the output is empty exactly for an empty list |
| Render.WriteNumbered | format_string.go:68-87 | the loop writes `NumberedText`: each non-nil element numbered by its position from 1 |
| Render.NumberedTwo | format_string.go:68-87 | two errors give lines #1 and #2, in order |
| Render.NumberedGap | format_string.go:77-80 | a nil element leaves a gap in the numbering |
| Format.ViewOf | format.go:100-102 | a renderer sees the operation list (nil as empty), the context entries and the translated message |
| Format.StringFormat | format.go:93-151 | the writes yield `StringText` of the view: nothing for nil |
| Format.WriteSections | format.go:104-144 | the type, severity, operation and context sections, with `writeDelim` true exactly when one was written |
| Format.WriteContextSection | format.go:130-144 | `<`, the sorted entries, `>` |
| Format.HeadEmptyIffNoSection | format.go:104-144 | the sections are empty exactly when none is present |
| Format.MessageOnly | format.go:146-150 | with no section the rendering is the message alone |
| Format.NoSeparatorWithoutMessage | format.go:146-148 | an empty message never gets the ` -- ` separator |
| Format.StringFullExample | format.go:93-151 | a complete error renders as `[type][ERROR][op]<k1:v1,k2:v2> -- msg` |
| Format.JSONText | format.go:36-39 | nil renders as `null` |
| Format.JSONFormat | format.go:35-89 | the writes yield `JSONText` of the view |
| Format.JSONEmptyMessage | format.go:81-82 | an empty message is written as the string "null" |
| Format.JSONSampleKeys | format.go:43-86 | the type, severity, context and message keys of a sample error |
| Format.JSONSampleOperations | format.go:55-70 | the operations key of a sample error |
| Format.JSONExample | format.go:35-89 | the whole JSON of a sample error, the five keys in a fixed order |
| Format.MultiText | format.go:159-173 | empty exactly for an empty list |
| Format.FirstNil | format.go:168-170 | the first nil element, with only non-nil elements before it; the length when there is none |
| Format.MultiOutcome | format.go:159-173 | panics exactly when some element is nil; with none, writes `MultiText` of the texts |
| Format.StringMultierrFormatFunc | format.go:159-173 | the loop writes what `MultiOutcome` states: the prefix line, then `* <text>` per error, stopping with a panic after the indent of the first nil element |
| Format.NilPanicsAtItsLine | format.go:168-171 | a nil element panics right after its own indent, with every earlier line written, whatever follows it |
| Format.MultiSnoc | format.go:168-172 | one more error adds exactly one line at the end |
| Format.MultiExample | format.go:159-173 | two errors render as the prefix and two bulleted lines |
| Format.ElemTexts | format.go:189-196 | each element's JSON, in order |
| Format.JSONMultierrFuncFormat | format.go:176-211 | the writes yield `MultiJSONText` |
| Format.WriteMessages | format.go:197-207 | the elements' JSON, comma-separated |
| Format.WriteElem | format.go:189-196 | an `*Error` writes its JSON; anything else writes the quoted text of the nil pointer |
| Format.MultiJSONCount | format.go:181-210 | a non-empty list writes its count, which reads back as the length, and the messages |
| Format.MultiJSONEmpty | format.go:176-211 | an empty list writes `null` followed by an empty object |
| FormatString.ViewOf | format_string.go:31-59 | the renderer sees the operation, the context entries, the message and its translation through the getters |
| FormatString.StringFormat | format_string.go:24-60 | the writes yield `StringText` of the view: nothing for nil |
| FormatString.WriteSections | format_string.go:31-53 | the operation and context sections, with `writeDelim` true exactly when one was written |
| FormatString.WriteContextSection | format_string.go:37-53 | `{`, the sorted entries, `}` |
| FormatString.MessageLast | format_string.go:59 | the translated message is always the last thing written |
| FormatString.MessageOnly | format_string.go:24-60 | with no operation and no context the rendering is the message alone |
| FormatString.NoSeparatorWithoutMessage | format_string.go:55-57 | an empty message never gets the separator |
| FormatString.SeparatorBeforeMessage | format_string.go:55-59 | with a section and a message, ` -- ` stands right before the message |
| FormatString.OperationContextExample | format_string.go:24-60 | `op: {k:v} -- msg` |
| FormatString.StringMultierrFormatFunc | format_string.go:68-87 | the numbered list: each non-nil element numbered by its position |
| FormatJSON.ViewOf | format_json.go:17-51 | the renderer sees the id, the operation, the context, the message and its translation through the getters |
| FormatJSON.ContextKey | format_json.go:31-41 | an empty context is written as `null` |
| FormatJSON.MsgKey | format_json.go:43-49 | an empty message is written as the empty string |
| FormatJSON.JSONText | format_json.go:11-52 | nil renders as `null`, an error as one JSON object |
| FormatJSON.JSONFormat | format_json.go:11-52 | the writes yield `JSONText` of the view |
| FormatJSON.Texts | format_json.go:68-77 | each element's JSON, in order |
| FormatJSON.MultiJSONAsWritten | format_json.go:55-81 | as written, the rendering panics exactly for the empty list |
| FormatJSON.EmptyListPanics | format_json.go:56-72 | the empty list writes `null{"count":0,"messages":[` and then indexes `es[0]` |
| FormatJSON.AsWrittenAgreesWhenNonEmpty | format_json.go:55-81 | on every non-empty list the code as written writes the corrected rendering |
| FormatJSON.MultiJSONShape | format_json.go:55-81 | the corrected rendering is `null` exactly for the empty list, and the count reads back as the length |
| FormatJSON.JSONMultierrFuncFormat | format_json.go:55-81 | the writes yield the corrected `MultiJSONText` |
| FormatJSON.WriteMessages | format_json.go:68-77 | the elements' JSON, comma-separated |
| MarshalString.ObjectText | marshal_string.go:59-63 | an object writes nothing exactly when it is empty; otherwise its bytes and one space |
| MarshalString.ContextText | marshal_string.go:65-86 | nothing exactly for an empty context |
| MarshalString.Texts | marshal_string.go:109-117 | one text per element |
| MarshalString.WriteObject | marshal_string.go:59-63 | the writes yield `ObjectText` |
| MarshalString.WriteContext | marshal_string.go:65-86 | the writes yield `ContextText`: `{k:v,...} ` in sorted key order |
| MarshalString.StringFormat | marshal_string.go:88-99 | file-line, type, operation, context, message, in that order |
| MarshalString.StringMultierrFormat | marshal_string.go:101-121 | the numbered list of the elements' `Error()` texts |
| MarshalString.WriteEntry | marshal_string.go:109-120 | one numbered line per non-nil element, nothing for nil |
| MarshalString.MarshalTo | marshal_string.go:26-44 | writes `MarshalText`, and the error is always nil |
| MarshalString.Marshal | marshal_string.go:46-57 | a non-nil slice holding `MarshalText`, never an error |
| MarshalString.NothingForNilOrOther | marshal_string.go:30-44 | nil, a nil `*Error` and other types write nothing |
| MarshalString.NothingForEmptyAggregate | marshal_string.go:101-104 | an empty aggregate writes nothing |
| MarshalString.MessageOnly | marshal_string.go:88-99 | an error with only a message renders as the message |
| MarshalString.OperationContextExample | marshal_string.go:88-99 | `op {k1:v1,k2:v2} msg` |
| MarshalString.ContextTwo | marshal_string.go:65-86 | a two-entry context is written in key order, then a space |
| MarshalString.SingleElementAggregate | marshal_string.go:101-121 | one error gives the prefix line and that error as number 1 |
| MarshalJSON.ContextValue | marshal_json.go:79-95 | `null` exactly for an empty context |
| MarshalJSON.MsgKey | marshal_json.go:98-104 | an empty message is written as the empty string |
| MarshalJSON.JSONText | marshal_json.go:52-107 | nil renders as `null`, an error as one JSON object |
| MarshalJSON.Texts | marshal_json.go:125-134 | each element's JSON, in order |
| MarshalJSON.JSONFormat | marshal_json.go:52-107 | the writes yield `JSONText` of the view |
| MarshalJSON.WriteContextValue | marshal_json.go:79-95 | the context loop yields `ContextValue`: quoted pairs in sorted key order |
| MarshalJSON.JSONMultierrFormat | marshal_json.go:110-138 | the writes yield `MultiJSONText` |
| MarshalJSON.WriteMessages | marshal_json.go:125-134 | the elements' JSON, comma-separated |
| MarshalJSON.MarshalTo | marshal_json.go:20-37 | writes `MarshalText`, and the error is always nil |
| MarshalJSON.Marshal | marshal_json.go:39-50 | a non-nil slice holding `MarshalText`, never an error |
| MarshalJSON.NilAndOther | marshal_json.go:24-56 | nil and other types write nothing, and a nil `*Error` writes `null` |
| MarshalJSON.MultiJSONShape | marshal_json.go:110-138 | `null` exactly for no errors, and the count reads back as the length |
| MarshalJSON.ContextSingle | marshal_json.go:79-95 | a one-entry context is one quoted pair |
| Aggregate.Slots | multierr.go:111-127 | an `*Error` is kept as the same pointer; an aggregate contributes its entries in order; any other error becomes one converted entry |
| Aggregate.Count | multierr.go:95-109 | the number of non-nil entries never exceeds the length |
| Aggregate.CapacityIsLength | multierr.go:95-109 | `inspect`'s capacity is exactly the length of the flattened list |
| Aggregate.FlatAppend | multierr.go:111-145 | flattening `xs + ys` gives the entries of `xs`, then those of `ys` |
| Aggregate.NoEntriesWithoutErrors | multierr.go:130-145 | without non-nil entries the flattened list is empty |
| Aggregate.FlatStep | multierr.go:130-145 | one more input adds its entries at the end, and increases the count and the capacity accordingly |
| Aggregate.NewFromText | multierr.go:123-125 | a foreign error becomes a fresh `Error` holding its text as the message |
| Aggregate.AppendError | multierr.go:111-127 | the list grows by the input's entries: kept pointers, and fresh records for converted errors |
| Aggregate.AppendAll | multierr.go:130-145 | the loop realises the flattened list |
| Aggregate.AppendStep | multierr.go:139-143 | one step keeps the entries so far and adds the next input's entries |
| MultiErrSlice.Inspect | multierr.go:95-109 | the count of non-nil entries and the flattened length |
| MultiErrSlice.FromSlice | multierr.go:130-145 | nil exactly when no entry is non-nil; otherwise the flattened list |
| MultiErrSlice.Combine | multierr.go:149-151 | nil exactly when no entry is non-nil; otherwise an aggregate of the flattened list |
| MultiErrSlice.Wrap | multierr.go:155-163 | a nil side returns the other side itself; otherwise one aggregate of both sides' entries, left first |
| MultiErrSlice.WrapFlat | multierr.go:155-163 | two non-nil entries flatten to the left entries, then the right ones |
| MultiErrSlice.Errors | multierr.go:23-29 | an aggregate's own list; nil for nil; otherwise a one-entry list, with a foreign error converted |
| MultiErrSlice.Unwrap | multierr.go:166-171 | the newest (last) entry, or nil exactly for an empty list |
| MultiErrSlice.Error | multierr.go:55-82 | "" for an empty list, otherwise the numbered multi-line list of the entries' `Error()` texts, numbered by position |
| MultiErrSlice.CollectTexts | format_string.go:77-86 | the entries' `Error()` texts, one per entry and in order, nil for a nil entry |
| MultiErrSlice.WriteEntry | format_string.go:78-84 | one entry's `Error()` text (the string marshaller's rendering), nil for a nil entry |
| LenLastAggregate.FromSlice | multierror.go.go:152-172 | always an aggregate, with consistent length and last index, realising the flattened list |
| LenLastAggregate.Combine | multierror.go.go:7-9 | `fromSlice` of the inputs |
| LenLastAggregate.Wrap | multierror.go.go:21-23 | an aggregate of the left entries, then the right ones; a nil side contributes nothing |
| LenLastAggregate.PairFlat | multierror.go.go:21-23 | the two entries of `Wrap` flatten in order |
| LenLastAggregate.WrapWithNil | multierror.go.go:21-23 | `Wrap(nil, nil)` is empty, and one nil side leaves the other pointer alone |
| LenLastAggregate.Errors | multierror.go.go:53-60 | the list; empty for a nil receiver |
| LenLastAggregate.Len | multierror.go.go:90-92 | the cached length equals the length of the list |
| LenLastAggregate.Last | multierror.go.go:100-106 | nil for an empty list, otherwise the newest entry |
| LenLastAggregate.Unwrap | multierror.go.go:95-97 | the same as `Last` |
| LenLastAggregate.AsErr | multierror.go.go:133-149 | an aggregate passed to a builder contributes its list |
| LenLastAggregate.WrapAppends | multierror.go.go:21-23 | wrapping an aggregate in a pointer appends the pointer, which `Last` then returns |
| MultiErrorCursor.MultiError.constructor | multierror.go:44-47 | the literal holds the given list, cursor and flag |
| MultiErrorCursor.CountUpTo | multierror.go:199-220 | the count among the first `n` is at most `n` |
| MultiErrorCursor.FirstNonNil | multierror.go:199-220 | the first non-nil index at or after `from`, with every earlier one nil |
| MultiErrorCursor.NilPrefix | multierror.go:223-264 | all-nil entries contribute nothing and count nothing |
| MultiErrorCursor.FlatShape | multierror.go:223-264 | over built aggregates the flat list holds no aggregate and is at least as long as the count |
| MultiErrorCursor.LeavesFlat | multierror.go:223-264 | with no nil entry and no aggregate, the flat list is the entries themselves |
| MultiErrorCursor.FullCount | multierror.go:199-220 | a count equal to the length means no entry is nil |
| MultiErrorCursor.SomeNonNil | multierror.go:199-220 | a positive count means a first non-nil entry exists |
| MultiErrorCursor.Inspect | multierror.go:199-220 | the count, the flattened length, the first non-nil index, and whether an aggregate is present |
| MultiErrorCursor.NewAggregate | multierror.go:44-47 | corrected literal: the flag starts as false |
| MultiErrorCursor.NewAggregateAsWritten | multierror.go:246 | literal as written: the flag is left nil |
| MultiErrorCursor.FromSlice | multierror.go:223-264 | nil exactly for no non-nil entry; the only non-nil entry itself; else a fresh flat aggregate of all entries, its cursor at 0 |
| MultiErrorCursor.BuildFlat | multierror.go:239-264 | two or more non-nil entries give a fresh valid aggregate holding exactly the flattened entries, its flag false and its cursor at 0 |
| MultiErrorCursor.Combine | multierror.go:12-14 | the same as `fromSlice` of the inputs |
| MultiErrorCursor.CollectFrom | multierror.go:248-262 | the loop from the first non-nil index yields the flattened list |
| MultiErrorCursor.Wrap | multierror.go:26-55 | a nil side returns the other; a first wrap of an aggregate keeps its list and swaps its flag to true; panics exactly on a nil flag; otherwise a fresh flat aggregate of the left entries, then the right ones, whose cursor is the left aggregate's on the in-place path and 0 otherwise |
| MultiErrorCursor.PairFlat | multierror.go:26-55 | the two entries of `Wrap` flatten in order, and both count |
| MultiErrorCursor.Errors | multierror.go:86-91 | the list; empty for a nil receiver |
| MultiErrorCursor.Len | multierror.go:121-123 | the number of entries |
| MultiErrorCursor.LastAsWritten | multierror.go:131-136 | as written: the entry at index 0, the oldest |
| MultiErrorCursor.Last | multierror.go:131-136 | corrected: nil exactly for no entries, otherwise the newest entry |
| MultiErrorCursor.Unwrap | multierror.go:126-128 | the same as `Last` |
| MultiErrorCursor.LastAfterWrap | multierror.go:131-136 | after `Wrap(a, b)` the code as written answers `a`; the corrected `Last` answers `b` |
| MultiErrorCursor.WrapOnSourceAggregatePanics | multierror.go:35 | an aggregate built as written, wrapped with one more error, panics |
| MultiErrorCursor.WrapOnBuiltAggregate | multierror.go:26-55 | with the corrected literal, wrapping an aggregate never panics and makes the new error the newest entry |
| MultiErrorCursor.FirstWithID | multierror.go:171-177 | the first index with the id, and none before it; none means no entry has the id |
| MultiErrorCursor.FindByID | multierror.go:159-180 | a hit under the cursor keeps the cursor; otherwise the first entry with the id is found and the cursor moves there; a miss returns nil and false and keeps the cursor |
| Helpers.GetErrorType | helpers.go:4-10 | "" for anything that is not an `Errorer` |
| Helpers.GetID | helpers.go:13-19 | "" for anything that is not an `Errorer` |
| Helpers.SimpleCast | helpers.go:43-46 | succeeds exactly for an `Errorer` |
| Helpers.FirstErrorer | helpers.go:34-41 | the first `Errorer` child, with none before it; nil exactly when there is none |
| Helpers.ErrsFn | helpers.go:34-41 | the first `Errorer` child of the list |
| Helpers.CastErr | helpers.go:48-61 | succeeds exactly for an aggregate or an `Errorer`: an aggregate gives its first `Errorer` child, an `Errorer` itself |
| Helpers.OwnErrorOrNil | helpers.go:26-32 | an `Errorer` is its own result when it is a failure, and nil for a warning |
| Helpers.ErrorOrNilAsWritten | helpers.go:26-32 | as written: non-castable errors pass through, and it panics exactly when a castable error has no `Errorer` |
| Helpers.FirstAnswer | helpers.go:21-32 | the first non-nil answer among an aggregate's children, with only nil answers before it; nil exactly when every answer is nil |
| Helpers.ErrorOrNil | helpers.go:21-32 | corrected: an aggregate is nil exactly when every child (searched recursively) is nil, and otherwise gives the answer of its first child that has one; an `Errorer` gives its own answer; a plain error passes through; the result is never a warning and never an aggregate |
| Helpers.ErrorOrNilIdempotent | helpers.go:21-32 | the corrected result is never a warning, and applying it twice changes nothing |
| Helpers.ErrorOrNilAgrees | helpers.go:26-41 | when what `cast` finds is a failure and no child other than an `Errorer` is itself an error, the code as written and the corrected version agree |
| Helpers.WarningFirstHidesFailure | helpers.go:26-41 | [warning, failure]: nil as written, the failure when corrected |
| Helpers.NoErrorerPanics | helpers.go:26-41 | an aggregate holding only a plain error panics as written, and gives that error when corrected |
| Helpers.Cast | helpers.go:66-76 | nil for nil; what `cast` finds for a castable error; otherwise `New(err.Error())` |
| Helpers.New | helpers.go:66-76 | a new error holding the text, with no id and no type, is a failure |
| Helpers.CheckID | helpers.go:79-86 | the first `Errorer` child with the id, with none before it; nil exactly when there is none |
| Helpers.FindByID | helpers.go:78-102 | found only with the id; an aggregate searches its children; an `Errorer` matches itself; anything else is never found |
| Helpers.UnwrapByID | helpers.go:106-112 | what `findByID` found, exactly on a hit, always with the id |
| Helpers.Contains | helpers.go:116-120 | true exactly when `UnwrapByID` finds an error, which then has the id |
| Helpers.FirstOfDuplicatesWins | helpers.go:79-86 | among children with the same id, the one stored first is found |
| CastOut.ErrorOut.constructor | cast.go:7-12 | a zero `ErrorOut` |
| CastOut.ErrorOut.Cast | cast.go:14-21 | an `*Error` fills every field from the record; any other value leaves the output unchanged |
| CastOut.Copied | cast.go:16-19 | the id and operation as text, the very context map, the translated message |
| CastOut.MultierrorOut.constructor | cast.go:25-29 | a zero `MultierrorOut` |
| CastOut.MultierrorOut.Cast | cast.go:31-41 | an aggregate sets the count to its length and makes one fresh, distinct output per entry, in order; the title is kept; any other value changes nothing |
| CastOut.EntryOut | cast.go:35-39 | a nil entry is left zero |
| CastOut.RecordCastTo | cast.go:45-49 | nothing for a nil receiver or caster; otherwise the caster's `Cast` of the record |
| CastOut.AggregateCastTo | cast.go:51-55 | nothing for a nil receiver or caster; otherwise the caster's `Cast` of the aggregate |
| CastOut.SimpleCast | cast.go:59-62 | succeeds exactly for an `*Error`, giving that pointer |
| CastOut.CastAsWritten | cast.go:67-72 | as written: nil panics, an `*Error` is returned as is, and any other error becomes a fresh record holding its text |
| CastOut.Cast | cast.go:64-72 | corrected: nil for nil, as the comment says; otherwise as written |
| CastOut.CastNil | cast.go:64-72 | given nil, the code as written panics and the corrected version returns nil |
| KVOptions.Error.constructor | options.go:4 | the record holds the given fields |
| KVOptions.Appended | options.go:72-82 | the pairs after an append are the old pairs and then the new one |
| KVOptions.Apply | options.go:9-82 | a non-nil record changes as `ApplyOption` says |
| KVOptions.OnlyTargetChanges | options.go:9-56 | a setter changes only the field it names, and stores the string's bytes |
| KVOptions.AppendKeepsPairs | options.go:72-82 | an append keeps every existing pair and adds exactly one at the end |
| KVOptions.DuplicateKeysKept | options.go:72-82 | appending the same key twice keeps both pairs, in order |
| KVOptions.DifferentFieldsCommute | options.go:9-82 | setters of different fields can run in either order |
| KVOptions.LaterReplaceWins | options.go:9-68 | of two replacing setters of one field, the later one wins |

## Left out

- Formatting verbs (`Format`), `Sdump`, `Log`, and the logger packages under log/ other than severity. They are output and I/O.
- `WithCaller` and utils.go's caller lookup. They read the runtime call stack.
- `bytebufferpool`. Each buffer is modelled as the text written to it.
- `json.Marshal` and go-json's encoder for the context map in format.go and format_json.go. These are opaque library code, so the bytes they produce are a parameter of the view.
- The go-i18n localizer. It is an arbitrary function that either yields a text or fails.
- Concurrency: the atomic `cur` of multierror.go is a plain field, and the record's "thread-safe" claim is not modelled.
- Go slice aliasing under `append`. An aggregate's list is a value, so sharing a backing array between two aggregates is not modelled. The one observable case, the `copyNeeded` flag, is modelled.
- `Errors()` on a nil receiver: the model returns an empty list and does not tell a nil slice from an empty one.
- `multiError.Marshal` with a nil default marshaller, the `Format` methods of the aggregates, and `As` / `Is` on aggregates. These are left out.
- `MultiErrSlice.Error`: assumes `DefaultMultierrFormatFunc` is nil. It then uses the numbered format of format_string.go.
- `Format.ViewOf`: format.go:84 and format.go:150 call `e.writeTranslate(buf, msg)`, a method that no file of this source defines. The model assumes it writes what `writeTranslateMsg` (translate.go:78-111) writes for the record, since both calls pass the record's own message.
- `Localization.TranslateAsWritten`: what `LocalizeWithTag` does on a nil `*i18n.Localizer` is go-i18n's business. The model stops at that call and records it as an outcome of its own, without saying whether it panics or returns an error.
- `CastOut.ErrorOut.Cast`: requires a non-nil pointer. For a nil `*Error` the source panics in `ContextInfo()`, and that panic is not modelled.
- `CastOut.MultierrorOut.Cast`: requires a consistent len/last aggregate, which is what its builders produce.
- `CastOut.AggregateCastTo`: the same requirement as `MultierrorOut.Cast`.
- `MultiErrorCursor.FromSlice`: requires that every aggregate in its input is a valid aggregate this file built: flat, with at least two entries and the cursor in range. Aggregates from elsewhere are not modelled.
- `MultiErrorCursor.Wrap`: the same requirement as `FromSlice`.
- `MultiErrorCursor.FindByID`: requires the cursor to be within the list, or zero for an empty one. Every builder establishes this.
- `Helpers`: the `Errorer` interface and its `ErrorOrNil()` method are not part of this model. Each `Errorer` therefore carries a `failing` flag, which stands for "`ErrorOrNil()` returns itself rather than nil".
- `Helpers.New`, and every other `New` with a `msg` string: helpers that build from messages in other forms (`NewMsgFromString` and similar) are not part of this model.
- The space `_separator` of marshal_string.go is declared in a vendored copy of the file (_examples/multi/vendor/github.com/ovsinc/errors/marshal_string.go:21), and the model takes its value from there.
- The file-line and error-type objects of marshal_string.go come from the record of utils.go and are a parameter of the view.
- Context values are kept as the text `%v` renders for them.
- `Text.ToLower` covers ASCII letters only; Unicode case folding is not modelled.

## Findings

| source | as written | input that shows it | evidently intended | confidence | as-written member | corrected member |
|---|---|---|---|---|---|---|
| multierror.go:44-47 | the aggregate literals never set `copyNeeded`, so a first `Wrap` of an aggregate dereferences a nil pointer at line 35 | `Wrap(Combine(a, b), c)` | the flag starts false, so the first wrap appends in place | not executed | MultiErrorCursor.WrapOnSourceAggregatePanics | MultiErrorCursor.WrapOnBuiltAggregate |
| multierror.go:131-136 | `Last()` returns `errors[0]`, the oldest entry | `Wrap(a, b).Last()` gives `a` | the newest entry, `errors[len-1]` | not executed | MultiErrorCursor.LastAfterWrap | MultiErrorCursor.Last |
| translate.go:106 | the lookup is sent to `e.localizer` even when only `DefaultLocalizer` was selected, so `LocalizeWithTag` is called on a nil `*i18n.Localizer` and the selected localizer is never asked | a non-empty message, no per-error localizer, `DefaultLocalizer` set | the lookup goes to the selected localizer | not executed | Localization.DefaultOnlyCallsNilLocalizer | Localization.Translate |
| format_json.go:56-58 | an empty list writes `null`, does not return, and reaches `es[0]` in the default branch at line 72 | `JSONMultierrFuncFormat(w, nil)` | write `null` and return | not executed | FormatJSON.EmptyListPanics | FormatJSON.MultiJSONShape |
| cast.go:64-72 | `Cast(nil)` fails the type assertion and calls `Error()` on a nil interface, although the comment promises nil | `Cast(nil)` | return nil for nil | not executed | CastOut.CastNil | CastOut.Cast |
| helpers.go:26-41 | `ErrorOrNil` on an aggregate answers with its first `Errorer` child only, and calls a method on a nil interface when there is none | `[warning, failure]` gives nil; `[plain error]` panics | the first child that is itself an error (a failing `Errorer`, any other error, or an aggregate holding one), or nil when every child is nil or a warning | not executed | Helpers.WarningFirstHidesFailure | Helpers.ErrorOrNil |

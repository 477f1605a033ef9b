# go-validate, modelled in Dafny

go-validate checks Go struct values against constraints written in struct
tags. A field tagged `check:"len(self) > 0"` is checked by evaluating that
expression with the field's value bound to `self`. A failing field adds a
`FieldError` at a dotted path such as `b_1.a_1` or `f_1[0].a_1`. A field
tagged `check:"check"` is validated recursively. A type may also validate
itself through a `Validate` hook.

This project models the v1 core of the library as pure Dafny functions over
an immutable value tree, and proves what the core promises. The modules are:

- `Tag`: the struct-tag scanner `findTag`/`getTag`, with comma-separated
  aliases. It also models Go's exact-key `reflect.StructTag.Get`, which the
  core uses for the name and message tags. The byte loop of the source is
  `Tag.ScanTag`, proved equal to the functional scanner.
- `Types`: the field descriptors (`newType`, `fieldName`) and the cache key
  (`newTypeKey`).
- `Engine`: the recursive engine of `validate.go`, covering:
  - hook dispatch and shape dispatch;
  - the slice walk and the struct field walk;
  - the table that interprets expression results;
  - path building and `fieldErrors`.

  The error buffer is the error list each step returns. The panic on an
  expression that does not compile, or on a run that panics inside a
  binding such as `len`, is the distinguished result `Panic`.
- `Errors`: `FieldError`, the `Errors` aggregate and its projections and
  texts, and the parts of Go's error chain (`errors.As`, `errors.Is`,
  `Unwrap`) that `fieldErrors` relies on. Errors that unwrap to several
  errors without being an `Errors` (`errors.Join`, `fmt.Errorf` with
  several `%w`) are the constructor `Joined`.
- `Options` and `Validators`: the configuration, the functional options and
  the `New`/`NewWithConfig` constructors.
- `Strings` and `LegacyStrings`: the string validators of
  `v1/stdlib/strings.go` and of the older `stdlib/strings.go`.
- `EngineLaws` and `StructLaws`: the engine's laws. Some relate the engine
  to a separate description of what it adds up: the struct walk to the
  `newType` descriptors, the slice walk to per-element checks, and a run of
  an expression to its `check(...)` calls and its final result. The rest
  (hooks, shapes, the result table, skipped and embedded fields) spell out
  the case analysis of `validate.go` in terms of verdicts, `Fields` and
  `Messages`.
- `Scenarios` and `EngineScenarios`: the expectations of the repository's
  own tests, replayed on the model.
- `Findings`: the one defect found in the source (see below).

Inputs that are outside the model become parameters:

- The expression language (`epl`) is the oracle `Engine.Eval`. It maps a
  source, `self` and `sup` to a compile error or a `Run`. A `Run` is a tree
  of the `check(...)` calls the expression makes, each branching on the
  verdict the call returns, ending in an `ExecResult` or in `Panics`, a
  panic raised inside a binding the expression called.
- The `Engine.Shrinks` precondition asks only that an expression checks
  values smaller than the struct it sits in. This is what makes the
  source's recursion end.
- Unicode's letter and number tables are the parameter `Unicode.Classes`.

Strings are sequences of runes. The tag scanner of `v1/tag.go` works on
bytes. Every byte test in it compares against an ASCII byte, and every byte
of a multi-byte UTF-8 rune lies above 0x7F. So a rune passes exactly the
tests its bytes pass, and scanning runes gives the same entries.

Where the specification of the library and the code disagree, the model
follows the code (v1/validate.go, v1/type.go). The one exception is
`fieldErrors`: the engine uses its corrected form, which keeps a hook
error's text as the message, and the code as written is modelled beside it
(see Findings). The disagreements are:

- A failed expression evaluation adds a "Could not evaluate expression"
  error and the walk goes on (validate.go:227-232). It does not abort.
- An `error` or `[]error` result is added as it is and leaves the field
  valid (validate.go:237-240). Nothing marks it invalid, and there is no
  `noErr` suppression sentinel.
- There are two hook kinds, not three (validate.go:58-63). A V2 hook that
  continues gives exactly the structural verdict; its own error does not
  make the value invalid (validate.go:114-124).
- A kind the engine cannot walk always adds `ErrUnsupportedType` and is
  invalid (validate.go:134-137). There is no lenient or strict mode.
- An embedded field is walked with `validateFields` directly, with no hook
  dispatch and no `reflect.Indirect`. Its verdict is dropped
  (validate.go:176-178). So an embedded pointer reports
  `ErrUnsupportedType`. An embedded field of interface type has Kind
  Interface there and reports `ErrUnsupportedType` even when it is nil
  (validate.go:126-137); such a field is encoded as a `Scalar`, not as
  `Nil`, which stands for the invalid value of a nil interface met
  elsewhere.
- `validateStruct` does not use the `newType` descriptors; it recomputes
  every field's tags. `StructLaws.StructMatchesNewType` proves that the
  two agree.
- The configured base path is never read (validate.go:89-93).

## Model

| member | source | states |
|---|---|---|
| Tag.FindTagIsFirstMatch | v1/tag.go:14-65 | the scan returns the value of the first entry, in tag order, whose comma-separated, trimmed aliases include the key and whose value unquotes |
| Tag.ScanTag | v1/tag.go:14-65 | the byte loop as written reports `ok` exactly when the functional scanner finds the key, and returns the value `getTag` gives |
| Tag.SkipSpaces | v1/tag.go:17-19 | the loop stops at the first non-space rune, after exactly the leading spaces |
| Tag.ScanName | v1/tag.go:29-32 | the loop stops after the longest prefix of runes above space other than `:`, `"` and DEL |
| Tag.ScanQuoted | v1/tag.go:40-46 | the loop finds the closing quote, with each backslash skipping the rune after it |
| Tag.ListsAlias | v1/tag.go:53-54 | the alias loop succeeds exactly when the key equals some trimmed comma-separated part of the name |
| Tag.NextEntryShape | v1/tag.go:15-52 | an entry the scanner reads is a non-empty name of name runes, a colon, and a value opening and closing with `"`; past the leading spaces the tag is exactly these pieces followed by the rest |
| Tag.FindTagAbsent | v1/tag.go:53-63 | a key that no scanned entry lists is not found, and `getTag` gives the empty string |
| Tag.MalformedStops | v1/tag.go:17-49 | past the leading spaces, the end of the tag, an empty name, a name not followed by `:"` and a value with no closing quote each stop the scan with nothing found |
| Tag.FindTagFound | v1/tag.go:53-59 | a found value is the unquoted value of a scanned entry that lists the key |
| Tag.FindTagCommaKey | v1/tag.go:53-54 | a key containing a comma equals no alias, so it is never found |
| Tag.UnquoteFailureSkipsEntry | v1/tag.go:55-58 | when a listing entry's value does not unquote, the search goes on with the following entries; Go's own `Lookup` gives up there instead |
| Tag.EntriesOfRender | v1/tag.go:15-52 | a tag built from well-formed names and quoted values scans back to exactly those entries, in order |
| Tag.FindTagRender | v1/tag.go:14-65 | in such a tag, the key finds the value of the first pair whose name lists it as an alias |
| Tag.AliasesAgree | v1/tag.go:53-54 | two aliases listed by the same pair, and by no earlier pair, find the same value |
| Tag.LookupRender | v1/type.go:45-51 | the exact-key tag reading used for the name and message tags gives the value of the first pair with that exact name |
| Strconv.UnquoteQuote | v1/tag.go:55 | unquoting the quoted form of any string gives the string back |
| Scenarios.TagTest | v1/tag_test.go:19-29 | in `species:"gopher" color,couleur:"blue"`, both `color` and `couleur` find `blue`, and `nah` finds nothing and reads as the empty string |
| Scenarios.ModeFieldSource | v1/validate_test.go:181-185 | a field whose constraint is tagged under a comma-separated list of modes has that constraint under every listed mode, and none under any other key |
| Scenarios.ModeSelection | v1/validate_test.go:187-198 | in `modeA`, `create` gives `a_1` and `a_2` their constraint, `update` only `a_2`, and `never_heard_of_it` and `create,update` neither; `a_3` is never selected |
| Types.FieldName | v1/type.go:74-80 | the result is a prefix of the tag; it is the text before the first comma when that comma is past position 0, and the whole tag otherwise |
| Types.FieldNameIsFirstPart | v1/type.go:74-80 | unless the tag starts with a comma, the field name is the first comma-separated part of the tag |
| GoStrings.TrimSpacePadded | v1/type.go:51-52 | trimming drops exactly the white space around a word that has no white space at its ends |
| Types.SourceIsTrimmed | v1/type.go:52 | white space around the check tag's value is not part of the constraint source |
| Types.MessageIsTrimmed | v1/type.go:51 | white space around the message tag's value is not part of the message |
| Types.NewType | v1/type.go:37-72 | the descriptors list exactly the selected fields, in strictly increasing declaration order, each with its display name, trimmed message and trimmed source |
| Types.NewTypeKey | v1/type.go:13-22 | the key records the validator's three tag keys and an empty base path |
| Types.TypeKeyInjective | v1/type.go:13-22 | two keys are equal exactly when the types and the validators are, so validators in different modes never share a key |
| Errors.NewFieldError | v1/errors.go:16-18 | a `*FieldError` whose message is the error's text and whose `Unwrap` gives the error back |
| Errors.FieldErrorf | v1/errors.go:20-22 | a `*FieldError` with the given path and message and no cause |
| Errors.NewFieldErrorIs | v1/errors_test.go:10-14 | a field error made by `newFieldError` is its cause in the sense of `errors.Is` |
| Errors.UnwrapAll | v1/errors.go:62-64 | `Errors` unwraps to its own elements, in order |
| Errors.FieldsMessagesPaired | v1/errors.go:34-58 | `Fields()` and `Messages()` have one entry per field error, in order; their k-th entries are the path and message of the same error |
| Errors.ProjectionsAppend | v1/errors.go:34-72 | `Fields()`, `Messages()` and the listed lines of `Error()` distribute over concatenation |
| Errors.ErrorTextCount | v1/errors.go:66-72 | the number at the head of `Errors.Error()` reads back as the number of elements |
| Errors.Summary | v1/errors.go:81 | the JSON summary starts with the count, and ends in `s` exactly when the count is not one |
| Errors.SummaryCount | v1/errors.go:81 | the count in the JSON summary reads back as the number of elements |
| Errors.FindFirstChains | v1/validate.go:274-281 | the search `errors.As` makes, with its early exits, finds the first match in the pre-order flattening of the error chain, in which `Errors` unwraps to its elements (v1/errors.go:62-64); it finds nothing exactly when nothing in the chain matches |
| Errors.AsAggregate | v1/validate.go:274-276 | `errors.As` into `Errors` gives the elements of the first aggregate in the chain, and fails exactly when the chain holds no aggregate |
| Errors.AsFieldError | v1/validate.go:278-281 | `errors.As` into `*FieldError` gives the first pointer field error in the chain, and fails exactly when the chain holds none |
| Errors.AsLooksThroughCauses | v1/validate.go:274-276 | an `Errors` behind a wrapping error, or held as a field error's cause, is the one `errors.As` finds |
| Options.CheckTag | v1/options.go:23-28 | the option sets the constraint tag key and leaves the other three fields unchanged |
| Options.Mode | v1/options.go:19-21 | `Mode(n)` acts on every configuration as `CheckTag(n)` does |
| Options.ErrorTag | v1/options.go:30-35 | the option sets the message tag key and leaves the other three fields unchanged |
| Options.FieldTag | v1/options.go:37-42 | the option sets the name tag key and leaves the other three fields unchanged |
| Options.BasePath | v1/options.go:44-49 | the option sets the base path and leaves the other three fields unchanged |
| Options.WithOptionsAppend | v1/options.go:10-15 | applying `a ++ b` is applying `a`, then `b` |
| Options.WithOptionsUnit | v1/options.go:10-15 | the empty list is the identity, and a one-option list applies that option |
| Options.LaterCheckTagWins | v1/options.go:10-28 | a `CheckTag` placed last decides the constraint key and leaves the message and name keys as the earlier options set them |
| Options.TwoCheckTags | v1/options.go:10-28 | of two `CheckTag` options, the later one wins |
| Validators.New | v1/validate.go:69-79 | the loop starts from `check`/`invalid`/`json`/empty, applies every option in order, then builds the validator from the result |
| Validators.NewWithConfig | v1/validate.go:81-87 | the validator holds the configuration's three tag keys |
| Validators.BasePathIgnored | v1/validate.go:81-87 | the base path, set directly or by the `BasePath` option, does not change the validator |
| Validators.SameValidator | v1/validate.go:81-87 | two configurations give the same validator exactly when their three tag keys agree |
| Validators.NewDefaults | v1/validate.go:69-79 | with no options, the keys are `check`, `invalid` and `json` |
| Validators.NewMode | v1/validate.go:69-79 | `New(Mode(m))` uses `m` as the constraint key and keeps the default message and name keys |
| Values.Indirect | v1/validate.go:102 | one pointer is followed; a nil pointer gives the invalid value, and anything else is itself |
| Values.Len | v1/validate.go:261-271 | `len` is 0 for nil and the element count for a slice, and has no value for a pointer or a struct, where the source panics; `EngineScenarios.NoLengthPanics` shows that panic ending the walk |
| Engine.KeyPath | v1/validate.go:50-56 | the field name alone under the empty path, else the path, a dot, and the name |
| Engine.IndexPath | v1/validate.go:144 | the element path starts with the slice's path and `[` and ends with `]`; what lies between is the index, as `EngineLaws.IndexPathReadsBack` states |
| EngineLaws.IndexPathReadsBack | v1/validate.go:144 | the digits between the brackets of an element path parse back as the element's index |
| Engine.Coalesce | v1/validate.go:287-294 | the result is empty exactly when every argument is, and is otherwise one of the arguments |
| Engine.FieldErrors | v1/validate.go:273-285 | over the flattened error chain: the elements of the first `Errors`; if there is none, the first `*FieldError`; if there is neither, exactly one `*FieldError` with no cause, at the path or `<entity>`, whose message is the error's text |
| Engine.FieldPath | v1/validate.go:159-164 | a non-embedded field's path is the base path joined with its display name |
| Engine.Validate | v1/validate.go:89-93 | `Validate` returns exactly the errors of validating at the empty path, and panics, naming the same expression, exactly when that walk does |
| EngineLaws.KeyPathNesting | v1/validate.go:50-56 | building a path in two steps is building it from the joined suffix |
| EngineLaws.IndexPathInjective | v1/validate.go:144 | two different indices under the same path give different element paths |
| EngineLaws.CoalesceFirst | v1/validate.go:287-294 | the first non-empty argument wins |
| EngineLaws.JoinedKeepsFirstFieldError | v1/validate.go:273-281 | a hook error that joins two `*FieldError`s without being an `Errors` gives only the first of them; the second is dropped |
| EngineLaws.FieldErrorsCases | v1/validate.go:273-285 | an aggregate is spliced element for element; a `*FieldError` with no aggregate in its chain is kept as it is; a plain error becomes one field error at the path, or `<entity>` at the root, whose message is its text |
| EngineLaws.FieldErrorsEmpty | v1/validate.go:273-285 | a hook error adds no error exactly when the first aggregate in its chain is empty |
| EngineLaws.HookV1Decides | v1/validate.go:106-112 | a V1 hook decides alone: the contents are never looked at, the verdict is false exactly when it returned an error, and its errors are the normalised hook error |
| EngineLaws.HookV2Laws | v1/validate.go:114-124 | the V2 hook's errors come first; when it continues, the verdict is exactly the structural one; when it stops, the verdict is true |
| EngineLaws.NoHookShape | v1/validate.go:95-104 | without a hook, a value is validated by its shape through at most one pointer |
| EngineLaws.ShapeCases | v1/validate.go:126-138 | nil and nil pointers are valid with no error; any other kind, a pointer to a pointer included, adds exactly `ErrUnsupportedType` and is invalid |
| EngineLaws.ElemsSpec | v1/validate.go:140-149 | a slice panics only if an element does, is valid exactly when every element is, and reports every element's errors in index order, each element at `p[i]` |
| EngineLaws.ResultTableLaws | v1/validate.go:227-253 | true and nil add nothing; false adds one error at the path with the message tag or `Constraint not satisfied: <src>`; an evaluation failure or another result type adds one error and is invalid; returned errors are added as they are and leave the field valid |
| EngineLaws.InterpretFinal | v1/validate.go:209-253 | a field's verdict is the table's verdict for the result its expression reaches; its errors are those of the `check(...)` calls along the path the run takes, in order, followed by the field's own errors |
| EngineLaws.NestedCheckOrder | v1/validate.go:209-249 | when `check(self)` fails and the expression returns its verdict, the nested errors come first and the field's own error is last |
| StructLaws.SkippedFieldsContributeNothing | v1/validate.go:166-172 | a field is skipped exactly when its trimmed source is `-`, or is empty on a non-embedded field, and then contributes nothing |
| StructLaws.EmbeddedFieldTransparent | v1/validate.go:174-179 | an embedded field is validated by shape at the struct's own path; its errors are kept and its verdict is dropped |
| StructLaws.CheckSourceRecurses | v1/validate.go:187-189 | the source `check` validates the field's value, hook first, at the field's path |
| StructLaws.PaddedCheckRecurses | v1/validate_test.go:71-74 | a check tag written `check ` is the source `check`, so the field is validated, hook first, at its path |
| StructLaws.FieldStepDescribed | v1/validate.go:156-255 | each selected field's step is what its `newType` descriptor asks for |
| StructLaws.StructFromDescribed | v1/validate.go:151-259 | from any field on, the struct walk equals the walk driven by the descriptors of the fields selected from there on |
| StructLaws.StructMatchesNewType | v1/type.go:37-72 | the struct walk, which recomputes the tags, equals the walk driven by the `newType` descriptors of the struct's type |
| StructLaws.NothingSelectedIsValid | v1/validate.go:151-259 | a struct with no selected field is valid and adds no error |
| StructLaws.InvalidReports | v1/validate.go:95-259 | unless a V1 hook returns an empty `Errors`, every invalid verdict comes with at least one error |
| StructLaws.ShapeReports | v1/validate.go:126-138 | shape dispatch never gives an invalid verdict without an error |
| StructLaws.StructReports | v1/validate.go:151-259 | the struct walk never gives an invalid verdict without an error |
| StructLaws.ElemsReports | v1/validate.go:140-149 | the slice walk never gives an invalid verdict without an error |
| StructLaws.FieldReports | v1/validate.go:157-255 | a field step never gives an invalid verdict without an error |
| StructLaws.InterpretReports | v1/validate.go:209-253 | an expression's run never gives an invalid verdict without an error |
| StructLaws.EmptyAggregateIsSilent | v1/validate.go:106-110 | a V1 hook returning an empty `Errors` makes the value invalid with no error |
| StructLaws.ValidateIgnoresBasePath | v1/validate.go:89-93 | the configured base path changes nothing that `Validate` returns |
| EngineScenarios.TestATag | v1/validate_test.go:12-14 | the field of `testA` is shown as `a_1`, has no message, and has the source `len(self) > 0` |
| EngineScenarios.NoLengthPanics | v1/validate.go:261-271 | a field constrained by `len(self) > 0` whose value has no length (a pointer or a struct) makes its field step, and the struct walk from that field on, panic with the expression's source |
| EngineScenarios.TestAScenario | v1/validate_test.go:110-111 | an empty `testA` reports `Constraint not satisfied: len(self) > 0` at `a_1`, and a non-empty one reports nothing |
| EngineScenarios.TestBTag | v1/validate_test.go:16-18 | the field of `testB` is shown as `b_1` with the source `self != nil && check(self)` |
| EngineScenarios.TestBScenario | v1/validate_test.go:113-115 | a nil `b_1` reports at `b_1`; a `b_1` with an empty `testA` reports at `b_1.a_1`, then at `b_1`; a full one reports nothing |
| EngineScenarios.TestFTag | v1/validate_test.go:36-38 | the field of `testF` is shown as `f_1` with the source `len(self) > 0 && check(self)` |
| EngineScenarios.TestFScenario | v1/validate_test.go:126-128 | an empty `f_1` reports at `f_1`; one empty `testA` reports at `f_1[0].a_1`, then at `f_1`; one full `testA` reports nothing |
| EngineScenarios.WrongLengthTag | v1/validate_test.go:80-98 | the field of `testM`, `testN` and `testO` has the source `len(self) == 3` and the message `Wrong length` |
| EngineScenarios.HookScenarios | v1/validate_test.go:153-161 | the V1 hook of `testM` suppresses the field check; the V2 hook of `testN` lets it run; the V2 hook of `testO` adds `syn` before the field's `Wrong length` error |
| EngineScenarios.EmbeddedTags | v1/validate_test.go:100-105 | `testP` embeds `testA` with no check source, and `testQ` embeds it with `-` |
| EngineScenarios.EmbeddedScenario | v1/validate_test.go:163-166 | an untagged embedded `testA` reports `a_1` when empty, at the struct's own path; an embedding tagged `-` reports nothing |
| LegacyStrings.CheckString | stdlib/strings.go:7-14 | true exactly when every rune satisfies the test |
| LegacyStrings.Alpha | stdlib/strings.go:18-20 | true exactly when every rune is a letter |
| LegacyStrings.Numeric | stdlib/strings.go:22-24 | true exactly when every rune is a number |
| LegacyStrings.AlphaNumeric | stdlib/strings.go:26-30 | true exactly when every rune is a letter or a number |
| LegacyStrings.EmptyPasses | stdlib/strings.go:7-14 | the empty string passes every test |
| LegacyStrings.AlphaNumericWeaker | stdlib/strings.go:18-30 | an alphabetic or a numeric string is alphanumeric |
| LegacyStrings.CheckStringAppend | stdlib/strings.go:7-14 | checking a concatenation is checking both halves |
| Strings.CheckString | v1/stdlib/strings.go:9-16 | the loop returns true exactly when every rune passes; it applies the test to every rune on success, and stops at the first failing rune otherwise; it agrees with the older copy |
| Strings.Alpha | v1/stdlib/strings.go:20-22 | true exactly when every rune is a letter, as in the older copy |
| Strings.Numeric | v1/stdlib/strings.go:24-26 | true exactly when every rune is a number, as in the older copy |
| Strings.AlphaNumeric | v1/stdlib/strings.go:28-32 | true exactly when every rune is a letter or a number, as in the older copy |
| Strings.ExpectedVerdicts | v1/validate_test.go:139-140 | for classes that agree with Unicode on ASCII, the empty string and `Abc` are alphabetic, `123Abc` is alphanumeric but neither alphabetic nor numeric, and `987` is numeric |
| Findings.FieldErrorsAsWritten | v1/validate.go:273-285 | `fieldErrors` as written: the same as the engine for aggregates and field errors; otherwise one field error at the path or `<entity>` whose message is the error's text formatted by `Sprintf` as a format with no arguments |
| Findings.FinalDotIsVerb | v1/validate.go:283 | a hook text ending in `%.`, as in `50%.`, reads `50%!.(MISSING)` as written: a final `.` is the verb, not a precision |
| Findings.AsWrittenAgreesWithoutPercent | v1/validate.go:283 | the code as written and the corrected code agree on every error whose text has no `%` |
| Findings.TrailingPercentMangled | v1/validate.go:283 | a hook error whose text ends in `%` gains `!(NOVERB)` as written, and keeps its text when corrected |
| Findings.HundredPercent | v1/validate.go:283 | the hook text `at most 100%` at `age` becomes `at most 100%!(NOVERB)` as written |
| Findings.MissingArgumentMangled | v1/validate.go:283 | a `%` and a verb in a hook's text, as in `%d left`, become `%!d(MISSING)` as written |
| Findings.SpaceFlagMangled | v1/validate.go:283 | `% f`, as in `50% full`, reads as a flag and a verb: `50%!f(MISSING)ull` as written |
| Findings.CorrectedKeepsText | v1/validate.go:282-284 | corrected, a plain hook error becomes one field error at the path, or `<entity>`, whose message is its text exactly |

## Left out

- The expression cache and its sizing from the environment (v1/validate.go:19-40, 191-207): it involves the OS environment, an external LRU library and concurrency, and it does not change any result. Compilation is modelled as uncached.
- The `epl` expression language: it is an external library. It enters as the oracle `Engine.Eval`, and a compile failure is the result `Panic`.
- Engine.Interpret: a panic raised inside a binding the expression calls (`len` on a value without a length, v1/validate.go:269, or a nested `check` whose expression does not compile) is assumed to escape `epl`'s `Exec` unrecovered, so it ends the whole walk. The result `Panic` keeps the expression's source, not the panic's message text (`Type does not have a length: %T`).
- The bindings `now` and `date` (v1/validate.go:212-219): they need the wall clock and floating point. The oracle covers whatever expressions do with them.
- Go reflection: `reflect.Indirect`, `Kind`, `CanInterface`, and the panic on an unexported field (v1/validate.go:182-186). They are replaced by the `Values.Value` datatype. Unexported fields are not represented, so the model has no such panic.
- `Strings.Match` (v1/stdlib/strings.go:34-40): it needs the regular-expression engine.
- The Unicode letter and number tables: they are the parameter `Unicode.Classes`, and `AsciiFaithful` constrains them only on ASCII.
- Strconv.Unquote: decodes only one-rune escapes (`\n`, `\"`, ...). A numeric escape (`\x`, `\u`, `\U`, octal) is treated as a failed unquote.
- Engine.ResultTable: the `%T`/`%v` renderings in "Invalid expression result" are kept as opaque strings supplied with the result.
- `Errors.MarshalJSON`: only its count wording (`Errors.Summary`) is modelled; JSON encoding is not.
- Engine.FieldErrors: the engine uses the corrected `fieldErrors`, which keeps a hook error's text as the message. As written (v1/validate.go:283), a text holding `%` is reformatted: `at most 100%` becomes `at most 100%!(NOVERB)`. `Findings.FieldErrorsAsWritten` models that form, and the Findings table below records it.
- Engine.FieldStep: always offers the struct to the expression as `sup`. The source binds `sup` only when `z.CanInterface()` holds (v1/validate.go:223-225), which fails for a struct reached through an unexported embedded field; the model has no unexported fields to tell those apart.
- Engine.Check: a nil pointer whose element type has a value-receiver `Validate` panics in Go when the hook is called (v1/validate.go:96-100). The model gives the hook's result instead, because a `Value` does not record the method's receiver kind.
- Engine.ResultTable: the false-with-message case builds `FieldError{path, msg}` (v1/validate.go:244) with two values for a struct of three fields (v1/errors.go:10-14), which the Go compiler rejects as too few values in a struct literal. The model reads it as a by-value field error with no cause, the only reading the two values admit.
- Engine.Shrinks: excludes expressions that call `check(sup)` on the struct itself. In the source such a call validates the same struct again (v1/validate.go:209-211). If the struct's type has a V1 hook, or a V2 hook that stops, the hook decides and the call ends (v1/validate.go:106-124); with no hook, or a V2 hook that continues, it may recur without end. The model makes no claim about those runs. Values are finite trees, so cyclic pointer graphs, on which `check(self)` also recurses forever in Go, are outside the model.
- Errors.Chain: a type's own `As` method, which `errors.As` consults before unwrapping, is not modelled; the chain is searched by `Unwrap` alone.
- Errors.Is: compares errors by value. Go's `==` compares a `*FieldError` by pointer, so two distinct field errors with equal contents are the same here and different in Go.
- Findings.SprintfNoArgs: models `fmt.Sprintf` with no arguments only as far as the finding needs. It gives None for `*`, for `[n]` and for widths or precisions longer than six digits; every other form follows the steps of Go's `doPrintf`: flags, width, a precision only when a rune follows the `.`, then the verb.
- The other cases of v1/validate_test.go (`testC`, `testD`, `testE`, `testG`–`testL`) are not replayed, and `TestMode` is replayed only as far as which fields each mode selects. Their behaviour is covered by the laws: `ResultTableLaws` and `InterpretFinal` for expression results, and `PaddedCheckRecurses`, `HookV1Decides` and `FieldErrorsCases` for `testK`.
- The benchmarks of v1/validate_test.go and `stdlib.Indirect` (v1/stdlib/stdlib.go): they do not affect validation results.

## Findings

| source | as written | input that shows it | evidently intended | confidence | as-written member | corrected member |
|---|---|---|---|---|---|---|
| v1/validate.go:283 | `fieldErrors` passes a hook error's text to `FieldErrorf` as the format string, with no arguments | a V1 hook returning `errors.New("at most 100%")` at path `age` gives the message `at most 100%!(NOVERB)`; `%d left` gives `%!d(MISSING) left`; `50% full` gives `50%!f(MISSING)ull`; `50%.` gives `50%!.(MISSING)` | the message is the error's text verbatim, as `newFieldError` (v1/errors.go:16-18) keeps it | high; not executed | Findings.FieldErrorsAsWritten, Findings.TrailingPercentMangled | Engine.FieldErrors, Findings.CorrectedKeepsText |

# sugarzero / loggerv2 — a Dafny model of the context-carried logger

sugarzero is a logging façade over zerolog. A call chain carries its
logger and its structured fields in a Go `context.Context`. Leaf code logs
through the context, without being handed a logger. This project models
the core of the two near-duplicate packages in the repository:

- **sugarzero** (`sugarzero.go`): a process-wide handle that the first
  successful `New` creates and `Reset` drops.
- **loggerv2** (`zerolog_logger.go`, `package_funcs.go`): no global handle.
  `New` always builds a fresh handle. Writes go through the handle the
  context carries.

Code that the two packages share line for line (`WithFields`, `WithField`,
the flattening of fields, `parseLevel`, `selectWriter`) is modelled once.
Each package keeps its own `ZeroLogger` class, since the two differ in
`SetLogLevel` and in which handle a write goes through.

The model has these parts:

- `Levels` (levels.dfy): the seven zerolog severities and their order. It
  also holds `parseLevel`, which is identical in both packages: the empty
  text means info, matching ignores case, and unknown text is an error. It
  gives the lower-case name `GetLogLevel` reports and the upper-case name
  written into records.
- `Carrier` (carrier.dfy): the context as a value with two slots, one for
  `loggerKey` and one for `fieldsKey`. These are the only keys either package
  reads. `Nil` stands for a nil context. Go `any` arguments are `Val`: text,
  or another value identified opaquely, so that non-text keys can occur.
- `Fields` (fields.dfy): the field accumulator, identical in both packages.
  `Extended`, `FieldAdded` and `FieldMap` specify `WithFields`, `WithField`
  and `FieldsFromContext`. The methods of those names run the source's loops
  and are proved equal to them. loggerv2's public `FieldsFromContext` only
  forwards to its private `fieldsFromContext`, so one method models both.
  Lemmas cover the remaining rules:
  - an unpaired last argument is dropped;
  - pairs whose key is not non-empty text are filtered out;
  - when nothing survives, the context comes back unchanged;
  - the new pairs are appended after the existing list;
  - every stored list keeps its key/value shape;
  - flattening to a map is last-write-wins.
- `Emit` (emit.dfy): `selectWriter` and fan-out delivery, the 15 logging
  methods as one `Call` (severity × style), the level gate, and the emitted
  `Record`, an abstract (level, message, fields) triple.
- `SugarZero` (sugarzero.dfy): the `ZeroLogger` class with a mutable `level`
  and a ghost stream `emitted` of the records it has written.
  `Globals` holds the package globals `globalLogger` and `configureZerolog`,
  and models `New` and `Reset`.
- `LoggerV2` (loggerv2.dfy) and `PackageFuncs` (package_funcs.dfy): the
  loggerv2 handle, which resolves the active handle from the context, its
  `New`, and the package-level functions that forward a call or drop it.

Where the description of the system and the code disagree, the model
follows the code:

- The `Xln` methods call the same `writeArgs` as `X`. The message is not
  space-joined, so `Xln` produces the same record as `X` (`Emit.LineMatchesPlain`).
- In loggerv2 there is no fallback warning. `getLoggerFromContext` returns
  nil when the context has no handle, and the call is silently dropped.
- In sugarzero, the "logger not initialized" error of `New` cannot happen
  when calls run one at a time. The `sync.Once` has run exactly when a global
  handle exists (`Globals.Valid`), and `New` is proved never to return that
  error.

## Model

| member | source | states |
|---|---|---|
| Levels.ParseLevel | sugarzero.go:294-303 | definition of `parseLevel`; its properties are the lemmas ParseLevelAccepts, ParseLevelRejects, ParseEmptyIsInfo and ParseIgnoresCase |
| Levels.Name | sugarzero.go:232-237 | definition of the lower-case name `GetLogLevel` reports; its properties are the lemmas NameRoundTrip and ParsedName |
| Levels.LevelField | sugarzero.go:69-71 | definition of the upper-case level name written into records; it parses back to its level by NameRoundTrip |
| Levels.LevelsTotallyOrdered | sugarzero.go:244-247 | the severity order used by the gate is total and antisymmetric |
| Levels.ParseLevelAccepts | sugarzero.go:294-303 | parsing yields level l exactly when the text is empty and l is info, or the lower-cased text is l's name |
| Levels.ParseLevelRejects | zerolog_logger.go:273-282 | parsing fails exactly for non-empty text that lower-cases to no level name; the error carries the text and its message begins "invalid log level" |
| Levels.ParseEmptyIsInfo | zerolog_logger.go:274-276 | the empty text parses to info |
| Levels.ParseIgnoresCase | sugarzero.go:298 | two texts that agree after lower-casing are accepted or rejected together, and parse to the same level |
| Levels.NameRoundTrip | sugarzero.go:69-71 | the lower-case name of a level and the upper-case name written into a record both parse back to that level |
| Levels.ParsedName | sugarzero.go:232-237 | after a successful parse the reported name is "info" for empty text, else the lower-cased text |
| Carrier.OrBackground | sugarzero.go:97-100 | a nil context is replaced by an empty background context; any other context is kept as it is |
| Carrier.WithLogger | zerolog_logger.go:81 | attaching a handle puts it in the logger slot and keeps the attached fields |
| Carrier.FlattenedFields | sugarzero.go:315-323 | the attached list is non-empty exactly when the context is non-nil and holds a non-empty list, and then it is that list |
| Fields.KeptPairs | sugarzero.go:111-119 | definition of the pairs that survive the key filter; its properties are the lemmas KeptPairsWellFormed, KeptPairsEmpty and KeptPairsLookup |
| Fields.Flatten | sugarzero.go:149-153 | definition of the last-write-wins map of a list; its properties are the lemmas FlattenKeys, FlattenLastWins and FlattenAppend |
| Fields.FieldMap | sugarzero.go:143-155 | definition of what `FieldsFromContext` returns; its properties are the lemma FieldMapAbsent and the method FieldsFromContext |
| Fields.Paired | sugarzero.go:105-109 | the arguments used are the longest even-length prefix, one shorter than the input when its length is odd |
| Fields.Extended | zerolog_logger.go:88-123 | WithFields never changes the handle slot, and the attached list afterwards is the old list followed by the surviving pairs |
| Fields.FieldAdded | sugarzero.go:135-140 | WithField with an empty key returns its argument itself; otherwise exactly one pair is appended |
| Fields.WithFields | sugarzero.go:97-132 | the looped implementation returns what Extended specifies |
| Fields.CollectPairs | sugarzero.go:111-119 | the filtering loop builds exactly the surviving pairs of the paired arguments, in input order |
| Fields.WithField | zerolog_logger.go:126-131 | the implementation returns what FieldAdded specifies |
| Fields.FieldsFromContext | sugarzero.go:143-155 | the map-building loop returns nil when no fields are attached, else the last-write-wins map of the list |
| Fields.KeptPairsWellFormed | sugarzero.go:111-119 | every list of surviving pairs has even length and non-empty text at each key position |
| Fields.KeptPairsEmpty | sugarzero.go:121-123 | nothing survives exactly when no key position holds non-empty text |
| Fields.ExtendedUnchanged | zerolog_logger.go:112-114 | WithFields returns its input context unchanged exactly when no pair survives |
| Fields.OddArgumentIgnored | zerolog_logger.go:96-100 | an unpaired last argument has no effect: the result equals that of the arguments without it |
| Fields.StoredKeys | zerolog_logger.go:102-110 | a key reaches storage exactly when it is non-empty text at a key position of a complete pair |
| Fields.KeptPairsLookup | sugarzero.go:113-118 | the map of the surviving pairs is the map of all pairs without the "" key, where non-text and empty keys would land |
| Fields.ExtendedKeepsWellFormed | sugarzero.go:125-131 | a well-formed attached list stays well formed after WithFields |
| Fields.FlattenAppend | sugarzero.go:126-128 | the map of a concatenation is the first map overridden by the second |
| Fields.ExtendedLookup | zerolog_logger.go:116-122 | after WithFields the fields map is the old map overridden by the new valid pairs |
| Fields.FieldAddedLookup | zerolog_logger.go:125-131 | after WithField with a non-empty key the map sets that key and keeps every other |
| Fields.FlattenKeys | sugarzero.go:149-153 | the map's keys are exactly the keys of complete pairs, non-text read as "" |
| Fields.FlattenLastWins | zerolog_logger.go:300-304 | a key maps to the value of its last pair: a later duplicate overrides an earlier one |
| Fields.FieldMapAbsent | zerolog_logger.go:294-298 | the map is absent exactly when no fields are attached, and an attached well-formed list never gives an empty map |
| Fields.MergeExample | sugarzero.go:150-153 | adding "a" twice leaves only the second value |
| Emit.SelectWriter | sugarzero.go:305-313 | definition of `selectWriter`; its property is the lemma SelectWriterCopies |
| Emit.MessageOf | sugarzero.go:253-262 | definition of the message a call writes: empty text for no arguments, the printed arguments otherwise, the format and arguments for the f-style calls; its property is the lemma LineMatchesPlain |
| Emit.SelectWriterCopies | sugarzero.go:305-313 | the chosen target reaches stdout once when no writer was given; otherwise it reaches each writer, stdout included, as often as that writer was given |
| Emit.FanOutParity | zerolog_logger.go:284-292 | a writer given once receives exactly the records the handle emits, so fanned-out writers hold identical content |
| Emit.DeliveredAppend | zerolog_logger.go:291 | what a writer receives of later writes lands after what it received of earlier ones |
| Emit.Emission | sugarzero.go:244-251 | a call emits at most one record; it emits one exactly when its severity is at or above the level, at that severity and carrying the context's fields |
| Emit.LineMatchesPlain | zerolog_logger.go:146-160 | Xln emits the same as X; with no arguments the message is empty text |
| SugarZero.ZeroLogger.constructor | sugarzero.go:81-84 | a new handle has the given level and target and has written nothing |
| SugarZero.ZeroLogger.GetLogLevel | sugarzero.go:232-237 | the reported name is the lower-case name of the current level and parses back to it |
| SugarZero.ZeroLogger.SetLogLevel | sugarzero.go:217-230 | invalid text returns the parse error and keeps the level; valid text sets the level, after which GetLogLevel reports its lower-case name |
| SugarZero.ZeroLogger.Log | sugarzero.go:239-280 | a write appends exactly the gated emission of the call and changes nothing else |
| SugarZero.ZeroLogger.LogMissingLoggerWarning | sugarzero.go:282-292 | appends one WARN record with the fallback message when warnings pass the level |
| SugarZero.LoggerFromContextValue | sugarzero.go:325-333 | a handle is found exactly when the context is non-nil and holds one |
| SugarZero.ResolutionAfterAttach | sugarzero.go:91 | a handle attached to a context is the one found, and adding fields does not change which is found |
| SugarZero.Globals.constructor | sugarzero.go:23-28 | at start there is no global handle and the once-guard has not run |
| SugarZero.Globals.Reset | sugarzero.go:39-42 | clears the global handle and re-arms the once-guard |
| SugarZero.Globals.New | sugarzero.go:47-92 | an existing global handle is reused and the new level and writers are ignored; an invalid level is an error that creates nothing; otherwise a fresh handle at that level over the selected writer becomes global and is attached; "not initialized" is never returned |
| SugarZero.Globals.Dispatch | sugarzero_test.go:116-134 | a handle in the context writes the call and a different global handle writes nothing; without one the global handle writes a fallback warning and then the call; without either nothing is written |
| LoggerV2.ZeroLogger.constructor | zerolog_logger.go:76-79 | a new handle has the given level and target and has written nothing |
| LoggerV2.ZeroLogger.GetLogLevel | zerolog_logger.go:211-216 | the reported name is the lower-case name of the current level and parses back to it |
| LoggerV2.ZeroLogger.SetLogLevel | zerolog_logger.go:198-209 | invalid text is ignored and keeps the level; valid text sets it, after which GetLogLevel reports its lower-case name |
| LoggerV2.ZeroLogger.LoggerFromContext | zerolog_logger.go:264-271 | the active handle is the context's when it holds one, else the receiver |
| LoggerV2.ZeroLogger.Log | zerolog_logger.go:218-262 | the active handle's level gates the call and only the active handle's stream grows, by exactly the gated emission |
| LoggerV2.ResolutionAfterAttach | zerolog_logger.go:81 | a handle attached to a context is active for every receiver, and adding fields does not change which is active |
| LoggerV2.New | zerolog_logger.go:46-83 | an invalid level returns the input context, no handle and the error; otherwise a fresh handle at that level over the selected writer is returned and attached |
| PackageFuncs.GetLoggerFromContext | package_funcs.go:112-120 | a nil context yields no handle; otherwise the handle in the context, if any |
| PackageFuncs.ResolutionAfterAttach | package_funcs.go:116-119 | a handle attached to a context is the one found, and adding fields does not change which is found |
| PackageFuncs.Dispatch | package_funcs.go:5-109 | with no handle nothing is written; with one, the call goes to that handle and it writes exactly the gated emission |

## Left out

- Encoding: JSON layout, timestamps, the `position` caller field and the
  `function` hook. These are zerolog and `runtime` internals. A record is
  the abstract (level, message, fields) triple, and the upper-cased level
  name is `Levels.LevelField`.
- Message rendering by `fmt` (`%v`, `Sprint`, `Msgf` substitution) is kept
  abstract in `Emit.Message`.
- zerolog's `ParseLevel` is not part of this model. The model accepts
  exactly the seven names `trace` … `panic`, so zerolog's other spellings
  (`disabled`, numeric levels) are left out.
- `strings.ToLower` and `strings.ToUpper` are modelled on ASCII letters
  only. Go's Unicode case mapping also turns a few non-ASCII letters into
  ASCII ones.
- Levels.ParseLevelRejects: the error message is modelled as the prefix
  `invalid log level "<text>"`. It does not model Go's `%q` escaping or the
  wrapped zerolog error text.
- zerolog's process-wide `GlobalLevel` gate and its `Disabled` level are
  not modelled. A handle's own level is the only gate.
- `sync.RWMutex` and `sync.Once`: the model runs calls one at a time. Each
  lock guards a single read or assignment, and the once-guard is a boolean.
- `io.Writer`, `os.Stdout` and `io.MultiWriter` are modelled only as how
  many copies of each write reach a writer. Write errors are not modelled.
- The OpenTelemetry tracing bridge (`trace_id`/`span_id` fields) is not part
  of this model. Its code is not among the modelled files.
- Process termination on fatal or panic: the handles only call
  `WithLevel`, so fatal is an ordinary level here.
- SugarZero.Globals.Dispatch: the sugarzero package-level functions are not
  part of this model. This method is an extension reconstructed from the
  package's tests. It does not say whether the fallback warning repeats on
  later calls, or what the package-level `SetLogLevel`/`GetLogLevel` do.
- A handle stored as a typed nil pointer is not modelled. Only the package
  can store under its unexported key, and `New` always stores a real handle.
- The example programs and the loggerv2 test file are not modelled. That
  test file no longer matches the code it tests.

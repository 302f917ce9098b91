# CloudMonitor-Go core: access-logging middleware, file configuration, log levels

A Dafny model of three pieces of sequential logic from the CloudMonitor-Go
repository:

- **The access-logging middleware** (`pkg/grpc/middleware/middleware.go`).
  `Logging(logger)` decorates a request handler. The decorated handler reads
  the optional server transport metadata (transport kind and operation name),
  calls the wrapped handler once, classifies its error with `FromError`
  (nil stays nil, every other error becomes code 500 with the error's
  message), and returns the handler's reply and error untouched. When the
  handler returns (rather than panics), it writes exactly one Info-level
  record with the keys `kind` (always `"server"`), `component`, `operation`,
  `args`, `code`, `reason`, `stack` and `latency`.
  The logger is a class whose `records` sequence each `Log` call extends.
  The wrapped handler is reached through a `Downstream` object whose `Call`
  method is the only way to invoke it and keeps a ghost trace of the calls.
  The decorated handler is a class holding the logger and that object, so
  "called once, one record, outcome unchanged" are postconditions of
  `LoggedHandler.Handle`; a body that called the handler twice through
  `Downstream.Call` would not verify. `TwoRequests` is a usage example that exercises this contract from
  a caller's side.
- **The hierarchical configuration** (`pkg/utils/config.go`). Configuration
  values are a datatype (`VMap`, `VStr`, `VInt`, `VFloat`, `VBool`, `VNull`
  for Go's nil, `VOther` for lists and other decoded shapes). A dotted key is
  split with a model of `strings.Split` (proved inverse to `strings.Join`),
  and `getNestedValue` is the imperative loop `GetNestedValue`, proved
  against the recursive specification `Lookup`. Lemmas state its early exits
  (nil at the first missing segment, the first non-map value ends the walk)
  and its composition over a dotted key. The typed getters fall back to
  `""`, `0` and `false`. `NewFileConfig` is modelled as its extension
  dispatch and error order, with the file contents and the decoders' results
  as inputs.
- **The log-level switch** (`pkg/utils/logger.go`). Both copies of the
  `switch` in `NewLogger` and `NewFileLogger` map `"debug"`, `"info"`,
  `"warn"`, `"error"` and `"fatal"` to their levels and every other string
  to Info. The matching is exact and case-sensitive, and the two copies
  agree. `GetDefaultLogger` asks for `"info"`.

Files: `wrappers.dfy` (Option and Result), `middleware.dfy` (module
`Middleware`), `config.dfy` (module `Config`), `logger.dfy` (module
`LoggerLevels`).

Error classification is as conservative as the code makes it: a failure that
already carries a richer code and reason does not keep them. `FromError`
returns code 500 for every non-nil error (its comment leaves richer
conversion for later), so the model has no such "business" failures.

## Model

| member | source | states |
|---|---|---|
| `Middleware.FromError` | pkg/grpc/middleware/middleware.go:76-85 | nil exactly for nil; any error gives code 500 with the error's message as reason |
| `Middleware.ExtractStack` | pkg/grpc/middleware/middleware.go:68-73 | nil exactly for nil; otherwise the error's message |
| `Middleware.ExtractArgs` | pkg/grpc/middleware/middleware.go:60-65 | the request's `String()` when it has one, the request itself otherwise |
| `Middleware.AccessRecord` | pkg/grpc/middleware/middleware.go:18-43 | the logged record: Info level and kind "server"; component and operation empty without transport metadata, else the transport's; code 0, empty reason and nil stack on success; code 500 and reason = stack = message on failure; args from `extractArgs`; the measured latency |
| `Middleware.Logger.Log` | pkg/grpc/middleware/middleware.go:34-43 | one `Log` call appends exactly its record to the logger |
| `Middleware.Downstream.Call` | pkg/grpc/middleware/middleware.go:29 | one call of the wrapped handler: its outcome for the context and request, added to the trace of calls |
| `Middleware.LoggedHandler.constructor` | pkg/grpc/middleware/middleware.go:15-16 | `Logging(logger)(handler)` captures the logger and the handler, and has made no calls yet |
| `Middleware.LoggedHandler.Handle` | pkg/grpc/middleware/middleware.go:17-45 | returns exactly the wrapped handler's reply and error for the same context and request; calls the handler exactly once, with that context and request; appends exactly one record, the `AccessRecord` of this call, to the logger |
| `Middleware.RecordCodeReflectsOutcome` | pkg/grpc/middleware/middleware.go:30-41 | a record's code is 0, and its stack nil, exactly when the handler succeeded |
| `Middleware.FailureMessageRecovered` | pkg/grpc/middleware/middleware.go:30-41 | the record of a failure gives back the failure: its reason is the error's message and its stack equals its reason |
| `Config.Split` | pkg/utils/config.go:92 | `strings.Split` on the separator: at least one piece, no piece contains the separator |
| `Config.JoinSplit` | pkg/utils/config.go:92 | joining the pieces of a split with the separator gives back the key |
| `Config.SplitJoin` | pkg/utils/config.go:92 | splitting the join of separator-free pieces gives back the pieces |
| `Config.SplitFirstSegment` | pkg/utils/config.go:92 | a dot-free first segment `a` of `a.rest` splits off as the first piece, followed by the pieces of `rest` |
| `Config.GetNestedValue` | pkg/utils/config.go:91-108 | the loop over the key's segments returns `Lookup` of the split key: nil at a missing segment, the first non-map value, or the map reached |
| `Config.LookupAppend` | pkg/utils/config.go:93-107 | looking up `keys + more` continues from the map `keys` reaches; a lookup that stopped early ignores the further segments |
| `Config.MissingSegmentGivesNil` | pkg/utils/config.go:95-104 | once the earlier segments reached a map, a segment absent from it makes the whole lookup nil |
| `Config.NonMapValueEndsLookup` | pkg/utils/config.go:96-101 | once the earlier segments reached a map, a segment holding a non-map value makes the lookup return that value, whatever follows |
| `Config.DottedKey` | pkg/utils/config.go:91-108 | for a dot-free `a`, looking up `a.rest` is nil when `a` is absent, `data[a]` when it is not a map, and the lookup of `rest` inside `data[a]` otherwise |
| `Config.ScalarStopsLookup` | pkg/utils/config.go:97-101 | `"a.b"` with `a = 5` yields 5 |
| `Config.FileConfig.constructor` | pkg/utils/config.go:49 | the configuration holds the decoded map |
| `Config.FileConfig.Get` | pkg/utils/config.go:53-55 | `Get` is the nested lookup of the dotted key and changes nothing |
| `Config.FileConfig.GetString` | pkg/utils/config.go:58-65 | the looked-up string, and `""` for anything else, a missing key included |
| `Config.FileConfig.GetInt` | pkg/utils/config.go:68-78 | the looked-up int, a float truncated toward zero, and 0 for anything else, a missing key included |
| `Config.FileConfig.GetBool` | pkg/utils/config.go:81-88 | the looked-up bool, and `false` for anything else, a missing key included |
| `Config.TruncateToInt` | pkg/utils/config.go:73-74 | Go's `int(f)`: the integer part of `f`, truncated toward zero |
| `Config.LastIndex` | pkg/utils/config.go:29 | -1 exactly when the character does not occur; otherwise a position holding it with none after it |
| `Config.Extension` | pkg/utils/config.go:29 | the lower-cased text after the last '.', which contains no '.'; the whole path lower-cased exactly when the path has no '.' |
| `Config.SelectFormat` | pkg/utils/config.go:36-43 | JSON exactly for "json", YAML exactly for "yaml" or "yml", otherwise the error "unsupported config file format: " followed by the extension |
| `Config.LoadData` | pkg/utils/config.go:26-50 | a read error first ("read config file error: ..."), then an unsupported extension, then a decoder error ("parse config file error: ..."), otherwise the decoded map |
| `Config.NewFileConfig` | pkg/utils/config.go:26-50 | a new configuration holding the loaded map, or the loading error |
| `Config.UpperCaseExtension` | pkg/utils/config.go:29 | `a.YML` is accepted as YAML: the extension is lower-cased before the switch |
| `Config.LastDotDecides` | pkg/utils/config.go:29 | `a.json.x` is refused: only the text after the last '.' counts |
| `Config.NoDotWholePath` | pkg/utils/config.go:29 | a path without '.' is its own extension, so `json` is accepted as JSON |
| `LoggerLevels.NewLogger` | pkg/utils/logger.go:18-41 | a known name selects the level of that name, any other string Info; output to stdout, errors to stderr |
| `LoggerLevels.NewFileLogger` | pkg/utils/logger.go:44-67 | the same selection from its own copy of the switch; output and errors to the given file |
| `LoggerLevels.DefaultLogger` | pkg/utils/logger.go:70-71 | the default logger runs at Info |
| `LoggerLevels.NameRoundTrip` | pkg/utils/logger.go:20-30 | every level is selected by its own name, by both constructors |
| `LoggerLevels.SelectionIsExact` | pkg/utils/logger.go:20-33 | a level is selected exactly by its own name, or, for Info, also by any unknown name |
| `LoggerLevels.CopiesAgree` | pkg/utils/logger.go:20-59 | `NewLogger` and `NewFileLogger` select the same level for every string |
| `LoggerLevels.NoNormalisation` | pkg/utils/logger.go:31-32 | other cases, surrounding spaces and the empty string fall to Info |

## Left out

- Latency measurement (`time.Now`, `time.Since(...).Seconds()`): the clock is not modelled; `Handle` takes the measured latency as a parameter and logs it unchanged.
- `Recovery()` and `Tracing()`: one-line wrappers over kratos middleware whose code is not part of this model (panic recovery, spans).
- Composition of middlewares into a chain: it lives in the kratos framework, not in these files.
- `logger.WithContext(ctx)`: contextual enrichment by the kratos logger is a foreign call; the logger is an append-only sequence of records, and the error `Log` returns is ignored as in the source.
- The record's key/value list is modelled as a datatype with one field per key, in the source's key order.
- Middleware.LoggedHandler.Handle: the wrapped handler is a pure function of context and request, so its own side effects are not modelled; "called exactly once" is checked on the ghost trace kept by `Downstream.Call`, through which `Handle` makes its call; evaluating the pure handler function directly, which has no effect in the model, would not appear in that trace.
- Middleware.LoggedHandler.Handle: panics are not modelled. `Logging` has no `defer`, so in the source a panic in the handler, in the request's `String()` or in the error's `Error()` writes no record and passes through; the model's handler, `String()` and `Error()` always return, so every request ends with exactly one record.
- Middleware.FailureMessageRecovered: the source calls the error's `Error()` twice, once for the reason (in `FromError`) and once for the stack (in `extractStack`); the model's `Failure` holds one fixed message, so the two always agree, which an `Error()` that returns different text on each call would break.
- Concurrent requests through the same logger: not modelled.
- File reading and JSON/YAML decoding in `NewFileConfig`: I/O and third-party decoders; their outcomes are inputs of `LoadData` and `NewFileConfig`.
- Config.Extension: `strings.ToLower` is modelled on ASCII letters only; no other character lowers to a letter of "json", "yaml" or "yml", so acceptance is the same.
- Config.FileConfig.Get: when every segment of the key reaches a map, Go returns the configuration's own nested map, shared with `data`, so a caller's writes into it change what later getters see; here `VMap` is an immutable value and `data` a constant, so writes through the returned map are not modelled.
- Config.FileConfig.GetInt: NaN, infinities and floats outside Go's `int` range (whose conversion Go leaves implementation-defined) are not modelled; `VInt` holds an unbounded integer rather than a 64-bit `int`.
- Maps that the YAML decoder yields with non-string keys are not `map[string]interface{}` in Go; they are `VOther` here, which the lookup returns as a non-map value, as the source does.
- The `Config` interface: only method signatures, implemented by `FileConfig`.
- zap configuration beyond the level and output paths, `config.Build()`, and the fallback in `GetDefaultLogger` when building fails: library plumbing.
- `pkg/grpc/client/client.go` (a constructor over the kratos HTTP client) and `internal/alerting/cmd/alerting/wire.go` (a dependency-injection stub): not part of this model.

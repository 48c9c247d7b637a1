# Configuration providers, modelled in Dafny

This project models the configuration package `internal/conf`. A program
asks the package for configuration values by string key, typed as a string, a
64-bit float or a boolean.

- A **file provider** (`FileConfigProvider`) backs the answers with a flat
  text file of `KEY=VALUE` lines. The file is read lazily on the first
  request and cached from then on. A failed read leaves the cache empty, so
  the next request tries again.
- A file that cannot be opened counts as an empty configuration, not as an
  error.
- A line that does not split into exactly two tokens on `=` is a parse
  error. That includes an empty line and a value that contains `=`.
- The scanner stopping early (a read error or an over-long line) gives an
  unknown error that wraps the scanner's cause.
- A **chain provider** (`ChainConfigProvider`) asks its providers in order
  and returns the first answer without an error. Providers after that one are
  not called. If every provider fails, the chain panics with the last error,
  or with nil when the chain is empty. It never returns an error.

The modules follow the Go package:

| module | file | models |
|---|---|---|
| `Wrappers` | `wrappers.dfy` | `Option` and `Result` |
| `GoStrings` | `gostrings.dfy` | `strings.Split` with a one-character separator, and its inverse `Join` |
| `ConfErrors` | `errors.dfy` | the four error types, as constructors of `ConfError`, and Go's `(value, error)` pair, as `Reply` |
| `Conversions` | `conversions.dfy` | `strconv.ParseBool` with Go's twelve literals; `float64` as its 64-bit pattern, with `ParseFloat` passed in as a function |
| `ConfParse` | `parse.dfy` | `initMapFromFile`, as a specification function `Load` and as the looping method `InitMapFromFile` proved equal to it |
| `FileProvider` | `fileprovider.dfy` | the provider's answer and next-cache functions; the class `FileConfigProvider`, whose mutable `store` field is `Option<Store>` (`None` is Go's nil map) |
| `Chain` | `chain.dfy` | the chain loop as a function `Resolve` over the providers' answers; the class `ChainConfigProvider`, whose methods call the providers in turn |

The file system is a parameter, `Disk`: a map from path to the lines the
scanner would deliver, plus an optional scan error. A path that is missing
from the map is one that `os.Open` cannot open. Every getter takes the disk
as it is at the moment of the call, so a file may change between calls.

The error constructors `NewKeyNotFoundError`, `NewTypeConversionError` and
`NewParsingError`, and the literal that builds an `UnknownError`, are the
constructors `KeyNotFound(key)`, `TypeConversion(key, value, typeName)`,
`Parsing(line)` and `Unknown(cause, path)` of `ConfErrors.ConfError`.
`UnknownError.Unwrap` is the `cause` field.

A chain getter's panic is the outcome `Chain.Panic(lastErr)`, where `None`
stands for `panic(nil)`. The chain's method contracts state two things:

- the outcome equals `Resolve` of the answers the providers would give from
  their stores at entry;
- the first `Consulted(...)` providers have moved to their next cache state,
  and every other provider is unchanged.

This also covers a provider listed twice: its second call answers like the
first (`RepeatedCall`).

Four behaviours of the code are easy to misread; the model follows the code:

- A line is split on every `=`, not only the first. `A=b=c` is a parse error.
- Empty lines are not skipped. Each one is a parse error.
- `ParseBool` accepts only its exact twelve spellings (`tRUE` is refused). It
  is not case-insensitive.
- A chain holds only leaf providers. See "Left out".

## Model

| member | source | states |
|---|---|---|
| GoStrings.Split | internal/conf/conf.go:154 | `strings.Split` on one separator gives one more token than there are separators |
| GoStrings.SplitPiecesFree | internal/conf/conf.go:154 | no token contains the separator |
| GoStrings.JoinSplit | internal/conf/conf.go:154 | splitting loses no text: joining the tokens with the separator restores the line |
| GoStrings.SplitPrefix | internal/conf/conf.go:154 | a separator-free prefix becomes the front of the first token |
| GoStrings.SplitJoin | internal/conf/conf.go:154 | separator-free tokens joined and split again come back unchanged |
| GoStrings.SplitAroundOne | internal/conf/conf.go:154 | `k=v` with no `=` in `k` or `v` splits into exactly `[k, v]` |
| GoStrings.SplitTwoPieces | internal/conf/conf.go:154-155 | two tokens mean exactly one `=`, with the line being token 0, `=`, token 1 |
| Conversions.ParseBool | internal/conf/conf.go:135 | accepted exactly when the text is one of the twelve Go literals; the value is true exactly for the six true literals |
| Conversions.ParseBoolIsCaseSensitive | internal/conf/conf.go:135-138 | a mixed-case `tRUE` and `yes` are conversion failures |
| ConfParse.WellFormedLine | internal/conf/conf.go:154-155 | reference definition of an accepted line (`strings.Split(line, "=")` gives two tokens); its shape is stated by WellFormedLineShape, EntryLine and RejectedLines |
| ConfParse.KeyOf | internal/conf/conf.go:154-159 | reference definition of `tokens[0]` of an accepted line, the key stored at line 159; ParseKeysComplete, ParseKeysSound and ParseLastWins are stated in its terms |
| ConfParse.ValueOf | internal/conf/conf.go:154-159 | reference definition of `tokens[1]` of an accepted line, the value stored at line 159; ParseLastWins and EntryLine are stated in its terms |
| ConfParse.ParseLines | internal/conf/conf.go:152-160 | reference definition of the scanning loop over the lines read so far; its properties are ParseAcceptance, ParseFirstBadLine, ParseFailureSticks, ParseKeysComplete, ParseKeysSound and ParseLastWins |
| ConfParse.Load | internal/conf/conf.go:143-171 | reference definition of `initMapFromFile` as a whole; its properties are MissingFileLoadsEmpty, LoadOutcome and LoadNeverTypeConversion, and the method InitMapFromFile is proved equal to it |
| ConfParse.WellFormedLineShape | internal/conf/conf.go:154-155 | a line is accepted exactly when it has one `=`; key and value are the text before and after it, both free of `=` |
| ConfParse.EntryLine | internal/conf/conf.go:154-159 | every `k=v` with `=` in neither part is accepted and stores `k` mapped to `v` |
| ConfParse.ParseAcceptance | internal/conf/conf.go:152-160 | parsing succeeds exactly when every line is accepted |
| ConfParse.ParseFirstBadLine | internal/conf/conf.go:152-157 | a failing parse is `Parsing` of the first rejected line, and gives no map |
| ConfParse.ParseFailureSticks | internal/conf/conf.go:155-157 | after a rejected line, later lines change nothing (the early return) |
| ConfParse.ParseKeysComplete | internal/conf/conf.go:159 | every line's key is in the parsed map |
| ConfParse.ParseKeysSound | internal/conf/conf.go:159 | every key of the parsed map is the key of some line |
| ConfParse.ParseLastWins | internal/conf/conf.go:159 | a key maps to the value on the last line that has that key |
| ConfParse.ParseSnoc | internal/conf/conf.go:159 | one more accepted line adds or overwrites exactly its own entry |
| ConfParse.ThreeEntries | internal/conf/conf.go:152-160 | three `k=v` lines give their three entries, with later ones overwriting |
| ConfParse.ExampleFile | internal/conf/conf.go:152-160 | the file `HOST=localhost`, `PORT=8080`, `DEBUG=true` parses into those three entries |
| ConfParse.EmptyLineInFile | internal/conf/conf.go:152-157 | an empty line in the middle of a file is a parse error for `""` |
| ConfParse.RejectedLines | internal/conf/conf.go:154-157 | `A=b=c`, the empty line and a line with no `=` are all rejected |
| ConfParse.MissingFileLoadsEmpty | internal/conf/conf.go:144-148 | a file that cannot be opened loads as the empty map with no error |
| ConfParse.LoadOutcome | internal/conf/conf.go:145-170 | for an openable file, a rejected line takes precedence over a scanner error, and a scanner error over the parsed map |
| ConfParse.InitMapFromFile | internal/conf/conf.go:143-171 | the scanning loop returns exactly what `Load` specifies (loop invariant: the map so far is the parse of the lines read so far) |
| FileProvider.Lookup | internal/conf/conf.go:108-113 | reference definition of the lookup in a loaded store: the value, or `KeyNotFound(key)` |
| FileProvider.NextStore | internal/conf/conf.go:100-106 | reference definition of the cache after one getter call; its properties are RepeatedCall, LoadedStoreIsFinal, FirstSuccessfulLoadIsCached and FailedLoadsLeaveStoreUnset |
| FileProvider.StringReply | internal/conf/conf.go:99-114 | reference definition of the `GetString` answer; its properties are ReplyAgreesWithStore, RepeatedCall, TypeConversionOnlyFromConversion and the call-sequence lemmas |
| FileProvider.Converted | internal/conf/conf.go:117-127 | reference definition of the conversion step shared by the typed getters; its error precedence is TypedReplyCases |
| FileProvider.FloatReply | internal/conf/conf.go:116-128 | reference definition of the `GetFloat` answer (`"float64"`, zero `0`); its properties are TypedReplyCases and RepeatedFloatCall |
| FileProvider.BoolReply | internal/conf/conf.go:130-141 | reference definition of the `GetBool` answer (`ParseBool`, `"bool"`, zero `false`); its properties are TypedReplyCases and RepeatedBoolCall |
| FileProvider.StoreAfter | internal/conf/conf.go:99-114 | reference definition of the cache after a sequence of `GetString` calls, each on the disk of its moment; the subject of LoadedStoreIsFinal, FirstSuccessfulLoadIsCached, FailedLoadsLeaveStoreUnset and MissingFileNeverLoadError |
| FileProvider.RepliesOf | internal/conf/conf.go:99-114 | the answers to a sequence of `GetString` calls, one per call in order; the same four lemmas state them call by call |
| FileProvider.ReplyAgreesWithStore | internal/conf/conf.go:99-114 | a store left loaded answers by lookup; a store left nil means the load failed, and the answer is `""` with that load error |
| FileProvider.RepeatedCall | internal/conf/conf.go:100-106 | a second call on the same disk keeps the cache and gives the same answer |
| FileProvider.RepeatedFloatCall | internal/conf/conf.go:116-128 | the same for `GetFloat` |
| FileProvider.RepeatedBoolCall | internal/conf/conf.go:130-141 | the same for `GetBool` |
| FileProvider.LoadedStoreIsFinal | internal/conf/conf.go:100-113 | once loaded, the store is never reloaded, and every later call is a lookup in it |
| FileProvider.FirstSuccessfulLoadIsCached | internal/conf/conf.go:99-114 | starting unloaded, each call before the first successful load returns its own load error; that load's map is cached and answers every later call |
| FileProvider.FailedLoadsLeaveStoreUnset | internal/conf/conf.go:100-104 | while every load fails, the cache stays nil and each call returns `""` with its load error |
| FileProvider.MissingFileNeverLoadError | internal/conf/conf.go:99-114 | a file missing at the first call caches the empty map, so every call then and later fails with `KeyNotFound` for its key |
| FileProvider.TypedReplyCases | internal/conf/conf.go:116-141 | typed getters' precedence: a `GetString` error passes through with zero; else a failed conversion gives the parser's value and `TypeConversion(key, raw, type)`; no error exactly when both steps succeed |
| FileProvider.TypeConversionOnlyFromConversion | internal/conf/conf.go:99-114 | `GetString` never reports `TypeConversion` |
| FileProvider.LoadNeverTypeConversion | internal/conf/conf.go:143-171 | a load fails only with `Parsing` or `Unknown` |
| FileProvider.LoadErrorIsParsing | internal/conf/conf.go:152-157 | the line loop fails only with `Parsing` |
| FileProvider.FileConfigProvider.constructor | internal/conf/conf.go:89-97 | a new provider has its path and no loaded store |
| FileProvider.FileConfigProvider.GetString | internal/conf/conf.go:99-114 | the answer and the new cache match the specification functions; a loaded cache is kept; a loaded cache answers by lookup; a nil cache after the call means the load failed and its error was returned |
| FileProvider.FileConfigProvider.GetFloat | internal/conf/conf.go:116-128 | `GetString`'s error is returned with `0`; otherwise a parser failure is returned as `TypeConversion(key, raw, "float64")` with the parser's value; otherwise the value; the cache changes as for `GetString` |
| FileProvider.FileConfigProvider.GetBool | internal/conf/conf.go:130-141 | the same with `ParseBool` and `"bool"`: the twelve literals convert, anything else is a `TypeConversion` error with `false` |
| Chain.Resolve | internal/conf/conf.go:184-191 | reference definition of the chain loop over the providers' answers; its properties are FirstSuccessWins, AllFailPanics, ValueIffSomeSuccess and ChainIsOverlay |
| Chain.ResolveFrom | internal/conf/conf.go:184-191 | the same loop entered with the last error seen so far; the subject of FirstSuccessWins and AllFailPanics |
| Chain.Consulted | internal/conf/conf.go:184-189 | how many providers the loop calls, never more than there are; FirstSuccessWins and AllFailPanics state its value |
| Chain.FirstSuccessWins | internal/conf/conf.go:184-189 | the outcome is the value of the lowest-index provider that succeeds, and exactly the providers up to it are called |
| Chain.AllFailPanics | internal/conf/conf.go:184-191 | when every provider fails, all of them are called and the panic carries the last one's error (nil for an empty chain) |
| Chain.ValueIffSomeSuccess | internal/conf/conf.go:181-192 | the chain returns a value exactly when some provider succeeds |
| Chain.FirstSuccess | internal/conf/conf.go:184-189 | when any provider succeeds, there is a first one that does |
| Chain.ChainIsOverlay | internal/conf/conf.go:181-192 | loaded providers answer like their stores layered earlier-over-later; a key in none gives a `KeyNotFound` panic |
| Chain.ChainExample | internal/conf/conf.go:181-192 | a key missing from the first file is taken from the second, and a key in both is taken from the first |
| Chain.RepeatedProbe | internal/conf/conf.go:220-230 | calling the closure twice on one provider gives the same error the second time |
| Chain.ProbeError | internal/conf/conf.go:223 | reference definition of the error the closure `f(cp.chain[i])` returns: the error of the one typed getter the probe calls; Invoke and ChainLookup are stated in its terms, RepeatedProbe is its idempotence |
| Chain.Invoke | internal/conf/conf.go:223 | running the closure calls one getter: it returns that getter's error and moves the store as the getter does |
| Chain.ChainConfigProvider.constructor | internal/conf/conf.go:177-179 | the chain is the given provider list |
| Chain.ChainConfigProvider.GetString | internal/conf/conf.go:181-192 | the outcome is `Resolve` of the providers' answers from their stores at entry; only the first `Consulted` providers change, each to its next store |
| Chain.ChainConfigProvider.GetFloat | internal/conf/conf.go:194-205 | the same over the providers' `GetFloat` answers |
| Chain.ChainConfigProvider.GetBool | internal/conf/conf.go:207-218 | the same over the providers' `GetBool` answers |
| Chain.ChainConfigProvider.ChainLookup | internal/conf/conf.go:220-230 | the same over the closure's errors: returns at the first nil error, else panics with the last error |
| Chain.ChainConfigProvider.LoadedChainIsOverlay | internal/conf/conf.go:181-192 | with every provider loaded, the chain's `GetString` outcome is the layered-store lookup |

## Left out

- `NewFileConfigProvider` resolves the path against the caller's source directory through `runtime.Caller`. The model takes the resolved path as given.
- The chain getters hand one `Disk` to every provider they call: the file system is taken not to change during one chain call. The claim that a provider listed twice answers the second time as it did the first rests on this.
- Real file I/O is left out. `bufio.Scanner`'s line splitting, carriage-return stripping and 64 KiB token limit are summarised by `FileContents`: the lines delivered, and whether the scan ended with an error. `file.Close` is not modelled.
- `strconv.ParseFloat` is not modelled. Callers pass it in as a `FloatParser`, and a `float64` is its 64-bit pattern, with `PositiveZero` as Go's `0`.
- `Error()` message texts are not modelled. Each error keeps only its structured fields: key, value, type name and line. For `UnknownError`, whose Go fields are the wrapped error and the message, the model keeps the cause and the path that the message names.
- A chain is a `seq<FileConfigProvider>` fixed at construction. A nil entry in the Go slice, which crashes with a nil-pointer panic at `cp.chain[i].GetString(key)` rather than `panic(err)`, cannot be expressed. Neither can a caller changing the entries of the slice it passed to `NewChainConfigProvider` after construction.
- The `ConfigProvider` interface is left out, and a chain holds only `FileConfigProvider`s. A chain nested inside a chain cannot be expressed, and in Go it cannot satisfy the interface either, because the chain getters return no error.
- Chain.ChainConfigProvider.ChainLookup: the closure `f` is limited to the `Probe` forms, which call one typed getter of the provider and return its error. An arbitrary Go closure is not modelled.
- Concurrent use of one provider is not modelled. The Go code has no locking, and the model's calls are sequential.
- The Go runtime's handling of `panic(nil)` differs across versions; it is modelled as `Panic(None)`.

# Package `out`: severity-filtered console output, in Dafny

This project models package `out` of the Go repository `sudachen/misc`: a
process-wide output facility in which every message carries a severity
`Level`. The package keeps, per ordered level, an optional `io.Writer` and an
optional prefix, plus one visibility threshold (`currentLevel`, default
`Info`) and a fallback `DefaultWriter` (default `os.Stderr`). `Print` and
`Printf` assemble one message in a fresh buffer (full prefix, body, a newline
if one is missing) and write it to the level's writer, but only when the level
is visible. `Fatalf` does the same at `Error` and then exits with status 255.

Files:

- `prelude.dfy` — `Byte` (a Go byte; a `char` below 256 so that literals can
  be written) and `Option` (Go's `nil`).
- `levels.dfy` — the `Level` constants (`StdErr = -2`, `StdOut = -1`,
  `Crit`..`Trace` = 0..6, `LevelsCount = 7`) and `Level.String`.
- `format.dfy` — the trailing-newline rule and the operand spacing of
  `fmt.Fprint`, with its characterisation.
- `out.dfy` — class `Registry`: the package-level variables (`writer`,
  `prefix`, `currentLevel`, `DefaultWriter`) and the byte log of every sink,
  with `SetWriter`, `SetCurrent`, `SetPrefix`, `Visible`, `Writer`, `Prefix`,
  `FullPrefixString`, the default hooks, `Print`, `Printf` and `Fatalf`.
- `scenarios.dfy` — whole-package runs of the configurations the package's
  tests use, each proved to put the exact expected bytes on the expected sink.

Modelling choices:

- The two `make`-d slices become arrays of length 7 that the setters update in
  place; `Registry.Valid()` states that both have one slot per ordered level and
  that no prefix slot holds an empty non-nil slice (`SetPrefix("")` stores nil).
- A sink is an append-only byte log (`Registry.sinks`); writing to an
  `io.Writer` appends to the log of that sink. `Sink` is `Stderr`, `Stdout` or
  `Buf(id)` for any other writer.
- `fmt.Fprint`'s spacing rule is modelled over operands that arrive already
  rendered (`Str(text)` for Go strings, `Value(text)` for anything else).
  `fmt.Fprintf` is a parameter `sprintf` of `Printf` and `Fatalf`: the
  formatter applied to the call's arguments.
- Go panics on `writer[lvl]`/`prefix[lvl]` for a level outside 0..6, so the
  setters require an ordered level, `Writer`/`Prefix` require `lvl < 7`, and
  `Print`/`Printf` require `Visible(lvl) ==> lvl < 7` (an invisible call never
  indexes). `SetCurrent` accepts every level, as the source does.
- `Fatalf` returns the exit status instead of ending the process.
- A newline is appended only when the assembled message lacks one, so a body
  ending in two newlines keeps both (out/out.go:129-131).
- `Fatalf` writes at `Error` (out/out.go:152), not at `Crit`.
- The pseudo-levels go through the same comparison as every level
  (out/out.go:68): `StdErr` is visible iff `currentLevel >= -2` and `StdOut`
  iff `currentLevel >= -1`.

## Model

| member | source | states |
|---|---|---|
| `Levels.StringAsWritten` | out/out.go:41-57 | the name is "-" exactly for levels outside Error..Trace, so Crit prints as "-" |
| `Levels.CritNamedLikeUnknown` | out/out.go:41-57 | as written, Crit and the pseudo-level StdErr both print as "-" |
| `Levels.String` | out/out.go:41-57 | corrected: the name is "-" exactly for levels outside Crit..Trace, and agrees with the source on Error..Trace |
| `Levels.StringInjective` | out/out.go:41-57 | corrected: two ordered levels with the same name are the same level |
| `Format.EnsureTrailingNewline` | out/out.go:149-151 | the result ends in a newline, extends the input by at most one byte, keeps the input as its prefix, and is the input itself when it already ends in a newline |
| `Format.EnsureTrailingNewlineIdempotent` | out/out.go:149-151 | normalising a normalised text changes nothing |
| `Format.Fprint` | out/out.go:128 | no operands give an empty body and one operand its own text; the spacing between neighbours is stated by `Format.FprintSnoc`, and the all-string and no-string cases by `Format.FprintAllStrings` and `Format.FprintNoStrings` |
| `Format.Gap` | out/out.go:128 | the separator between two operands is one space exactly when neither is a string, and empty otherwise |
| `Format.FprintSnoc` | out/out.go:128 | appending an operand appends its text, preceded by the gap it makes with the previous operand |
| `Format.FprintAllStrings` | out/out.go:128 | string operands are concatenated with no space |
| `Format.FprintNoStrings` | out/out.go:128 | non-string operands are joined by single spaces |
| `Format.FprintPair` | out/out.go:128 | two operands give first text, gap, second text |
| `Format.FprintTwoStrings` | out/out_test.go:37 | "hello", "world!" gives "helloworld!" |
| `Format.FprintExplicitSpace` | out/out_test.go:38 | "hello", " ", "world!" gives "hello world!" |
| `Format.FprintTwoValues` | out/out_test.go:39 | 1, 2.0 (rendered "1", "2") gives "1 2" |
| `Out.Appended` | out/out.go:120-122 | a write appends the bytes to one sink and leaves every other sink as it was |
| `Out.Registry.constructor` | out/out.go:26-39 | after initialisation no level has a writer, Error/Warn/Debug/Trace have prefixes "error"/"warn"/"debug"/"trace", Crit/Info/Verbose have none, the threshold is Info and DefaultWriter is stderr |
| `Out.Registry.Visible` | out/out.go:67-69 | a level is visible exactly when it is at or below the threshold, pseudo-levels included; `Out.VisibleDownwardClosed`, `Out.DefaultThreshold` and `Out.Registry.SetCurrent` state what follows from it |
| `Out.Registry.Writer` | out/out.go:71-86 | StdErr resolves to stderr and StdOut to stdout, other negative levels to DefaultWriter, an ordered level to its writer or to DefaultWriter while it has none |
| `Out.Registry.Prefix` | out/out.go:88-93 | negative levels have no prefix, an ordered level returns its table entry, and no level has an empty non-nil prefix |
| `Out.Registry.FullPrefixString` | out/out.go:95-99 | the full prefix is empty exactly when the level has no prefix, and is the prefix followed by ": " otherwise |
| `Out.Registry.Message` | out/out.go:126-131 | the assembled message starts with full prefix and body, ends in a newline, adds at most one byte, and adds none when the body already ends in a newline |
| `Out.Registry.SetWriter` | out/out.go:59-61 | only this level's writer changes; this level now resolves to the new writer (DefaultWriter for nil) and every other level resolves as before |
| `Out.Registry.SetCurrent` | out/out.go:63-65 | afterwards exactly the levels at or below the new threshold are visible |
| `Out.Registry.SetPrefix` | out/out.go:101-108 | an empty text clears the prefix (full prefix ""), any other text p gives full prefix p + ": "; other levels keep theirs and the no-empty-prefix invariant holds |
| `Out.Registry.DefaultPrefixFunction` | out/out.go:113-118 | the buffer is extended by exactly the level's full prefix |
| `Out.Registry.DefaultPrintFunction` | out/out.go:120-122 | the bytes are appended to the level's writer and to no other sink |
| `Out.Registry.Emit` | out/out.go:125-132 | an invisible level writes nothing; a visible one appends exactly the assembled message to its writer |
| `Out.Registry.Print` | out/out.go:124-134 | an invisible level writes nothing; a visible one appends full prefix, Fprint body and a newline if missing to its writer only |
| `Out.Registry.Printf` | out/out.go:136-146 | same as Print with the formatted template as body |
| `Out.Registry.Fatalf` | out/out.go:148-154 | the template is given a trailing newline before formatting, the message goes out at Error as Printf would, and the exit status is 255 |
| `Out.VisibleDownwardClosed` | out/out.go:67-69 | a level more severe than a visible level is visible; with an ordered threshold both pseudo-levels are visible |
| `Out.DefaultThreshold` | out/out.go:32 | with threshold Info exactly Crit, Error, Warn, Info are visible among the ordered levels, and so are both pseudo-levels |
| `Out.EmittedBytes` | out/out.go:124-134 | after an emission only the level's writer may change; an invisible level adds nothing, a visible one adds full prefix and body and at most one more byte, ending in a newline |
| `Out.LineWithPrefix` | out/out.go:126-131 | with prefix p and a body not ending in a newline, the message is p, ": ", body, newline |
| `Out.LineWithoutPrefix` | out/out.go:126-131 | without prefix and with a body not ending in a newline, the message is body and newline |
| `OutScenarios.DefaultErrorPrint` | out/out.go:124-134 | by default, Error-level "disk", "full" writes "error: diskfull\n" to stderr |
| `OutScenarios.ThresholdSuppresses` | out/out_test.go:87-100 | with threshold Error, an Info-level Print leaves every sink empty |
| `OutScenarios.SetWriterRedirectsOneLevel` | out/out_test.go:102-111 | after Warn.SetWriter, Warn's line lands on the new writer and Error still resolves to DefaultWriter |
| `OutScenarios.PrefixSetAndClear` | out/out_test.go:69-85 | prefix "-" gives the line "-: helloworld!\n"; clearing it leaves an empty full prefix |
| `OutScenarios.FatalfBadState` | out/out.go:148-154 | Fatalf("bad %s", "state") writes "error: bad state\n" to stderr and returns status 255 |

## Left out

- `run/signal.go` is not part of this model: it turns an OS interrupt into a context cancellation on a goroutine (concurrency and OS signals).
- The replaceable hooks `PrintFunction` and `PrefixFunction`: only their default values, `DefaultPrintFunction` and `DefaultPrefixFunction`, are modelled.
- `fmt.Fprintf` directive semantics and the `%v` rendering of numbers (`2.0` printing as "2"): the formatted body, or the rendered operands, are inputs.
- `io.Writer` errors: the result of `Write` is ignored by the source; a sink is an append-only log that always accepts.
- `os.Exit(255)`: `Fatalf` returns the status instead of ending the process.
- `ioutil.Discard` is a sink like any other `Buf(id)`; the model records what it receives instead of dropping it.
- Assigning `DefaultWriter` is a plain field assignment, as in Go; it has no method of its own.
- The source repeats the assembly lines in `Print` and `Printf`; the model writes them once, in `Registry.Emit`.

## Findings

| source | as written | input that shows it | evidently intended | confidence | as-written member | corrected member |
|---|---|---|---|---|---|---|
| out/out.go:41-57 | `Level.String` has a case for every named level except `Crit`, which falls through to "-" | `Crit.String()` returns "-", the same as `StdErr.String()` | `Crit.String()` returns "Crit", so every ordered level has its own name | medium, not executed | `Levels.CritNamedLikeUnknown` | `Levels.StringInjective` |

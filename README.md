# fastcommit `run`, modelled in Dafny

`fastcommit` writes a git commit message with a chat-completion model and
then commits with it. Its `run` function, in `cmd/fastcommit/main.go`, goes
through these steps in order:

1. Read the working directory.
2. Refuse a ref given together with `--amend`.
3. Resolve the commit the message is about. `--amend` means `HEAD`; a ref
   means that ref; with neither, the hash is empty.
4. Build the prompt and append any `--context` notes.
5. Open a streamed chat completion and accumulate its text until a usage
   record or the end of the stream.
6. Clean the model's answer of a code fence and of surrounding white space.
7. Build `git commit -m <message>`, with `--amend` when amending, and then
   do one of three things:
   - print the command as a shell line (`--dry`),
   - do nothing (a ref was given),
   - run it.

The model keeps that decision logic and the string handling exactly. Every
outside collaborator becomes a field of `Fastcommit.Env`: the working
directory, `git rev-parse`, the prompt builder, the completion stream, the
program lookup, `filepath.Base`, `shellescape.Quote` and the command runner.
Every externally visible step is recorded in an effect log
(`Effects.Effect`), except reading the working directory and the blank lines
listed under "Left out". A statement such as "nothing is committed" is then a
statement about that log.

`run` reads the working directory (line 94) before it checks a ref against
`--amend` (line 99). A failure to read the directory therefore wins over the
conflict, and `Properties.ConflictMakesNoCall` assumes the directory was read.

Modules:

- `GoStrings`: Go's `strings` helpers used by the file: `TrimSpace` with
  `unicode.IsSpace`, `HasPrefix`, `TrimPrefix`, `TrimSuffix`, `Join`, plus
  `Split`, a reference for the `Join` round trip. Strings are sequences of
  code points.
- `Errors`: the errors `run` can return, the `%w` wrapping chain and the
  printed text.
- `ArgFlags`: the flag record and the repeatable `--context` flag
  (`arrayFlags`), a class whose `Set` appends to its value list.
- `Chat`: messages, the streaming request, and the context injection,
  defined as a function and also as the loop the source runs.
- `Effects`: the effect log and counting over it.
- `Git`: `getLastCommitHash`, `resolveRef` and the target-resolution
  branch of `run`.
- `Stream`: the `stream.Recv()` loop. It is specified as a function `Drain`
  on the event sequence and implemented by the method `Accumulate`.
- `Command`: `exec.Cmd` as a class with `Path` and `Args`, the commit
  arguments, and `formatShellCommand` as its loop.
- `Sanitize`: `cleanAIMessage`.
- `Fastcommit`: `run`. It is split into three parts, each a specification
  function and a method that performs it step by step:
  - `Prepare` / `PrepareRequest`,
  - `Generate` / `GenerateMessage`,
  - `Dispatch` / `DispatchMessage`.
  
  These combine into `Pipeline` / `Run`.
- `Properties`: what a whole run does and does not do, stated over
  `Pipeline`.

Cleaning a message is not idempotent, although it may look so.
`Sanitize.CleanNotIdempotent` proves why. `" ```x```"` cleans to
`"```x```"`, because the leading space hides the fence from the prefix
check. Cleaning that result again gives `"x"`.

## Model

| member | source | states |
|---|---|---|
| GoStrings.TrimSpaceCutsSpace | cmd/fastcommit/main.go:89 | `strings.TrimSpace` keeps a contiguous slice of its input and cuts only Unicode white space from either end; the result has no white space at either end |
| GoStrings.TrimSpaceIdempotent | cmd/fastcommit/main.go:62 | `strings.TrimSpace` is idempotent: trimming an already trimmed string changes nothing |
| GoStrings.TrimSpacePadded | cmd/fastcommit/main.go:89 | trimming removes exactly the white-space padding around a string that has no white space at either end |
| GoStrings.SplitJoin | cmd/fastcommit/main.go:35 | `strings.Join(xs, ",")` can be split back into `xs` when no element contains a comma |
| GoStrings.JoinSnoc | cmd/fastcommit/main.go:35 | joining one more element adds exactly one separator and that element at the end |
| Errors.Unwrap | cmd/fastcommit/main.go:113 | only the `%w`-wrapped ref error has a cause, and that cause is a strictly smaller error |
| Errors.WrapKeepsChain | cmd/fastcommit/main.go:113 | `errors.Is` on the wrapped error still finds every error the cause matches |
| Errors.Text | cmd/fastcommit/main.go:100-113 | the conflict error prints as `cannot use both [ref] and --amend`; a wrapped ref error prints exactly as `resolve ref ` + the quoted ref + `: ` + the cause's text |
| ArgFlags.ArrayFlags.constructor | cmd/fastcommit/main.go:212 | a fresh flag list is empty |
| ArgFlags.ArrayFlags.Set | cmd/fastcommit/main.go:38-41 | appends exactly the one value given, keeps the earlier values in order, and never fails |
| ArgFlags.ArrayFlags.String | cmd/fastcommit/main.go:34-36 | an empty list prints as `""` and a single value as itself |
| ArgFlags.StringSplitsBack | cmd/fastcommit/main.go:34-36 | a non-empty list whose values hold no comma is recovered by splitting its printed text at `,` |
| Chat.WithContext | cmd/fastcommit/main.go:122-134 | no context keeps the prompt unchanged; otherwise the prompt is kept as a prefix, then one system notice, then one user message per context note in order, so the length is `|prompt| + 1 + |context|` |
| Chat.InjectContext | cmd/fastcommit/main.go:122-134 | the append loop builds exactly `WithContext(prompt, context)` |
| Git.RevParsed | cmd/fastcommit/main.go:56-72 | on success the git output with white space trimmed; on failure git's error, unchanged |
| Git.ResolveTarget | cmd/fastcommit/main.go:99-115 | ref plus amend is the conflict error with no git call; amend asks git for `HEAD` and returns its error unwrapped; a ref asks git for that ref and wraps a failure with the ref; otherwise the hash is `""` with no call; at most one call; a resolved hash is trimmed |
| Git.RefFailureCarriesCause | cmd/fastcommit/main.go:110-114 | a failed ref lookup unwraps to git's own error, `errors.Is` still finds it, and its text is exactly `resolve ref ` + the quoted ref + `: ` + git's error text |
| Effects.Count | cmd/fastcommit/main.go:93-208 | the count of matching effects is zero exactly when no effect in the log matches |
| Effects.CountAppend | cmd/fastcommit/main.go:93-208 | counts of matching effects add up over concatenated logs |
| Stream.Drain | cmd/fastcommit/main.go:166-184 | reading stops at the first event that is not a content fragment, or at the end of input; every event before the stop is a fragment; at most one event past the fragments is consumed |
| Stream.DrainChunks | cmd/fastcommit/main.go:181-182 | the fragments collected are the first-choice contents of the leading content events, in order |
| Stream.DrainIgnoresUnread | cmd/fastcommit/main.go:173-179 | once a usage record, end of stream or error has been read, no event after it matters: replacing the rest of the stream changes nothing |
| Stream.DrainAt | cmd/fastcommit/main.go:168-184 | one loop step: a fragment is kept and reading continues; any other event ends the loop with its stop reason |
| Stream.Accumulate | cmd/fastcommit/main.go:166-184 | the `Recv` loop collects exactly what `Drain` specifies, and its buffer is the concatenation of those fragments |
| Stream.UsageEndsStream | cmd/fastcommit/main.go:177-180 | two fragments then a usage record give `"Hello"`, and the event after the usage record is not read |
| Stream.EofEndsStream | cmd/fastcommit/main.go:171-173 | a fragment then end of stream gives `"Hi"` and ends without error |
| Command.Cmd.constructor | cmd/fastcommit/main.go:189 | `exec.Command(name, rest...)` has the looked-up path and the arguments `[name] + rest` |
| Command.CommitArgs | cmd/fastcommit/main.go:189-192 | the arguments start `git commit -m <msg>`, and a fifth argument `--amend` is present exactly when amending |
| Command.ShellLineNoArgs | cmd/fastcommit/main.go:74-76 | with no arguments after the program, the shell line is the program's base name alone |
| Command.ShellLineSnoc | cmd/fastcommit/main.go:77-80 | each further argument adds exactly `" " + Quote(arg)` at the end |
| Command.FormatShellCommand | cmd/fastcommit/main.go:74-82 | the builder loop writes the base name of the path, then `" " + Quote(arg)` for every argument after the first, in order |
| Command.DryRunLine | cmd/fastcommit/main.go:189-195 | the dry-run line for `fix: bug` is the base name followed by the quoted `commit`, `-m` and message |
| Sanitize.CleanAIMessage | cmd/fastcommit/main.go:84-91 | the cleaned message has no white space at either end, and is exactly `TrimSpace(msg)` when `msg` does not start with a fence |
| Sanitize.CleanFenced | cmd/fastcommit/main.go:85-89 | a message wrapped in a fence on both sides cleans to the trimmed inside |
| Sanitize.CleanOpeningFenceOnly | cmd/fastcommit/main.go:85-89 | a message that opens with a fence but does not end with one loses only the opening fence, then is trimmed |
| Sanitize.CleanLeadingSpace | cmd/fastcommit/main.go:85 | a message with white space before its fence is only trimmed; the fence is kept |
| Sanitize.FencedIsTrimmed | cmd/fastcommit/main.go:85-89 | a fenced message has no white space at either end |
| Sanitize.CleanStableWithoutFence | cmd/fastcommit/main.go:84-91 | cleaning a second time changes nothing when the first result does not start with a fence |
| Sanitize.CleanNotIdempotent | cmd/fastcommit/main.go:84-91 | white space before a fenced message makes the first cleaning keep the fence and the second remove it, so cleaning is not idempotent |
| Sanitize.CleanPadded | cmd/fastcommit/main.go:84-91 | a trimmed message, padded with white space, cleans to itself when there is padding in front or the message is empty or does not start with a backquote |
| Fastcommit.ChatRequest | cmd/fastcommit/main.go:143-160 | the request streams, asks for a usage record, uses temperature 0, and carries the flags' model, key and base URL and the assembled messages |
| Fastcommit.Echoes | cmd/fastcommit/main.go:183 | one echo per fragment, in order |
| Fastcommit.PrepareRequest | cmd/fastcommit/main.go:94-134 | the working directory, target resolution, prompt build and context injection, step by step, give exactly `Prepare` |
| Fastcommit.GenerateMessage | cmd/fastcommit/main.go:143-185 | opening the stream and running the receive loop give exactly `Generate` |
| Fastcommit.DispatchMessage | cmd/fastcommit/main.go:187-208 | the command built, with `Args` mutated by `--amend`, and the dry-run / ref / run dispatch give exactly `Dispatch` |
| Fastcommit.Run | cmd/fastcommit/main.go:93-208 | the whole of `run` returns the error and performs the effects `Pipeline` specifies |
| Properties.ConflictMakesNoCall | cmd/fastcommit/main.go:99-101 | a ref together with `--amend` fails with the conflict error and does nothing at all |
| Properties.ResolutionFailureEndsRun | cmd/fastcommit/main.go:104-114 | a failed HEAD lookup returns git's error unwrapped, and a failed ref lookup returns it wrapped with the ref; the lookup is the only effect |
| Properties.PreliminaryTakesNoAction | cmd/fastcommit/main.go:93-185 | a log of lookups, prompt builds, stream opens and echoes commits, prints and closes nothing |
| Properties.PrepareIsPreliminary | cmd/fastcommit/main.go:94-134 | before the stream is opened, only git lookups and the prompt build happen |
| Properties.GenerateTakesNoAction | cmd/fastcommit/main.go:93-185 | nothing before the dispatch commits, prints or closes, and a generated message means the stream was opened |
| Properties.GenerationIsPrefix | cmd/fastcommit/main.go:93-208 | everything done up to the end of the stream loop comes first, unchanged, in the whole run's log |
| Properties.CommitRunsIffCommitMode | cmd/fastcommit/main.go:194-208 | `git commit` runs exactly once when a message was generated, there is no dry run and no ref; otherwise it never runs |
| Properties.CommitRunsCleanedMessage | cmd/fastcommit/main.go:187-208 | in commit mode the command run is `git commit -m <cleaned text>` (plus `--amend` when amending), its result is the run's result, and the stream is closed after it |
| Properties.DryRunPrintsCommand | cmd/fastcommit/main.go:194-197 | a dry run prints `Run the following command to commit:` and the rendered command, succeeds, and commits nothing, with or without a ref |
| Properties.RefInspectionSkipsCommit | cmd/fastcommit/main.go:198-201 | with a ref the message is generated for that ref but never committed, and the run succeeds |
| Properties.FailureTakesNoAction | cmd/fastcommit/main.go:93-185 | a failure before the dispatch is the run's error, and nothing is printed or committed |
| Properties.StreamFailureEndsRun | cmd/fastcommit/main.go:168-176 | a receive error before any terminator ends the run with that error after echoing the fragments so far; nothing is committed and the stream is closed |
| Properties.StreamTextIsBuffer | cmd/fastcommit/main.go:166-187 | when the stream ends at a usage record or end of input, the message handed to cleaning is the concatenation of the fragments before it |
| Properties.StreamClosedOnEveryExit | cmd/fastcommit/main.go:164 | the deferred close happens exactly once, as the last effect, when the stream was opened, and never otherwise |
| Properties.PromptBuiltForTarget | cmd/fastcommit/main.go:117-160 | the resolved hash and the budget 128000 are what the prompt builder is asked for, and the request sent carries the built prompt followed by the context |

## Left out

- `main`: flag parsing, defaults, usage text, the `version` subcommand, the `OPENAI_API_KEY` environment variable, and `loadKey`/`saveKey`/`keyPath`. These are process start-up and file I/O. `loadKey`, `saveKey` and `keyPath` are not part of this model. `Flags` is an input.
- `debugf`, `errorf`, `debugMode`, the ANSI colour codes and the debug listing of per-message token counts: presentation only. The echo of each fragment is kept as an `Echo` effect, without its colour codes.
- The two `fmt.Println()` calls (lines 185 and 203): they only print blank lines and are not recorded.
- `fastcommit.BuildPrompt` and `CountTokens`: defined outside this file. The prompt builder is a field of `Env`, recorded with its arguments, and the token budget is passed on and not checked.
- The OpenAI client: the configuration, client creation and the streamed request are modelled as an `Env` function from the request to the sequence of events `Recv` returns. Network behaviour, contexts and cancellation are not modelled.
- `os.Getwd`: the `Env` field `workdir`. Reading it is not recorded in the log, so a failure to read it ends the run with the empty log.
- `git rev-parse` through `exec.Command(...).Output()` and `cmd.Run()`: process I/O. Each is an `Env` field, and each call is a `GitRevParse` or `RunCommand` effect.
- The wiring of stdin, stdout and stderr to the commit subprocess (lines 205-207): it is neither an `Env` field nor an effect, and is folded into the meaning of `RunCommand`.
- `shellescape.Quote`, `filepath.Base` and the program lookup of `exec.Command`: library internals. They are uninterpreted `Env` functions.
- Stream.Drain: the event sequence is finite. Running out of events is treated like `io.EOF`; a stream that never ends is not modelled.
- Stream.StopAt: `resp.Choices[0]` on a response without choices panics in Go. The model turns that into the run-ending error `IndexOutOfRange`, not a crash.
- Strings are sequences of Unicode code points, not UTF-8 bytes. `TrimSpace` uses `unicode.IsSpace` applied to code points, and invalid UTF-8 is not modelled.
- Errors.Is: it compares errors by value, so two distinct outside errors with the same text match each other. Go's `errors.Is` compares `errors.New` and exec errors by identity. `run` never calls `errors.Is`.
- Errors.Text: `%q` quoting of the ref is an uninterpreted function, and the text of foreign errors is opaque.
- Concurrency and the order of output between the terminal and the commit subprocess are not modelled.

# snippet-engine2 streaming driver, in Dafny

This project models the orchestration core of the snippet engine service. The core covers:

- **The pull loop.** It drives a streaming lexer and a streaming parser. While either engine has more input, one iteration does four things. It pulls a batch of 10 tokens if the lexer has more. It forwards that batch to the parser if it is a `TokenBatch`. It asks the parser for its next statement. Then it classifies the answer:
  - a parsed statement is collected;
  - an error whose lower-cased message contains "need more tokens" (starvation) is ignored and the loop continues;
  - any other error, or `Finished`, ends the loop.
- **The three workflows on that loop.**
  - `parseSnippet` answers SUCCESS or FAILURE.
  - `lintSnippet` and `formatSnippet` resolve the dialect version first, collect statements with the same loop, and hand them to the external linter or formatter.
- **Post-processing.**
  - The lint workflow maps violations to (message, line, column) requests.
  - The format workflow joins the per-statement outputs. The last output loses one trailing newline (`removeTrailingNewline`).
- **Partial results after an error.** On a real parser error, `parseSnippet` returns FAILURE (EngineService.kt:58). `lintSnippet` and `formatSnippet` instead break out of the loop (EngineService.kt:95, 151) and lint or format the statements collected so far. The model follows the code (`CollectStatements`, `RealErrorFails`).
- **Version dispatch** (`VersionAdapter.toVersion`). "1.0" selects V1, "1.1" selects V2, and anything else is an "Unsupported version: …" error.
- **The linter rule map** (`createJsonRuleMap`). Every rule the linter knows gets an entry. An entry is enabled exactly when a user rule carries its name, and its identifier format is that user rule's value.

## Layout

- `Wrappers.dfy`: `Option` and `Result`. A thrown exception is modelled as `Err(message)`.
- `VersionAdapter.dfy`: `Version` and `ToVersion`.
- `Helpers.dfy`: `FindRule`, `ConfigFor` and `CreateJsonRuleMap`.
- `Text.dfy`: lower-casing, substring search and `endsWith("\n")`.
- `Engines.dfy`: stand-ins for the streaming lexer and parser.
  - Each is a class whose remaining answers are a scripted sequence. Each logs how it was called: the batch sizes requested, and the `addTokens` and `nextStatement` calls.
  - The driver is proved against these logs.
- `EngineService.dfy`: the driver itself.
  - `Drive` is a pure specification of one whole run of the loop, on the two engines' scripts.
  - `ParseSnippet` and `CollectStatements` are the loops as methods over the engine objects. Each is proved to leave the engines, and their call logs, exactly as `Drive` says.
  - It also holds the post-processing loops and the lint and format workflows.
- `PipelineProperties.dfy`: what `Drive` means, stated without reference to its iteration structure, plus the properties of the format output:
  - which answer stops the loop, and how;
  - which statements are kept;
  - how many pulls and queries happen;
  - which tokens reach the parser;
  - that each batch is forwarded right before a query.

## Model

| member | source | states |
|---|---|---|
| VersionAdapter.ToVersion | src/main/kotlin/org/gudelker/snippet/engine/utils/VersionAdapter.kt:7-13 | "1.0" gives V1, "1.1" gives V2, and any other string gives the error "Unsupported version: " followed by the string |
| VersionAdapter.VersionName | src/main/kotlin/org/gudelker/snippet/engine/utils/VersionAdapter.kt:9-10 | every version is selected by its own name: `toVersion` of the name gives back the version |
| VersionAdapter.ToVersionAcceptsOnlyNames | src/main/kotlin/org/gudelker/snippet/engine/utils/VersionAdapter.kt:8-11 | a string that is accepted is exactly the name of the version it selects |
| VersionAdapter.ToVersionInjective | src/main/kotlin/org/gudelker/snippet/engine/utils/VersionAdapter.kt:9-10 | two accepted strings that select the same version are equal |
| VersionAdapter.ToVersionRejectsNearMisses | src/main/kotlin/org/gudelker/snippet/engine/utils/VersionAdapter.kt:8-11 | matching is exact: "1", "1.0 ", "V1" and "1.2" are rejected |
| Helpers.FindRule | src/main/kotlin/org/gudelker/snippet/engine/Helpers.kt:31 | `find` gives nothing iff no user rule has the name; otherwise it gives a rule with that name, and no earlier rule has it |
| Helpers.ConfigFor | src/main/kotlin/org/gudelker/snippet/engine/Helpers.kt:31-37 | both restriction flags are equal; they are on iff some user rule has the name; when off, the identifier format is "" |
| Helpers.CreateJsonRuleMap | src/main/kotlin/org/gudelker/snippet/engine/Helpers.kt:29-39 | the keys are exactly the known rule names, and each entry is that rule's configuration |
| Helpers.UnknownUserRulesDropped | src/main/kotlin/org/gudelker/snippet/engine/Helpers.kt:30 | a user rule the linter does not know gets no entry |
| Helpers.RuleEnabledIffChosen | src/main/kotlin/org/gudelker/snippet/engine/Helpers.kt:30-37 | every known rule has an entry, which is enabled iff a user rule carries its name, with both flags equal |
| Helpers.IdentifierFormatFromFirstMatch | src/main/kotlin/org/gudelker/snippet/engine/Helpers.kt:31-34 | the identifier format is the value of the first user rule with the entry's name |
| Helpers.NoUserRulesAllDisabled | src/main/kotlin/org/gudelker/snippet/engine/Helpers.kt:29-38 | with no user rules, every entry is ("", false, false) |
| Helpers.RuleMapDependsOnNamesOnly | src/main/kotlin/org/gudelker/snippet/engine/Helpers.kt:30 | the map depends only on the set of known names, not on their order or on repeats |
| Helpers.TwoRulesOneChosen | src/test/kotlin/org/gudelker/snippet/engine/snippeteng/HelpersTests.kt:40-47 | the tests' example: rule1 is enabled with "val1", and rule2 is disabled with "" |
| Text.Lowercase | src/main/kotlin/org/gudelker/snippet/engine/EngineService.kt:55 | lower-casing keeps the length and maps each character on its own |
| Text.LowercaseKeepsLowercase | src/main/kotlin/org/gudelker/snippet/engine/EngineService.kt:55 | a string with no upper-case letters is unchanged by lower-casing |
| Text.ContainsIffOccurs | src/main/kotlin/org/gudelker/snippet/engine/EngineService.kt:55 | `contains` holds iff the phrase starts at some index of the string |
| Text.ContainsNeedsRoom | src/main/kotlin/org/gudelker/snippet/engine/EngineService.kt:55 | a string shorter than the phrase never contains it |
| Text.ContainsItself | src/main/kotlin/org/gudelker/snippet/engine/EngineService.kt:55 | every string contains itself |
| Engines.ScriptedLexer.constructor | src/main/kotlin/org/gudelker/snippet/engine/EngineService.kt:41 | an initialized lexer holds its whole script and has served no requests |
| Engines.ScriptedLexer.NextBatch | src/main/kotlin/org/gudelker/snippet/engine/EngineService.kt:46 | answers the next scripted result, or nothing once the script is spent, and logs the requested size |
| Engines.ScriptedParser.constructor | src/main/kotlin/org/gudelker/snippet/engine/EngineService.kt:75 | a new parser holds its whole script and has been called by nothing |
| Engines.ScriptedParser.AddTokens | src/main/kotlin/org/gudelker/snippet/engine/EngineService.kt:48 | the tokens are logged, and the pending answers are unchanged |
| Engines.ScriptedParser.NextStatement | src/main/kotlin/org/gudelker/snippet/engine/EngineService.kt:51 | answers the next scripted result, or `Finished` once the script is spent, and logs the call |
| EngineService.ShortMessageNotStarvation | src/main/kotlin/org/gudelker/snippet/engine/EngineService.kt:54-58 | a message shorter than "need more tokens" is never starvation |
| EngineService.StarvationMessageRecognised | src/main/kotlin/org/gudelker/snippet/engine/EngineService.kt:55-56 | the phrase, in any letter case, is starvation |
| EngineService.StarvationPhraseIsLowercase | src/main/kotlin/org/gudelker/snippet/engine/EngineService.kt:55 | the phrase searched for is already lower case |
| EngineService.PullAndQuery | src/main/kotlin/org/gudelker/snippet/engine/EngineService.kt:45-51 | one pull of 10 if the lexer has more; only a `TokenBatch` is forwarded; then exactly one query |
| EngineService.ParseSnippet | src/main/kotlin/org/gudelker/snippet/engine/EngineService.kt:36-64 | the result is FAILURE iff the run stops on a real error; both engines and their call logs end as `Drive` says |
| EngineService.CollectStatements | src/main/kotlin/org/gudelker/snippet/engine/EngineService.kt:80-99 | the statements are those of `Drive`'s run; both engines and their call logs end as `Drive` says (the same loop is at lines 133-155) |
| EngineService.RemoveTrailingNewline | src/main/kotlin/org/gudelker/snippet/engine/EngineService.kt:215 | the result plus "\n" is the input when the input ends in a newline; otherwise the input is unchanged |
| EngineService.FormatStatements | src/main/kotlin/org/gudelker/snippet/engine/EngineService.kt:157-169 | the text built is `FormattedText` of the formatter's outputs, in statement order |
| EngineService.ToLintResults | src/main/kotlin/org/gudelker/snippet/engine/EngineService.kt:105-117 | one request per violation, in order, with its message, start line and start column |
| EngineService.LintSnippet | src/main/kotlin/org/gudelker/snippet/engine/EngineService.kt:66-118 | an unsupported version fails with its message; otherwise the result is the linter's violations, as requests, over the statements the loop collects for that version |
| EngineService.FormatSnippet | src/main/kotlin/org/gudelker/snippet/engine/EngineService.kt:120-170 | an unsupported version fails with its message; otherwise the result is the formatted text of the statements the loop collects for that version |
| PipelineProperties.StopIndex | src/main/kotlin/org/gudelker/snippet/engine/EngineService.kt:54-61 | the position of the first answer that ends the loop: every answer before it goes on |
| PipelineProperties.DriveStatements | src/main/kotlin/org/gudelker/snippet/engine/EngineService.kt:52-53 | the run keeps exactly the parsed statements answered before the stopping answer, in order |
| PipelineProperties.DriveExit | src/main/kotlin/org/gudelker/snippet/engine/EngineService.kt:44-63 | three iffs: a real error ends the run iff it is the first stopping answer; `Finished` ends it iff it is the first stopping answer, or the lexer outlasts a parser that never stopped; otherwise input runs out |
| PipelineProperties.DrivePulls | src/main/kotlin/org/gudelker/snippet/engine/EngineService.kt:45-46 | one request, always of 10 tokens, per iteration while the lexer has more; each script is read exactly as far as the iterations go |
| PipelineProperties.DriveQueries | src/main/kotlin/org/gudelker/snippet/engine/EngineService.kt:51 | the parser is queried exactly once per iteration |
| PipelineProperties.DriveFedTokens | src/main/kotlin/org/gudelker/snippet/engine/EngineService.kt:47-49 | the parser receives exactly the token batches pulled, in order |
| PipelineProperties.DriveFedBeforeQuery | src/main/kotlin/org/gudelker/snippet/engine/EngineService.kt:47-51 | every `addTokens` call is followed directly by a `nextStatement` call |
| PipelineProperties.NothingToRead | src/test/kotlin/org/gudelker/snippet/engine/snippeteng/EngineServiceTests.kt:23-31 | with no input, the loop body never runs and parsing succeeds |
| PipelineProperties.StarvationNeverFails | src/main/kotlin/org/gudelker/snippet/engine/EngineService.kt:54-58 | if every error is starvation, parsing succeeds |
| PipelineProperties.RealErrorFails | src/main/kotlin/org/gudelker/snippet/engine/EngineService.kt:54-58 | a real error before any `Finished` fails the parse, after k + 1 iterations, keeping the statements parsed before it |
| PipelineProperties.LowercaseIdempotent | src/main/kotlin/org/gudelker/snippet/engine/EngineService.kt:55 | lower-casing twice is lower-casing once |
| PipelineProperties.NeedsMoreTokensIgnoresCase | src/main/kotlin/org/gudelker/snippet/engine/EngineService.kt:55 | a message is starvation iff its lower-cased form is |
| PipelineProperties.RemoveAppendedNewline | src/main/kotlin/org/gudelker/snippet/engine/EngineService.kt:215 | `removeTrailingNewline` undoes appending one newline |
| PipelineProperties.FormattedTextDropsOneNewline | src/main/kotlin/org/gudelker/snippet/engine/EngineService.kt:157-169 | the formatted text is the plain concatenation of the outputs, minus exactly one final newline when the last output ends in one; empty for no statements |
| PipelineProperties.FormattedTextKeepsEarlierOutputs | src/main/kotlin/org/gudelker/snippet/engine/EngineService.kt:160-166 | the outputs of earlier statements form a prefix of the text, newlines included |
| PipelineProperties.ConcatPrefix | src/main/kotlin/org/gudelker/snippet/engine/EngineService.kt:158-167 | appending to the builder keeps what it held as a prefix |
| PipelineProperties.SingleStatementTrailingNewline | src/main/kotlin/org/gudelker/snippet/engine/EngineService.kt:162-163 | a single statement's text ends in a newline iff the formatter ended it with two |
| PipelineProperties.StatementThenStarvationThenFinished | src/main/kotlin/org/gudelker/snippet/engine/EngineService.kt:44-63 | statement, starvation, `Finished` over two batches: one statement, SUCCESS, two pulls of 10 |
| PipelineProperties.NeedMoreTokensScenario | src/test/kotlin/org/gudelker/snippet/engine/snippeteng/HelpersTests.kt:61-86 | with no batch pulled, the phrase "need more tokens" in any letter case and then `Finished`: two queries, no pull, no statements, and the parse succeeds |
| PipelineProperties.StarvationTestSucceeds | src/test/kotlin/org/gudelker/snippet/engine/snippeteng/HelpersTests.kt:61-86 | the test's exact answers, "need more tokens" then `Finished`, with no batch pulled: the parse succeeds |
| PipelineProperties.PlainErrorFails | src/test/kotlin/org/gudelker/snippet/engine/snippeteng/EngineServiceTests.kt:33-47 | with no batch pulled, the parser error "error": one query, no pull, and the parse fails |

## Left out

- `interpretSnippet` and `interpret` (EngineService.kt:172-213) are left out. They delegate the whole run to the external streaming pipeline and interpreter, and turn `OutOfMemoryError` into another error; neither is part of this model.
- `createParser`, `createLexer` and `createStringInputSourceReader` (Helpers.kt:14-27) are left out. They only construct library objects. The lexer and parser they build are the scripted `Engines` classes here.
- The lexer, parser, linter and formatter internals are not modelled.
  - The lexer and parser answer from scripts, one script per version (`lexerFor(v)`, `parserFor(v)`).
  - The linter and formatter are function parameters of the workflows. The formatter's rule configuration is passed through untouched, so `FormatSnippet` takes it as a type parameter.
- The input stream and its 8192-byte source reader are not modelled. `initialize(sourceReader)` is folded into the lexer's construction.
- `hasMore()` is modelled as "answers remain in the script". The loop reads `lexer.hasMore()` twice per iteration (EngineService.kt:44-45, 81-82, 134-135). The model assumes both reads agree. An engine whose answer changes between the two reads is not modelled. The repository's mocks do change it (`thenReturn(true, false)`), so in those tests no batch is pulled. The scenario lemmas `NeedMoreTokensScenario`, `StarvationTestSucceeds` and `PlainErrorFails` replay those calls with an empty lexer script.
- A parser whose script is spent answers `Finished` (`ScriptedParser.NextStatement`, `Answer`). This is an assumption about the external parser. It is where `DriveExit`'s case "the lexer outlasts a parser that never stopped" ends in `Finished`.
- Drive, ParseSnippet, CollectStatements: termination is proved only because the stand-in engines are finite scripts, and every iteration consumes an answer from one of them. The source loops (EngineService.kt:44, 81, 134) have no bound of their own. A parser that keeps answering a "need more tokens" error while `parser.hasMore()` stays true, after the lexer is exhausted, makes them run forever, and nothing in the driver prevents it. Termination is assumed of the real engines, not proved of the driver.
- `lowercase(Locale.getDefault())` is modelled as ASCII lower-casing. Locale-specific mappings, such as the Turkish dotted I, are not modelled.
- `associateWith` returns an insertion-ordered map. The model's map is unordered, so iteration order over the rule map is not modelled.
- `RuleNameWithValue.value` is taken to be non-null. The `?: ""` fallback therefore only applies when no user rule matches.
- The Redis stream consumers, `LintEngineService` and `FormatEngineService` (with `createFormatJsonRuleMap`), the HTTP API clients, the credential cache, the controller and the DTOs are not part of this model.
- The statements gathered by `parseSnippet` are discarded by the source, so `ParseSnippet` states only its result and the engines' final state.

/**
 * The streaming pipeline driver of `EngineService`: the pull loop that feeds
 * lexer batches to the parser and classifies the parser's answers, the parse,
 * lint and format workflows built on it, and their post-processing.
 */
module EngineService {
  import opened Wrappers
  import opened Text
  import opened VersionAdapter
  import opened Engines
  import opened Helpers

  /** The number of tokens asked of the lexer per pull. */
  const BatchSize: nat := 10

  /** The answer of `parseSnippet`. */
  datatype ResultType = Success | Failure

  /** Why a pull loop stopped. */
  datatype LoopExit =
    | InputExhausted   // neither the lexer nor the parser had more
    | ParserFinished   // the parser answered `Finished`
    | ParserFailed     // the parser answered an error other than "need more tokens"

  /**
   * Everything one run of the pull loop does: why it stopped, the statements
   * it collected, the batch sizes it asked of the lexer, the calls it made on
   * the parser, and the scripted answers left unread in each engine.
   */
  datatype Run = Run(
    exit: LoopExit,
    statements: seq<Statement>,
    lexerRequests: seq<nat>,
    parserCalls: seq<ParserCall>,
    lexerLeft: seq<LexerResult>,
    parserLeft: seq<ParserResult>)

  /** The starvation signal: the lower-cased message mentions "need more tokens". */
  predicate NeedsMoreTokens(message: string) {
    Contains(Lowercase(message), "need more tokens")
  }

  /** A message shorter than the phrase cannot be starvation. */
  lemma ShortMessageNotStarvation(message: string)
    requires |message| < |"need more tokens"|
    ensures !NeedsMoreTokens(message)
  {
    ContainsNeedsRoom(Lowercase(message), "need more tokens");
  }

  /** The phrase itself, in any letter case, is recognised as starvation. */
  lemma StarvationMessageRecognised(message: string)
    requires Lowercase(message) == "need more tokens"
    ensures NeedsMoreTokens(message)
  {
    ContainsItself("need more tokens");
  }

  /** The phrase is already in lower case. */
  lemma StarvationPhraseIsLowercase()
    ensures Lowercase("need more tokens") == "need more tokens"
  {
    assert NoUppercase("need more tokens");
    LowercaseKeepsLowercase("need more tokens");
  }

  /** The parser call a lexer answer gives rise to: only a token batch is forwarded. */
  function Forward(r: LexerResult): seq<ParserCall> {
    if r.TokenBatch? then [AddTokensCall(r.tokens)] else []
  }

  /** `rest`, preceded by what earlier iterations collected, asked and called. */
  function Then(statements: seq<Statement>, requests: seq<nat>, calls: seq<ParserCall>, rest: Run): Run {
    rest.(statements := statements + rest.statements,
          lexerRequests := requests + rest.lexerRequests,
          parserCalls := calls + rest.parserCalls)
  }

  /**
   * The pull loop, one iteration per unfolding, on engines whose remaining
   * answers are `lex` and `parse`. An engine with no answers left reports no
   * more input; a parser asked anyway answers `Finished`.
   */
  function Drive(lex: seq<LexerResult>, parse: seq<ParserResult>): Run
    decreases |lex| + |parse|
  {
    if lex == [] && parse == [] then Run(InputExhausted, [], [], [], [], [])
    else
      match Answer(parse)
      case StatementParsed(s) => Then([s], Pulled(lex), Called(lex), Drive(Rest(lex), Rest(parse)))
      case Error(message) =>
        if NeedsMoreTokens(message) then Then([], Pulled(lex), Called(lex), Drive(Rest(lex), Rest(parse)))
        else Run(ParserFailed, [], Pulled(lex), Called(lex), Rest(lex), Rest(parse))
      case Finished => Run(ParserFinished, [], Pulled(lex), Called(lex), Rest(lex), Rest(parse))
  }

  /** The batch size requested in an iteration: one pull of `BatchSize`, if the lexer has more. */
  function Pulled(lex: seq<LexerResult>): seq<nat> {
    if lex != [] then [BatchSize] else []
  }

  /** The parser calls of an iteration: the forwarded batch, if any, then `nextStatement`. */
  function Called(lex: seq<LexerResult>): seq<ParserCall> {
    (if lex != [] then Forward(lex[0]) else []) + [NextStatementCall]
  }

  /** The parser's answer to `nextStatement`. */
  function Answer(parse: seq<ParserResult>): ParserResult {
    if parse != [] then parse[0] else Finished
  }

  /** An engine's script after one answer has been read, if one was left. */
  function Rest<T>(script: seq<T>): seq<T> {
    if script != [] then script[1..] else []
  }

  lemma ThenThen(s1: seq<Statement>, r1: seq<nat>, c1: seq<ParserCall>,
                 s2: seq<Statement>, r2: seq<nat>, c2: seq<ParserCall>, rest: Run)
    ensures Then(s1, r1, c1, Then(s2, r2, c2, rest)) == Then(s1 + s2, r1 + r2, c1 + c2, rest)
  {
    assert s1 + (s2 + rest.statements) == (s1 + s2) + rest.statements;
    assert r1 + (r2 + rest.lexerRequests) == (r1 + r2) + rest.lexerRequests;
    assert c1 + (c2 + rest.parserCalls) == (c1 + c2) + rest.parserCalls;
  }

  /**
   * A loop that has so far collected `statements`, asked `requested` and
   * called `called`, and then runs an iteration that neither finishes nor
   * fails, has the same overall run with that iteration's effects added.
   */
  lemma Advance(full: Run, statements: seq<Statement>, requested: seq<nat>, called: seq<ParserCall>,
                lex: seq<LexerResult>, parse: seq<ParserResult>, collected: seq<Statement>)
    requires full == Then(statements, requested, called, Drive(lex, parse))
    requires lex != [] || parse != []
    requires Answer(parse).StatementParsed? ==> collected == [Answer(parse).statement]
    requires Answer(parse).Error? ==> NeedsMoreTokens(Answer(parse).message) && collected == []
    requires !Answer(parse).Finished?
    ensures full == Then(statements + collected, requested + Pulled(lex), called + Called(lex), Drive(Rest(lex), Rest(parse)))
  {
    assert Drive(lex, parse) == Then(collected, Pulled(lex), Called(lex), Drive(Rest(lex), Rest(parse)));
    ThenThen(statements, requested, called, collected, Pulled(lex), Called(lex), Drive(Rest(lex), Rest(parse)));
  }

  /** An iteration whose answer is `Finished` or a real error ends the run there. */
  lemma Stop(full: Run, statements: seq<Statement>, requested: seq<nat>, called: seq<ParserCall>,
             lex: seq<LexerResult>, parse: seq<ParserResult>)
    requires full == Then(statements, requested, called, Drive(lex, parse))
    requires lex != [] || parse != []
    requires Answer(parse).Finished? || (Answer(parse).Error? && !NeedsMoreTokens(Answer(parse).message))
    ensures full.exit == if Answer(parse).Finished? then ParserFinished else ParserFailed
    ensures full.statements == statements
    ensures full.lexerRequests == requested + Pulled(lex) && full.parserCalls == called + Called(lex)
    ensures full.lexerLeft == Rest(lex) && full.parserLeft == Rest(parse)
  {
  }

  /** A run with nothing left to read adds nothing. */
  lemma Exhausted(full: Run, statements: seq<Statement>, requested: seq<nat>, called: seq<ParserCall>)
    requires full == Then(statements, requested, called, Drive([], []))
    ensures full == Run(InputExhausted, statements, requested, called, [], [])
  {
  }

  lemma AppendAssoc<T>(a: seq<T>, b: seq<T>, c: seq<T>)
    ensures a + b + c == a + (b + c)
  {
  }

  /**
   * The first half of an iteration of the pull loop: a batch of `BatchSize`
   * tokens is pulled if the lexer has more and, if it is a `TokenBatch`,
   * forwarded to the parser; then the parser is asked for its next statement.
   */
  method PullAndQuery(lexer: ScriptedLexer, parser: ScriptedParser) returns (parseResult: ParserResult)
    modifies lexer, parser
    ensures parseResult == Answer(old(parser.pending))
    ensures lexer.pending == Rest(old(lexer.pending))
    ensures lexer.requests == old(lexer.requests) + Pulled(old(lexer.pending))
    ensures parser.pending == Rest(old(parser.pending))
    ensures parser.calls == old(parser.calls) + Called(old(lexer.pending))
  {
    if lexer.HasMore() {
      var lexerResult := lexer.NextBatch(BatchSize);
      if lexerResult.TokenBatch? {
        parser.AddTokens(lexerResult.tokens);
      }
    }
    parseResult := parser.NextStatement();
  }

  /** `parseSnippet` fails exactly when its loop stopped on a real parser error. */
  function ParseResult(run: Run): ResultType {
    if run.exit == ParserFailed then Failure else Success
  }

  /**
   * `parseSnippet`: drives the lexer and parser until the input is exhausted
   * or the parser finishes (SUCCESS) or reports a real error (FAILURE).
   * Collected statements are discarded.
   */
  method ParseSnippet(lexer: ScriptedLexer, parser: ScriptedParser) returns (r: ResultType)
    modifies lexer, parser
    ensures var run := Drive(old(lexer.pending), old(parser.pending));
      && r == ParseResult(run)
      && lexer.pending == run.lexerLeft
      && lexer.requests == old(lexer.requests) + run.lexerRequests
      && parser.pending == run.parserLeft
      && parser.calls == old(parser.calls) + run.parserCalls
  {
    ghost var full := Drive(lexer.pending, parser.pending);
    ghost var requests0, calls0 := lexer.requests, parser.calls;
    ghost var requested: seq<nat>, called: seq<ParserCall> := [], [];
    var statements: seq<Statement> := [];
    while lexer.HasMore() || parser.HasMore()
      invariant lexer.requests == requests0 + requested && parser.calls == calls0 + called
      invariant full == Then(statements, requested, called, Drive(lexer.pending, parser.pending))
      decreases |lexer.pending| + |parser.pending|
    {
      ghost var lex, parse := lexer.pending, parser.pending;
      var parseResult := PullAndQuery(lexer, parser);
      AppendAssoc(requests0, requested, Pulled(lex));
      AppendAssoc(calls0, called, Called(lex));
      if parseResult.StatementParsed? {
        Advance(full, statements, requested, called, lex, parse, [parseResult.statement]);
        statements := statements + [parseResult.statement];
        requested, called := requested + Pulled(lex), called + Called(lex);
      } else if parseResult.Error? {
        if NeedsMoreTokens(parseResult.message) {
          Advance(full, statements, requested, called, lex, parse, []);
          assert statements + [] == statements;
          requested, called := requested + Pulled(lex), called + Called(lex);
          continue;
        }
        Stop(full, statements, requested, called, lex, parse);
        return Failure;
      } else if parseResult.Finished? {
        Stop(full, statements, requested, called, lex, parse);
        return Success;
      }
    }
    Exhausted(full, statements, requested, called);
    return Success;
  }

  /**
   * The pull loop as copied into `lintSnippet` and `formatSnippet`: a real
   * parser error or `Finished` ends the loop, and the statements collected up
   * to that point are kept.
   */
  method CollectStatements(lexer: ScriptedLexer, parser: ScriptedParser) returns (statements: seq<Statement>)
    modifies lexer, parser
    ensures var run := Drive(old(lexer.pending), old(parser.pending));
      && statements == run.statements
      && lexer.pending == run.lexerLeft
      && lexer.requests == old(lexer.requests) + run.lexerRequests
      && parser.pending == run.parserLeft
      && parser.calls == old(parser.calls) + run.parserCalls
  {
    ghost var full := Drive(lexer.pending, parser.pending);
    ghost var requests0, calls0 := lexer.requests, parser.calls;
    ghost var requested: seq<nat>, called: seq<ParserCall> := [], [];
    ghost var stopped := false;
    statements := [];
    while lexer.HasMore() || parser.HasMore()
      invariant lexer.requests == requests0 + requested && parser.calls == calls0 + called
      invariant full == Then(statements, requested, called, Drive(lexer.pending, parser.pending))
      decreases |lexer.pending| + |parser.pending|
    {
      ghost var lex, parse := lexer.pending, parser.pending;
      var parseResult := PullAndQuery(lexer, parser);
      AppendAssoc(requests0, requested, Pulled(lex));
      AppendAssoc(calls0, called, Called(lex));
      if parseResult.StatementParsed? {
        Advance(full, statements, requested, called, lex, parse, [parseResult.statement]);
        statements := statements + [parseResult.statement];
        requested, called := requested + Pulled(lex), called + Called(lex);
      } else if parseResult.Error? {
        if NeedsMoreTokens(parseResult.message) {
          Advance(full, statements, requested, called, lex, parse, []);
          assert statements + [] == statements;
          requested, called := requested + Pulled(lex), called + Called(lex);
          continue;
        }
        Stop(full, statements, requested, called, lex, parse);
        stopped := true;
        break;
      } else if parseResult.Finished? {
        Stop(full, statements, requested, called, lex, parse);
        stopped := true;
        break;
      }
    }
    if !stopped {
      Exhausted(full, statements, requested, called);
    }
  }

  /** `removeTrailingNewline`: drops exactly one final "\n", if there is one. */
  function RemoveTrailingNewline(str: string): (r: string)
    ensures EndsWithNewline(str) ==> r + "\n" == str
    ensures !EndsWithNewline(str) ==> r == str
  {
    if EndsWithNewline(str) then str[..|str| - 1] else str
  }

  /** The strings in order, joined with nothing between them. */
  function Concat(parts: seq<string>): string {
    if parts == [] then "" else Concat(parts[..|parts| - 1]) + parts[|parts| - 1]
  }

  /**
   * The text `formatSnippet` builds from the formatter's per-statement
   * outputs: all of them in order, the last one without its trailing newline.
   */
  function FormattedText(outputs: seq<string>): string {
    if outputs == [] then ""
    else Concat(outputs[..|outputs| - 1]) + RemoveTrailingNewline(outputs[|outputs| - 1])
  }

  /**
   * The `StringBuilder` loop of `formatSnippet`: every statement is formatted
   * and appended, the one at the last index through `RemoveTrailingNewline`.
   */
  method FormatStatements(statements: seq<Statement>, format: Statement -> string) returns (text: string)
    ensures text == FormattedText(seq(|statements|, i requires 0 <= i < |statements| => format(statements[i])))
  {
    ghost var outputs := seq(|statements|, i requires 0 <= i < |statements| => format(statements[i]));
    var sb := "";
    for index := 0 to |statements|
      invariant index < |statements| ==> sb == Concat(outputs[..index])
      invariant index == |statements| ==> sb == FormattedText(outputs)
    {
      var formatted := format(statements[index]);
      if index == |statements| - 1 {
        assert outputs[..index] == outputs[..|outputs| - 1];
        sb := sb + RemoveTrailingNewline(formatted);
      } else {
        assert outputs[..index + 1][..index] == outputs[..index];
        sb := sb + formatted;
      }
    }
    if |statements| == 0 {
      assert outputs == [];
    }
    text := sb;
  }

  /** Where the linter places a violation. */
  datatype Position = Position(startLine: int, startColumn: int)

  /** A rule violation reported by the linter. */
  datatype LintViolation = LintViolation(message: string, position: Position)

  /** A violation as the lint workflow reports it: message, line and column. */
  datatype LintResultRequest = LintResultRequest(message: string, line: int, column: int)

  /**
   * The `ArrayList` loop of `lintSnippet`: one request per violation, in the
   * same order, carrying its message and its start line and column.
   */
  method ToLintResults(violations: seq<LintViolation>) returns (requests: seq<LintResultRequest>)
    ensures |requests| == |violations|
    ensures forall i :: 0 <= i < |violations| ==>
      requests[i] == LintResultRequest(violations[i].message, violations[i].position.startLine, violations[i].position.startColumn)
  {
    requests := [];
    for k := 0 to |violations|
      invariant |requests| == k
      invariant forall i :: 0 <= i < k ==>
        requests[i] == LintResultRequest(violations[i].message, violations[i].position.startLine, violations[i].position.startColumn)
    {
      var violation := violations[k];
      requests := requests + [LintResultRequest(violation.message, violation.position.startLine, violation.position.startColumn)];
    }
  }

  /**
   * `lintSnippet`: the version is resolved first, so an unsupported one fails
   * before any engine is built; then the statements are collected, handed to
   * the linter with the rule configuration, and its violations reported.
   * The lexer and parser the factories build for a version answer
   * `lexerFor(v)` and `parserFor(v)`; `linter` is the external linter.
   */
  method LintSnippet(
    version: string,
    config: map<string, LinterConfig>,
    lexerFor: Version -> seq<LexerResult>,
    parserFor: Version -> seq<ParserResult>,
    linter: (Version, seq<Statement>, map<string, LinterConfig>) -> seq<LintViolation>)
    returns (r: Result<seq<LintResultRequest>>)
    ensures ToVersion(version).Err? ==> r == Err("Unsupported version: " + version)
    ensures ToVersion(version).Ok? ==>
      var v := ToVersion(version).value;
      var violations := linter(v, Drive(lexerFor(v), parserFor(v)).statements, config);
      && r.Ok?
      && |r.value| == |violations|
      && forall i :: 0 <= i < |violations| ==>
           r.value[i] == LintResultRequest(violations[i].message, violations[i].position.startLine, violations[i].position.startColumn)
  {
    var versionResult := ToVersion(version);
    if versionResult.Err? {
      return Err(versionResult.message);
    }
    var v := versionResult.value;
    var lexer := new ScriptedLexer(lexerFor(v));
    var parser := new ScriptedParser(parserFor(v));
    var statements := CollectStatements(lexer, parser);
    var violations := linter(v, statements, config);
    var requests := ToLintResults(violations);
    return Ok(requests);
  }

  /**
   * `formatSnippet`: the version is resolved first; then the statements are
   * collected and each is formatted, the outputs joined as `FormattedText`
   * says. `formatter` is the external formatter.
   */
  method FormatSnippet<Config>(
    version: string,
    config: Config,
    lexerFor: Version -> seq<LexerResult>,
    parserFor: Version -> seq<ParserResult>,
    formatter: (Version, Statement, Config) -> string)
    returns (r: Result<string>)
    ensures ToVersion(version).Err? ==> r == Err("Unsupported version: " + version)
    ensures ToVersion(version).Ok? ==>
      var v := ToVersion(version).value;
      var statements := Drive(lexerFor(v), parserFor(v)).statements;
      r == Ok(FormattedText(seq(|statements|, i requires 0 <= i < |statements| => formatter(v, statements[i], config))))
  {
    var versionResult := ToVersion(version);
    if versionResult.Err? {
      return Err(versionResult.message);
    }
    var v := versionResult.value;
    var lexer := new ScriptedLexer(lexerFor(v));
    var parser := new ScriptedParser(parserFor(v));
    var statements := CollectStatements(lexer, parser);
    var format := s => formatter(v, s, config);
    var text := FormatStatements(statements, format);
    assert seq(|statements|, i requires 0 <= i < |statements| => format(statements[i]))
        == seq(|statements|, i requires 0 <= i < |statements| => formatter(v, statements[i], config));
    return Ok(text);
  }
}

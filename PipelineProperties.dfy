/**
 * What the pull loop of `EngineService` does, stated without reference to
 * its iteration structure: which parser answer stops it and how, which
 * statements it keeps, how often it pulls from the lexer and what it feeds
 * the parser. Also the properties of the format post-processing.
 */
module PipelineProperties {
  import opened Text
  import opened Engines
  import opened EngineService

  /** An answer that ends the loop: `Finished`, or an error that is not starvation. */
  predicate Ends(r: ParserResult) {
    r.Finished? || (r.Error? && !NeedsMoreTokens(r.message))
  }

  /** The position of the first answer that ends the loop, or the script's length. */
  function StopIndex(parse: seq<ParserResult>): (t: nat)
    ensures t <= |parse|
    ensures t < |parse| ==> Ends(parse[t])
    ensures forall j :: 0 <= j < t ==> !Ends(parse[j])
  {
    if parse == [] then 0
    else if Ends(parse[0]) then 0
    else 1 + StopIndex(parse[1..])
  }

  /** The statements carried by the `StatementParsed` answers, in order. */
  function Parsed(answers: seq<ParserResult>): seq<Statement> {
    if answers == [] then []
    else (if answers[0].StatementParsed? then [answers[0].statement] else []) + Parsed(answers[1..])
  }

  function Min(a: nat, b: nat): nat { if a <= b then a else b }

  function Max(a: nat, b: nat): nat { if a <= b then b else a }

  /**
   * The number of loop iterations: up to and including the answer that ends
   * the loop, but no more than the longer of the two scripts.
   */
  function Iterations(lex: seq<LexerResult>, parse: seq<ParserResult>): nat {
    Min(StopIndex(parse) + 1, Max(|lex|, |parse|))
  }

  /** The tokens of the lexer's `TokenBatch` answers, batch by batch. */
  function Batches(lex: seq<LexerResult>): seq<seq<Token>> {
    if lex == [] then []
    else (if lex[0].TokenBatch? then [lex[0].tokens] else []) + Batches(lex[1..])
  }

  /** The tokens handed to `addTokens`, call by call. */
  function FedTokens(calls: seq<ParserCall>): seq<seq<Token>> {
    if calls == [] then []
    else (if calls[0].AddTokensCall? then [calls[0].tokens] else []) + FedTokens(calls[1..])
  }

  /** The number of `nextStatement` calls. */
  function Queries(calls: seq<ParserCall>): nat {
    if calls == [] then 0
    else (if calls[0].NextStatementCall? then 1 else 0) + Queries(calls[1..])
  }

  /** Every `addTokens` call is directly followed by a `nextStatement` call. */
  predicate FedBeforeQuery(calls: seq<ParserCall>) {
    forall i :: 0 <= i < |calls| && calls[i].AddTokensCall? ==> i + 1 < |calls| && calls[i + 1].NextStatementCall?
  }

  /** The loop keeps exactly the parsed statements answered before the stopping answer. */
  lemma {:induction false} DriveStatements(lex: seq<LexerResult>, parse: seq<ParserResult>)
    ensures Drive(lex, parse).statements == Parsed(parse[..StopIndex(parse)])
    decreases |lex| + |parse|
  {
    if lex == [] && parse == [] {
    } else if parse == [] || Ends(parse[0]) {
      assert parse[..StopIndex(parse)] == [];
    } else {
      var t := StopIndex(parse);
      DriveStatements(Rest(lex), parse[1..]);
      assert parse[..t][1..] == parse[1..][..t - 1];
    }
  }

  /**
   * How the loop stops: on a real error exactly when the first stopping
   * answer is an error; on `Finished` when it is `Finished`, or when the
   * lexer outlasts a parser that never stopped; and by running out of input
   * otherwise.
   */
  lemma {:induction false} DriveExit(lex: seq<LexerResult>, parse: seq<ParserResult>)
    ensures var t := StopIndex(parse);
      && (Drive(lex, parse).exit == ParserFailed <==> t < |parse| && parse[t].Error?)
      && (Drive(lex, parse).exit == ParserFinished <==>
            (t < |parse| && parse[t].Finished?) || (t == |parse| && |lex| > |parse|))
      && (Drive(lex, parse).exit == InputExhausted <==> t == |parse| && |lex| <= |parse|)
    decreases |lex| + |parse|
  {
    if lex == [] && parse == [] {
    } else if parse == [] || Ends(parse[0]) {
    } else {
      DriveExit(Rest(lex), parse[1..]);
    }
  }

  /**
   * The lexer is asked for one batch of `BatchSize` tokens per iteration
   * while it has more, and the scripts are read exactly as far as the
   * iterations go.
   */
  lemma {:induction false} DrivePulls(lex: seq<LexerResult>, parse: seq<ParserResult>)
    ensures var run, n := Drive(lex, parse), Iterations(lex, parse);
      && |run.lexerRequests| == Min(|lex|, n)
      && (forall i :: 0 <= i < |run.lexerRequests| ==> run.lexerRequests[i] == BatchSize)
      && run.lexerLeft == lex[Min(|lex|, n)..]
      && run.parserLeft == parse[Min(|parse|, n)..]
    decreases |lex| + |parse|
  {
    if lex == [] && parse == [] {
    } else if parse == [] || Ends(parse[0]) {
    } else {
      DrivePulls(Rest(lex), parse[1..]);
      assert Iterations(lex, parse) == Iterations(Rest(lex), parse[1..]) + 1;
      var run := Drive(lex, parse);
      var rest := Drive(Rest(lex), parse[1..]);
      assert run.lexerRequests == Pulled(lex) + rest.lexerRequests;
      if lex != [] {
        assert lex[1..][Min(|lex| - 1, Iterations(Rest(lex), parse[1..]))..] == lex[Min(|lex|, Iterations(lex, parse))..];
      }
    }
  }

  lemma {:induction false} QueriesAppend(a: seq<ParserCall>, b: seq<ParserCall>)
    ensures Queries(a + b) == Queries(a) + Queries(b)
    ensures FedTokens(a + b) == FedTokens(a) + FedTokens(b)
  {
    if a == [] {
      assert a + b == b;
    } else {
      QueriesAppend(a[1..], b);
      assert (a + b)[1..] == a[1..] + b;
    }
  }

  lemma {:induction false} BatchesAppend(a: seq<LexerResult>, b: seq<LexerResult>)
    ensures Batches(a + b) == Batches(a) + Batches(b)
  {
    if a == [] {
      assert a + b == b;
    } else {
      BatchesAppend(a[1..], b);
      assert (a + b)[1..] == a[1..] + b;
    }
  }

  /** The calls of one iteration: the batch, if a `TokenBatch` was pulled, then one query. */
  lemma IterationCalls(lex: seq<LexerResult>)
    ensures Queries(Called(lex)) == 1
    ensures FedTokens(Called(lex)) == Batches(lex[..Min(|lex|, 1)])
    ensures FedBeforeQuery(Called(lex))
    ensures Called(lex)[|Called(lex)| - 1] == NextStatementCall
  {
    if lex != [] && lex[0].TokenBatch? {
      assert Called(lex) == [AddTokensCall(lex[0].tokens), NextStatementCall];
      assert Called(lex)[1..] == [NextStatementCall];
      assert Called(lex)[1..][1..] == [];
      assert Queries(Called(lex)[1..]) == 1;
      assert FedTokens(Called(lex)[1..]) == [];
      assert lex[..1] == [lex[0]];
      assert [lex[0]][1..] == [];
    } else {
      assert Called(lex) == [NextStatementCall];
      if lex != [] {
        assert lex[..1] == [lex[0]];
        assert [lex[0]][1..] == [];
      }
    }
  }

  /** One iteration ends the loop, or it is followed by the iterations of the rest. */
  lemma DriveUnfolds(lex: seq<LexerResult>, parse: seq<ParserResult>)
    requires lex != [] || parse != []
    ensures parse == [] || Ends(parse[0]) ==>
      Drive(lex, parse).parserCalls == Called(lex) && Iterations(lex, parse) == 1
    ensures !(parse == [] || Ends(parse[0])) ==>
      && Drive(lex, parse).parserCalls == Called(lex) + Drive(Rest(lex), parse[1..]).parserCalls
      && Iterations(lex, parse) == Iterations(Rest(lex), parse[1..]) + 1
  {
  }

  /** The parser is asked for a statement exactly once per iteration. */
  lemma {:induction false} DriveQueries(lex: seq<LexerResult>, parse: seq<ParserResult>)
    ensures Queries(Drive(lex, parse).parserCalls) == Iterations(lex, parse)
    decreases |lex| + |parse|
  {
    if lex != [] || parse != [] {
      DriveUnfolds(lex, parse);
      IterationCalls(lex);
      if !(parse == [] || Ends(parse[0])) {
        DriveQueries(Rest(lex), parse[1..]);
        QueriesAppend(Called(lex), Drive(Rest(lex), parse[1..]).parserCalls);
      }
    }
  }

  /** The parser is fed the tokens of exactly the `TokenBatch` answers pulled, in order. */
  lemma {:induction false} DriveFedTokens(lex: seq<LexerResult>, parse: seq<ParserResult>)
    ensures FedTokens(Drive(lex, parse).parserCalls) == Batches(lex[..Min(|lex|, Iterations(lex, parse))])
    decreases |lex| + |parse|
  {
    if lex != [] || parse != [] {
      DriveUnfolds(lex, parse);
      IterationCalls(lex);
      if !(parse == [] || Ends(parse[0])) {
        var n' := Iterations(Rest(lex), parse[1..]);
        DriveFedTokens(Rest(lex), parse[1..]);
        QueriesAppend(Called(lex), Drive(Rest(lex), parse[1..]).parserCalls);
        BatchesStep(lex, n');
      }
    }
  }

  /** The batches of the first `n + 1` answers: the first answer's, then those of the next `n`. */
  lemma BatchesStep(lex: seq<LexerResult>, n: nat)
    ensures Batches(lex[..Min(|lex|, n + 1)]) == Batches(lex[..Min(|lex|, 1)]) + Batches(Rest(lex)[..Min(|Rest(lex)|, n)])
  {
    if lex != [] {
      BatchesAppend([lex[0]], lex[1..][..Min(|lex| - 1, n)]);
      assert lex[..Min(|lex|, n + 1)] == [lex[0]] + lex[1..][..Min(|lex| - 1, n)];
      assert lex[..Min(|lex|, 1)] == [lex[0]];
    }
  }

  /** Each batch is forwarded right before the `nextStatement` call of its iteration. */
  lemma {:induction false} DriveFedBeforeQuery(lex: seq<LexerResult>, parse: seq<ParserResult>)
    ensures FedBeforeQuery(Drive(lex, parse).parserCalls)
    decreases |lex| + |parse|
  {
    if lex != [] || parse != [] {
      DriveUnfolds(lex, parse);
      IterationCalls(lex);
      if !(parse == [] || Ends(parse[0])) {
        var first, rest := Called(lex), Drive(Rest(lex), parse[1..]).parserCalls;
        DriveFedBeforeQuery(Rest(lex), parse[1..]);
        var calls := first + rest;
        forall i | 0 <= i < |calls| && calls[i].AddTokensCall?
          ensures i + 1 < |calls| && calls[i + 1].NextStatementCall?
        {
          if i >= |first| {
            assert calls[i] == rest[i - |first|];
            assert calls[i + 1] == rest[i + 1 - |first|];
          } else {
            assert calls[i] == first[i];
            assert i + 1 < |first| && first[i + 1].NextStatementCall?;
            assert calls[i + 1] == first[i + 1];
          }
        }
      }
    }
  }

  /** Nothing to read: the loop body never runs, and parsing succeeds. */
  lemma NothingToRead()
    ensures Drive([], []) == Run(InputExhausted, [], [], [], [], [])
    ensures ParseResult(Drive([], [])) == Success
  {
  }

  /** Starvation errors never fail a parse, however many of them come. */
  lemma StarvationNeverFails(lex: seq<LexerResult>, parse: seq<ParserResult>)
    requires forall i :: 0 <= i < |parse| && parse[i].Error? ==> NeedsMoreTokens(parse[i].message)
    ensures ParseResult(Drive(lex, parse)) == Success
  {
    DriveExit(lex, parse);
  }

  /**
   * A real error fails the parse if it comes before any `Finished`; the lint
   * and format loops keep the statements parsed before it.
   */
  lemma RealErrorFails(lex: seq<LexerResult>, parse: seq<ParserResult>, k: nat)
    requires k < |parse| && parse[k].Error? && !NeedsMoreTokens(parse[k].message)
    requires forall j :: 0 <= j < k ==> !parse[j].Finished? && !(parse[j].Error? && !NeedsMoreTokens(parse[j].message))
    ensures ParseResult(Drive(lex, parse)) == Failure
    ensures Drive(lex, parse).statements == Parsed(parse[..k])
    ensures Iterations(lex, parse) == k + 1
  {
    assert StopIndex(parse) == k;
    DriveExit(lex, parse);
    DriveStatements(lex, parse);
  }

  /** Case does not matter in the starvation check. */
  lemma {:induction false} LowercaseIdempotent(s: string)
    ensures Lowercase(Lowercase(s)) == Lowercase(s)
  {
    var l := Lowercase(s);
    assert forall i :: 0 <= i < |l| ==> Lowercase(l)[i] == l[i];
  }

  lemma NeedsMoreTokensIgnoresCase(message: string)
    ensures NeedsMoreTokens(message) <==> NeedsMoreTokens(Lowercase(message))
  {
    LowercaseIdempotent(message);
  }

  /** `removeTrailingNewline` undoes appending one newline. */
  lemma RemoveAppendedNewline(s: string)
    ensures RemoveTrailingNewline(s + "\n") == s
  {
  }

  /**
   * The formatted text is the plain concatenation of the formatter's outputs
   * with at most one character, the last output's final newline, removed.
   */
  lemma FormattedTextDropsOneNewline(outputs: seq<string>)
    ensures outputs == [] ==> FormattedText(outputs) == ""
    ensures outputs != [] && EndsWithNewline(outputs[|outputs| - 1]) ==>
      FormattedText(outputs) + "\n" == Concat(outputs)
    ensures !(outputs != [] && EndsWithNewline(outputs[|outputs| - 1])) ==>
      FormattedText(outputs) == Concat(outputs)
  {
    if outputs != [] {
      var last := outputs[|outputs| - 1];
      var init := Concat(outputs[..|outputs| - 1]);
      if EndsWithNewline(last) {
        assert init + RemoveTrailingNewline(last) + "\n" == init + (RemoveTrailingNewline(last) + "\n");
      }
    }
  }

  /** The outputs of all statements but the last are kept whole, separators included. */
  lemma FormattedTextKeepsEarlierOutputs(outputs: seq<string>, k: nat)
    requires k < |outputs|
    ensures |Concat(outputs[..k])| <= |FormattedText(outputs)|
    ensures FormattedText(outputs)[..|Concat(outputs[..k])|] == Concat(outputs[..k])
  {
    ConcatPrefix(outputs[..|outputs| - 1], k);
    assert outputs[..|outputs| - 1][..k] == outputs[..k];
  }

  lemma {:induction false} ConcatPrefix(parts: seq<string>, k: nat)
    requires k <= |parts|
    ensures |Concat(parts[..k])| <= |Concat(parts)|
    ensures Concat(parts)[..|Concat(parts[..k])|] == Concat(parts[..k])
    decreases |parts|
  {
    if k < |parts| {
      var init := parts[..|parts| - 1];
      ConcatPrefix(init, k);
      assert init[..k] == parts[..k];
    } else {
      assert parts[..k] == parts;
    }
  }

  /**
   * A single statement's formatted text ends in a newline only if the
   * formatter ended it with two.
   */
  lemma SingleStatementTrailingNewline(output: string)
    ensures EndsWithNewline(FormattedText([output])) <==>
      |output| >= 2 && output[|output| - 1] == '\n' && output[|output| - 2] == '\n'
  {
    assert [output][..0] == [];
    assert Concat([]) == "";
    var text := FormattedText([output]);
    assert text == "" + RemoveTrailingNewline(output);
    if EndsWithNewline(output) {
      assert text == output[..|output| - 1];
      if |output| >= 2 {
        assert text[|text| - 1] == output[|output| - 2];
      }
    } else {
      assert text == output;
    }
  }

  /**
   * Two batches and the answers: a statement, a starvation error, then
   * `Finished`: one statement is kept and parsing succeeds.
   */
  lemma StatementThenStarvationThenFinished(b1: seq<Token>, b2: seq<Token>, s: Statement, starving: string)
    requires NeedsMoreTokens(starving)
    ensures var run := Drive([TokenBatch(b1), TokenBatch(b2)], [StatementParsed(s), Error(starving), Finished]);
      run.statements == [s] && ParseResult(run) == Success && run.lexerRequests == [BatchSize, BatchSize]
  {
    var lex, parse := [TokenBatch(b1), TokenBatch(b2)], [StatementParsed(s), Error(starving), Finished];
    var lex2, parse2 := Rest(lex), Rest(parse);
    assert lex2 == [TokenBatch(b2)] && parse2 == [Error(starving), Finished];
    var last := Drive(Rest(lex2), Rest(parse2));
    assert Rest(lex2) == [] && Rest(parse2) == [Finished];
    assert last == Run(ParserFinished, [], [], [NextStatementCall], [], []);
    assert Answer(parse2) == Error(starving);
    var middle := Drive(lex2, parse2);
    assert middle == Then([], Pulled(lex2), Called(lex2), last);
    assert Answer(parse) == StatementParsed(s);
    assert Drive(lex, parse) == Then([s], Pulled(lex), Called(lex), middle);
  }

  /**
   * A lexer that pulls nothing, and a parser that answers the phrase "need
   * more tokens" in any letter case, then `Finished`: two queries, no pull,
   * and the parse succeeds.
   */
  lemma NeedMoreTokensScenario(message: string)
    requires Lowercase(message) == "need more tokens"
    ensures var run := Drive([], [Error(message), Finished]);
      && ParseResult(run) == Success
      && run.statements == []
      && run.lexerRequests == []
      && run.parserCalls == [NextStatementCall, NextStatementCall]
  {
    StarvationMessageRecognised(message);
    var last := Drive([], [Finished]);
    assert last == Run(ParserFinished, [], [], [NextStatementCall], [], []);
    assert Answer([Error(message), Finished]) == Error(message);
    assert Rest([Error(message), Finished]) == [Finished];
    assert Drive([], [Error(message), Finished]) == Then([], [], [NextStatementCall], last);
  }

  /** The repository's starvation test, with its exact message. */
  lemma StarvationTestSucceeds()
    ensures ParseResult(Drive([], [Error("need more tokens"), Finished])) == Success
  {
    StarvationPhraseIsLowercase();
    NeedMoreTokensScenario("need more tokens");
  }

  /** A lexer that pulls nothing, and the parser error "error": one query, and the parse fails. */
  lemma PlainErrorFails()
    ensures var run := Drive([], [Error("error")]);
      && ParseResult(run) == Failure
      && run.lexerRequests == []
      && run.parserCalls == [NextStatementCall]
  {
    ShortMessageNotStarvation("error");
  }
}

/**
 * The streaming lexer and parser the driver pulls from. Their grammar is not
 * part of this model: each is a stand-in that answers from a fixed script of
 * results and logs how it was called, so that what the driver does with the
 * answers can be stated.
 */
module Engines {

  /** A lexical token; the driver only forwards tokens, it never inspects them. */
  datatype Token = Token(text: string)

  /** A parsed statement; the driver only collects statements. */
  datatype Statement = Statement(text: string)

  /** What `nextBatch` answers: a batch of tokens, or something that carries none. */
  datatype LexerResult = TokenBatch(tokens: seq<Token>) | NoTokens

  /** What `nextStatement` answers. */
  datatype ParserResult = StatementParsed(statement: Statement) | Error(message: string) | Finished

  /** One call the driver made on the parser. */
  datatype ParserCall = AddTokensCall(tokens: seq<Token>) | NextStatementCall

  /** A streaming lexer whose remaining answers to `nextBatch` are `pending`. */
  class ScriptedLexer {
    var pending: seq<LexerResult>
    /** The batch size of every `nextBatch` call so far, in order. */
    var requests: seq<nat>

    constructor (script: seq<LexerResult>)
      ensures pending == script && requests == []
    {
      pending := script;
      requests := [];
    }

    /** `hasMore`: the lexer still has answers to give. */
    predicate HasMore()
      reads this
    {
      pending != []
    }

    /** `nextBatch(size)`: the next scripted answer; nothing once the script is spent. */
    method NextBatch(size: nat) returns (r: LexerResult)
      modifies this
      ensures old(pending) != [] ==> r == old(pending)[0] && pending == old(pending)[1..]
      ensures old(pending) == [] ==> r == NoTokens && pending == []
      ensures requests == old(requests) + [size]
    {
      if pending != [] {
        r := pending[0];
        pending := pending[1..];
      } else {
        r := NoTokens;
      }
      requests := requests + [size];
    }
  }

  /** A streaming parser whose remaining answers to `nextStatement` are `pending`. */
  class ScriptedParser {
    var pending: seq<ParserResult>
    /** Every call made on the parser so far, in order. */
    var calls: seq<ParserCall>

    constructor (script: seq<ParserResult>)
      ensures pending == script && calls == []
    {
      pending := script;
      calls := [];
    }

    /** `hasMore`: the parser still has answers to give. */
    predicate HasMore()
      reads this
    {
      pending != []
    }

    /** `addTokens`: the tokens are recorded; the scripted answers do not change. */
    method AddTokens(tokens: seq<Token>)
      modifies this
      ensures pending == old(pending)
      ensures calls == old(calls) + [AddTokensCall(tokens)]
    {
      calls := calls + [AddTokensCall(tokens)];
    }

    /** `nextStatement`: the next scripted answer; `Finished` once the script is spent. */
    method NextStatement() returns (r: ParserResult)
      modifies this
      ensures old(pending) != [] ==> r == old(pending)[0] && pending == old(pending)[1..]
      ensures old(pending) == [] ==> r == Finished && pending == []
      ensures calls == old(calls) + [NextStatementCall]
    {
      if pending != [] {
        r := pending[0];
        pending := pending[1..];
      } else {
        r := Finished;
      }
      calls := calls + [NextStatementCall];
    }
  }
}

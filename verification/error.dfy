/** The error records every phase raises: an error code (whose text is fixed), the
    offending token and a message. The three kinds of error differ only in their name. */
module Errors {
  import opened Wrappers
  import opened Tokens

  /** The error codes. WrongParamsNum is raised by the semantic analyzer; the code
      table of the error module has no entry for it (see README). */
  datatype ErrorCode = UnexpectedToken | IdNotFound | DuplicateId | WrongParamsNum

  /** The fixed text of each code; it is also the first part of parser and semantic
      error messages. */
  function CodeText(c: ErrorCode): (s: string)
    ensures |s| > 0
  {
    match c
    case UnexpectedToken => "Unexpected token"
    case IdNotFound => "Identifier not found"
    case DuplicateId => "Duplicate id found"
    case WrongParamsNum => "Wrong number of arguments"
  }

  /** Distinct codes have distinct texts, so a message names its code unambiguously. */
  lemma CodeTextInjective(c: ErrorCode, d: ErrorCode)
    requires CodeText(c) == CodeText(d)
    ensures c == d
  {
  }

  /** Which error was raised. TypeError is the host runtime's own error, raised when
      the analyzer reads the parameter list of a name that is not a procedure. */
  datatype ErrorName = LexerError | ParserError | SemanticError | TypeError

  function NameText(n: ErrorName): string {
    match n
    case LexerError => "LexerError"
    case ParserError => "ParserError"
    case SemanticError => "SemanticError"
    case TypeError => "TypeError"
  }

  /** An error record. Code and token are absent when the raiser gives none. */
  datatype Error = Error(name: ErrorName, errorCode: Option<ErrorCode>, token: Option<Token>, message: string)

  /** The record a LexerError constructor builds from its three arguments. */
  function NewLexerError(code: Option<ErrorCode>, token: Option<Token>, message: string): (e: Error)
    ensures e.name == LexerError && e.errorCode == code && e.token == token && e.message == message
  {
    Error(LexerError, code, token, message)
  }

  /** The record a ParserError constructor builds from its three arguments. */
  function NewParserError(code: Option<ErrorCode>, token: Option<Token>, message: string): (e: Error)
    ensures e.name == ParserError && e.errorCode == code && e.token == token && e.message == message
  {
    Error(ParserError, code, token, message)
  }

  /** The record a SemanticError constructor builds from its three arguments. */
  function NewSemanticError(code: Option<ErrorCode>, token: Option<Token>, message: string): (e: Error)
    ensures e.name == SemanticError && e.errorCode == code && e.token == token && e.message == message
  {
    Error(SemanticError, code, token, message)
  }

  /** The message parser and semantic errors carry: "<code text> -> <token>". */
  function CodedMessage(code: ErrorCode, token: Token): string {
    CodeText(code) + " -> " + token.ToString()
  }

  /** The three error constructors agree on everything but the name. */
  lemma ErrorKindsDifferOnlyInName(code: Option<ErrorCode>, token: Option<Token>, message: string)
    ensures NewLexerError(code, token, message).(name := ParserError) == NewParserError(code, token, message)
    ensures NewParserError(code, token, message).(name := SemanticError) == NewSemanticError(code, token, message)
    ensures forall m, n :: NameText(m) == NameText(n) ==> m == n
  {
  }

  /** A coded message: the code's text, an arrow, and the printed token. */
  lemma DuplicateIdMessage()
    ensures CodedMessage(DuplicateId, Token(Id, TextValue("a"), Some(5), Some(14)))
      == "Duplicate id found -> Token(ID, a, position = 5 : 14)"
  {
    IdTokenPrinted();
    assert "Duplicate id found" + " -> " + "Token(ID, a, position = 5 : 14)"
      == "Duplicate id found -> Token(ID, a, position = 5 : 14)";
  }
}

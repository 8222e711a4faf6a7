# A verified model of a Pascal-subset interpreter

This project models the last stage of a small interpreter for a subset of Pascal. It is written in TypeScript and built up step by step over a tutorial series. The pipeline has five parts:

- **Lexer.** Turns program text into tokens that carry a line and a column.
- **Token model.** The token kinds, each standing for a literal text, and the token record with its printed form.
- **Parser.** A recursive-descent parser that builds the abstract syntax tree of a program: declarations, nested procedures, compound statements, assignments, procedure calls and arithmetic expressions.
- **Semantic analyzer.** Builds a chain of scoped symbol tables. It rejects duplicate declarations, names that no scope defines, and calls with the wrong number of arguments.
- **Interpreter.** Walks the tree on a call stack of activation records.

The error records that every phase raises are modelled as well.

## Modules

| module | file | models |
|---|---|---|
| `Wrappers` | wrappers.dfy | `Option`, `Result` and `Outcome` |
| `Text` | text.dfy | decimal digits and the rendering of natural numbers |
| `Tokens` | token.dfy | `TokenType` and `Token` (src/part18/spi/token.ts) |
| `Errors` | error.dfy | `ErrorCode` and the three error classes (src/part15/spi/error.ts) |
| `Lexing` | lexer.dfy | the lexer (src/part15/spi/lexer.ts) |
| `LexingProps` | lexer_props.dfy | properties of the lexer |
| `Ast` | ast.dfy | the AST classes (src/part17/spi/parser.ts) and the symbol classes (src/part18/spi/semanticAnalyzer.ts) |
| `TokenStreams` | stream.dfy | what successive lexer calls return |
| `Grammar` | grammar.dfy | every production of the parser as a function over the token stream |
| `Parsing` | parser.dfy | the parser class (src/part17/spi/parser.ts) |
| `ParsingProps` | parser_props.dfy | precedence, associativity and rejection properties |
| `ParameterListProps` | params_props.dfy | the print/parse round trip of formal parameter lists |
| `Symbols` | symbols.dfy | `ScopedSymbolTable`, as a chain of scopes |
| `Analysis` | analyzer.dfy | the semantic analyzer (src/part18/spi/semanticAnalyzer.ts) |
| `AnalysisProps` | analyzer_props.dfy | properties of the analyzer |
| `Runtime` | callstack.dfy | `CallStack` and `ActivationRecord` (src/part17/spi/callStack.ts) |
| `Interpreting` | interpreter.dfy | the interpreter (src/part17/spi/interpreter.ts) |
| `InterpretingProps` | interpreter_props.dfy | properties of evaluation and execution |

### How each part is modelled

**Lexer (state and specification).** The lexer is a class whose fields `pos`, `currentChar`, `lineno` and `column` advance one character at a time, as in the source.

- The specification function `Scan(text, p)` says what one `getNextToken` call returns from cursor position `p`, and where it leaves the cursor.
- Every method of the class is proved against `Scan` or one of its parts.
- Numbers are kept as an exact decimal: a mantissa and a scale.
- A token carries the line and column of the cursor after it. For a text written line by line (`LexingProps.JoinLines`), the position of each character is given in closed form, so the positions the tests expect in error messages follow from the lexer's rule.

**Parser (state and specification).** The parser is a class that holds the lexer and the current token. Its methods are proved against the grammar functions of `Grammar`. Those functions read the sequence of tokens the lexer yields on successive calls, given by `TokenStreams.TokenizeFrom`.

- Each ID token carries the raw character that follows it. The source decides between a procedure call and an assignment by looking at `lexer.currentChar`.
- The central property is a round trip. An expression printed as tokens with the fewest parentheses is parsed back into the same tree. This one property says at once:
  - that `*`, `DIV` and `/` bind tighter than `+` and `-`;
  - that both loops fold to the left;
  - that prefix signs nest;
  - that parentheses leave no node of their own.
- A second round trip covers formal parameter lists: groups `a, b : INTEGER; c : REAL` printed as tokens are parsed back into the parameters of the groups, flattened in order.

**Semantic analyzer.** The chain of scopes is a sequence, the innermost scope last. `Lookup` reads the sequence the way the source follows `enclosingScope` pointers.

- The visit rules are specification functions that return the new chain or the first error.
- The class `SemanticAnalyzer` keeps the chain in a field. Its methods are proved to agree with those functions.

**Interpreter.** Values are `Undefined`, `NaN`, exact finite numbers or signed infinities. These are the values JavaScript arithmetic yields on these trees.

- `Eval` and `Exec` say what an expression is worth and what a statement does to the members of the top frame.
- The class `Interpreter` works on a real `CallStack` of `ActivationRecord` objects. It is proved to leave exactly `RunProgram(tree)` in the frame it pushes, and to pop that frame again.

## Model

| member | source | states |
|---|---|---|
| Text.NatToString | src/part18/spi/token.ts:43 | a line or column prints as a nonempty digit string with no leading zero |
| Text.NatToStringRoundTrip | src/part18/spi/token.ts:43 | reading the printed digits back gives the number |
| Text.NatToStringInjective | src/part18/spi/token.ts:43 | two numbers that print alike are equal |
| Tokens.SingleCharKind | src/part18/spi/token.ts:4-13 | the kind whose literal is exactly the one character c, and None exactly when no kind has that literal |
| Tokens.Normalize | src/part18/spi/token.ts:43 | dropping trailing zero digits of a number's fraction keeps its value and leaves no trailing zero |
| Tokens.Token.ToString | src/part18/spi/token.ts:42-44 | the printed form Token(kind, value, position = line : column) (Tokens.IdTokenPrinted states it on an ID token) |
| Tokens.ValueString | src/part18/spi/token.ts:43 | null, the text, or the number without trailing fraction zeros (Tokens.Normalize states that this keeps the value) |
| Tokens.IdTokenPrinted | src/part18/spi/token.ts:42-44 | the ID token a at 5:14 prints as Token(ID, a, position = 5 : 14) |
| Errors.CodeText | src/part15/spi/error.ts:3-7 | each error code has a fixed, nonempty text |
| Errors.CodeTextInjective | src/part15/spi/error.ts:3-7 | distinct codes have distinct texts |
| Errors.NewLexerError | src/part15/spi/error.ts:25-30 | the record holds the given code, token and message under the name LexerError |
| Errors.NewParserError | src/part15/spi/error.ts:32-37 | the same under the name ParserError |
| Errors.NewSemanticError | src/part15/spi/error.ts:39-44 | the same under the name SemanticError |
| Errors.ErrorKindsDifferOnlyInName | src/part15/spi/error.ts:25-44 | the three error records built from the same arguments differ only in their name, and the names are distinct |
| Errors.CodedMessage | src/part18/spi/semanticAnalyzer.ts:213-215 | the code's text, " -> ", then the token printed (Errors.DuplicateIdMessage states it for DUPLICATE_ID) |
| Errors.DuplicateIdMessage | src/part18/spi/semanticAnalyzer.ts:213-215 | the duplicate-id message is "Duplicate id found -> Token(ID, a, position = 5 : 14)" |
| Lexing.ToUpper | src/part15/spi/lexer.ts:131 | upper-casing keeps the length and maps each character to its upper-case form |
| Lexing.ReservedKeywordsAreLiterals | src/part15/spi/lexer.ts:4-13 | every reserved word maps to the kind whose literal it is, and none maps to ID |
| Lexing.IsWhitespace | src/part15/spi/lexer.ts:115-117 | the characters of the JavaScript class \s (Lexing.ScanSkipsWhitespace and LexingProps.NumeralAbsorbsWhitespace state what they do to a call) |
| Lexing.CharAt | src/part15/spi/lexer.ts:96-101 | the character under the cursor, or none past the end (Lexing.Lexer.Advance and Lexing.Lexer.Peek are proved to read the text through it) |
| Lexing.LineCol | src/part15/spi/lexer.ts:90-103 | the line and column the cursor holds after p characters (Lexing.LineColCounts states what they count) |
| Lexing.ParseInt | src/part15/spi/lexer.ts:86 | parseInt on a digit run: the value of its leading digits (Lexing.ScanNumberInteger and LexingProps.LexerIntegerToken) |
| Lexing.ParseFloat | src/part15/spi/lexer.ts:84 | parseFloat on digits, '.' and digits: the exact decimal they spell (Lexing.ScanNumberReal and LexingProps.LexerRealToken) |
| Lexing.LineColCounts | src/part15/spi/lexer.ts:90-103 | the line is one more than the newlines passed; the column counts the characters since the last newline, from 1 |
| Lexing.LineColWithinLine | src/part15/spi/lexer.ts:90-103 | across characters that are not newlines the line stays and the column grows by one per character |
| Lexing.LineColNextLine | src/part15/spi/lexer.ts:90-103 | stepping off a newline moves the cursor to column 1 of the next line |
| Lexing.LexerErrorAt | src/part15/spi/lexer.ts:154-157 | the error for an unaccepted character is a LexerError with no code and no token |
| Lexing.ScanIdentifier | src/part15/spi/lexer.ts:124-140 | an identifier is the maximal alphanumeric run; a reserved word in any case gets its keyword kind and the upper-cased text, and anything else is ID with the original text; the token carries the line and column of the cursor after the word |
| Lexing.ScanNumber | src/part15/spi/lexer.ts:69-89 | a numeral is REAL_CONST exactly when its run contains '.', with the parseFloat value of the run, otherwise INTEGER_CONST with its parseInt value; it consumes at least one character and carries the line and column of the cursor after the run |
| Lexing.Scan | src/part15/spi/lexer.ts:30-65 | one lexer call never moves back; EOF comes only at the end of the text; any other token consumes input; an error leaves the cursor inside the text |
| Lexing.ScanNumberReal | src/part15/spi/lexer.ts:76-84 | a digit run followed by '.' is read with the digits after the dot and parsed as a float |
| Lexing.RunPosition | src/part15/spi/lexer.ts:90-103 | after a run of characters holding no newline the cursor is on the same line, its column advanced by the run's length, or one less when the run ends the text |
| Lexing.IdentifierPosition | src/part15/spi/lexer.ts:124-130 | an identifier is reported on the line of its first letter, at that letter's column plus the word's length (one less when the word ends the text) |
| Lexing.ScanNumberInteger | src/part15/spi/lexer.ts:85-87 | a digit run not followed by '.' is parsed as an integer |
| Lexing.ScanSkipsWhitespace | src/part15/spi/lexer.ts:32-35 | white space yields no token: the call returns what it returns from the end of the run |
| Lexing.ScanSkipsComment | src/part15/spi/lexer.ts:37-41 | a comment yields no token: the call returns what it returns after the closing brace |
| Lexing.Lexer.constructor | src/part15/spi/lexer.ts:23-29 | the cursor starts at position 0, on line 1, column 1 |
| Lexing.Lexer.Advance | src/part15/spi/lexer.ts:90-103 | the cursor moves one character on, with the line and column kept consistent |
| Lexing.Lexer.Peek | src/part15/spi/lexer.ts:147-153 | returns the character after the current one, or None past the end |
| Lexing.Lexer.SkipWhitespace | src/part15/spi/lexer.ts:104-108 | the cursor ends at the end of the white-space run |
| Lexing.Lexer.SkipComment | src/part15/spi/lexer.ts:109-114 | the cursor ends just past the closing brace, and the next token is the one after the comment |
| Lexing.Lexer.DigitRun | src/part15/spi/lexer.ts:72-75 | reads the maximal run of the lexer's digits and returns it |
| Lexing.Lexer.Number | src/part15/spi/lexer.ts:69-89 | returns the token ScanNumber gives and leaves the cursor where it says |
| Lexing.Lexer.Identifier | src/part15/spi/lexer.ts:124-140 | returns the token ScanIdentifier gives and leaves the cursor where it says |
| Lexing.Lexer.MakeError | src/part15/spi/lexer.ts:154-157 | builds the error for the current character and position |
| Lexing.Lexer.ReadToken | src/part15/spi/lexer.ts:43-62 | dispatches on the current character exactly as Scan does |
| Lexing.Lexer.GetNextToken | src/part15/spi/lexer.ts:30-65 | returns what Scan returns from the cursor, and moves the cursor where Scan says |
| LexingProps.TriviaEnd | src/part15/spi/lexer.ts:31-41 | the first position from p that is neither white space nor inside a comment |
| LexingProps.ScanStartsAfterTrivia | src/part15/spi/lexer.ts:31-41 | white space and comments never produce a token |
| LexingProps.ScanClassification | src/part15/spi/lexer.ts:43-62 | the first significant character decides: none gives EOF, an unaccepted one the error at it, any other a real token |
| LexingProps.EofExactlyAtEnd | src/part15/spi/lexer.ts:30-64 | EOF is returned exactly when only trivia is left, and then again on every later call |
| LexingProps.ColonOrAssign | src/part15/spi/lexer.ts:51-61 | ':' followed by '=' is one ASSIGN token of two characters; otherwise ':' is COLON |
| LexingProps.ScanLetter | src/part15/spi/lexer.ts:43-45 | a letter starts an identifier |
| LexingProps.ScanDigit | src/part15/spi/lexer.ts:47-49 | a decimal digit starts a numeral |
| LexingProps.ScanSymbol | src/part15/spi/lexer.ts:57-61 | a one-character symbol becomes the token of its kind, with the character as its value |
| LexingProps.WordToken | src/part15/spi/lexer.ts:124-140 | a word that is the whole text is one token, with keyword or ID kind by its upper-case form |
| LexingProps.SymbolToken | src/part15/spi/lexer.ts:57-61 | a one-character symbol that is the whole text is one token of its kind |
| LexingProps.LexerIntegerToken | src/part17/__tests__/interpreter.test.ts:17 | 234 is INTEGER_CONST 234 |
| LexingProps.LexerRealToken | src/part17/__tests__/interpreter.test.ts:18 | 3.14 is REAL_CONST 3.14 |
| LexingProps.LexerOperatorTokens | src/part17/__tests__/interpreter.test.ts:19-23 | *, /, + and - are read as their kinds with themselves as values |
| LexingProps.LexerPunctuationTokens | src/part17/__tests__/interpreter.test.ts:24-29 | (, ), . and ; are read as their kinds with themselves as values |
| LexingProps.LexerAssignToken | src/part17/__tests__/interpreter.test.ts:26 | := is one ASSIGN token |
| LexingProps.LexerWordTable | src/part17/__tests__/interpreter.test.ts:20-28 | DIV is INTEGER_DIV and number is ID |
| LexingProps.LexerBlockWords | src/part17/__tests__/interpreter.test.ts:30-31 | BEGIN and END are their keywords |
| LexingProps.KeywordsIgnoreCase | src/part15/spi/lexer.ts:131-138 | begin and Div are keywords with upper-cased values; Number is an ID that keeps its case |
| LexingProps.LexerErrorOnUnknownCharacter | src/part15/spi/lexer.ts:154-157 | "<" raises the LexerError "Lexer error on < line: 1 column: 1" |
| LexingProps.LinePosition | src/part15/spi/lexer.ts:90-103 | in a text written line by line, character c of line l is where the cursor holds line l + 1 and column c + 1 |
| LexingProps.OneLetterIdentifier | src/part15/spi/lexer.ts:124-140 | a one-letter identifier at character c of line l becomes an ID token at line l + 1, column c + 2 |
| LexingProps.DuplicateIdTokenPosition | src/part17/__tests__/interpreter.test.ts:123-135 | the lexer reads the second a of the duplicate-identifier test as ID a at 5:14, the token AnalysisProps.DuplicateIdProgram uses |
| LexingProps.IdNotFoundTokenPosition | src/part17/__tests__/interpreter.test.ts:136-147 | the lexer reads the b of the undeclared-identifier test as ID b at 6:21, the token AnalysisProps.IdNotFoundProgram uses |
| LexingProps.SpuriousParenthesisPosition | src/part17/__tests__/interpreter.test.ts:69-81 | the '(' of the spurious-parenthesis test is at 6:18, where the lexer returns LPAREN on reaching it |
| LexingProps.NumeralAbsorbsWhitespace | src/part15/spi/lexer.ts:118-120 | the digit test accepts white space, so "1 2" is one INTEGER_CONST 1 that consumes all three characters |
| TokenStreams.TokenizeFrom | src/part15/spi/lexer.ts:30-65 | the tokens successive calls return end with EOF, or stop at the first lexer error |
| TokenStreams.TokenizeFirst | src/part15/spi/lexer.ts:30-65 | the first call returns the first token, or raises the error when there is none |
| TokenStreams.TokenizeNext | src/part15/spi/lexer.ts:30-65 | the call after token i returns token i+1, raises the error, or returns EOF again |
| Grammar.UnexpectedAt | src/part17/spi/parser.ts:499-502 | a parser error is a ParserError with code UNEXPECTED_TOKEN at the current token, and message "Unexpected token -> token" |
| Grammar.Eat | src/part17/spi/parser.ts:492-498 | consumes exactly when the current token has the expected kind; otherwise the error names the current token |
| Grammar.VariableAt | src/part17/spi/parser.ts:373-377 | a variable is one ID token; any other token is the error |
| Grammar.ExprAt | src/part17/spi/parser.ts:387-399 | expr never moves back and stops on a token of the stream |
| Grammar.ExprTail | src/part17/spi/parser.ts:387-399 | the loop of expr stops only at a token that is not + or - |
| Grammar.TermAt | src/part17/spi/parser.ts:403-418 | term never moves back and stops on a token of the stream |
| Grammar.TermTail | src/part17/spi/parser.ts:403-418 | the loop of term stops only at a token that is not *, DIV or / |
| Grammar.FactorAt | src/part17/spi/parser.ts:427-452 | factor consumes at least one token |
| Grammar.CompoundStatementAt | src/part17/spi/parser.ts:293-302 | a compound statement runs from BEGIN to END and has at least one child (ParsingProps.CompoundMissingEnd gives its error when END is missing) |
| Grammar.StatementListAt | src/part17/spi/parser.ts:307-318 | a statement list is nonempty and is followed by neither ';' nor an ID |
| Grammar.StatementTail | src/part17/spi/parser.ts:307-318 | the loop extends the list so far and stops only at a token that is not ';' |
| Grammar.StatementAt | src/part17/spi/parser.ts:325-337 | a statement is a call exactly when its ID is followed directly by '('; with no BEGIN or ID it is the empty statement |
| Grammar.AssignmentAt | src/part17/spi/parser.ts:341-348 | an assignment's target is the current variable and its operator the ':=' after it |
| Grammar.ProcCallAt | src/part17/spi/parser.ts:352-369 | a call is named by its ID token; '()' gives no arguments |
| Grammar.FirstArgument | src/part17/spi/parser.ts:352-369 | no argument before ')', and never more than one |
| Grammar.ArgumentTail | src/part17/spi/parser.ts:352-369 | the argument loop extends the list so far and stops at a token that is not ',' |
| Grammar.TypeSpecAt | src/part17/spi/parser.ts:280-289 | a type is INTEGER or REAL; any other token is the error |
| Grammar.IdTail | src/part17/spi/parser.ts:261-275 | the name loop reads the names after the first, in order, at every other token |
| Grammar.TypedNamesAt | src/part17/spi/parser.ts:261-275 | ID (, ID)* : type yields the names in order and the one type they share |
| Grammar.VarDecls | src/part17/spi/parser.ts:261-275 | one VarDecl per name, in order, all of the shared type |
| Grammar.Params | src/part17/spi/parser.ts:474-491 | one Param per name, in order, all of the shared type |
| Grammar.VariableDeclarationAt | src/part17/spi/parser.ts:261-275 | a variable declaration yields at least one VarDecl, one per name |
| Grammar.FormalParametersAt | src/part17/spi/parser.ts:474-491 | a parameter group yields at least one Param, one per name |
| Grammar.FormalParameterListAt | src/part17/spi/parser.ts:458-470 | an empty list before any token but ID; otherwise the result stays within the stream (ParameterListProps.ParameterListRoundTrip proves the groups come back flattened in order) |
| Grammar.ParamGroups | src/part17/spi/parser.ts:465-468 | the group loop keeps the list so far as a prefix of its result and stops at a token that is not ';' (ParameterListProps.ParamGroupsLoop proves what it appends) |
| ParameterListProps.IdTailRoundTrip | src/part17/spi/parser.ts:478-482 | the name loop reads printed ', ID' pairs back as exactly those names, in order, and stops just after them |
| ParameterListProps.TypedNamesRoundTrip | src/part17/spi/parser.ts:475-485 | a printed group ID (, ID)* : type is read back as the same names and type |
| ParameterListProps.FormalParametersRoundTrip | src/part17/spi/parser.ts:474-491 | a printed group yields one Param per name, in order, all of the group's type, and ends just after the type |
| ParameterListProps.ParamGroupsLoop | src/part17/spi/parser.ts:465-468 | the group loop appends the parameters of each group it parses to the list so far, group after group |
| ParameterListProps.ParamGroupsRoundTrip | src/part17/spi/parser.ts:465-468 | groups printed after ';' are read back, their parameters appended in order |
| ParameterListProps.ParameterListRoundTrip | src/part17/spi/parser.ts:458-470 | a list of groups printed with ';' between them, and not followed by ';', is parsed into the groups' parameters flattened in order, ending just after the last group |
| Grammar.ParameterPartAt | src/part17/spi/parser.ts:241-257 | no parameters without '(' |
| Grammar.ProcedureDeclarationAt | src/part17/spi/parser.ts:241-257 | PROCEDURE ID ... yields a ProcedureDecl named by that ID |
| Grammar.ProcedureDecls | src/part17/spi/parser.ts:221-237 | the procedure loop yields only ProcedureDecls and stops before a token that is not PROCEDURE |
| Grammar.VarSection | src/part17/spi/parser.ts:221-237 | the VAR loop yields only VarDecls and stops before a token that is not an ID |
| Grammar.VarBlockAt | src/part17/spi/parser.ts:221-237 | without VAR no declarations; with it only VarDecls |
| Grammar.DeclarationsAt | src/part17/spi/parser.ts:221-237 | declarations stop before a token that is not PROCEDURE |
| Grammar.BlockAt | src/part17/spi/parser.ts:212-217 | a block's statement part is a compound statement |
| Grammar.ProgramAt | src/part17/spi/parser.ts:199-208 | a program starts at PROGRAM, is named by the next token and ends with '.' |
| Grammar.Parse | src/part17/spi/parser.ts:189-195 | parsing succeeds exactly when a program is followed directly by EOF; a leftover token is the UNEXPECTED_TOKEN error at it |
| Parsing.Parser.constructor | src/part17/spi/parser.ts:185-188 | the parser starts on the first token the lexer returned |
| Parsing.Parser.Eat | src/part17/spi/parser.ts:492-498 | advances exactly as Grammar.Eat says, or fails with its error |
| Parsing.Parser.ParseVariable | src/part17/spi/parser.ts:373-377 | returns what VariableAt gives and moves the cursor where it says |
| Parsing.Parser.ParseExpr | src/part17/spi/parser.ts:387-399 | the loop returns what ExprAt gives |
| Parsing.Parser.ParseTerm | src/part17/spi/parser.ts:403-418 | the loop returns what TermAt gives |
| Parsing.Parser.ParseFactor | src/part17/spi/parser.ts:427-452 | returns what FactorAt gives |
| Parsing.Parser.ParseCompoundStatement | src/part17/spi/parser.ts:293-302 | returns what CompoundStatementAt gives |
| Parsing.Parser.ParseStatementList | src/part17/spi/parser.ts:307-318 | the loop returns what StatementListAt gives |
| Parsing.Parser.ParseStatement | src/part17/spi/parser.ts:325-337 | returns what StatementAt gives |
| Parsing.Parser.ParseAssignment | src/part17/spi/parser.ts:341-348 | returns what AssignmentAt gives |
| Parsing.Parser.ParseProcCall | src/part17/spi/parser.ts:352-369 | the argument loop returns what ProcCallAt gives |
| Parsing.Parser.ParseTypeSpec | src/part17/spi/parser.ts:280-289 | returns what TypeSpecAt gives |
| Parsing.Parser.ParseTypedNames | src/part17/spi/parser.ts:261-275 | the name loop returns what TypedNamesAt gives |
| Parsing.Parser.ParseVariableDeclaration | src/part17/spi/parser.ts:261-275 | returns what VariableDeclarationAt gives |
| Parsing.Parser.ParseFormalParameters | src/part17/spi/parser.ts:474-491 | returns what FormalParametersAt gives |
| Parsing.Parser.ParseFormalParameterList | src/part17/spi/parser.ts:458-470 | the group loop returns what FormalParameterListAt gives |
| Parsing.Parser.ParseProcedureDeclaration | src/part17/spi/parser.ts:241-257 | returns what ProcedureDeclarationAt gives |
| Parsing.Parser.ParseDeclarations | src/part17/spi/parser.ts:221-237 | both loops return what DeclarationsAt gives |
| Parsing.Parser.ParseBlock | src/part17/spi/parser.ts:212-217 | returns what BlockAt gives |
| Parsing.Parser.ParseProgram | src/part17/spi/parser.ts:199-208 | returns what ProgramAt gives |
| Parsing.Parser.Parse | src/part17/spi/parser.ts:189-195 | returns what Grammar.Parse gives on the lexer's tokens |
| Parsing.NewParser | src/part17/spi/parser.ts:185-188 | a parser exists exactly when the lexer's first call succeeds; otherwise that call's error |
| Parsing.ParseText | src/part17/spi/parser.ts:185-195 | lexing and parsing a text gives the grammar's result on the lexer's tokens |
| ParsingProps.FactorRoundTrip | src/part17/spi/parser.ts:427-452 | a printed factor is parsed back into the same tree, whatever follows it |
| ParsingProps.SignRoundTrip | src/part17/spi/parser.ts:427-441 | a prefix sign is parsed back into the same nested unary node |
| ParsingProps.ParensRoundTrip | src/part17/spi/parser.ts:442-447 | a parenthesized expression is parsed back into the inner tree, with no node of its own |
| ParsingProps.TermRoundTrip | src/part17/spi/parser.ts:403-418 | a printed term is parsed by term into the same tree, which the loop then goes on with |
| ParsingProps.ProductRoundTrip | src/part17/spi/parser.ts:403-418 | a product is the term before its operator, folded in as the left operand |
| ParsingProps.ExprRoundTrip | src/part17/spi/parser.ts:387-399 | a printed expression is parsed by expr into the same tree, which the loop then goes on with |
| ParsingProps.SumRoundTrip | src/part17/spi/parser.ts:387-399 | a sum is the expression before its operator, folded in as the left operand |
| ParsingProps.ParsePrinted | src/part17/spi/parser.ts:387-418 | a printed expression followed by any token that is not an operator is parsed into exactly that tree: multiplication binds tighter and both loops fold left |
| ParsingProps.PrintingIsInjective | src/part17/spi/parser.ts:387-452 | distinct trees the parser can build have distinct token sequences |
| ParsingProps.ExprAlone | src/part17/spi/parser.ts:387-399 | an expression followed by EOF is parsed whole |
| ParsingProps.FactorRejects | src/part17/spi/parser.ts:427-452 | a factor cannot start with any other token, and the error names that token |
| ParsingProps.MissingOperand | src/part17/__tests__/interpreter.test.ts:54-67 | in "a := 10 * ;" the term fails at the token after the operator |
| ParsingProps.CompoundMissingEnd | src/part17/spi/parser.ts:293-302 | when the statement list is not followed by END, the compound statement is the UNEXPECTED_TOKEN error at the token after the list |
| ParsingProps.SpuriousParentheses | src/part17/__tests__/interpreter.test.ts:69-81 | in "BEGIN a := 1 (1 + 2)" the assignment and the statement list end after the 1, and the error is at the '(' |
| ParsingProps.SecondVarRejected | src/part17/__tests__/interpreter.test.ts:82-111 | a second VAR section is the UNEXPECTED_TOKEN error at that VAR |
| Symbols.Scope.Define | src/part18/spi/semanticAnalyzer.ts:81-84 | defining adds or overwrites the entry of that name and keeps every other entry |
| Symbols.InitBuiltins | src/part18/spi/semanticAnalyzer.ts:57-60 | INTEGER and REAL are added as built-in types |
| Symbols.GlobalScope | src/part18/spi/semanticAnalyzer.ts:112-116 | the global scope is named global, at level 1, and holds just INTEGER and REAL |
| Symbols.DefineInCurrent | src/part18/spi/semanticAnalyzer.ts:81-84 | defining changes only the current scope of the chain |
| Symbols.Lookup | src/part18/spi/semanticAnalyzer.ts:85-98 | the entry of the innermost scope that has the name, or with currentScopeOnly the current scope's entry only (Symbols.LookupFinds, Symbols.LookupInnermost and Symbols.LookupCurrentOnly) |
| Symbols.LookupFinds | src/part18/spi/semanticAnalyzer.ts:85-98 | a name resolves exactly when some scope of the chain defines it |
| Symbols.LookupInnermost | src/part18/spi/semanticAnalyzer.ts:85-98 | a name resolves to its definition in the innermost scope that has one |
| Symbols.LookupCurrentOnly | src/part18/spi/semanticAnalyzer.ts:85-98 | looking in the current scope only finds a name exactly when that scope defines it, and then finds what the full lookup finds |
| Symbols.DefineThenLookup | src/part18/spi/semanticAnalyzer.ts:81-98 | after a definition its name resolves to it, and every other name resolves as before |
| Symbols.DefineTwice | src/part18/spi/semanticAnalyzer.ts:81-84 | a second definition of the same name overwrites the first |
| Analysis.SemanticFault | src/part18/spi/semanticAnalyzer.ts:213-215 | a semantic error carries its code and token and the message "code text -> token" |
| Analysis.HostTypeError | src/part18/spi/semanticAnalyzer.ts:165-177 | the host runtime's error has no code and no token |
| Analysis.CheckVar | src/part18/spi/semanticAnalyzer.ts:178-184 | a variable passes exactly when some scope defines it; otherwise ID_NOT_FOUND at its token |
| Analysis.DeclareVar | src/part18/spi/semanticAnalyzer.ts:148-160 | a variable declaration changes only the current scope and loses no name of it |
| Analysis.DefineParams | src/part18/spi/semanticAnalyzer.ts:194-200 | the parameter scope gets exactly the parameter names; the formals are one VarSymbol per parameter, in order and by name |
| Analysis.DeclareProcedure | src/part18/spi/semanticAnalyzer.ts:185-209 | a procedure declaration leaves the chain as it was, but for the current scope, which loses no name |
| Analysis.AnalyzeDecl | src/part18/spi/semanticAnalyzer.ts:124-127 | a declaration changes only the current scope |
| Analysis.AnalyzeDecls | src/part18/spi/semanticAnalyzer.ts:124-127 | the declarations of a block, in order, change only the current scope |
| Analysis.AnalyzeBlock | src/part18/spi/semanticAnalyzer.ts:124-129 | a block changes only the current scope |
| Analysis.SemanticAnalyzer.constructor | src/part18/spi/semanticAnalyzer.ts:108-111 | the analyzer starts with no scope |
| Analysis.SemanticAnalyzer.Define | src/part18/spi/semanticAnalyzer.ts:81-84 | the current scope becomes the one with the symbol defined |
| Analysis.SemanticAnalyzer.VisitProgram | src/part18/spi/semanticAnalyzer.ts:112-123 | returns what AnalyzeProgram gives, and on success the chain is what it was before |
| Analysis.SemanticAnalyzer.VisitBlock | src/part18/spi/semanticAnalyzer.ts:124-129 | the loop returns and leaves what AnalyzeBlock gives |
| Analysis.SemanticAnalyzer.VisitDeclaration | src/part18/spi/semanticAnalyzer.ts:148-160 | returns and leaves what AnalyzeDecl gives |
| Analysis.SemanticAnalyzer.VisitProcedureDecl | src/part18/spi/semanticAnalyzer.ts:185-209 | returns and leaves what DeclareProcedure gives: the procedure scope is opened one level deeper and closed again |
| Analysis.SemanticAnalyzer.DefineParameters | src/part18/spi/semanticAnalyzer.ts:194-200 | the loop leaves the enclosing scopes alone, and the current scope and formals are what DefineParams gives |
| Analysis.SemanticAnalyzer.VisitStatement | src/part18/spi/semanticAnalyzer.ts:140-177 | returns what CheckStatement gives |
| Analysis.SemanticAnalyzer.VisitVar | src/part18/spi/semanticAnalyzer.ts:178-184 | returns what CheckVar gives |
| Analysis.SemanticAnalyzer.VisitExpr | src/part18/spi/semanticAnalyzer.ts:130-139 | returns what CheckExpr gives |
| AnalysisProps.FirstUnresolved | src/part18/spi/semanticAnalyzer.ts:178-184 | the first variable of a list that no scope defines; None exactly when all resolve |
| AnalysisProps.ReportConcat | src/part18/spi/semanticAnalyzer.ts:130-133 | checking two lists in turn reports the first list's failure, else the second's |
| Analysis.CheckExpr | src/part18/spi/semanticAnalyzer.ts:130-139 | operands are checked left to right (AnalysisProps.CheckExprReportsFirst: it passes exactly when every variable resolves, else ID_NOT_FOUND at the leftmost) |
| Analysis.CheckCall | src/part18/spi/semanticAnalyzer.ts:165-177 | an unknown or non-procedure name is the host TypeError; otherwise the count, then the arguments (AnalysisProps.CallChecksCountFirst) |
| Analysis.CheckStatement | src/part18/spi/semanticAnalyzer.ts:140-177 | a compound checks its children in order, an assignment its target then its right side, a call as CheckCall (AnalysisProps.AssignChecksTargetFirst) |
| Analysis.AnalyzeProgram | src/part18/spi/semanticAnalyzer.ts:112-123 | the block is analyzed with a new global scope on the chain (AnalysisProps.DuplicateIdProgram and AnalysisProps.IdNotFoundProgram give its results on the test programs) |
| AnalysisProps.CheckExprReportsFirst | src/part18/spi/semanticAnalyzer.ts:130-139 | an expression passes exactly when every variable it reads resolves; otherwise ID_NOT_FOUND at the leftmost one that does not |
| AnalysisProps.AssignChecksTargetFirst | src/part18/spi/semanticAnalyzer.ts:161-164 | an assignment checks its target before its right side |
| AnalysisProps.CheckArgsReportsFirst | src/part18/spi/semanticAnalyzer.ts:174-176 | the arguments are checked left to right |
| AnalysisProps.CallChecksCountFirst | src/part18/spi/semanticAnalyzer.ts:165-177 | a wrong argument count is WRONG_PARAMS_NUM at the call whatever the arguments; only a right count goes on to the arguments |
| AnalysisProps.DeclareVarDuplicates | src/part18/spi/semanticAnalyzer.ts:148-160 | a declaration fails exactly when the current scope has the name, with DUPLICATE_ID at it; an outer one is shadowed, and the new variable is typed by its type name's lookup |
| AnalysisProps.DeclaredProcedure | src/part18/spi/semanticAnalyzer.ts:185-209 | after a procedure declaration the current scope holds its symbol, with its body and one formal per parameter, in order and by name |
| AnalysisProps.DuplicateIdProgram | src/part17/__tests__/interpreter.test.ts:123-135 | the second declaration of a is DUPLICATE_ID at 5:14 (the tree is written out; LexingProps.DuplicateIdTokenPosition derives that token from the test's text) |
| AnalysisProps.IdNotFoundProgram | src/part17/__tests__/interpreter.test.ts:136-147 | the undeclared b is ID_NOT_FOUND at 6:21 (the tree is written out; LexingProps.IdNotFoundTokenPosition derives that token from the test's text) |
| Runtime.ActivationRecord.constructor | src/part17/spi/callStack.ts:37-42 | a new record stores its name, type and nesting level, and has no members |
| Runtime.ActivationRecord.Get | src/part17/spi/callStack.ts:43-45 | the value stored under a key; None exactly for a key never set |
| Runtime.ActivationRecord.Set | src/part17/spi/callStack.ts:46-48 | after a set the key holds the value, and every other key keeps its value |
| Runtime.CallStack.constructor | src/part17/spi/callStack.ts:3-5 | a new stack is empty |
| Runtime.CallStack.Peek | src/part17/spi/callStack.ts:12-14 | the top record; None exactly on an empty stack |
| Runtime.CallStack.Push | src/part17/spi/callStack.ts:6-8 | the record goes on top, and Peek yields it |
| Runtime.CallStack.Pop | src/part17/spi/callStack.ts:9-11 | returns the top record and leaves the ones below unchanged; an empty stack stays empty |
| Interpreting.ToNumber | src/part17/spi/interpreter.ts:78-79 | the prefix + turns undefined into NaN and keeps every number |
| Interpreting.Interpreter.constructor | src/part17/spi/interpreter.ts:24-28 | the interpreter holds the tree and a new, empty call stack |
| Interpreting.Interpreter.Interpret | src/part17/spi/interpreter.ts:29-33 | without a tree it returns the empty text; otherwise the program's frame ends with the members RunProgram gives, and the stack is as before |
| Interpreting.Interpreter.VisitProgram | src/part17/spi/interpreter.ts:39-55 | one frame named after the program, of type PROGRAM at level 1, is pushed, runs the block, and is popped again |
| Interpreting.Interpreter.VisitBlock | src/part17/spi/interpreter.ts:56-61 | the declarations change nothing; the top frame ends as ExecBlock says |
| Interpreting.Interpreter.VisitStatement | src/part17/spi/interpreter.ts:34-38 | the loop over children leaves the top frame as Exec says |
| Interpreting.Interpreter.VisitAssign | src/part17/spi/interpreter.ts:84-89 | the target's name gets the right side's value in the top frame; every other member is kept |
| Interpreting.Divide | src/part17/spi/interpreter.ts:72-73 | the host's /: a nonzero number over zero is an infinity, zero over zero NaN (InterpretingProps.OperatorsAreExact for nonzero divisors) |
| Interpreting.Floor | src/part17/spi/interpreter.ts:70-71 | Math.floor on a finite number, other values kept (InterpretingProps.OperatorsAreExact: DIV is the floor of the exact quotient) |
| Interpreting.Binary | src/part17/spi/interpreter.ts:62-75 | the five binary operators (InterpretingProps.OperatorsAreExact and InterpretingProps.OperatorsAbsorb) |
| Interpreting.Unary | src/part17/spi/interpreter.ts:76-83 | the prefix + and - (InterpretingProps.OperatorsAreExact and InterpretingProps.OperatorsAbsorb) |
| Interpreting.Eval | src/part17/spi/interpreter.ts:62-101 | the value of an expression over the top frame (InterpretingProps.EvalAgreesWithExact and InterpretingProps.UnsetPoisons) |
| Interpreting.Exec | src/part17/spi/interpreter.ts:34-38 | what a statement does to the top frame (InterpretingProps.ExecAssignsTargets) |
| Interpreting.RunProgram | src/part17/spi/interpreter.ts:39-61 | the members the program's frame ends with (InterpretingProps.TestProgramRuns; Interpreting.Interpreter.Interpret is proved to leave them) |
| InterpretingProps.OperatorsAreExact | src/part17/spi/interpreter.ts:62-83 | on numbers, +, -, *, / and DIV compute exact arithmetic wherever it has an answer |
| InterpretingProps.EvalAgreesWithExact | src/part17/spi/interpreter.ts:62-101 | wherever exact arithmetic gives a value for an expression, evaluation gives that number |
| InterpretingProps.OperatorsAbsorb | src/part17/spi/interpreter.ts:62-83 | every operator yields NaN from an operand that is undefined or NaN |
| InterpretingProps.UnsetPoisons | src/part17/spi/interpreter.ts:90-95 | an expression that reads a variable with no numeric value is itself undefined or NaN |
| InterpretingProps.ExecAssignsTargets | src/part17/spi/interpreter.ts:84-89 | after a statement the frame holds the names it held plus exactly those the statement assigns, and the others keep their values |
| InterpretingProps.ExecChildrenAssignTargets | src/part17/spi/interpreter.ts:34-38 | the same for the children of a compound statement, run in order |
| InterpretingProps.ProductBindsTighter | src/part17/__tests__/interpreter.test.ts:181 | 2 + 7 * 4 parses with the product as right operand, and is 30 |
| InterpretingProps.QuotientBindsTighter | src/part17/__tests__/interpreter.test.ts:182 | 7 - 8 / 4 parses with the quotient as right operand, and is 5 |
| InterpretingProps.SumsFoldLeft | src/part17/__tests__/interpreter.test.ts:183 | 14 + 2 * 3 - 6 / 2 folds to the left, and is 17 |
| InterpretingProps.ParenthesesGroup | src/part17/__tests__/interpreter.test.ts:184 | 7 + 3 * (10 / (12 / (3 + 1) - 1)) parses with no node for the parentheses, and is 22 |
| InterpretingProps.SignsNest | src/part17/__tests__/interpreter.test.ts:189 | 5 - - - + - 3 parses into nested signs, and is 8 |
| InterpretingProps.RealOperand | src/part17/__tests__/interpreter.test.ts:210 | 2.14 + 7 * 4 is 30.14 |
| InterpretingProps.TestProgramRuns | src/part17/__tests__/interpreter.test.ts:290-324 | the test program's frame ends with exactly four members: number = 2, a = 2, b = 25 and y = 20 / 7 + 3.14 |

## Left out

- Logging and the `toString` dumps of scopes, records and call stacks: they only write output.
- The name-based dispatch `visit${constructor.name}` is a `match` over the tree datatypes. The "No visit method" error cannot arise on a well-typed tree.
- `Error.captureStackTrace` and other stack-trace handling belong to the host runtime.
- IEEE floating point. Numbers are exact: the lexer keeps a decimal mantissa and scale, and the interpreter computes on reals. Rounding (20 / 7 + 3.14 is an exact real here), overflow to infinity and negative zero are not modelled. So 1 / -0 is +Infinity here, where the host gives -Infinity.
- Lexing.CharAt and Lexing.LineCol: the text is a sequence of Unicode scalar values, while the source indexes UTF-16 code units. A character outside the Basic Multilingual Plane is one position and one column here and two in the source. A LexerError at such a character shows the whole character here, where the source shows its lone high surrogate.
- Tokens.ValueString prints a number as a plain decimal. The host's number-to-string switches to exponent form below 1e-6 and from 1e21 on, so 0.0000001 prints as 1e-7 there. The model also keeps every digit of a literal, where the host rounds it to the nearest double first. Error messages that print such a token differ in the same way.
- Interpreting.Eval: a number node whose token value is not numeric evaluates to undefined. The lexer never builds one.
- Interpreting.Interpreter.VisitAssign requires a frame on the stack. The source would fail with a host TypeError without one, which cannot happen under VisitProgram.
- Procedure execution: the interpreter makes procedure declarations and calls no-ops, and so does the model.
- The test double `TestCallStack` never pops, so the tests can read the program's frame afterwards. Here `Interpret` passes back that frame as a ghost result instead.
- Lexing.Lexer.constructor requires every comment to be closed. `skipComment` never ends on an unterminated comment, so the lexer is modelled only on texts where it ends. This is stricter than needed when an earlier error would stop the lexer first.
- Parsing.NewParser performs the first `getNextToken` of the source's constructor. A lexer error there is its error result.
- `node.procSymbol` is not stored on the call node; nothing later reads it.
- WRONG_PARAMS_NUM is missing from the error-code enum of src/part15/spi/error.ts. It is added to the model's `ErrorCode`, and its text "Wrong number of arguments" is an assumption.
- Calling a name that no scope defines makes the source read `.formalParams` of undefined; calling a variable makes it read `.length` of undefined. The model reports a host TypeError without a code (`Analysis.HostTypeError`). Its message text is V8's "Cannot read properties of undefined (reading '…')"; other JavaScript engines word it differently.
- After a semantic error the scope chain is left as it was when the error was raised; the model says nothing about it.
- Analysis.SemanticAnalyzer.VisitProgram: on failure the contract gives only the error, not the chain left behind.
- The test programs of the semantic analyzer and the interpreter are given as written-out trees, not parsed from their texts, because running the lexer and parser over a whole test text in one proof is beyond what the solver can do in reasonable time. For the semantic tests, the tokens that the errors name are derived from the texts by LexingProps.DuplicateIdTokenPosition and LexingProps.IdNotFoundTokenPosition.
- LexingProps.SpuriousParenthesisPosition assumes that no comment is left open after the '(' rather than proving it for that text. It gives the token only under that premise.
- Text.PadLeft, Tokens.Pow10 and the other small helpers have contracts that serve the proofs only.

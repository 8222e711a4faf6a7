/** The parser: a cursor over the lexer that holds the current token and builds the tree
    by recursive descent. Each method is proved to return what its production in the
    module Grammar returns on the token stream the lexer produces, and to leave the
    cursor on the first token the production did not consume. */
module Parsing {
  import opened Wrappers
  import opened Tokens
  import opened Errors
  import Ast
  import opened Lexing
  import opened TokenStreams
  import opened Grammar

  class Parser {
    const lexer: Lexer
    var currentToken: Token
    /** What the lexer yields from the start of its text, and the index of the current
        token in it. */
    ghost const stream: TokenStream
    ghost var index: nat

    ghost predicate Valid()
      reads this, lexer
    {
      && lexer.Valid()
      && ClosedFrom(lexer.text, 0)
      && stream == TokenizeFrom(lexer.text, 0)
      && stream.Valid()
      && index < |stream.items|
      && currentToken == stream.items[index].token
      && lexer.pos == stream.items[index].end
    }

    /** A method returned what its production returns: on success the node, with the
        cursor on the production's next token; on failure the same error. */
    ghost predicate Yields<T>(r: Result<T, Error>, spec: Result<Parsed<T>, Error>)
      reads this, lexer
    {
      match spec
      case Ok(p) => r == Ok(p.value) && index == p.next && Valid()
      case Err(e) => r == Err(e)
    }

    /** The parser over a lexer that has returned the first token of its text. */
    constructor(lexer: Lexer, first: Token)
      requires lexer.Valid() && ClosedFrom(lexer.text, 0)
      requires |TokenizeFrom(lexer.text, 0).items| > 0
      requires first == TokenizeFrom(lexer.text, 0).items[0].token
      requires lexer.pos == TokenizeFrom(lexer.text, 0).items[0].end
      ensures Valid() && index == 0 && this.lexer == lexer
    {
      this.lexer := lexer;
      currentToken := first;
      stream := TokenizeFrom(lexer.text, 0);
      index := 0;
    }

    /** Consumes the current token if it has kind k, reading the next one from the
        lexer; otherwise raises the unexpected-token error. */
    method Eat(k: TokenKind) returns (r: Outcome<Error>)
      requires Valid()
      modifies this, lexer
      ensures old(Grammar.Eat(stream, index, k)).Ok? ==> r.Pass? && Valid() && index == old(Grammar.Eat(stream, index, k)).value
      ensures old(Grammar.Eat(stream, index, k)).Err? ==> r == Fail(old(Grammar.Eat(stream, index, k)).error)
    {
      if currentToken.kind != k {
        return Fail(UnexpectedAt(currentToken));
      }
      TokenizeNext(lexer.text, 0, index);
      var next := lexer.GetNextToken();
      match next
      case Err(e) =>
        return Fail(e);
      case Ok(t) =>
        currentToken := t;
        if index + 1 < |stream.items| {
          index := index + 1;
        }
        return Pass;
    }

    /** variable : ID */
    method ParseVariable() returns (r: Result<Ast.Var, Error>)
      requires Valid()
      modifies this, lexer
      ensures Yields(r, old(VariableAt(stream, index)))
    {
      var node := Ast.Var(currentToken);
      :- Eat(Id);
      return Ok(node);
    }

    /** expr : term ((PLUS | MINUS) term)* */
    method ParseExpr() returns (r: Result<Ast.Expr, Error>)
      requires Valid()
      modifies this, lexer
      ensures Yields(r, old(ExprAt(stream, index)))
      decreases |stream.items| - index, 2
    {
      ghost var start := index;
      var node :- ParseTerm();
      while IsAdditive(currentToken.kind)
        invariant Valid() && start <= index
        invariant ExprAt(stream, start) == ExprTail(stream, index, node)
        decreases |stream.items| - index
      {
        var token := currentToken;
        :- Eat(token.kind);
        var right :- ParseTerm();
        node := Ast.BinOp(node, token, right);
      }
      return Ok(node);
    }

    /** term : factor ((MUL | INTEGER_DIV | FLOAT_DIV) factor)* */
    method ParseTerm() returns (r: Result<Ast.Expr, Error>)
      requires Valid()
      modifies this, lexer
      ensures Yields(r, old(TermAt(stream, index)))
      decreases |stream.items| - index, 1
    {
      ghost var start := index;
      var node :- ParseFactor();
      while IsMultiplicative(currentToken.kind)
        invariant Valid() && start <= index
        invariant TermAt(stream, start) == TermTail(stream, index, node)
        decreases |stream.items| - index
      {
        var token := currentToken;
        :- Eat(token.kind);
        var right :- ParseFactor();
        node := Ast.BinOp(node, token, right);
      }
      return Ok(node);
    }

    /** factor : (PLUS | MINUS) factor | INTEGER_CONST | REAL_CONST | LPAREN expr RPAREN | variable */
    method ParseFactor() returns (r: Result<Ast.Expr, Error>)
      requires Valid()
      modifies this, lexer
      ensures Yields(r, old(FactorAt(stream, index)))
      decreases |stream.items| - index, 0
    {
      var token := currentToken;
      if IsAdditive(token.kind) {
        :- Eat(token.kind);
        var operand :- ParseFactor();
        return Ok(Ast.UnaryOp(token, operand));
      } else if token.kind == LParen {
        :- Eat(LParen);
        var node :- ParseExpr();
        :- Eat(RParen);
        return Ok(node);
      } else if token.kind == IntegerConst || token.kind == RealConst {
        :- Eat(token.kind);
        return Ok(Ast.Num(token));
      } else {
        var node :- ParseVariable();
        return Ok(Ast.Variable(node));
      }
    }

    /** compound_statement : BEGIN statement_list END */
    method ParseCompoundStatement() returns (r: Result<Ast.Statement, Error>)
      requires Valid()
      modifies this, lexer
      ensures Yields(r, old(CompoundStatementAt(stream, index)))
      decreases |stream.items| - index, 0
    {
      var nodes: seq<Ast.Statement>;
      :- Eat(BeginKw);
      nodes :- ParseStatementList();
      :- Eat(EndKw);
      return Ok(Ast.Compound(nodes));
    }

    /** statement_list : statement (SEMI statement)*; an ID after the list is an error. */
    method ParseStatementList() returns (r: Result<seq<Ast.Statement>, Error>)
      requires Valid()
      modifies this, lexer
      ensures Yields(r, old(StatementListAt(stream, index)))
      decreases |stream.items| - index, 2
    {
      ghost var start := index;
      var node :- ParseStatement();
      var result := [node];
      ghost var first := index;
      while currentToken.kind == Semi
        invariant Valid() && start <= index
        invariant StatementTail(stream, first, [node]) == StatementTail(stream, index, result)
        decreases |stream.items| - index
      {
        :- Eat(Semi);
        var next :- ParseStatement();
        result := result + [next];
      }
      if currentToken.kind == Id {
        return Err(UnexpectedAt(currentToken));
      }
      return Ok(result);
    }

    /** statement : compound_statement | proccall_statement | assignment_statement | empty.
        The lexer's current character, just past the ID, tells a call from an assignment. */
    method ParseStatement() returns (r: Result<Ast.Statement, Error>)
      requires Valid()
      modifies this, lexer
      ensures Yields(r, old(StatementAt(stream, index)))
      decreases |stream.items| - index, 1
    {
      TokenizeNext(lexer.text, 0, index);
      if currentToken.kind == BeginKw {
        r := ParseCompoundStatement();
      } else if currentToken.kind == Id && lexer.currentChar == Some('(') {
        r := ParseProcCall();
      } else if currentToken.kind == Id {
        r := ParseAssignment();
      } else {
        r := Ok(Ast.NoOp);
      }
    }

    /** assignment_statement : variable ASSIGN expr */
    method ParseAssignment() returns (r: Result<Ast.Statement, Error>)
      requires Valid()
      modifies this, lexer
      ensures Yields(r, old(AssignmentAt(stream, index)))
    {
      var left :- ParseVariable();
      var token := currentToken;
      :- Eat(AssignOp);
      var right :- ParseExpr();
      return Ok(Ast.Assign(left, token, right));
    }

    /** proccall_statement : ID LPAREN (expr (COMMA expr)*)? RPAREN */
    method ParseProcCall() returns (r: Result<Ast.Statement, Error>)
      requires Valid()
      modifies this, lexer
      ensures Yields(r, old(ProcCallAt(stream, index)))
    {
      var token := currentToken;
      var procName := NameOf(token);
      :- Eat(Id);
      :- Eat(LParen);
      ghost var open := index;
      var actualParams := [];
      if currentToken.kind != RParen {
        var node :- ParseExpr();
        actualParams := [node];
      }
      ghost var firstEnd := index;
      ghost var firstParams := actualParams;
      assert FirstArgument(stream, open) == Ok(Parsed(actualParams, index));
      while currentToken.kind == Comma
        invariant Valid() && firstEnd <= index
        invariant ArgumentTail(stream, firstEnd, firstParams) == ArgumentTail(stream, index, actualParams)
        decreases |stream.items| - index
      {
        :- Eat(Comma);
        var node :- ParseExpr();
        actualParams := actualParams + [node];
      }
      :- Eat(RParen);
      return Ok(Ast.ProcedureCall(procName, actualParams, token));
    }

    /** type_spec : INTEGER | REAL */
    method ParseTypeSpec() returns (r: Result<Ast.Type, Error>)
      requires Valid()
      modifies this, lexer
      ensures Yields(r, old(TypeSpecAt(stream, index)))
    {
      var token := currentToken;
      if token.kind == IntegerKw {
        :- Eat(IntegerKw);
      } else {
        :- Eat(RealKw);
      }
      return Ok(Ast.Type(token));
    }

    /** ID (COMMA ID)* COLON type_spec: the names in order and their type. */
    method ParseTypedNames() returns (r: Result<TypedNames, Error>)
      requires Valid()
      modifies this, lexer
      ensures Yields(r, old(TypedNamesAt(stream, index)))
    {
      var names := [Ast.Var(currentToken)];
      ghost var firstName := names;
      :- Eat(Id);
      ghost var first := index;
      while currentToken.kind == Comma
        invariant Valid() && first <= index
        invariant IdTail(stream, first, firstName) == IdTail(stream, index, names)
        decreases |stream.items| - index
      {
        :- Eat(Comma);
        names := names + [Ast.Var(currentToken)];
        :- Eat(Id);
      }
      :- Eat(Colon);
      var typeNode :- ParseTypeSpec();
      return Ok(TypedNames(names, typeNode));
    }

    /** variable_declaration : ID (COMMA ID)* COLON type_spec, one VarDecl per name. */
    method ParseVariableDeclaration() returns (r: Result<seq<Ast.Declaration>, Error>)
      requires Valid()
      modifies this, lexer
      ensures Yields(r, old(VariableDeclarationAt(stream, index)))
    {
      var group :- ParseTypedNames();
      return Ok(VarDecls(group));
    }

    /** formal_parameters : ID (COMMA ID)* COLON type_spec, one Param per name. */
    method ParseFormalParameters() returns (r: Result<seq<Ast.Param>, Error>)
      requires Valid()
      modifies this, lexer
      ensures Yields(r, old(FormalParametersAt(stream, index)))
    {
      var group :- ParseTypedNames();
      return Ok(Params(group));
    }

    /** formal_parameter_list : formal_parameters (SEMI formal_parameters)*, or nothing
        when the current token is not an ID. */
    method ParseFormalParameterList() returns (r: Result<seq<Ast.Param>, Error>)
      requires Valid()
      modifies this, lexer
      ensures Yields(r, old(FormalParameterListAt(stream, index)))
    {
      if currentToken.kind != Id {
        return Ok([]);
      }
      var paramNodes :- ParseFormalParameters();
      ghost var first := index;
      ghost var firstNodes := paramNodes;
      while currentToken.kind == Semi
        invariant Valid() && first <= index
        invariant ParamGroups(stream, first, firstNodes) == ParamGroups(stream, index, paramNodes)
        decreases |stream.items| - index
      {
        :- Eat(Semi);
        var group :- ParseFormalParameters();
        paramNodes := paramNodes + group;
      }
      return Ok(paramNodes);
    }

    /** procedure_declaration : PROCEDURE ID (LPAREN formal_parameter_list RPAREN)? SEMI block SEMI */
    method ParseProcedureDeclaration() returns (r: Result<Ast.Declaration, Error>)
      requires Valid()
      modifies this, lexer
      ensures Yields(r, old(ProcedureDeclarationAt(stream, index)))
      decreases |stream.items| - index, 0
    {
      var params: seq<Ast.Param> := [];
      :- Eat(ProcedureKw);
      var procName := NameOf(currentToken);
      :- Eat(Id);
      ghost var afterName := index;
      if currentToken.kind == LParen {
        :- Eat(LParen);
        params :- ParseFormalParameterList();
        :- Eat(RParen);
      }
      assert ParameterPartAt(stream, afterName) == Ok(Parsed(params, index));
      :- Eat(Semi);
      var blockNode :- ParseBlock();
      var procDecl := Ast.ProcedureDecl(procName, blockNode, params);
      :- Eat(Semi);
      return Ok(procDecl);
    }

    /** declarations : (VAR (variable_declaration SEMI)*)? procedure_declaration* */
    method ParseDeclarations() returns (r: Result<seq<Ast.Declaration>, Error>)
      requires Valid()
      modifies this, lexer
      ensures Yields(r, old(DeclarationsAt(stream, index)))
      decreases |stream.items| - index, 1
    {
      ghost var start := index;
      var declarations := [];
      if currentToken.kind == VarKw {
        :- Eat(VarKw);
        while currentToken.kind == Id
          invariant Valid() && start < index
          invariant VarBlockAt(stream, start) == VarSection(stream, index, declarations)
          decreases |stream.items| - index
        {
          var varDecl :- ParseVariableDeclaration();
          declarations := declarations + varDecl;
          :- Eat(Semi);
        }
      }
      assert VarBlockAt(stream, start) == Ok(Parsed(declarations, index));
      while currentToken.kind == ProcedureKw
        invariant Valid() && start <= index
        invariant DeclarationsAt(stream, start) == ProcedureDecls(stream, index, declarations)
        decreases |stream.items| - index
      {
        var procDecl :- ParseProcedureDeclaration();
        declarations := declarations + [procDecl];
      }
      return Ok(declarations);
    }

    /** block : declarations compound_statement */
    method ParseBlock() returns (r: Result<Ast.Block, Error>)
      requires Valid()
      modifies this, lexer
      ensures Yields(r, old(BlockAt(stream, index)))
      decreases |stream.items| - index, 2
    {
      var declarationNodes :- ParseDeclarations();
      var compoundStatementNode :- ParseCompoundStatement();
      return Ok(Ast.Block(declarationNodes, compoundStatementNode));
    }

    /** program : PROGRAM variable SEMI block DOT */
    method ParseProgram() returns (r: Result<Ast.Program, Error>)
      requires Valid()
      modifies this, lexer
      ensures Yields(r, old(ProgramAt(stream, index)))
    {
      var varNode: Ast.Var;
      :- Eat(ProgramKw);
      varNode :- ParseVariable();
      var programName := varNode.Name();
      :- Eat(Semi);
      var blockNode :- ParseBlock();
      var programNode := Ast.Program(programName, blockNode);
      :- Eat(Dot);
      return Ok(programNode);
    }

    /** parse: the program, which must be followed by EOF. */
    method Parse() returns (r: Result<Ast.Program, Error>)
      requires Valid() && index == 0
      modifies this, lexer
      ensures r == Grammar.Parse(stream)
    {
      var tree :- ParseProgram();
      if currentToken.kind != Eof {
        return Err(UnexpectedAt(currentToken));
      }
      return Ok(tree);
    }
  }

  /** The constructor of the source reads the first token; a lexer error there is
      returned instead of a parser. */
  method NewParser(lexer: Lexer) returns (r: Result<Parser, Error>)
    requires lexer.Valid() && lexer.pos == 0
    modifies lexer
    ensures r.Ok? ==> fresh(r.value) && r.value.Valid() && r.value.index == 0 && r.value.lexer == lexer
    ensures r.Err? ==> TokenizeFrom(lexer.text, 0) == TokenStream([], Some(r.error))
  {
    TokenizeFirst(lexer.text, 0);
    var first := lexer.GetNextToken();
    match first
    case Err(e) =>
      return Err(e);
    case Ok(t) =>
      var parser := new Parser(lexer, t);
      return Ok(parser);
  }

  /** Lexes and parses a whole text: the result is the grammar's on the lexer's tokens. */
  method ParseText(text: string) returns (r: Result<Ast.Program, Error>)
    requires ClosedFrom(text, 0)
    ensures r == ParseStream(TokenizeFrom(text, 0))
  {
    var lexer := new Lexer(text);
    var parser :- NewParser(lexer);
    r := parser.Parse();
  }
}

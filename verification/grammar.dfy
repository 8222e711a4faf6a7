/** The recursive-descent grammar as functions over a token stream: each production reads
    from index i and returns the node it builds and the index of the first token it did
    not consume, or the error the parser raises. A method of the class Parser is proved
    to return what its production here returns. */
module Grammar {
  import opened Wrappers
  import opened Tokens
  import opened Errors
  import opened Ast
  import opened TokenStreams

  /** A node and the index of the next unconsumed token. */
  datatype Parsed<+T> = Parsed(value: T, next: nat)

  /** The production consumed no token past the end of the stream. */
  predicate Advances<T>(ts: TokenStream, i: nat, r: Result<Parsed<T>, Error>) {
    r.Ok? ==> i <= r.value.next < |ts.items|
  }

  /** ... and consumed at least one token. */
  predicate StrictlyAdvances<T>(ts: TokenStream, i: nat, r: Result<Parsed<T>, Error>) {
    r.Ok? ==> i < r.value.next < |ts.items|
  }

  function Current(ts: TokenStream, i: nat): Token
    requires i < |ts.items|
  {
    ts.items[i].token
  }

  /** The parser's error: code UNEXPECTED_TOKEN, the current token, and the message
      "Unexpected token -> <token>". */
  function UnexpectedAt(t: Token): (e: Error)
    ensures e.name == ParserError && e.errorCode == Some(UnexpectedToken) && e.token == Some(t)
    ensures e.message == CodedMessage(UnexpectedToken, t)
  {
    NewParserError(Some(UnexpectedToken), Some(t), CodedMessage(UnexpectedToken, t))
  }

  predicate IsAdditive(k: TokenKind) {
    k == Plus || k == Minus
  }

  predicate IsMultiplicative(k: TokenKind) {
    k == Mul || k == IntegerDiv || k == FloatDiv
  }

  // ---------------------------------------------------------------------------
  // eat

  /** Consumes the current token when it has kind k; the next call of the lexer may
      still raise a lexer error. Any other token is an unexpected-token error. */
  function Eat(ts: TokenStream, i: nat, k: TokenKind): (r: Result<nat, Error>)
    requires ts.Valid() && i < |ts.items|
    ensures r.Ok? <==> Current(ts, i).kind == k && (i + 1 < |ts.items| || ts.failure.None?)
    ensures r.Ok? ==> r.value < |ts.items|
    ensures r.Ok? && k != Eof ==> r.value == i + 1
    ensures r.Ok? && k == Eof ==> r.value == i
    ensures Current(ts, i).kind != k ==> r == Err(UnexpectedAt(Current(ts, i)))
    ensures Current(ts, i).kind == k && r.Err? ==> ts.failure.Some? && r.error == ts.failure.value
  {
    var token := Current(ts, i);
    if token.kind != k then Err(UnexpectedAt(token))
    else if i + 1 < |ts.items| then Ok(i + 1)
    else if ts.failure.Some? then Err(ts.failure.value)
    else Ok(i)
  }

  /** variable : ID */
  function VariableAt(ts: TokenStream, i: nat): (r: Result<Parsed<Var>, Error>)
    requires ts.Valid() && i < |ts.items|
    ensures r.Ok? ==> Current(ts, i).kind == Id && r.value == Parsed(Var(Current(ts, i)), i + 1) && i + 1 < |ts.items|
    ensures Current(ts, i).kind != Id ==> r == Err(UnexpectedAt(Current(ts, i)))
  {
    var node := Var(Current(ts, i));
    var j :- Eat(ts, i, Id);
    Ok(Parsed(node, j))
  }

  // ---------------------------------------------------------------------------
  // Expressions

  /** expr : term ((PLUS | MINUS) term)* */
  function ExprAt(ts: TokenStream, i: nat): (r: Result<Parsed<Expr>, Error>)
    requires ts.Valid() && i < |ts.items|
    ensures Advances(ts, i, r)
    decreases |ts.items| - i, 4
  {
    var left :- TermAt(ts, i);
    ExprTail(ts, left.next, left.value)
  }

  /** The loop of expr: each operator folds the tree so far in as its left operand. */
  function ExprTail(ts: TokenStream, i: nat, acc: Expr): (r: Result<Parsed<Expr>, Error>)
    requires ts.Valid() && i < |ts.items|
    ensures Advances(ts, i, r)
    ensures r.Ok? ==> !IsAdditive(Current(ts, r.value.next).kind)
    decreases |ts.items| - i, 3
  {
    var op := Current(ts, i);
    if IsAdditive(op.kind) then
      var j :- Eat(ts, i, op.kind);
      var right :- TermAt(ts, j);
      ExprTail(ts, right.next, BinOp(acc, op, right.value))
    else
      Ok(Parsed(acc, i))
  }

  /** term : factor ((MUL | INTEGER_DIV | FLOAT_DIV) factor)* */
  function TermAt(ts: TokenStream, i: nat): (r: Result<Parsed<Expr>, Error>)
    requires ts.Valid() && i < |ts.items|
    ensures Advances(ts, i, r)
    decreases |ts.items| - i, 2
  {
    var left :- FactorAt(ts, i);
    TermTail(ts, left.next, left.value)
  }

  function TermTail(ts: TokenStream, i: nat, acc: Expr): (r: Result<Parsed<Expr>, Error>)
    requires ts.Valid() && i < |ts.items|
    ensures Advances(ts, i, r)
    ensures r.Ok? ==> !IsMultiplicative(Current(ts, r.value.next).kind)
    decreases |ts.items| - i, 1
  {
    var op := Current(ts, i);
    if IsMultiplicative(op.kind) then
      var j :- Eat(ts, i, op.kind);
      var right :- FactorAt(ts, j);
      TermTail(ts, right.next, BinOp(acc, op, right.value))
    else
      Ok(Parsed(acc, i))
  }

  /** factor : (PLUS | MINUS) factor | INTEGER_CONST | REAL_CONST | LPAREN expr RPAREN | variable */
  function FactorAt(ts: TokenStream, i: nat): (r: Result<Parsed<Expr>, Error>)
    requires ts.Valid() && i < |ts.items|
    ensures StrictlyAdvances(ts, i, r)
    decreases |ts.items| - i, 0
  {
    var token := Current(ts, i);
    if IsAdditive(token.kind) then
      var j :- Eat(ts, i, token.kind);
      var operand :- FactorAt(ts, j);
      Ok(Parsed(UnaryOp(token, operand.value), operand.next))
    else if token.kind == LParen then
      var j :- Eat(ts, i, LParen);
      var inner :- ExprAt(ts, j);
      var k :- Eat(ts, inner.next, RParen);
      Ok(Parsed(inner.value, k))
    else if token.kind == IntegerConst || token.kind == RealConst then
      var j :- Eat(ts, i, token.kind);
      Ok(Parsed(Num(token), j))
    else
      var v :- VariableAt(ts, i);
      Ok(Parsed(Variable(v.value), v.next))
  }

  // ---------------------------------------------------------------------------
  // Statements

  /** compound_statement : BEGIN statement_list END */
  function CompoundStatementAt(ts: TokenStream, i: nat): (r: Result<Parsed<Statement>, Error>)
    requires ts.Valid() && i < |ts.items|
    ensures StrictlyAdvances(ts, i, r)
    ensures r.Ok? ==> Current(ts, i).kind == BeginKw && r.value.value.Compound? && |r.value.value.children| > 0
    ensures r.Ok? ==> Current(ts, r.value.next - 1).kind == EndKw
    decreases |ts.items| - i, 0
  {
    var j :- Eat(ts, i, BeginKw);
    var nodes :- StatementListAt(ts, j);
    var k :- Eat(ts, nodes.next, EndKw);
    Ok(Parsed(Compound(nodes.value), k))
  }

  /** statement_list : statement (SEMI statement)*, which may not be followed by an ID. */
  function StatementListAt(ts: TokenStream, i: nat): (r: Result<Parsed<seq<Statement>>, Error>)
    requires ts.Valid() && i < |ts.items|
    ensures Advances(ts, i, r)
    ensures r.Ok? ==> |r.value.value| > 0
    ensures r.Ok? ==> Current(ts, r.value.next).kind != Id && Current(ts, r.value.next).kind != Semi
    decreases |ts.items| - i, 3
  {
    var first :- StatementAt(ts, i);
    var all :- StatementTail(ts, first.next, [first.value]);
    var after := Current(ts, all.next);
    if after.kind == Id then Err(UnexpectedAt(after)) else Ok(all)
  }

  function StatementTail(ts: TokenStream, i: nat, acc: seq<Statement>): (r: Result<Parsed<seq<Statement>>, Error>)
    requires ts.Valid() && i < |ts.items|
    ensures Advances(ts, i, r)
    ensures r.Ok? ==> |r.value.value| >= |acc| && r.value.value[..|acc|] == acc
    ensures r.Ok? ==> Current(ts, r.value.next).kind != Semi
    decreases |ts.items| - i, 2
  {
    if Current(ts, i).kind == Semi then
      var j :- Eat(ts, i, Semi);
      var s :- StatementAt(ts, j);
      var r := StatementTail(ts, s.next, acc + [s.value]);
      assert r.Ok? ==> r.value.value[..|acc|] == (acc + [s.value])[..|acc|] by {
        if r.Ok? { assert r.value.value[..|acc|] == r.value.value[..|acc| + 1][..|acc|]; }
      }
      r
    else
      Ok(Parsed(acc, i))
  }

  /** statement : compound_statement | proccall_statement | assignment_statement | empty.
      An ID starts a procedure call exactly when the character right after it is '('. */
  function StatementAt(ts: TokenStream, i: nat): (r: Result<Parsed<Statement>, Error>)
    requires ts.Valid() && i < |ts.items|
    ensures Advances(ts, i, r)
    ensures r.Ok? && r.value.value.ProcedureCall? ==> Current(ts, i).kind == Id && ts.items[i].follow == Some('(')
    ensures r.Ok? && r.value.value.Assign? ==> Current(ts, i).kind == Id && ts.items[i].follow != Some('(')
    ensures r.Ok? && r.value.value.NoOp? ==> r.value.next == i
    ensures Current(ts, i).kind !in {BeginKw, Id} ==> r == Ok(Parsed(NoOp, i))
    decreases |ts.items| - i, 1
  {
    var item := ts.items[i];
    if item.token.kind == BeginKw then CompoundStatementAt(ts, i)
    else if item.token.kind == Id && item.follow == Some('(') then ProcCallAt(ts, i)
    else if item.token.kind == Id then AssignmentAt(ts, i)
    else Ok(Parsed(NoOp, i))
  }

  /** assignment_statement : variable ASSIGN expr */
  function AssignmentAt(ts: TokenStream, i: nat): (r: Result<Parsed<Statement>, Error>)
    requires ts.Valid() && i < |ts.items|
    ensures StrictlyAdvances(ts, i, r)
    ensures r.Ok? ==> r.value.value.Assign? && r.value.value.left == Var(Current(ts, i))
    ensures r.Ok? ==> r.value.value.op == Current(ts, i + 1) && Current(ts, i + 1).kind == AssignOp
  {
    var left :- VariableAt(ts, i);
    var op := Current(ts, left.next);
    var j :- Eat(ts, left.next, AssignOp);
    var right :- ExprAt(ts, j);
    Ok(Parsed(Assign(left.value, op, right.value), right.next))
  }

  /** proccall_statement : ID LPAREN (expr (COMMA expr)*)? RPAREN */
  function ProcCallAt(ts: TokenStream, i: nat): (r: Result<Parsed<Statement>, Error>)
    requires ts.Valid() && i < |ts.items|
    ensures StrictlyAdvances(ts, i, r)
    ensures r.Ok? ==> r.value.value.ProcedureCall? && r.value.value.procName == NameOf(Current(ts, i)) && r.value.value.token == Current(ts, i)
    ensures r.Ok? && i + 2 < |ts.items| && Current(ts, i + 2).kind == RParen ==> r.value.value.actualParams == []
  {
    var token := Current(ts, i);
    var j :- Eat(ts, i, Id);
    var k :- Eat(ts, j, LParen);
    var first :- FirstArgument(ts, k);
    var args :- ArgumentTail(ts, first.next, first.value);
    var m :- Eat(ts, args.next, RParen);
    Ok(Parsed(ProcedureCall(NameOf(token), args.value, token), m))
  }

  /** The optional first argument: present unless the current token is RPAREN. */
  function FirstArgument(ts: TokenStream, i: nat): (r: Result<Parsed<seq<Expr>>, Error>)
    requires ts.Valid() && i < |ts.items|
    ensures Advances(ts, i, r)
    ensures r.Ok? ==> |r.value.value| <= 1
    ensures Current(ts, i).kind == RParen ==> r == Ok(Parsed([], i))
  {
    if Current(ts, i).kind != RParen then
      var e :- ExprAt(ts, i);
      Ok(Parsed([e.value], e.next))
    else
      Ok(Parsed([], i))
  }

  function ArgumentTail(ts: TokenStream, i: nat, acc: seq<Expr>): (r: Result<Parsed<seq<Expr>>, Error>)
    requires ts.Valid() && i < |ts.items|
    ensures Advances(ts, i, r)
    ensures r.Ok? ==> |r.value.value| >= |acc| && r.value.value[..|acc|] == acc
    ensures r.Ok? ==> Current(ts, r.value.next).kind != Comma
    decreases |ts.items| - i
  {
    if Current(ts, i).kind == Comma then
      var j :- Eat(ts, i, Comma);
      var e :- ExprAt(ts, j);
      var r := ArgumentTail(ts, e.next, acc + [e.value]);
      assert r.Ok? ==> r.value.value[..|acc|] == (acc + [e.value])[..|acc|] by {
        if r.Ok? { assert r.value.value[..|acc|] == r.value.value[..|acc| + 1][..|acc|]; }
      }
      r
    else
      Ok(Parsed(acc, i))
  }

  // ---------------------------------------------------------------------------
  // Declarations

  /** type_spec : INTEGER | REAL */
  function TypeSpecAt(ts: TokenStream, i: nat): (r: Result<Parsed<Type>, Error>)
    requires ts.Valid() && i < |ts.items|
    ensures r.Ok? ==> Current(ts, i).kind in {IntegerKw, RealKw} && r.value == Parsed(Type(Current(ts, i)), i + 1)
    ensures r.Ok? ==> i + 1 < |ts.items|
    ensures Current(ts, i).kind !in {IntegerKw, RealKw} ==> r == Err(UnexpectedAt(Current(ts, i)))
  {
    var token := Current(ts, i);
    var j :- if token.kind == IntegerKw then Eat(ts, i, IntegerKw) else Eat(ts, i, RealKw);
    Ok(Parsed(Type(token), j))
  }

  /** The loop of (COMMA ID)*: the names after the first, in order. */
  function IdTail(ts: TokenStream, i: nat, acc: seq<Var>): (r: Result<Parsed<seq<Var>>, Error>)
    requires ts.Valid() && i < |ts.items|
    ensures Advances(ts, i, r)
    ensures r.Ok? ==> |r.value.value| >= |acc| && r.value.value[..|acc|] == acc
    ensures r.Ok? ==> r.value.next == i + 2 * (|r.value.value| - |acc|)
    ensures r.Ok? ==> forall n :: |acc| <= n < |r.value.value| ==> NameAt(ts, i + 1 + 2 * (n - |acc|), r.value.value[n])
    ensures r.Ok? ==> Current(ts, r.value.next).kind != Comma
    decreases |ts.items| - i
  {
    if Current(ts, i).kind == Comma then
      var j :- Eat(ts, i, Comma);
      var v := Var(Current(ts, j));
      var k :- Eat(ts, j, Id);
      var r := IdTail(ts, k, acc + [v]);
      assert r.Ok? ==> r.value.value[..|acc|] == acc && r.value.value[|acc|] == v by {
        if r.Ok? {
          assert r.value.value[..|acc|] == r.value.value[..|acc| + 1][..|acc|];
          assert r.value.value[|acc|] == r.value.value[..|acc| + 1][|acc|];
        }
      }
      r
    else
      Ok(Parsed(acc, i))
  }

  /** Token p is an identifier and v its variable node. */
  predicate NameAt(ts: TokenStream, p: nat, v: Var) {
    p < |ts.items| && Current(ts, p).kind == Id && v == Var(Current(ts, p))
  }

  /** The names of ID (COMMA ID)* COLON type_spec and the type they share. */
  datatype TypedNames = TypedNames(names: seq<Var>, typeNode: Type)

  /** ID (COMMA ID)* COLON type_spec: the n-th name is the identifier at i + 2n, and
      the colon and the type follow the last one. */
  function TypedNamesAt(ts: TokenStream, i: nat): (r: Result<Parsed<TypedNames>, Error>)
    requires ts.Valid() && i < |ts.items|
    ensures StrictlyAdvances(ts, i, r)
    ensures r.Ok? ==> |r.value.value.names| > 0 && r.value.next == i + 2 * |r.value.value.names| + 1
    ensures r.Ok? ==> forall n :: 0 <= n < |r.value.value.names| ==> NameAt(ts, i + 2 * n, r.value.value.names[n])
    ensures r.Ok? ==>
      Current(ts, r.value.next - 2).kind == Colon && r.value.value.typeNode == Type(Current(ts, r.value.next - 1))
  {
    var first := Var(Current(ts, i));
    var j :- Eat(ts, i, Id);
    var names :- IdTail(ts, j, [first]);
    var k :- Eat(ts, names.next, Colon);
    var typeNode :- TypeSpecAt(ts, k);
    assert names.value[0] == names.value[..1][0];
    assert forall n :: 0 <= n < |names.value| ==> NameAt(ts, i + 2 * n, names.value[n]) by {
      forall n | 0 <= n < |names.value| ensures NameAt(ts, i + 2 * n, names.value[n]) {
        if n > 0 {
          assert NameAt(ts, j + 1 + 2 * (n - 1), names.value[n]);
        }
      }
    }
    Ok(Parsed(TypedNames(names.value, typeNode.value), typeNode.next))
  }

  /** One variable declaration per name, in order, all of the shared type. */
  function VarDecls(g: TypedNames): (ds: seq<Declaration>)
    ensures |ds| == |g.names|
    ensures forall n :: 0 <= n < |ds| ==> ds[n] == VarDecl(g.names[n], g.typeNode)
  {
    seq(|g.names|, n requires 0 <= n < |g.names| => VarDecl(g.names[n], g.typeNode))
  }

  /** One formal parameter per name, in order, all of the shared type. */
  function Params(g: TypedNames): (ps: seq<Param>)
    ensures |ps| == |g.names|
    ensures forall n :: 0 <= n < |ps| ==> ps[n] == Param(g.names[n], g.typeNode)
  {
    seq(|g.names|, n requires 0 <= n < |g.names| => Param(g.names[n], g.typeNode))
  }

  /** variable_declaration : ID (COMMA ID)* COLON type_spec, one VarDecl per name, in order. */
  function VariableDeclarationAt(ts: TokenStream, i: nat): (r: Result<Parsed<seq<Declaration>>, Error>)
    requires ts.Valid() && i < |ts.items|
    ensures StrictlyAdvances(ts, i, r)
    ensures r.Ok? ==> |r.value.value| > 0
    ensures r.Ok? ==> forall n :: 0 <= n < |r.value.value| ==> r.value.value[n].VarDecl?
    ensures r.Ok? ==> forall n :: 0 <= n < |r.value.value| ==>
      NameAt(ts, i + 2 * n, r.value.value[n].varNode) && r.value.value[n].typeNode == r.value.value[0].typeNode
  {
    var group :- TypedNamesAt(ts, i);
    Ok(Parsed(VarDecls(group.value), group.next))
  }

  /** formal_parameters : ID (COMMA ID)* COLON type_spec, one Param per name, in order. */
  function FormalParametersAt(ts: TokenStream, i: nat): (r: Result<Parsed<seq<Param>>, Error>)
    requires ts.Valid() && i < |ts.items|
    ensures StrictlyAdvances(ts, i, r)
    ensures r.Ok? ==> |r.value.value| > 0
    ensures r.Ok? ==> forall n :: 0 <= n < |r.value.value| ==>
      NameAt(ts, i + 2 * n, r.value.value[n].varNode) && r.value.value[n].typeNode == r.value.value[0].typeNode
  {
    var group :- TypedNamesAt(ts, i);
    Ok(Parsed(Params(group.value), group.next))
  }

  /** formal_parameter_list : formal_parameters (SEMI formal_parameters)*, or nothing
      when the current token is not an ID. */
  function FormalParameterListAt(ts: TokenStream, i: nat): (r: Result<Parsed<seq<Param>>, Error>)
    requires ts.Valid() && i < |ts.items|
    ensures Advances(ts, i, r)
    ensures Current(ts, i).kind != Id ==> r == Ok(Parsed([], i))
  {
    if Current(ts, i).kind != Id then Ok(Parsed([], i))
    else
      var first :- FormalParametersAt(ts, i);
      ParamGroups(ts, first.next, first.value)
  }

  /** The groups after the first, flattened in order. */
  function ParamGroups(ts: TokenStream, i: nat, acc: seq<Param>): (r: Result<Parsed<seq<Param>>, Error>)
    requires ts.Valid() && i < |ts.items|
    ensures Advances(ts, i, r)
    ensures r.Ok? ==> |r.value.value| >= |acc| && r.value.value[..|acc|] == acc
    ensures r.Ok? ==> Current(ts, r.value.next).kind != Semi
    decreases |ts.items| - i
  {
    if Current(ts, i).kind == Semi then
      var j :- Eat(ts, i, Semi);
      var group :- FormalParametersAt(ts, j);
      var r := ParamGroups(ts, group.next, acc + group.value);
      assert r.Ok? ==> r.value.value[..|acc|] == acc by {
        if r.Ok? { assert r.value.value[..|acc|] == r.value.value[..|acc + group.value|][..|acc|]; }
      }
      r
    else
      Ok(Parsed(acc, i))
  }

  /** (LPAREN formal_parameter_list RPAREN)? */
  function ParameterPartAt(ts: TokenStream, i: nat): (r: Result<Parsed<seq<Param>>, Error>)
    requires ts.Valid() && i < |ts.items|
    ensures Advances(ts, i, r)
    ensures Current(ts, i).kind != LParen ==> r == Ok(Parsed([], i))
  {
    if Current(ts, i).kind == LParen then
      var j :- Eat(ts, i, LParen);
      var params :- FormalParameterListAt(ts, j);
      var k :- Eat(ts, params.next, RParen);
      Ok(Parsed(params.value, k))
    else
      Ok(Parsed([], i))
  }

  /** procedure_declaration : PROCEDURE ID (LPAREN formal_parameter_list RPAREN)? SEMI block SEMI */
  function ProcedureDeclarationAt(ts: TokenStream, i: nat): (r: Result<Parsed<Declaration>, Error>)
    requires ts.Valid() && i < |ts.items|
    ensures StrictlyAdvances(ts, i, r)
    ensures r.Ok? ==> Current(ts, i).kind == ProcedureKw && Current(ts, i + 1).kind == Id
    ensures r.Ok? ==> r.value.value.ProcedureDecl? && r.value.value.procName == NameOf(Current(ts, i + 1))
    decreases |ts.items| - i, 0
  {
    var j :- Eat(ts, i, ProcedureKw);
    var name := NameOf(Current(ts, j));
    var k :- Eat(ts, j, Id);
    var params :- ParameterPartAt(ts, k);
    var m :- Eat(ts, params.next, Semi);
    var body :- BlockAt(ts, m);
    var n :- Eat(ts, body.next, Semi);
    Ok(Parsed(ProcedureDecl(name, body.value, params.value), n))
  }

  /** The loop of procedure_declaration*. */
  function ProcedureDecls(ts: TokenStream, i: nat, acc: seq<Declaration>): (r: Result<Parsed<seq<Declaration>>, Error>)
    requires ts.Valid() && i < |ts.items|
    ensures Advances(ts, i, r)
    ensures r.Ok? ==> |r.value.value| >= |acc| && r.value.value[..|acc|] == acc
    ensures r.Ok? ==> forall n :: |acc| <= n < |r.value.value| ==> r.value.value[n].ProcedureDecl?
    ensures r.Ok? ==> Current(ts, r.value.next).kind != ProcedureKw
    decreases |ts.items| - i, 1
  {
    if Current(ts, i).kind == ProcedureKw then
      var decl :- ProcedureDeclarationAt(ts, i);
      var r := ProcedureDecls(ts, decl.next, acc + [decl.value]);
      assert r.Ok? ==> r.value.value[..|acc|] == acc && r.value.value[|acc|] == decl.value by {
        if r.Ok? {
          assert r.value.value[..|acc|] == r.value.value[..|acc| + 1][..|acc|];
          assert r.value.value[|acc|] == r.value.value[..|acc| + 1][|acc|];
        }
      }
      r
    else
      Ok(Parsed(acc, i))
  }

  /** The loop of (variable_declaration SEMI)* after VAR; it may be empty. */
  function VarSection(ts: TokenStream, i: nat, acc: seq<Declaration>): (r: Result<Parsed<seq<Declaration>>, Error>)
    requires ts.Valid() && i < |ts.items|
    ensures Advances(ts, i, r)
    ensures r.Ok? ==> |r.value.value| >= |acc| && r.value.value[..|acc|] == acc
    ensures r.Ok? ==> forall n :: |acc| <= n < |r.value.value| ==> r.value.value[n].VarDecl?
    ensures r.Ok? ==> Current(ts, r.value.next).kind != Id
    decreases |ts.items| - i
  {
    if Current(ts, i).kind == Id then
      var decls :- VariableDeclarationAt(ts, i);
      var j :- Eat(ts, decls.next, Semi);
      var r := VarSection(ts, j, acc + decls.value);
      assert r.Ok? ==> r.value.value[..|acc|] == acc && forall n :: |acc| <= n < |acc + decls.value| ==> r.value.value[n].VarDecl? by {
        if r.Ok? {
          assert r.value.value[..|acc|] == r.value.value[..|acc + decls.value|][..|acc|];
          forall n | |acc| <= n < |acc + decls.value| ensures r.value.value[n].VarDecl? {
            assert r.value.value[n] == r.value.value[..|acc + decls.value|][n];
          }
        }
      }
      r
    else
      Ok(Parsed(acc, i))
  }

  /** (VAR (variable_declaration SEMI)*)? */
  function VarBlockAt(ts: TokenStream, i: nat): (r: Result<Parsed<seq<Declaration>>, Error>)
    requires ts.Valid() && i < |ts.items|
    ensures Advances(ts, i, r)
    ensures r.Ok? ==> forall n :: 0 <= n < |r.value.value| ==> r.value.value[n].VarDecl?
    ensures Current(ts, i).kind != VarKw ==> r == Ok(Parsed([], i))
    ensures Current(ts, i).kind == VarKw && r.Ok? ==> Current(ts, r.value.next).kind != Id
  {
    if Current(ts, i).kind == VarKw then
      var j :- Eat(ts, i, VarKw);
      VarSection(ts, j, [])
    else
      Ok(Parsed([], i))
  }

  /** declarations : (VAR (variable_declaration SEMI)*)? procedure_declaration* */
  function DeclarationsAt(ts: TokenStream, i: nat): (r: Result<Parsed<seq<Declaration>>, Error>)
    requires ts.Valid() && i < |ts.items|
    ensures Advances(ts, i, r)
    ensures r.Ok? ==> Current(ts, r.value.next).kind != ProcedureKw
    decreases |ts.items| - i, 2
  {
    var vars :- VarBlockAt(ts, i);
    ProcedureDecls(ts, vars.next, vars.value)
  }

  /** block : declarations compound_statement */
  function BlockAt(ts: TokenStream, i: nat): (r: Result<Parsed<Block>, Error>)
    requires ts.Valid() && i < |ts.items|
    ensures StrictlyAdvances(ts, i, r)
    ensures r.Ok? ==> r.value.value.compoundStatement.Compound?
    decreases |ts.items| - i, 3
  {
    var decls :- DeclarationsAt(ts, i);
    var body :- CompoundStatementAt(ts, decls.next);
    Ok(Parsed(Block(decls.value, body.value), body.next))
  }

  /** program : PROGRAM variable SEMI block DOT */
  function ProgramAt(ts: TokenStream, i: nat): (r: Result<Parsed<Program>, Error>)
    requires ts.Valid() && i < |ts.items|
    ensures StrictlyAdvances(ts, i, r)
    ensures r.Ok? ==> Current(ts, i).kind == ProgramKw && r.value.value.name == NameOf(Current(ts, i + 1))
    ensures r.Ok? ==> Current(ts, r.value.next - 1).kind == Dot
  {
    var j :- Eat(ts, i, ProgramKw);
    var v :- VariableAt(ts, j);
    var k :- Eat(ts, v.next, Semi);
    var block :- BlockAt(ts, k);
    var m :- Eat(ts, block.next, Dot);
    assert j == i + 1 && m == block.next + 1;
    Ok(Parsed(Program(v.value.Name(), block.value), m))
  }

  /** parse: a program followed directly by EOF. */
  function Parse(ts: TokenStream): (r: Result<Program, Error>)
    requires ts.Valid()
    ensures r.Ok? <==> ProgramAt(ts, 0).Ok? && Current(ts, ProgramAt(ts, 0).value.next).kind == Eof
    ensures r.Ok? ==> r.value == ProgramAt(ts, 0).value.value && ProgramAt(ts, 0).value.next == |ts.items| - 1
    ensures r.Ok? ==> ts.failure.None?
    ensures ProgramAt(ts, 0).Ok? && r.Err? ==> r.error == UnexpectedAt(Current(ts, ProgramAt(ts, 0).value.next))
  {
    var p :- ProgramAt(ts, 0);
    var after := Current(ts, p.next);
    if after.kind != Eof then Err(UnexpectedAt(after)) else Ok(p.value)
  }

  /** What a parser built on a token stream returns: the lexer error raised while
      reading the first token, or the result of parse. */
  function ParseStream(ts: TokenStream): (r: Result<Program, Error>)
    requires |ts.items| == 0 ==> ts.failure.Some?
    requires |ts.items| > 0 ==> ts.Valid()
  {
    if |ts.items| == 0 then Err(ts.failure.value) else Parse(ts)
  }
}

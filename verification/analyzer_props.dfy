/** Properties of the semantic analyzer: which variable use is reported, when a
    declaration is a duplicate, what a procedure declaration leaves in scope, and the
    errors the analyzer raises on two small programs. */
module AnalysisProps {
  import opened Wrappers
  import opened Tokens
  import opened Errors
  import opened Ast
  import opened Symbols
  import opened Analysis

  // ---------------------------------------------------------------------------
  // Unresolved names

  /** The position of the first variable in vs that no scope of the chain defines. */
  function FirstUnresolved(chain: Chain, vs: seq<Var>): (r: Option<nat>)
    ensures r.None? <==> forall j :: 0 <= j < |vs| ==> Lookup(chain, vs[j].Name(), false).Some?
    ensures r.Some? ==> r.value < |vs| && Lookup(chain, vs[r.value].Name(), false).None?
    ensures r.Some? ==> forall j :: 0 <= j < r.value ==> Lookup(chain, vs[j].Name(), false).Some?
    decreases |vs|
  {
    if |vs| == 0 then None
    else if Lookup(chain, vs[0].Name(), false).None? then Some(0)
    else
      match FirstUnresolved(chain, vs[1..])
      case None => None
      case Some(k) => Some(k + 1)
  }

  /** Checking the variables of vs in order: the first unresolved one is reported with
      ID_NOT_FOUND at its token. */
  function Report(chain: Chain, vs: seq<Var>): Outcome<Error> {
    match FirstUnresolved(chain, vs)
    case None => Pass
    case Some(k) => Fail(SemanticFault(IdNotFound, vs[k].token))
  }

  /** The first unresolved variable is the one before which all resolve. */
  lemma FirstUnresolvedAt(chain: Chain, vs: seq<Var>, k: nat)
    requires k < |vs| && Lookup(chain, vs[k].Name(), false).None?
    requires forall j :: 0 <= j < k ==> Lookup(chain, vs[j].Name(), false).Some?
    ensures FirstUnresolved(chain, vs) == Some(k)
  {
  }

  /** Checking a + b reports what checking a reports, and otherwise what b reports. */
  lemma ReportConcat(chain: Chain, a: seq<Var>, b: seq<Var>)
    ensures Report(chain, a + b) == if Report(chain, a).Fail? then Report(chain, a) else Report(chain, b)
  {
    var ab := a + b;
    match FirstUnresolved(chain, a)
    case Some(k) =>
      forall j | 0 <= j <= k
        ensures ab[j] == a[j]
      {
      }
      FirstUnresolvedAt(chain, ab, k);
    case None =>
      forall j | 0 <= j < |ab|
        ensures ab[j] == if j < |a| then a[j] else b[j - |a|]
      {
      }
      match FirstUnresolved(chain, b)
      case Some(k) =>
        FirstUnresolvedAt(chain, ab, |a| + k);
      case None =>
  }

  /** An expression passes exactly when every variable it reads resolves in some
      enclosing scope; otherwise the error names the leftmost one that does not. */
  lemma {:induction false} CheckExprReportsFirst(chain: Chain, e: Expr)
    ensures CheckExpr(chain, e) == Report(chain, Vars(e))
  {
    match e
    case Num(_) =>
    case Variable(v) =>
    case BinOp(left, _, right) =>
      CheckExprReportsFirst(chain, left);
      CheckExprReportsFirst(chain, right);
      ReportConcat(chain, Vars(left), Vars(right));
    case UnaryOp(_, operand) =>
      CheckExprReportsFirst(chain, operand);
  }

  /** An assignment checks its target before its right side. */
  lemma AssignChecksTargetFirst(chain: Chain, s: Statement)
    requires s.Assign?
    ensures CheckStatement(chain, s) == Report(chain, [s.left] + Vars(s.right))
  {
    CheckExprReportsFirst(chain, s.right);
    ReportConcat(chain, [s.left], Vars(s.right));
  }

  /** The variables of the arguments from the k-th on, left to right. */
  function ArgVars(args: seq<Expr>, k: nat): seq<Var>
    requires k <= |args|
    decreases |args| - k
  {
    if k == |args| then [] else Vars(args[k]) + ArgVars(args, k + 1)
  }

  lemma {:induction false} CheckArgsReportsFirst(chain: Chain, args: seq<Expr>, k: nat)
    requires k <= |args|
    ensures CheckArgs(chain, args, k) == Report(chain, ArgVars(args, k))
    decreases |args| - k
  {
    if k < |args| {
      CheckExprReportsFirst(chain, args[k]);
      CheckArgsReportsFirst(chain, args, k + 1);
      ReportConcat(chain, Vars(args[k]), ArgVars(args, k + 1));
    }
  }

  /** A call to a procedure checks the number of arguments first: a wrong count is
      reported at the call whatever the arguments are; only a right count goes on to the
      arguments, which are then checked left to right. */
  lemma CallChecksCountFirst(chain: Chain, procName: string, args: seq<Expr>, token: Token)
    requires Lookup(chain, procName, false).Some? && Lookup(chain, procName, false).value.ProcedureSymbol?
    ensures var formals := Lookup(chain, procName, false).value.formalParams;
      && (|formals| != |args| ==> CheckCall(chain, procName, args, token) == Fail(SemanticFault(WrongParamsNum, token)))
      && (|formals| == |args| ==> CheckCall(chain, procName, args, token) == Report(chain, ArgVars(args, 0)))
  {
    CheckArgsReportsFirst(chain, args, 0);
  }

  // ---------------------------------------------------------------------------
  // Declarations

  /** A variable declaration fails exactly when its name is already in the current scope,
      with DUPLICATE_ID at the declared variable; a definition in an enclosing scope is
      shadowed instead. On success the name resolves to the new variable, typed by the
      lookup of its type name, and every other name resolves as before. */
  lemma DeclareVarDuplicates(chain: Chain, v: Var, t: Type)
    requires |chain| > 0
    ensures DeclareVar(chain, v, t).Err? <==> v.Name() in chain[|chain| - 1].symbols
    ensures DeclareVar(chain, v, t).Err? ==> DeclareVar(chain, v, t).error == SemanticFault(DuplicateId, v.token)
    ensures DeclareVar(chain, v, t).Ok? ==>
      Lookup(DeclareVar(chain, v, t).value, v.Name(), false) == Some(VarSymbol(v.Name(), Lookup(chain, t.Name(), false)))
    ensures DeclareVar(chain, v, t).Ok? ==> forall name :: name != v.Name() ==>
      Lookup(DeclareVar(chain, v, t).value, name, false) == Lookup(chain, name, false)
  {
    LookupCurrentOnly(chain, v.Name());
    var sym := VarSymbol(v.Name(), Lookup(chain, t.Name(), false));
    DefineThenLookup(chain, sym, v.Name(), false);
    forall name | name != v.Name()
      ensures Lookup(DefineInCurrent(chain, sym), name, false) == Lookup(chain, name, false)
    {
      DefineThenLookup(chain, sym, name, false);
    }
  }

  /** After a procedure declaration the current scope holds the procedure's symbol with
      its body and one formal parameter per declared parameter, in order and by name. */
  lemma DeclaredProcedure(chain: Chain, d: Declaration)
    requires |chain| > 0 && d.ProcedureDecl? && DeclareProcedure(chain, d).Ok?
    ensures var sym := Lookup(DeclareProcedure(chain, d).value, d.procName, true);
      && sym.Some? && sym.value.ProcedureSymbol? && sym.value.blockAst == Some(d.blockNode)
      && |sym.value.formalParams| == |d.params|
      && forall j :: 0 <= j < |d.params| ==>
           sym.value.formalParams[j].VarSymbol? && sym.value.formalParams[j].name == d.params[j].varNode.Name()
  {
    var declared := DefineInCurrent(chain, ProcedureSymbol(d.procName, [], None));
    var (paramScope, formals) := DefineParams(declared, Scope(d.procName, chain[|chain| - 1].scopeLevel + 1, map[]), d.params, 0, []);
    DeclareProcedureSteps(chain, d, paramScope, formals);
    DefineThenLookup(chain, ProcedureSymbol(d.procName, formals, Some(d.blockNode)), d.procName, true);
  }

  // ---------------------------------------------------------------------------
  // Two programs of the analyzer's tests

  function IdToken(name: string, line: nat, column: nat): Token {
    Token(Id, TextValue(name), Some(line), Some(column))
  }

  function TypeNode(k: TokenKind): Type {
    Type(Token(k, TextValue(Literal(k)), None, None))
  }

  function Five(): Expr {
    Num(Token(IntegerConst, Numeric(5, 0), None, None))
  }

  const AssignToken := Token(AssignOp, TextValue(":="), None, None)
  const PlusToken := Token(Plus, TextValue("+"), None, None)

  /** VAR a : INTEGER; a : REAL; BEGIN a := 5; END: the second declaration of a is a
      duplicate; the error is at that a (line 5, column 14, where
      LexingProps.DuplicateIdTokenPosition shows the lexer puts it). */
  lemma DuplicateIdProgram()
    ensures var second := IdToken("a", 5, 14);
      var p := Program("Test", Block(
        [VarDecl(Var(IdToken("a", 4, 14)), TypeNode(IntegerKw)), VarDecl(Var(second), TypeNode(RealKw))],
        Compound([Assign(Var(IdToken("a", 7, 11)), AssignToken, Five()), NoOp])));
      AnalyzeProgram([], p) == Fail(SemanticFault(DuplicateId, second))
  {
    var second := IdToken("a", 5, 14);
    var b := Block(
      [VarDecl(Var(IdToken("a", 4, 14)), TypeNode(IntegerKw)), VarDecl(Var(second), TypeNode(RealKw))],
      Compound([Assign(Var(IdToken("a", 7, 11)), AssignToken, Five()), NoOp]));
    var g := [] + [GlobalScope()];
    var c := DefineInCurrent(g, VarSymbol("a", Lookup(g, "INTEGER", false)));
    assert DeclareVar(g, b.declarations[0].varNode, b.declarations[0].typeNode) == Ok(c);
    assert AnalyzeDecls(g, b, 0) == AnalyzeDecls(c, b, 1);
    assert AnalyzeDecls(c, b, 1) == Err(SemanticFault(DuplicateId, second));
  }

  /** VAR a : INTEGER; BEGIN a := 5 + b; END: b is defined nowhere; the error is at b
      (line 6, column 21, where LexingProps.IdNotFoundTokenPosition shows the lexer puts
      it). */
  lemma IdNotFoundProgram()
    ensures var b := IdToken("b", 6, 21);
      var p := Program("Test", Block(
        [VarDecl(Var(IdToken("a", 4, 14)), TypeNode(IntegerKw))],
        Compound([Assign(Var(IdToken("a", 6, 11)), AssignToken, BinOp(Five(), PlusToken, Variable(Var(b)))), NoOp])));
      AnalyzeProgram([], p) == Fail(SemanticFault(IdNotFound, b))
  {
    var bt := IdToken("b", 6, 21);
    var body := Compound([Assign(Var(IdToken("a", 6, 11)), AssignToken, BinOp(Five(), PlusToken, Variable(Var(bt)))), NoOp]);
    var blk := Block([VarDecl(Var(IdToken("a", 4, 14)), TypeNode(IntegerKw))], body);
    var g := [] + [GlobalScope()];
    var c := DefineInCurrent(g, VarSymbol("a", Lookup(g, "INTEGER", false)));
    assert AnalyzeDecls(g, blk, 0) == Ok(c);
    assert Lookup(c, "b", false).None?;
    assert CheckStatement(c, body.children[0]) == Fail(SemanticFault(IdNotFound, bt));
    assert CheckStatement(c, body) == Fail(SemanticFault(IdNotFound, bt));
  }
}

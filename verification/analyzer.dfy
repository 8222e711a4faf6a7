/** The scoped semantic analyzer. The functions say what visiting a node yields: for
    expressions and statements whether it raises an error, for declarations and blocks the
    scope chain afterwards or the error. The class SemanticAnalyzer walks the tree with a
    current-scope field and is proved to do what the functions say. */
module Analysis {
  import opened Wrappers
  import opened Tokens
  import opened Errors
  import opened Ast
  import opened Symbols

  /** The error a failed check raises: "<code text> -> <token>", at the offending token. */
  function SemanticFault(code: ErrorCode, t: Token): (e: Error)
    ensures e.name == SemanticError && e.errorCode == Some(code) && e.token == Some(t)
    ensures e.message == CodedMessage(code, t)
  {
    NewSemanticError(Some(code), Some(t), CodedMessage(code, t))
  }

  /** The host error raised when a property is read off a value that is undefined. */
  function HostTypeError(property: string): (e: Error)
    ensures e.name == TypeError && e.errorCode.None? && e.token.None?
  {
    Error(TypeError, None, None, "Cannot read properties of undefined (reading '" + property + "')")
  }

  // ---------------------------------------------------------------------------
  // Expressions and statements: checked against the chain, which they leave alone

  /** A variable use must resolve in some enclosing scope. */
  function CheckVar(chain: Chain, v: Var): (r: Outcome<Error>)
    ensures r.Pass? <==> Lookup(chain, v.Name(), false).Some?
    ensures r.Fail? ==> r.error == SemanticFault(IdNotFound, v.token)
  {
    if Lookup(chain, v.Name(), false).None? then Fail(SemanticFault(IdNotFound, v.token)) else Pass
  }

  function CheckExpr(chain: Chain, e: Expr): Outcome<Error>
    decreases e
  {
    match e
    case Num(_) => Pass
    case Variable(v) => CheckVar(chain, v)
    case BinOp(left, _, right) =>
      var l := CheckExpr(chain, left);
      if l.Fail? then l else CheckExpr(chain, right)
    case UnaryOp(_, operand) => CheckExpr(chain, operand)
  }

  /** The actual arguments from the k-th on, in order. */
  function CheckArgs(chain: Chain, args: seq<Expr>, k: nat): Outcome<Error>
    requires k <= |args|
    decreases |args| - k
  {
    if k == |args| then Pass
    else
      var a := CheckExpr(chain, args[k]);
      if a.Fail? then a else CheckArgs(chain, args, k + 1)
  }

  /** A call: the name must resolve to a procedure (anything else fails in the host when
      the parameter list is read), the argument count must match, and only then are the
      arguments checked. */
  function CheckCall(chain: Chain, procName: string, args: seq<Expr>, token: Token): Outcome<Error> {
    match Lookup(chain, procName, false)
    case None => Fail(HostTypeError("formalParams"))
    case Some(sym) =>
      if !sym.ProcedureSymbol? then Fail(HostTypeError("length"))
      else if |sym.formalParams| != |args| then Fail(SemanticFault(WrongParamsNum, token))
      else CheckArgs(chain, args, 0)
  }

  function CheckStatement(chain: Chain, s: Statement): Outcome<Error>
    decreases s, 1, 0
  {
    match s
    case Compound(_) => CheckChildren(chain, s, 0)
    case Assign(left, _, right) =>
      var l := CheckVar(chain, left);
      if l.Fail? then l else CheckExpr(chain, right)
    case ProcedureCall(procName, args, token) => CheckCall(chain, procName, args, token)
    case NoOp => Pass
  }

  /** The children of a compound statement from the k-th on, in order. */
  function CheckChildren(chain: Chain, s: Statement, k: nat): Outcome<Error>
    requires s.Compound? && k <= |s.children|
    decreases s, 0, |s.children| - k
  {
    if k == |s.children| then Pass
    else
      var c := CheckStatement(chain, s.children[k]);
      if c.Fail? then c else CheckChildren(chain, s, k + 1)
  }

  // ---------------------------------------------------------------------------
  // Declarations and blocks: they define symbols in the current scope

  /** The chain after a declaration or block: as many scopes, the same enclosing ones,
      the same current scope name and level, and no name of the current scope lost. */
  predicate SameFrame(before: Chain, after: Chain)
    requires |before| > 0
  {
    && |after| == |before|
    && after[..|after| - 1] == before[..|before| - 1]
    && after[|after| - 1].scopeName == before[|before| - 1].scopeName
    && after[|after| - 1].scopeLevel == before[|before| - 1].scopeLevel
    && before[|before| - 1].symbols.Keys <= after[|after| - 1].symbols.Keys
  }

  /** A variable declaration: its type name is looked up, and its name must not be
      defined in the current scope already (an outer definition is shadowed). */
  function DeclareVar(chain: Chain, v: Var, t: Type): (r: Result<Chain, Error>)
    requires |chain| > 0
    ensures r.Ok? ==> SameFrame(chain, r.value)
  {
    var typeSymbol := Lookup(chain, t.Name(), false);
    if Lookup(chain, v.Name(), true).Some? then Err(SemanticFault(DuplicateId, v.token))
    else Ok(DefineInCurrent(chain, VarSymbol(v.Name(), typeSymbol)))
  }

  /** The names of the parameters from the k-th on. */
  function NamesFrom(params: seq<Param>, k: nat): set<string>
    requires k <= |params|
    decreases |params| - k
  {
    if k == |params| then {} else {params[k].varNode.Name()} + NamesFrom(params, k + 1)
  }

  /** Defines the parameters from the k-th on in the procedure's scope, each typed by a
      lookup from that scope, and appends their symbols to formals. A repeated name
      replaces the earlier entry without an error. */
  function DefineParams(outer: Chain, scope: Scope, params: seq<Param>, k: nat, formals: seq<Symbol>): (r: (Scope, seq<Symbol>))
    requires k <= |params|
    ensures r.0.scopeName == scope.scopeName && r.0.scopeLevel == scope.scopeLevel
    ensures r.0.symbols.Keys == scope.symbols.Keys + NamesFrom(params, k)
    ensures |r.1| == |formals| + |params| - k && r.1[..|formals|] == formals
    ensures forall j :: |formals| <= j < |r.1| ==> r.1[j].VarSymbol? && r.1[j].name == params[k + j - |formals|].varNode.Name()
    decreases |params| - k
  {
    if k == |params| then (scope, formals)
    else
      var p := params[k];
      var sym := VarSymbol(p.varNode.Name(), Lookup(outer + [scope], p.typeNode.Name(), false));
      var r := DefineParams(outer, scope.Define(sym), params, k + 1, formals + [sym]);
      assert r.1[..|formals|] == (formals + [sym])[..|formals|];
      r
  }

  /** One parameter: its symbol, typed by a lookup from the scope being filled. */
  lemma DefineParamsStep(outer: Chain, scope: Scope, params: seq<Param>, k: nat, formals: seq<Symbol>)
    requires k < |params|
    ensures var sym := VarSymbol(params[k].varNode.Name(), Lookup(outer + [scope], params[k].typeNode.Name(), false));
      DefineParams(outer, scope, params, k, formals) == DefineParams(outer, scope.Define(sym), params, k + 1, formals + [sym])
  {
  }

  /** A procedure declaration: its symbol goes into the current scope first; then a scope
      one level deeper is opened for its parameters and body; that scope is closed again,
      and the symbol finally records its body. */
  function DeclareProcedure(chain: Chain, d: Declaration): (r: Result<Chain, Error>)
    requires |chain| > 0 && d.ProcedureDecl?
    ensures r.Ok? ==> SameFrame(chain, r.value)
    decreases d, 1, 1
  {
    var current := chain[|chain| - 1];
    var declared := DefineInCurrent(chain, ProcedureSymbol(d.procName, [], None));
    var (paramScope, formals) := DefineParams(declared, Scope(d.procName, current.scopeLevel + 1, map[]), d.params, 0, []);
    // The symbol in the enclosing scope is the one the parameters were appended to.
    var visible := DefineInCurrent(chain, ProcedureSymbol(d.procName, formals, None));
    var inner :- AnalyzeBlock(visible + [paramScope], d.blockNode);
    Ok(DefineInCurrent(chain, ProcedureSymbol(d.procName, formals, Some(d.blockNode))))
  }

  /** DeclareProcedure in terms of its pieces. */
  lemma DeclareProcedureSteps(chain: Chain, d: Declaration, paramScope: Scope, formals: seq<Symbol>)
    requires |chain| > 0 && d.ProcedureDecl?
    requires (paramScope, formals) == DefineParams(DefineInCurrent(chain, ProcedureSymbol(d.procName, [], None)),
      Scope(d.procName, chain[|chain| - 1].scopeLevel + 1, map[]), d.params, 0, [])
    ensures var body := AnalyzeBlock(DefineInCurrent(chain, ProcedureSymbol(d.procName, formals, None)) + [paramScope], d.blockNode);
      && (body.Err? ==> DeclareProcedure(chain, d) == Err(body.error))
      && (body.Ok? ==> DeclareProcedure(chain, d) == Ok(DefineInCurrent(chain, ProcedureSymbol(d.procName, formals, Some(d.blockNode)))))
  {
  }

  function AnalyzeDecl(chain: Chain, d: Declaration): (r: Result<Chain, Error>)
    requires |chain| > 0
    ensures r.Ok? ==> SameFrame(chain, r.value)
    decreases d, 2, 0
  {
    match d
    case VarDecl(v, t) => DeclareVar(chain, v, t)
    case ProcedureDecl(_, _, _) => DeclareProcedure(chain, d)
  }

  /** The declarations of a block from the k-th on, in order. */
  function AnalyzeDecls(chain: Chain, b: Block, k: nat): (r: Result<Chain, Error>)
    requires |chain| > 0 && k <= |b.declarations|
    ensures r.Ok? ==> SameFrame(chain, r.value)
    decreases b, 0, |b.declarations| - k
  {
    if k == |b.declarations| then Ok(chain)
    else
      var c :- AnalyzeDecl(chain, b.declarations[k]);
      AnalyzeDecls(c, b, k + 1)
  }

  /** A block: its declarations, then its compound statement against the scope they
      leave. */
  function AnalyzeBlock(chain: Chain, b: Block): (r: Result<Chain, Error>)
    requires |chain| > 0
    ensures r.Ok? ==> SameFrame(chain, r.value)
    decreases b, 1, 0
  {
    var c :- AnalyzeDecls(chain, b, 0);
    var s := CheckStatement(c, b.compoundStatement);
    if s.Fail? then Err(s.error) else Ok(c)
  }

  /** A program: its block is analyzed in a new global scope, which is then closed. */
  function AnalyzeProgram(chain: Chain, p: Program): Outcome<Error> {
    match AnalyzeBlock(chain + [GlobalScope()], p.block)
    case Ok(_) => Pass
    case Err(e) => Fail(e)
  }

  // ---------------------------------------------------------------------------
  // The analyzer

  class SemanticAnalyzer {
    /** The current scope and its enclosing scopes; empty outside a program. */
    var scopes: Chain

    constructor()
      ensures scopes == []
    {
      scopes := [];
    }

    /** The method ended as the function says: with its error, or passing with the
        chain it gives. */
    predicate Agrees(r: Outcome<Error>, spec: Result<Chain, Error>)
      reads this
    {
      match spec
      case Ok(c) => r.Pass? && scopes == c
      case Err(e) => r == Fail(e)
    }

    method Define(sym: Symbol)
      requires |scopes| > 0
      modifies this
      ensures scopes == DefineInCurrent(old(scopes), sym)
    {
      var n := |scopes| - 1;
      scopes := scopes[..n] + [scopes[n].Define(sym)];
    }

    /** Opens the global scope, visits the block and restores the current scope. */
    method VisitProgram(node: Program) returns (r: Outcome<Error>)
      modifies this
      ensures r == AnalyzeProgram(old(scopes), node)
      ensures r.Pass? ==> scopes == old(scopes)
    {
      var enclosing := scopes;
      var globalScope := InitBuiltins(Scope("global", 1, map[]));
      scopes := scopes + [globalScope];
      r := VisitBlock(node.block);
      if r.Fail? {
        return;
      }
      assert scopes[..|enclosing|] == enclosing;
      scopes := scopes[..|scopes| - 1];
    }

    method VisitBlock(node: Block) returns (r: Outcome<Error>)
      requires |scopes| > 0
      modifies this
      ensures Agrees(r, old(AnalyzeBlock(scopes, node)))
      decreases node, 1, 0
    {
      var k := 0;
      while k < |node.declarations|
        invariant k <= |node.declarations| && |scopes| > 0
        invariant AnalyzeDecls(old(scopes), node, 0) == AnalyzeDecls(scopes, node, k)
      {
        r := VisitDeclaration(node.declarations[k]);
        if r.Fail? {
          return;
        }
        k := k + 1;
      }
      r := VisitStatement(node.compoundStatement);
    }

    method VisitDeclaration(node: Declaration) returns (r: Outcome<Error>)
      requires |scopes| > 0
      modifies this
      ensures Agrees(r, old(AnalyzeDecl(scopes, node)))
      decreases node, 2, 0
    {
      match node
      case VarDecl(varNode, typeNode) =>
        var typeSymbol := Lookup(scopes, typeNode.Name(), false);
        if Lookup(scopes, varNode.Name(), true).Some? {
          return Fail(SemanticFault(DuplicateId, varNode.token));
        }
        Define(VarSymbol(varNode.Name(), typeSymbol));
        return Pass;
      case ProcedureDecl(procName, blockNode, params) =>
        r := VisitProcedureDecl(node);
    }

    method VisitProcedureDecl(node: Declaration) returns (r: Outcome<Error>)
      requires |scopes| > 0 && node.ProcedureDecl?
      modifies this
      ensures Agrees(r, old(DeclareProcedure(scopes, node)))
      decreases node, 1, 1
    {
      var enclosing := scopes;
      var level := scopes[|scopes| - 1].scopeLevel;
      Define(ProcedureSymbol(node.procName, [], None));
      var declared := scopes;
      var procedureScope := Scope(node.procName, level + 1, map[]);
      scopes := scopes + [procedureScope];
      assert scopes[..|declared|] == declared && scopes[|declared|] == procedureScope;
      var formals := DefineParameters(node.params);
      var paramScope := scopes[|declared|];
      assert (paramScope, formals) == DefineParams(declared, procedureScope, node.params, 0, []);
      var visible := DefineInCurrent(enclosing, ProcedureSymbol(node.procName, formals, None));
      DeclareProcedureSteps(enclosing, node, paramScope, formals);
      scopes := visible + [paramScope];
      r := VisitBlock(node.blockNode);
      if r.Fail? {
        return;
      }
      assert scopes[..|visible|] == visible;
      scopes := scopes[..|scopes| - 1];
      Define(ProcedureSymbol(node.procName, formals, Some(node.blockNode)));
      DefineTwice(enclosing, ProcedureSymbol(node.procName, formals, None), ProcedureSymbol(node.procName, formals, Some(node.blockNode)));
    }

    /** Defines each parameter in the current scope, typed by a lookup from there, and
        returns their symbols in order. */
    method DefineParameters(params: seq<Param>) returns (formals: seq<Symbol>)
      requires |scopes| > 1
      modifies this
      ensures var n := |old(scopes)| - 1;
        && |scopes| == n + 1 && scopes[..n] == old(scopes[..n])
        && (scopes[n], formals) == old(DefineParams(scopes[..n], scopes[n], params, 0, []))
    {
      ghost var outer := scopes[..|scopes| - 1];
      ghost var current := scopes[|scopes| - 1];
      ghost var start := current;
      assert scopes == outer + [current];
      formals := [];
      var k := 0;
      while k < |params|
        invariant k <= |params| && scopes == outer + [current]
        invariant DefineParams(outer, current, params, k, formals) == DefineParams(outer, start, params, 0, [])
      {
        var param := params[k];
        var paramType := Lookup(scopes, param.typeNode.Name(), false);
        var varSymbol := VarSymbol(param.varNode.Name(), paramType);
        DefineParamsStep(outer, current, params, k, formals);
        Define(varSymbol);
        DefineInLast(outer, current, varSymbol);
        current := current.Define(varSymbol);
        formals := formals + [varSymbol];
        k := k + 1;
      }
      assert scopes[..|outer|] == outer;
    }

    method VisitStatement(node: Statement) returns (r: Outcome<Error>)
      ensures r == CheckStatement(scopes, node)
      decreases node
    {
      match node
      case Compound(children) =>
        var k := 0;
        while k < |children|
          invariant k <= |children|
          invariant CheckChildren(scopes, node, 0) == CheckChildren(scopes, node, k)
        {
          r := VisitStatement(children[k]);
          if r.Fail? {
            return;
          }
          k := k + 1;
        }
        return Pass;
      case Assign(left, _, right) =>
        r := VisitVar(left);
        if r.Pass? {
          r := VisitExpr(right);
        }
      case ProcedureCall(procName, actualParams, token) =>
        var procSymbol := Lookup(scopes, procName, false);
        if procSymbol.None? {
          return Fail(HostTypeError("formalParams"));
        } else if !procSymbol.value.ProcedureSymbol? {
          return Fail(HostTypeError("length"));
        }
        if |procSymbol.value.formalParams| != |actualParams| {
          return Fail(SemanticFault(WrongParamsNum, token));
        }
        var k := 0;
        while k < |actualParams|
          invariant k <= |actualParams|
          invariant CheckArgs(scopes, actualParams, 0) == CheckArgs(scopes, actualParams, k)
        {
          r := VisitExpr(actualParams[k]);
          if r.Fail? {
            return;
          }
          k := k + 1;
        }
        return Pass;
      case NoOp =>
        return Pass;
    }

    method VisitVar(node: Var) returns (r: Outcome<Error>)
      ensures r == CheckVar(scopes, node)
    {
      var varSymbol := Lookup(scopes, node.Name(), false);
      if varSymbol.None? {
        return Fail(SemanticFault(IdNotFound, node.token));
      }
      return Pass;
    }

    method VisitExpr(node: Expr) returns (r: Outcome<Error>)
      ensures r == CheckExpr(scopes, node)
      decreases node
    {
      match node
      case Num(_) =>
        return Pass;
      case Variable(v) =>
        r := VisitVar(v);
      case BinOp(left, _, right) =>
        r := VisitExpr(left);
        if r.Pass? {
          r := VisitExpr(right);
        }
      case UnaryOp(_, operand) =>
        r := VisitExpr(operand);
    }
  }
}

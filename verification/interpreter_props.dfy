/** Properties of evaluation and execution: evaluation agrees with exact arithmetic
    wherever that is defined, a variable without a numeric value makes the whole
    expression not a number, running a statement assigns exactly the names it targets,
    and the values the interpreter's tests expect. */
module InterpretingProps {
  import opened Wrappers
  import opened Tokens
  import opened Ast
  import opened Grammar
  import opened ParsingProps
  import opened Interpreting

  // ---------------------------------------------------------------------------
  // Evaluation against exact arithmetic

  /** The value of an expression in exact arithmetic over the reals, with DIV the floor
      of the quotient; None where that has no answer: an unknown name, a division by
      zero, or a node that is not arithmetic. */
  function Exact(e: Expr, env: map<string, real>): Option<real>
    decreases e
  {
    match e
    case Num(t) => if t.value.Numeric? then Some(NumericValue(t.value)) else None
    case Variable(v) => if v.Name() in env then Some(env[v.Name()]) else None
    case BinOp(left, op, right) =>
      var l := Exact(left, env);
      var r := Exact(right, env);
      if l.None? || r.None? then None else ExactBinary(op.kind, l.value, r.value)
    case UnaryOp(op, operand) =>
      var v := Exact(operand, env);
      if v.None? then None else ExactUnary(op.kind, v.value)
  }

  function ExactBinary(kind: TokenKind, x: real, y: real): Option<real> {
    match kind
    case Plus => Some(x + y)
    case Minus => Some(x - y)
    case Mul => Some(x * y)
    case IntegerDiv => if y == 0.0 then None else Some((x / y).Floor as real)
    case FloatDiv => if y == 0.0 then None else Some(x / y)
    case _ => None
  }

  function ExactUnary(kind: TokenKind, x: real): Option<real> {
    match kind
    case Plus => Some(x)
    case Minus => Some(-x)
    case _ => None
  }

  /** On numbers, the interpreter's operators are exact arithmetic wherever that has an
      answer. */
  lemma OperatorsAreExact(kind: TokenKind, x: real, y: real)
    ensures ExactBinary(kind, x, y).Some? ==> Binary(kind, Finite(x), Finite(y)) == Finite(ExactBinary(kind, x, y).value)
    ensures ExactUnary(kind, x).Some? ==> Unary(kind, Finite(x)) == Finite(ExactUnary(kind, x).value)
  {
  }

  /** A frame whose members are the given numbers. */
  function Lift(env: map<string, real>): (m: map<string, Value>)
    ensures m.Keys == env.Keys
    ensures forall k :: k in env ==> m[k] == Finite(env[k])
  {
    map k | k in env :: Finite(env[k])
  }

  /** Wherever exact arithmetic has an answer, the interpreter computes that number. */
  lemma {:induction false} EvalAgreesWithExact(e: Expr, env: map<string, real>)
    requires Exact(e, env).Some?
    ensures Eval(e, Lift(env)) == Finite(Exact(e, env).value)
  {
    match e
    case Num(_) =>
    case Variable(_) =>
    case BinOp(left, op, right) =>
      EvalAgreesWithExact(left, env);
      EvalAgreesWithExact(right, env);
      OperatorsAreExact(op.kind, Exact(left, env).value, Exact(right, env).value);
    case UnaryOp(op, operand) =>
      EvalAgreesWithExact(operand, env);
      OperatorsAreExact(op.kind, Exact(operand, env).value, 0.0);
  }

  // ---------------------------------------------------------------------------
  // Values that are not numbers

  predicate NotANumber(v: Value) {
    v.Undefined? || v.NaN?
  }

  /** The frame gives the variable no numeric value: it is absent, undefined or NaN. */
  predicate Unset(members: map<string, Value>, v: Var) {
    v.Name() !in members || NotANumber(members[v.Name()])
  }

  /** Every arithmetic operator yields NaN from an operand that is not a number. */
  lemma OperatorsAbsorb(kind: TokenKind, l: Value, r: Value)
    requires IsAdditive(kind) || IsMultiplicative(kind)
    ensures NotANumber(l) || NotANumber(r) ==> Binary(kind, l, r) == NaN
    ensures NotANumber(l) && IsAdditive(kind) ==> Unary(kind, l) == NaN
  {
  }

  /** An expression the parser can build that reads a variable without a numeric value
      is not a number itself: undefined when it is that variable, NaN otherwise. */
  lemma {:induction false} UnsetPoisons(e: Expr, members: map<string, Value>, k: nat)
    requires WellFormed(e) && k < |Vars(e)| && Unset(members, Vars(e)[k])
    ensures NotANumber(Eval(e, members))
  {
    match e
    case Num(_) =>
    case Variable(_) =>
    case BinOp(left, op, right) =>
      var n := |Vars(left)|;
      if k < n {
        assert Vars(e)[k] == Vars(left)[k];
        UnsetPoisons(left, members, k);
      } else {
        assert Vars(e)[k] == Vars(right)[k - n];
        UnsetPoisons(right, members, k - n);
      }
      OperatorsAbsorb(op.kind, Eval(left, members), Eval(right, members));
    case UnaryOp(op, operand) =>
      UnsetPoisons(operand, members, k);
      OperatorsAbsorb(op.kind, Eval(operand, members), NaN);
  }

  // ---------------------------------------------------------------------------
  // What a statement assigns

  /** The names a statement assigns to. */
  function Targets(s: Statement): set<string>
    decreases s, 1, 0
  {
    match s
    case Compound(_) => TargetsFrom(s, 0)
    case Assign(left, _, _) => {left.Name()}
    case ProcedureCall(_, _, _) => {}
    case NoOp => {}
  }

  function TargetsFrom(s: Statement, k: nat): set<string>
    requires s.Compound? && k <= |s.children|
    decreases s, 0, |s.children| - k
  {
    if k == |s.children| then {} else Targets(s.children[k]) + TargetsFrom(s, k + 1)
  }

  /** After a statement the frame holds the names it held and the names the statement
      assigns, and nothing else; a name it does not assign keeps its value. */
  lemma {:induction false} ExecAssignsTargets(s: Statement, members: map<string, Value>)
    ensures Exec(s, members).Keys == members.Keys + Targets(s)
    ensures forall x :: x in members && x !in Targets(s) ==> Exec(s, members)[x] == members[x]
    decreases s, 1, 0
  {
    if s.Compound? {
      ExecChildrenAssignTargets(s, 0, members);
    }
  }

  lemma {:induction false} ExecChildrenAssignTargets(s: Statement, k: nat, members: map<string, Value>)
    requires s.Compound? && k <= |s.children|
    ensures ExecChildren(s, k, members).Keys == members.Keys + TargetsFrom(s, k)
    ensures forall x :: x in members && x !in TargetsFrom(s, k) ==> ExecChildren(s, k, members)[x] == members[x]
    decreases s, 0, |s.children| - k
  {
    if k < |s.children| {
      ExecAssignsTargets(s.children[k], members);
      ExecChildrenAssignTargets(s, k + 1, Exec(s.children[k], members));
    }
  }

  // ---------------------------------------------------------------------------
  // The interpreter's tests

  function IntToken(n: nat): Token {
    Token(IntegerConst, Numeric(n, 0), None, None)
  }

  function OpToken(k: TokenKind): Token {
    Token(k, TextValue(Literal(k)), None, None)
  }

  function Int(n: nat): Expr {
    Num(IntToken(n))
  }

  function Op(l: Expr, k: TokenKind, r: Expr): Expr {
    BinOp(l, OpToken(k), r)
  }

  function Sign(k: TokenKind, x: Expr): Expr {
    UnaryOp(OpToken(k), x)
  }

  lemma IntValue(n: nat, members: map<string, Value>)
    ensures Eval(Int(n), members) == Finite(n as real)
  {
    assert Pow10(0) == 1;
  }

  /** The value of a REAL_CONST token with two decimal places. */
  lemma HundredthsValue(n: nat, members: map<string, Value>)
    ensures Eval(Num(Token(RealConst, Numeric(n, 2), None, None)), members) == Finite(n as real / 100.0)
  {
    assert Pow10(2) == 100 by { assert Pow10(1) == 10; }
  }

  /** The tokens, followed by EOF, are parsed by expr into the tree e. */
  predicate ParsesTo(toks: seq<Token>, e: Expr) {
    Alone(toks).Valid() && ExprAt(Alone(toks), 0) == Ok(Parsed(e, |toks|))
  }

  /** Tokens that print a tree the parser can build parse back into it. */
  lemma ParsedBack(e: Expr, toks: seq<Token>)
    requires WellFormed(e) && ExprTokens(e) == toks
    ensures ParsesTo(toks, e)
  {
    ExprAlone(e);
  }

  function TimesExpr(): Expr {
    Op(Int(2), Plus, Op(Int(7), Mul, Int(4)))
  }

  function TimesTokens(): seq<Token> {
    [IntToken(2), OpToken(Plus), IntToken(7), OpToken(Mul), IntToken(4)]
  }

  lemma TimesParses()
    ensures ParsesTo(TimesTokens(), TimesExpr())
  {
    ParsedBack(TimesExpr(), TimesTokens());
  }

  lemma TimesValue()
    ensures Eval(TimesExpr(), map[]) == Finite(30.0)
  {
    IntValue(2, map[]); IntValue(7, map[]); IntValue(4, map[]);
    assert Eval(Op(Int(7), Mul, Int(4)), map[]) == Finite(28.0);
  }

  /** 2 + 7 * 4 is 30: the product is the right operand of the sum. */
  lemma ProductBindsTighter()
    ensures ParsesTo(TimesTokens(), TimesExpr()) && Eval(TimesExpr(), map[]) == Finite(30.0)
  {
    TimesParses();
    TimesValue();
  }

  function QuotientExpr(): Expr {
    Op(Int(7), Minus, Op(Int(8), FloatDiv, Int(4)))
  }

  function QuotientTokens(): seq<Token> {
    [IntToken(7), OpToken(Minus), IntToken(8), OpToken(FloatDiv), IntToken(4)]
  }

  lemma QuotientParses()
    ensures ParsesTo(QuotientTokens(), QuotientExpr())
  {
    ParsedBack(QuotientExpr(), QuotientTokens());
  }

  lemma QuotientValue()
    ensures Eval(QuotientExpr(), map[]) == Finite(5.0)
  {
    IntValue(7, map[]); IntValue(8, map[]); IntValue(4, map[]);
    assert Eval(Op(Int(8), FloatDiv, Int(4)), map[]) == Finite(2.0);
  }

  /** 7 - 8 / 4 is 5. */
  lemma QuotientBindsTighter()
    ensures ParsesTo(QuotientTokens(), QuotientExpr()) && Eval(QuotientExpr(), map[]) == Finite(5.0)
  {
    QuotientParses();
    QuotientValue();
  }

  function FoldExpr(): Expr {
    Op(Op(Int(14), Plus, Op(Int(2), Mul, Int(3))), Minus, Op(Int(6), FloatDiv, Int(2)))
  }

  function FoldTokens(): seq<Token> {
    [IntToken(14), OpToken(Plus), IntToken(2), OpToken(Mul), IntToken(3),
      OpToken(Minus), IntToken(6), OpToken(FloatDiv), IntToken(2)]
  }

  lemma FoldParses()
    ensures ParsesTo(FoldTokens(), FoldExpr())
  {
    ParsedBack(FoldExpr(), FoldTokens());
  }

  lemma FoldValue()
    ensures Eval(FoldExpr(), map[]) == Finite(17.0)
  {
    IntValue(14, map[]); IntValue(2, map[]); IntValue(3, map[]); IntValue(6, map[]);
    assert Eval(Op(Int(2), Mul, Int(3)), map[]) == Finite(6.0);
    assert Eval(Op(Int(6), FloatDiv, Int(2)), map[]) == Finite(3.0);
    assert Eval(Op(Int(14), Plus, Op(Int(2), Mul, Int(3))), map[]) == Finite(20.0);
  }

  /** 14 + 2 * 3 - 6 / 2 is 17: the sum is folded in from the left. */
  lemma SumsFoldLeft()
    ensures ParsesTo(FoldTokens(), FoldExpr()) && Eval(FoldExpr(), map[]) == Finite(17.0)
  {
    FoldParses();
    FoldValue();
  }

  function SignsExpr(): Expr {
    Op(Int(5), Minus, Sign(Minus, Sign(Minus, Sign(Plus, Sign(Minus, Int(3))))))
  }

  function SignsTokens(): seq<Token> {
    [IntToken(5), OpToken(Minus), OpToken(Minus), OpToken(Minus), OpToken(Plus),
      OpToken(Minus), IntToken(3)]
  }

  lemma SignsParses()
    ensures ParsesTo(SignsTokens(), SignsExpr())
  {
    ParsedBack(SignsExpr(), SignsTokens());
  }

  lemma SignsValue()
    ensures Eval(SignsExpr(), map[]) == Finite(8.0)
  {
    IntValue(5, map[]); IntValue(3, map[]);
    var x := Sign(Minus, Int(3));
    assert Eval(x, map[]) == Finite(-3.0);
    assert Eval(Sign(Plus, x), map[]) == Finite(-3.0);
    assert Eval(Sign(Minus, Sign(Plus, x)), map[]) == Finite(3.0);
    assert Eval(Sign(Minus, Sign(Minus, Sign(Plus, x))), map[]) == Finite(-3.0);
  }

  /** 5 - - - + - 3 is 8: the signs nest. */
  lemma SignsNest()
    ensures ParsesTo(SignsTokens(), SignsExpr()) && Eval(SignsExpr(), map[]) == Finite(8.0)
  {
    SignsParses();
    SignsValue();
  }

  /** 12 / (3 + 1) - 1, the innermost parenthesized expression. */
  function InnerExpr(): Expr {
    Op(Op(Int(12), FloatDiv, Op(Int(3), Plus, Int(1))), Minus, Int(1))
  }

  function GroupedExpr(): Expr {
    Op(Int(7), Plus, Op(Int(3), Mul, Op(Int(10), FloatDiv, InnerExpr())))
  }

  function InnerTokens(): seq<Token> {
    [IntToken(12), OpToken(FloatDiv), LParenToken, IntToken(3), OpToken(Plus), IntToken(1), RParenToken,
      OpToken(Minus), IntToken(1)]
  }

  function GroupedTokens(): seq<Token> {
    [IntToken(7), OpToken(Plus), IntToken(3), OpToken(Mul), LParenToken, IntToken(10), OpToken(FloatDiv),
      LParenToken] + InnerTokens() + [RParenToken, RParenToken]
  }

  lemma InnerPrinted()
    ensures WellFormed(InnerExpr()) && ExprTokens(InnerExpr()) == InnerTokens()
  {
  }

  lemma GroupedWellFormed()
    ensures WellFormed(GroupedExpr())
  {
    InnerPrinted();
  }

  lemma GroupedPrinted()
    ensures ExprTokens(GroupedExpr()) == GroupedTokens()
  {
    InnerPrinted();
    var x := Op(Int(10), FloatDiv, InnerExpr());
    assert FactorTokens(x) == [LParenToken] + ([IntToken(10), OpToken(FloatDiv)] + ([LParenToken] + InnerTokens() + [RParenToken])) + [RParenToken];
  }

  lemma GroupedParses()
    ensures ParsesTo(GroupedTokens(), GroupedExpr())
  {
    GroupedWellFormed();
    GroupedPrinted();
    ParsedBack(GroupedExpr(), GroupedTokens());
  }

  lemma GroupedValue()
    ensures Eval(GroupedExpr(), map[]) == Finite(22.0)
  {
    IntValue(7, map[]); IntValue(3, map[]); IntValue(10, map[]); IntValue(12, map[]); IntValue(1, map[]);
    var four := Op(Int(3), Plus, Int(1));
    assert Eval(four, map[]) == Finite(4.0);
    var three := Op(Int(12), FloatDiv, four);
    assert Eval(three, map[]) == Finite(3.0);
    var two := Op(three, Minus, Int(1));
    assert Eval(two, map[]) == Finite(2.0);
    var five := Op(Int(10), FloatDiv, two);
    assert Eval(five, map[]) == Finite(5.0);
    assert Eval(Op(Int(3), Mul, five), map[]) == Finite(15.0);
  }

  /** 7 + 3 * (10 / (12 / (3 + 1) - 1)) is 22: parentheses leave no node of their own. */
  lemma ParenthesesGroup()
    ensures ParsesTo(GroupedTokens(), GroupedExpr()) && Eval(GroupedExpr(), map[]) == Finite(22.0)
  {
    GroupedParses();
    GroupedValue();
  }

  /** 2.14 + 7 * 4 is 30.14. */
  lemma RealOperand()
    ensures var e := Op(Num(Token(RealConst, Numeric(214, 2), None, None)), Plus, Op(Int(7), Mul, Int(4)));
      Eval(e, map[]) == Finite(30.14)
  {
    HundredthsValue(214, map[]); IntValue(7, map[]); IntValue(4, map[]);
    assert Eval(Op(Int(7), Mul, Int(4)), map[]) == Finite(28.0);
  }

  function Named(name: string): Var {
    Var(Token(Id, TextValue(name), None, None))
  }

  function Read(name: string): Expr {
    Variable(Named(name))
  }

  function Store(name: string, e: Expr): Statement {
    Assign(Named(name), OpToken(AssignOp), e)
  }

  function Declare(name: string, k: TokenKind): Declaration {
    VarDecl(Named(name), Type(OpToken(k)))
  }

  /** The statements of the main block of the interpreter's last test. */
  function MainStatements(): seq<Statement> {
    [ Store("number", Int(2)),
      Store("a", Read("number")),
      Store("b", Op(Op(Int(10), Mul, Read("a")), Plus, Op(Op(Int(10), Mul, Read("number")), IntegerDiv, Int(4)))),
      Store("y", Op(Op(Int(20), FloatDiv, Int(7)), Plus, Num(Token(RealConst, Numeric(314, 2), None, None)))) ]
  }

  /** That test's program: four variables, and two nested procedures that are declared
      but never called. */
  function TestProgram(): Program {
    var p2 := ProcedureDecl("P2", Block([Declare("a", IntegerKw), Declare("z", IntegerKw)],
      Compound([Store("z", Int(777)), NoOp])), []);
    var p1 := ProcedureDecl("P1", Block([Declare("a", RealKw), Declare("k", IntegerKw), p2], Compound([NoOp])), []);
    Program("Part12", Block(
      [Declare("number", IntegerKw), Declare("a", IntegerKw), Declare("b", IntegerKw), Declare("y", RealKw), p1],
      Compound(MainStatements())))
  }

  lemma FirstTwoAssignments()
    ensures Exec(MainStatements()[1], Exec(MainStatements()[0], map[]))
         == map["number" := Finite(2.0), "a" := Finite(2.0)]
  {
    IntValue(2, map[]);
  }

  lemma ThirdAssignment()
    ensures var m := map["number" := Finite(2.0), "a" := Finite(2.0)];
      Exec(MainStatements()[2], m) == m["b" := Finite(25.0)]
  {
    var m := map["number" := Finite(2.0), "a" := Finite(2.0)];
    IntValue(10, m); IntValue(4, m);
    var left := Op(Int(10), Mul, Read("a"));
    assert Eval(left, m) == Finite(20.0);
    var product := Op(Int(10), Mul, Read("number"));
    assert Eval(product, m) == Finite(20.0);
    assert Eval(Op(product, IntegerDiv, Int(4)), m) == Finite(5.0);
  }

  lemma FourthAssignment(m: map<string, Value>)
    ensures Exec(MainStatements()[3], m) == m["y" := Finite(20.0 / 7.0 + 3.14)]
  {
    IntValue(20, m); IntValue(7, m); HundredthsValue(314, m);
    assert Eval(Op(Int(20), FloatDiv, Int(7)), m) == Finite(20.0 / 7.0);
  }

  /** Its frame ends with exactly four members: number = 2, a = 2, b = 25 and
      y = 20 / 7 + 3.14. */
  lemma TestProgramRuns()
    ensures RunProgram(TestProgram()).Keys == {"number", "a", "b", "y"}
    ensures RunProgram(TestProgram()) == map["number" := Finite(2.0), "a" := Finite(2.0), "b" := Finite(25.0),
      "y" := Finite(20.0 / 7.0 + 3.14)]
  {
    var body := TestProgram().block.compoundStatement;
    var m2 := map["number" := Finite(2.0), "a" := Finite(2.0)];
    var m3 := m2["b" := Finite(25.0)];
    FirstTwoAssignments();
    ThirdAssignment();
    FourthAssignment(m3);
    assert ExecChildren(body, 0, map[]) == ExecChildren(body, 2, m2);
    assert ExecChildren(body, 2, m2) == ExecChildren(body, 4, m3["y" := Finite(20.0 / 7.0 + 3.14)]);
  }
}

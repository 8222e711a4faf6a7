/** The tree-walking interpreter. Expressions are evaluated by functions over the values
    of the top frame; statements change that frame. The functions Exec, ExecBlock and
    RunProgram say what running a tree does to the frame, and the class Interpreter,
    which works on a call stack of frames, is proved to do just that. */
module Interpreting {
  import opened Wrappers
  import opened Tokens
  import opened Ast
  import opened Runtime

  // ---------------------------------------------------------------------------
  // Values and arithmetic

  /** A runtime value: undefined (a variable never assigned), NaN, a finite number or an
      infinity. Numbers are exact reals. */
  datatype Value = Undefined | NaN | Finite(x: real) | Infinite(negative: bool)

  /** The numeric coercion of the prefix +: undefined becomes NaN, numbers stay. */
  function ToNumber(v: Value): (r: Value)
    ensures r != Undefined
    ensures v != Undefined ==> r == v
  {
    if v.Undefined? then NaN else v
  }

  /** The prefix -. */
  function Negate(v: Value): Value {
    match v
    case Undefined => NaN
    case NaN => NaN
    case Finite(x) => Finite(-x)
    case Infinite(negative) => Infinite(!negative)
  }

  function Add(a: Value, b: Value): Value {
    match (ToNumber(a), ToNumber(b))
    case (Finite(x), Finite(y)) => Finite(x + y)
    case (Infinite(n), Finite(_)) => Infinite(n)
    case (Finite(_), Infinite(n)) => Infinite(n)
    case (Infinite(n), Infinite(m)) => if n == m then Infinite(n) else NaN
    case _ => NaN
  }

  function Subtract(a: Value, b: Value): Value {
    Add(a, Negate(b))
  }

  function Multiply(a: Value, b: Value): Value {
    match (ToNumber(a), ToNumber(b))
    case (Finite(x), Finite(y)) => Finite(x * y)
    case (Infinite(n), Finite(y)) => if y == 0.0 then NaN else Infinite(n != (y < 0.0))
    case (Finite(x), Infinite(m)) => if x == 0.0 then NaN else Infinite(m != (x < 0.0))
    case (Infinite(n), Infinite(m)) => Infinite(n != m)
    case _ => NaN
  }

  /** The / of the host: a nonzero number over zero is an infinity, zero over zero NaN. */
  function Divide(a: Value, b: Value): Value {
    match (ToNumber(a), ToNumber(b))
    case (Finite(x), Finite(y)) =>
      if y != 0.0 then Finite(x / y)
      else if x == 0.0 then NaN
      else Infinite(x < 0.0)
    case (Infinite(n), Finite(y)) => Infinite(n != (y < 0.0))
    case (Finite(_), Infinite(_)) => Finite(0.0)
    case (Infinite(_), Infinite(_)) => NaN
    case _ => NaN
  }

  /** Math.floor: the greatest integer not above a finite number; NaN and the
      infinities are kept. */
  function Floor(v: Value): Value {
    match ToNumber(v)
    case Finite(x) => Finite(x.Floor as real)
    case w => w
  }

  // ---------------------------------------------------------------------------
  // Evaluation

  /** A binary operator applied to two values: +, -, *, / and DIV (the floor of /);
      any other operator kind yields undefined. */
  function Binary(kind: TokenKind, l: Value, r: Value): Value {
    match kind
    case Plus => Add(l, r)
    case Minus => Subtract(l, r)
    case Mul => Multiply(l, r)
    case IntegerDiv => Floor(Divide(l, r))
    case FloatDiv => Divide(l, r)
    case _ => Undefined
  }

  /** A prefix operator applied to a value: + and -; any other kind yields undefined. */
  function Unary(kind: TokenKind, v: Value): Value {
    match kind
    case Plus => ToNumber(v)
    case Minus => Negate(v)
    case _ => Undefined
  }

  /** The value of an expression, given the members of the top frame. A number node
      yields its token's number; a variable the member of that name, or undefined. */
  function Eval(e: Expr, members: map<string, Value>): Value
    decreases e
  {
    match e
    case Num(t) => if t.value.Numeric? then Finite(NumericValue(t.value)) else Undefined
    case Variable(v) => if v.Name() in members then members[v.Name()] else Undefined
    case BinOp(left, op, right) => Binary(op.kind, Eval(left, members), Eval(right, members))
    case UnaryOp(op, operand) => Unary(op.kind, Eval(operand, members))
  }

  // ---------------------------------------------------------------------------
  // Execution

  /** The members of the top frame after running a statement: an assignment stores the
      value of its right side under its target's name, a compound runs its children in
      order, and every other statement does nothing. */
  function Exec(s: Statement, members: map<string, Value>): map<string, Value>
    decreases s, 1, 0
  {
    match s
    case Compound(_) => ExecChildren(s, 0, members)
    case Assign(left, _, right) => members[left.Name() := Eval(right, members)]
    case ProcedureCall(_, _, _) => members
    case NoOp => members
  }

  /** The children of a compound statement from the k-th on. */
  function ExecChildren(s: Statement, k: nat, members: map<string, Value>): map<string, Value>
    requires s.Compound? && k <= |s.children|
    decreases s, 0, |s.children| - k
  {
    if k == |s.children| then members
    else ExecChildren(s, k + 1, Exec(s.children[k], members))
  }

  /** A block: its declarations have no effect at run time, so it runs its compound
      statement. */
  function ExecBlock(b: Block, members: map<string, Value>): map<string, Value> {
    Exec(b.compoundStatement, members)
  }

  /** The members of a program's frame when its block has run, starting from none. */
  function RunProgram(p: Program): map<string, Value> {
    ExecBlock(p.block, map[])
  }

  // ---------------------------------------------------------------------------
  // The interpreter

  class Interpreter {
    var callStack: CallStack<Value>
    const tree: Option<Program>

    constructor(tree: Option<Program>)
      ensures this.tree == tree && fresh(callStack) && callStack.records == []
    {
      this.tree := tree;
      callStack := new CallStack();
    }

    /** Runs the tree: without one it returns the empty text, otherwise it visits the
        program and returns nothing (None). The call stack ends as it began; the frame
        the program ran in is passed back as frame. */
    method Interpret() returns (r: Option<string>, ghost frame: Option<ActivationRecord<Value>>)
      modifies callStack
      ensures callStack.records == old(callStack.records)
      ensures tree.None? ==> r == Some("") && frame.None?
      ensures tree.Some? ==> r.None? && frame.Some? && fresh(frame.value)
      ensures tree.Some? ==> frame.value.members == RunProgram(tree.value)
    {
      if tree.None? {
        return Some(""), None;
      }
      var ar := VisitProgram(tree.value);
      return None, Some(ar);
    }

    /** Pushes a frame named after the program at nesting level 1, runs the block in it
        and pops it again. */
    method VisitProgram(node: Program) returns (ghost ar: ActivationRecord<Value>)
      modifies callStack
      ensures callStack.records == old(callStack.records)
      ensures fresh(ar) && ar.name == node.name && ar.arType == ProgramFrame && ar.nestingLevel == 1
      ensures ar.members == RunProgram(node)
    {
      var frame := new ActivationRecord(node.name, ProgramFrame, 1);
      callStack.Push(frame);
      VisitBlock(node.block);
      var _ := callStack.Pop();
      ar := frame;
    }

    /** The frame the statements of a block change: the top one. */
    function Top(): ActivationRecord<Value>
      requires callStack.records != []
      reads this, callStack
    {
      callStack.records[|callStack.records| - 1]
    }

    method VisitBlock(node: Block)
      requires callStack.records != []
      modifies Top()
      ensures Top().members == ExecBlock(node, old(Top().members))
    {
      for k := 0 to |node.declarations|
        invariant Top().members == old(Top().members)
      {
        VisitDeclaration(node.declarations[k]);
      }
      VisitStatement(node.compoundStatement);
    }

    /** Declarations do nothing at run time. */
    method VisitDeclaration(node: Declaration) {
    }

    method VisitStatement(node: Statement)
      requires callStack.records != []
      modifies Top()
      ensures Top().members == Exec(node, old(Top().members))
      decreases node
    {
      match node
      case Compound(children) =>
        ghost var start := Top().members;
        for k := 0 to |children|
          invariant ExecChildren(node, k, Top().members) == Exec(node, start)
        {
          VisitStatement(children[k]);
        }
      case Assign(_, _, _) =>
        VisitAssign(node);
      case ProcedureCall(_, _, _) =>
      case NoOp =>
    }

    /** Evaluates the right side against the top frame and stores the value there under
        the target's name; every other member is kept. */
    method VisitAssign(node: Statement)
      requires node.Assign? && callStack.records != []
      modifies Top()
      ensures Top().members == old(Top().members)[node.left.Name() := Eval(node.right, old(Top().members))]
    {
      var ar := callStack.Peek().value;
      var varValue := Eval(node.right, ar.members);
      ar.Set(node.left.Name(), varValue);
    }
  }
}

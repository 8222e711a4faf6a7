/** The syntax tree the parser builds. The node classes of the source are plain records,
    so each becomes a datatype constructor: expressions, statements, declarations, the
    block and the program. */
module Ast {
  import opened Tokens

  /** A variable reference; its value is the identifier's text. */
  datatype Var = Var(token: Token) {
    function Name(): string {
      NameOf(token)
    }
  }

  /** A type specification; its value is the type keyword's text. */
  datatype Type = Type(token: Token) {
    function Name(): string {
      NameOf(token)
    }
  }

  datatype Expr =
    | Num(token: Token)
    | Variable(v: Var)
    | BinOp(left: Expr, op: Token, right: Expr)
    | UnaryOp(op: Token, operand: Expr)

  /** The variables an expression reads, left to right. */
  function Vars(e: Expr): seq<Var> {
    match e
    case Num(_) => []
    case Variable(v) => [v]
    case BinOp(left, _, right) => Vars(left) + Vars(right)
    case UnaryOp(_, operand) => Vars(operand)
  }

  /** A formal parameter of a procedure. */
  datatype Param = Param(varNode: Var, typeNode: Type)

  datatype Statement =
    | Compound(children: seq<Statement>)
    | Assign(left: Var, op: Token, right: Expr)
    | ProcedureCall(procName: string, actualParams: seq<Expr>, token: Token)
    | NoOp

  datatype Declaration =
    | VarDecl(varNode: Var, typeNode: Type)
    | ProcedureDecl(procName: string, blockNode: Block, params: seq<Param>)

  datatype Block = Block(declarations: seq<Declaration>, compoundStatement: Statement)

  datatype Program = Program(name: string, block: Block)
}

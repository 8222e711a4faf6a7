/** Properties of the grammar. The central one is a round trip: an expression printed as
    tokens with the fewest parentheses is parsed back into the same tree. It says at once
    that MUL, DIV and / bind tighter than + and -, that both loops are left-associative,
    that prefix signs nest, and that parentheses leave no node of their own. */
module ParsingProps {
  import opened Wrappers
  import opened Tokens
  import opened Errors
  import opened Ast
  import opened TokenStreams
  import opened Grammar

  // ---------------------------------------------------------------------------
  // Printing expressions as tokens

  /** The trees expr can build: numbers are INTEGER_CONST or REAL_CONST tokens, variables
      ID tokens, binary operators additive or multiplicative, prefix operators + or -. */
  predicate WellFormed(e: Expr) {
    match e
    case Num(t) => t.kind == IntegerConst || t.kind == RealConst
    case Variable(v) => v.token.kind == Id
    case BinOp(l, op, r) => (IsAdditive(op.kind) || IsMultiplicative(op.kind)) && WellFormed(l) && WellFormed(r)
    case UnaryOp(op, x) => IsAdditive(op.kind) && WellFormed(x)
  }

  predicate IsSum(e: Expr) {
    e.BinOp? && IsAdditive(e.op.kind)
  }

  predicate IsProduct(e: Expr) {
    e.BinOp? && !IsAdditive(e.op.kind)
  }

  /** The printing functions call one another on the same tree in an order that depends
      on its shape; these ranks order those calls. */
  function ExprRank(e: Expr): nat {
    if IsSum(e) then 0 else if IsProduct(e) then 1 else 2
  }

  function TermRank(e: Expr): nat {
    if IsSum(e) then 2 else if IsProduct(e) then 0 else 1
  }

  function FactorRank(e: Expr): nat {
    if IsSum(e) then 1 else if IsProduct(e) then 2 else 0
  }

  const LParenToken := Token(LParen, TextValue("("), None, None)
  const RParenToken := Token(RParen, TextValue(")"), None, None)

  /** An expression: a sum prints its left operand as an expression and its right one as
      a term, so a sum on the right gets parentheses and one on the left does not. */
  function ExprTokens(e: Expr): seq<Token>
    decreases e, ExprRank(e)
  {
    if IsSum(e) then ExprTokens(e.left) + [e.op] + TermTokens(e.right) else TermTokens(e)
  }

  function TermTokens(e: Expr): seq<Token>
    decreases e, TermRank(e)
  {
    if IsProduct(e) then TermTokens(e.left) + [e.op] + FactorTokens(e.right) else FactorTokens(e)
  }

  function FactorTokens(e: Expr): seq<Token>
    decreases e, FactorRank(e)
  {
    match e
    case Num(t) => [t]
    case Variable(v) => [v.token]
    case UnaryOp(op, x) => [op] + FactorTokens(x)
    case BinOp(_, _, _) => [LParenToken] + ExprTokens(e) + [RParenToken]
  }

  /** The stream holds toks from index i on. */
  predicate Matches(ts: TokenStream, i: nat, toks: seq<Token>)
    decreases |toks|
  {
    |toks| > 0 ==> i < |ts.items| && ts.items[i].token == toks[0] && Matches(ts, i + 1, toks[1..])
  }

  /** ... and at least one item after them. */
  predicate TokensAt(ts: TokenStream, i: nat, toks: seq<Token>) {
    i + |toks| < |ts.items| && Matches(ts, i, toks)
  }

  lemma {:induction false} MatchesSplit(ts: TokenStream, i: nat, a: seq<Token>, b: seq<Token>)
    requires Matches(ts, i, a + b)
    ensures Matches(ts, i, a) && Matches(ts, i + |a|, b)
    decreases |a|
  {
    if |a| == 0 {
      assert a + b == b;
    } else {
      assert (a + b)[0] == a[0] && (a + b)[1..] == a[1..] + b;
      MatchesSplit(ts, i + 1, a[1..], b);
    }
  }

  lemma TokensAtSplit(ts: TokenStream, i: nat, a: seq<Token>, b: seq<Token>)
    requires TokensAt(ts, i, a + b)
    ensures TokensAt(ts, i, a) && TokensAt(ts, i + |a|, b)
  {
    MatchesSplit(ts, i, a, b);
  }

  lemma TokensAt3(ts: TokenStream, i: nat, a: seq<Token>, b: seq<Token>, c: seq<Token>)
    requires TokensAt(ts, i, a + b + c)
    ensures TokensAt(ts, i, a) && TokensAt(ts, i + |a|, b) && TokensAt(ts, i + |a| + |b|, c)
  {
    TokensAtSplit(ts, i, a + b, c);
    TokensAtSplit(ts, i, a, b);
  }

  lemma TokensAtHead(ts: TokenStream, i: nat, toks: seq<Token>)
    requires TokensAt(ts, i, toks) && |toks| > 0
    ensures Current(ts, i) == toks[0] && i + 1 < |ts.items|
  {
  }


  /** One turn of the term loop: a multiplicative operator and a factor. */
  lemma TermTailStep(ts: TokenStream, j: nat, e: Expr, k: nat)
    requires ts.Valid() && j + 1 < |ts.items| && e.BinOp? && Current(ts, j) == e.op && IsMultiplicative(e.op.kind)
    requires FactorAt(ts, j + 1) == Ok(Parsed(e.right, k))
    ensures TermTail(ts, j, e.left) == TermTail(ts, k, e)
  {
    assert Eat(ts, j, e.op.kind) == Ok(j + 1);
  }

  /** One turn of the expression loop: an additive operator and a term. */
  lemma ExprTailStep(ts: TokenStream, j: nat, e: Expr, k: nat)
    requires ts.Valid() && j + 1 < |ts.items| && e.BinOp? && Current(ts, j) == e.op && IsAdditive(e.op.kind)
    requires TermAt(ts, j + 1) == Ok(Parsed(e.right, k))
    ensures ExprTail(ts, j, e.left) == ExprTail(ts, k, e)
  {
    assert Eat(ts, j, e.op.kind) == Ok(j + 1);
  }

  /** Each production unfolded once, for the cases the round trip meets. */
  lemma TermAtFactor(ts: TokenStream, i: nat, x: Expr, k: nat)
    requires ts.Valid() && i < |ts.items| && FactorAt(ts, i) == Ok(Parsed(x, k))
    ensures TermAt(ts, i) == TermTail(ts, k, x)
  {
  }

  lemma ExprAtTerm(ts: TokenStream, i: nat, x: Expr, k: nat)
    requires ts.Valid() && i < |ts.items| && TermAt(ts, i) == Ok(Parsed(x, k))
    ensures ExprAt(ts, i) == ExprTail(ts, k, x)
  {
  }

  lemma TermTailStop(ts: TokenStream, k: nat, x: Expr)
    requires ts.Valid() && k < |ts.items| && !IsMultiplicative(Current(ts, k).kind)
    ensures TermTail(ts, k, x) == Ok(Parsed(x, k))
  {
  }

  lemma ExprTailStop(ts: TokenStream, k: nat, x: Expr)
    requires ts.Valid() && k < |ts.items| && !IsAdditive(Current(ts, k).kind)
    ensures ExprTail(ts, k, x) == Ok(Parsed(x, k))
  {
  }

  lemma FactorLeaf(ts: TokenStream, i: nat)
    requires ts.Valid() && i + 1 < |ts.items|
    requires Current(ts, i).kind in {IntegerConst, RealConst, Id}
    ensures Current(ts, i).kind != Id ==> FactorAt(ts, i) == Ok(Parsed(Num(Current(ts, i)), i + 1))
    ensures Current(ts, i).kind == Id ==> FactorAt(ts, i) == Ok(Parsed(Variable(Var(Current(ts, i))), i + 1))
  {
  }

  lemma FactorSign(ts: TokenStream, i: nat, x: Expr, k: nat)
    requires ts.Valid() && i + 1 < |ts.items| && IsAdditive(Current(ts, i).kind)
    requires FactorAt(ts, i + 1) == Ok(Parsed(x, k))
    ensures FactorAt(ts, i) == Ok(Parsed(UnaryOp(Current(ts, i), x), k))
  {
  }

  lemma FactorParens(ts: TokenStream, i: nat, x: Expr, k: nat)
    requires ts.Valid() && i + 1 < |ts.items| && Current(ts, i).kind == LParen
    requires ExprAt(ts, i + 1) == Ok(Parsed(x, k)) && k + 1 < |ts.items| && Current(ts, k).kind == RParen
    ensures FactorAt(ts, i) == Ok(Parsed(x, k + 1))
  {
  }

  // ---------------------------------------------------------------------------
  // The round trip

  /** Where the parts of a printed tree lie in the stream. */
  lemma ParenTokens(ts: TokenStream, i: nat, e: Expr)
    requires e.BinOp? && TokensAt(ts, i, FactorTokens(e))
    ensures |FactorTokens(e)| == |ExprTokens(e)| + 2
    ensures TokensAt(ts, i + 1, ExprTokens(e)) && Current(ts, i) == LParenToken
    ensures Current(ts, i + 1 + |ExprTokens(e)|) == RParenToken
  {
    var inner := ExprTokens(e);
    assert FactorTokens(e) == [LParenToken] + inner + [RParenToken];
    TokensAt3(ts, i, [LParenToken], inner, [RParenToken]);
    TokensAtHead(ts, i, [LParenToken]);
    TokensAtHead(ts, i + 1 + |inner|, [RParenToken]);
  }

  lemma SignTokens(ts: TokenStream, i: nat, e: Expr)
    requires e.UnaryOp? && TokensAt(ts, i, FactorTokens(e))
    ensures |FactorTokens(e)| == |FactorTokens(e.operand)| + 1
    ensures TokensAt(ts, i + 1, FactorTokens(e.operand)) && Current(ts, i) == e.op
  {
    assert FactorTokens(e) == [e.op] + FactorTokens(e.operand);
    TokensAtSplit(ts, i, [e.op], FactorTokens(e.operand));
    TokensAtHead(ts, i, [e.op]);
  }

  lemma ProductTokens(ts: TokenStream, i: nat, e: Expr)
    requires IsProduct(e) && TokensAt(ts, i, TermTokens(e))
    ensures |TermTokens(e)| == |TermTokens(e.left)| + 1 + |FactorTokens(e.right)|
    ensures TokensAt(ts, i, TermTokens(e.left)) && Current(ts, i + |TermTokens(e.left)|) == e.op
    ensures TokensAt(ts, i + |TermTokens(e.left)| + 1, FactorTokens(e.right))
  {
    var left, right := TermTokens(e.left), FactorTokens(e.right);
    assert TermTokens(e) == left + [e.op] + right;
    TokensAt3(ts, i, left, [e.op], right);
    TokensAtHead(ts, i + |left|, [e.op]);
  }

  lemma SumTokens(ts: TokenStream, i: nat, e: Expr)
    requires IsSum(e) && TokensAt(ts, i, ExprTokens(e))
    ensures |ExprTokens(e)| == |ExprTokens(e.left)| + 1 + |TermTokens(e.right)|
    ensures TokensAt(ts, i, ExprTokens(e.left)) && Current(ts, i + |ExprTokens(e.left)|) == e.op
    ensures TokensAt(ts, i + |ExprTokens(e.left)| + 1, TermTokens(e.right))
  {
    var left, right := ExprTokens(e.left), TermTokens(e.right);
    assert ExprTokens(e) == left + [e.op] + right;
    TokensAt3(ts, i, left, [e.op], right);
    TokensAtHead(ts, i + |left|, [e.op]);
  }

  /** A printed factor is parsed back by factor, whatever follows it. */
  lemma {:induction false} FactorRoundTrip(ts: TokenStream, i: nat, e: Expr)
    requires ts.Valid() && WellFormed(e) && TokensAt(ts, i, FactorTokens(e))
    ensures FactorAt(ts, i) == Ok(Parsed(e, i + |FactorTokens(e)|))
    decreases e, FactorRank(e), 1
  {
    match e
    case Num(t) =>
      TokensAtHead(ts, i, FactorTokens(e));
      FactorLeaf(ts, i);
    case Variable(v) =>
      TokensAtHead(ts, i, FactorTokens(e));
      FactorLeaf(ts, i);
    case UnaryOp(op, x) =>
      SignRoundTrip(ts, i, e);
    case BinOp(_, _, _) =>
      ParensRoundTrip(ts, i, e);
  }

  /** A sign and its printed operand. */
  lemma {:induction false} SignRoundTrip(ts: TokenStream, i: nat, e: Expr)
    requires ts.Valid() && WellFormed(e) && e.UnaryOp? && TokensAt(ts, i, FactorTokens(e))
    ensures FactorAt(ts, i) == Ok(Parsed(e, i + |FactorTokens(e)|))
    decreases e, FactorRank(e), 0
  {
    SignTokens(ts, i, e);
    FactorRoundTrip(ts, i + 1, e.operand);
    FactorSign(ts, i, e.operand, i + |FactorTokens(e)|);
  }

  /** A binary operation in parentheses. */
  lemma {:induction false} ParensRoundTrip(ts: TokenStream, i: nat, e: Expr)
    requires ts.Valid() && WellFormed(e) && e.BinOp? && TokensAt(ts, i, FactorTokens(e))
    ensures FactorAt(ts, i) == Ok(Parsed(e, i + |FactorTokens(e)|))
    decreases e, FactorRank(e), 0
  {
    ParenTokens(ts, i, e);
    var k := i + 1 + |ExprTokens(e)|;
    ExprRoundTrip(ts, i + 1, e);
    ExprTailStop(ts, k, e);
    FactorParens(ts, i, e, k);
  }

  /** A printed term is parsed by term up to its last factor; the loop then goes on at
      the token after it with the whole term as its left operand. */
  lemma {:induction false} TermRoundTrip(ts: TokenStream, i: nat, e: Expr)
    requires ts.Valid() && WellFormed(e) && TokensAt(ts, i, TermTokens(e))
    ensures TermAt(ts, i) == TermTail(ts, i + |TermTokens(e)|, e)
    decreases e, TermRank(e), 2
  {
    if IsProduct(e) {
      ProductRoundTrip(ts, i, e);
    } else {
      FactorRoundTrip(ts, i, e);
      TermAtFactor(ts, i, e, i + |FactorTokens(e)|);
    }
  }

  /** A product: the term before the operator, then one turn of the loop. */
  lemma {:induction false} ProductRoundTrip(ts: TokenStream, i: nat, e: Expr)
    requires ts.Valid() && WellFormed(e) && IsProduct(e) && TokensAt(ts, i, TermTokens(e))
    ensures TermAt(ts, i) == TermTail(ts, i + |TermTokens(e)|, e)
    decreases e, TermRank(e), 1
  {
    ProductTokens(ts, i, e);
    TermRoundTrip(ts, i, e.left);
    ProductStep(ts, i + |TermTokens(e.left)|, e, i + |TermTokens(e)|);
  }

  /** The operator and the printed factor after it make one turn of the term loop. */
  lemma {:induction false} ProductStep(ts: TokenStream, j: nat, e: Expr, k: nat)
    requires ts.Valid() && WellFormed(e) && IsProduct(e) && TokensAt(ts, j + 1, FactorTokens(e.right))
    requires Current(ts, j) == e.op && k == j + 1 + |FactorTokens(e.right)|
    ensures j + 1 < |ts.items| && TermTail(ts, j, e.left) == TermTail(ts, k, e)
    decreases e, TermRank(e), 0
  {
    FactorRoundTrip(ts, j + 1, e.right);
    TermTailStep(ts, j, e, k);
  }

  /** A printed expression followed by a token that is not multiplicative is parsed by
      expr up to its last term; the loop then goes on with the whole expression. */
  lemma {:induction false} ExprRoundTrip(ts: TokenStream, i: nat, e: Expr)
    requires ts.Valid() && WellFormed(e) && TokensAt(ts, i, ExprTokens(e))
    requires !IsMultiplicative(Current(ts, i + |ExprTokens(e)|).kind)
    ensures ExprAt(ts, i) == ExprTail(ts, i + |ExprTokens(e)|, e)
    decreases e, ExprRank(e), 1
  {
    if IsSum(e) {
      SumRoundTrip(ts, i, e);
    } else {
      assert ExprTokens(e) == TermTokens(e);
      var k := i + |ExprTokens(e)|;
      TermRoundTrip(ts, i, e);
      TermTailStop(ts, k, e);
      ExprAtTerm(ts, i, e, k);
    }
  }

  /** A sum: the expression before the operator, then one turn of the loop. */
  lemma {:induction false} SumRoundTrip(ts: TokenStream, i: nat, e: Expr)
    requires ts.Valid() && WellFormed(e) && IsSum(e) && TokensAt(ts, i, ExprTokens(e))
    requires !IsMultiplicative(Current(ts, i + |ExprTokens(e)|).kind)
    ensures ExprAt(ts, i) == ExprTail(ts, i + |ExprTokens(e)|, e)
    decreases e, ExprRank(e), 0
  {
    var k := i + |ExprTokens(e)|;
    SumTokens(ts, i, e);
    var j := i + |ExprTokens(e.left)|;
    ExprRoundTrip(ts, i, e.left);
    TermRoundTrip(ts, j + 1, e.right);
    TermTailStop(ts, k, e.right);
    ExprTailStep(ts, j, e, k);
  }

  /** The round trip: a printed expression followed by a token that is neither additive
      nor multiplicative (such as ')', ';', END or EOF) is parsed into the same tree, and
      the parser stops at that token. */
  lemma ParsePrinted(ts: TokenStream, i: nat, e: Expr)
    requires ts.Valid() && WellFormed(e) && TokensAt(ts, i, ExprTokens(e))
    requires var stop := Current(ts, i + |ExprTokens(e)|).kind; !IsAdditive(stop) && !IsMultiplicative(stop)
    ensures ExprAt(ts, i) == Ok(Parsed(e, i + |ExprTokens(e)|))
  {
    ExprRoundTrip(ts, i, e);
  }

  /** Hence printing loses nothing: distinct trees print as distinct tokens. */
  lemma PrintingIsInjective(e1: Expr, e2: Expr)
    requires WellFormed(e1) && WellFormed(e2) && ExprTokens(e1) == ExprTokens(e2)
    ensures e1 == e2
  {
    ExprAlone(e1);
    ExprAlone(e2);
  }

  predicate NoEof(toks: seq<Token>) {
    forall k :: 0 <= k < |toks| ==> toks[k].kind != Eof
  }

  lemma NoEofConcat(a: seq<Token>, b: seq<Token>)
    requires NoEof(a) && NoEof(b)
    ensures NoEof(a + b)
  {
    forall k | 0 <= k < |a + b|
      ensures (a + b)[k].kind != Eof
    {
      if k >= |a| {
        assert (a + b)[k] == b[k - |a|];
      }
    }
  }

  /** No printed token is EOF. */
  lemma {:induction false} PrintedNotEof(e: Expr)
    requires WellFormed(e)
    ensures NoEof(ExprTokens(e)) && NoEof(TermTokens(e)) && NoEof(FactorTokens(e))
  {
    match e
    case Num(_) =>
      assert ExprTokens(e) == TermTokens(e) == FactorTokens(e);
    case Variable(_) =>
      assert ExprTokens(e) == TermTokens(e) == FactorTokens(e);
    case UnaryOp(op, x) =>
      PrintedNotEof(x);
      NoEofConcat([op], FactorTokens(x));
      assert ExprTokens(e) == TermTokens(e) == FactorTokens(e);
    case BinOp(l, op, r) =>
      PrintedNotEof(l);
      PrintedNotEof(r);
      if IsSum(e) {
        NoEofConcat(ExprTokens(l), [op]);
        NoEofConcat(ExprTokens(l) + [op], TermTokens(r));
        assert TermTokens(e) == FactorTokens(e);
      } else {
        NoEofConcat(TermTokens(l), [op]);
        NoEofConcat(TermTokens(l) + [op], FactorTokens(r));
        assert ExprTokens(e) == TermTokens(e);
      }
      NoEofConcat([LParenToken], ExprTokens(e));
      NoEofConcat([LParenToken] + ExprTokens(e), [RParenToken]);
  }

  /** The stream of the given tokens and then EOF, as the lexer yields for a text that
      holds just those tokens. */
  function Alone(toks: seq<Token>): (ts: TokenStream)
    ensures |ts.items| == |toks| + 1
    ensures forall k :: 0 <= k < |toks| ==> ts.items[k].token == toks[k]
    ensures ts.items[|toks|].token == EofToken
  {
    TokenStream(seq(|toks|, k requires 0 <= k < |toks| => Scanned(toks[k], 0, None)) + [Scanned(EofToken, 0, None)], None)
  }

  lemma AloneValid(toks: seq<Token>)
    requires NoEof(toks)
    ensures Alone(toks).Valid() && TokensAt(Alone(toks), 0, toks)
  {
    AloneMatches(toks, 0);
  }

  lemma {:induction false} AloneMatches(toks: seq<Token>, i: nat)
    requires i <= |toks|
    ensures Matches(Alone(toks), i, toks[i..])
    decreases |toks| - i
  {
    if i < |toks| {
      AloneMatches(toks, i + 1);
      assert toks[i..][1..] == toks[i + 1..];
    }
  }

  /** An expression on its own is parsed whole, and the parser stops at EOF. */
  lemma ExprAlone(e: Expr)
    requires WellFormed(e)
    ensures Alone(ExprTokens(e)).Valid()
    ensures ExprAt(Alone(ExprTokens(e)), 0) == Ok(Parsed(e, |ExprTokens(e)|))
  {
    PrintedNotEof(e);
    AloneValid(ExprTokens(e));
    ParsePrinted(Alone(ExprTokens(e)), 0, e);
  }

  // ---------------------------------------------------------------------------
  // Rejections

  /** A factor cannot start with any other token: the error names that token. */
  lemma FactorRejects(ts: TokenStream, i: nat)
    requires ts.Valid() && i < |ts.items|
    requires Current(ts, i).kind !in {Plus, Minus, LParen, IntegerConst, RealConst, Id}
    ensures FactorAt(ts, i) == Err(UnexpectedAt(Current(ts, i)))
  {
  }

  /** An operator with no right operand, as in "a := 10 * ;": the term fails at the token
      after the operator. */
  lemma MissingOperand(ts: TokenStream, i: nat)
    requires ts.Valid() && i + 2 < |ts.items|
    requires Current(ts, i).kind == IntegerConst && IsMultiplicative(Current(ts, i + 1).kind)
    requires Current(ts, i + 2).kind !in {Plus, Minus, LParen, IntegerConst, RealConst, Id}
    ensures TermAt(ts, i) == Err(UnexpectedAt(Current(ts, i + 2)))
  {
    FactorLeaf(ts, i);
    FactorRejects(ts, i + 2);
    TermAtFactor(ts, i, Num(Current(ts, i)), i + 1);
  }

  /** A statement list that END does not follow: the compound statement fails at the
      token after the list. */
  lemma CompoundMissingEnd(ts: TokenStream, i: nat)
    requires ts.Valid() && i + 1 < |ts.items| && Current(ts, i).kind == BeginKw
    requires StatementListAt(ts, i + 1).Ok? && Current(ts, StatementListAt(ts, i + 1).value.next).kind != EndKw
    ensures CompoundStatementAt(ts, i) == Err(UnexpectedAt(Current(ts, StatementListAt(ts, i + 1).value.next)))
  {
    assert Eat(ts, i, BeginKw) == Ok(i + 1);
  }

  /** An operand followed by a parenthesis, as in "a := 1 (1 + 2)": the assignment ends
      after the 1, the statement list ends there too, and the compound statement fails
      at the '(' where it expects END. */
  lemma SpuriousParentheses(ts: TokenStream, i: nat)
    requires ts.Valid() && i + 4 < |ts.items|
    requires Current(ts, i).kind == BeginKw && Current(ts, i + 1).kind == Id && ts.items[i + 1].follow != Some('(')
    requires Current(ts, i + 2).kind == AssignOp && Current(ts, i + 3).kind == IntegerConst
    requires Current(ts, i + 4).kind == LParen
    ensures CompoundStatementAt(ts, i) == Err(UnexpectedAt(Current(ts, i + 4)))
  {
    var one := Num(Current(ts, i + 3));
    FactorLeaf(ts, i + 3);
    TermTailStop(ts, i + 4, one);
    TermAtFactor(ts, i + 3, one, i + 4);
    ExprTailStop(ts, i + 4, one);
    ExprAtTerm(ts, i + 3, one, i + 4);
    assert Eat(ts, i + 2, AssignOp) == Ok(i + 3);
    var s := Assign(Var(Current(ts, i + 1)), Current(ts, i + 2), one);
    assert AssignmentAt(ts, i + 1) == Ok(Parsed(s, i + 4));
    assert StatementAt(ts, i + 1) == Ok(Parsed(s, i + 4));
    assert StatementTail(ts, i + 4, [s]) == Ok(Parsed([s], i + 4));
    assert StatementListAt(ts, i + 1) == Ok(Parsed([s], i + 4));
    CompoundMissingEnd(ts, i);
  }

  /** At most one VAR section: a second VAR keyword after the first section is where the
      block fails, since the declarations end there and BEGIN is expected. */
  lemma {:induction false} SecondVarRejected(ts: TokenStream, i: nat)
    requires ts.Valid() && i < |ts.items|
    requires VarBlockAt(ts, i).Ok? && Current(ts, VarBlockAt(ts, i).value.next).kind == VarKw
    ensures BlockAt(ts, i) == Err(UnexpectedAt(Current(ts, VarBlockAt(ts, i).value.next)))
  {
    var vars := VarBlockAt(ts, i).value;
    assert ProcedureDecls(ts, vars.next, vars.value) == Ok(Parsed(vars.value, vars.next));
    assert DeclarationsAt(ts, i) == Ok(Parsed(vars.value, vars.next));
    assert CompoundStatementAt(ts, vars.next) == Err(UnexpectedAt(Current(ts, vars.next)));
  }
}

/** The token model: the token kinds with the literal text each kind stands for, and
    the positioned token record with its printed form. */
module Tokens {
  import opened Wrappers
  import opened Text

  /** The kinds of token. Keyword kinds carry the suffix Kw. */
  datatype TokenKind =
    // single-character kinds
    | Mul | Plus | Minus | FloatDiv | LParen | RParen | Colon | Comma | Semi | Dot
    // reserved words
    | ProcedureKw | IntegerKw | RealKw | IntegerDiv | VarKw | ProgramKw | BeginKw | EndKw
    // the rest
    | Id | IntegerConst | RealConst | AssignOp | Eof

  /** The text a kind stands for; the printed form of the kind in messages. */
  function Literal(k: TokenKind): string {
    match k
    case Mul => "*"
    case Plus => "+"
    case Minus => "-"
    case FloatDiv => "/"
    case LParen => "("
    case RParen => ")"
    case Colon => ":"
    case Comma => ","
    case Semi => ";"
    case Dot => "."
    case ProcedureKw => "PROCEDURE"
    case IntegerKw => "INTEGER"
    case RealKw => "REAL"
    case IntegerDiv => "DIV"
    case VarKw => "VAR"
    case ProgramKw => "PROGRAM"
    case BeginKw => "BEGIN"
    case EndKw => "END"
    case Id => "ID"
    case IntegerConst => "INTEGER_CONST"
    case RealConst => "REAL_CONST"
    case AssignOp => ":="
    case Eof => "EOF"
  }

  /** The kind whose literal text is the single character c, if there is one: the
      lexer turns a character into a kind by looking it up among the literals. */
  function SingleCharKind(c: char): (r: Option<TokenKind>)
    ensures r.Some? ==> Literal(r.value) == [c]
    ensures r.None? ==> forall k: TokenKind :: Literal(k) != [c]
  {
    match c
    case '*' => Some(Mul)
    case '+' => Some(Plus)
    case '-' => Some(Minus)
    case '/' => Some(FloatDiv)
    case '(' => Some(LParen)
    case ')' => Some(RParen)
    case ':' => Some(Colon)
    case ',' => Some(Comma)
    case ';' => Some(Semi)
    case '.' => Some(Dot)
    case _ => None
  }

  /** A token's value: absent (null), a text, or a number. A number is kept as the
      exact decimal mantissa / 10^scale. */
  datatype TokenValue = Null | TextValue(text: string) | Numeric(mantissa: nat, scale: nat)

  /** A token: its kind, its value and the position the lexer recorded (absent for the
      end-of-input token). */
  datatype Token = Token(kind: TokenKind, value: TokenValue, lineno: Option<nat>, column: Option<nat>) {

    /** The printed form: Token(<kind>, <value>, position = <lineno> : <column>). */
    function ToString(): string {
      "Token(" + Literal(kind) + ", " + ValueString(value) + ", position = "
        + OptionalNatString(lineno) + " : " + OptionalNatString(column) + ")"
    }
  }

  /** The end-of-input token: kind EOF, null value and no position. */
  const EofToken := Token(Eof, Null, None, None)

  /** The name a token carries when used as an identifier (empty for a token whose
      value is not a text). */
  function NameOf(t: Token): string {
    if t.value.TextValue? then t.value.text else ""
  }

  /** The exact value of a number token. */
  function Pow10(n: nat): (r: nat)
    ensures r >= 1
  {
    if n == 0 then 1 else 10 * Pow10(n - 1)
  }

  function NumericValue(v: TokenValue): real
    requires v.Numeric?
  {
    (v.mantissa as real) / (Pow10(v.scale) as real)
  }

  /** Dropping one trailing zero digit and one decimal place keeps the value. */
  lemma DropZero(m: nat, s: nat)
    requires s > 0 && m % 10 == 0
    ensures ((m / 10) as real) / (Pow10(s - 1) as real) == (m as real) / (Pow10(s) as real)
  {
    var q, p := m / 10, Pow10(s - 1);
    assert (m as real) == 10.0 * (q as real);
    assert (Pow10(s) as real) == 10.0 * (p as real);
  }

  /** Drops trailing zero digits of the fraction; the value stays the same. */
  function Normalize(mantissa: nat, scale: nat): (r: (nat, nat))
    ensures r.1 <= scale
    ensures r.1 > 0 ==> r.0 % 10 != 0
    ensures (r.0 as real) / (Pow10(r.1) as real) == (mantissa as real) / (Pow10(scale) as real)
    decreases scale
  {
    if scale > 0 && mantissa % 10 == 0 then
      DropZero(mantissa, scale);
      Normalize(mantissa / 10, scale - 1)
    else
      (mantissa, scale)
  }

  /** How a value prints inside a template string: text as is, null as "null",
      a number in plain decimal without trailing fraction zeros. */
  function ValueString(v: TokenValue): string {
    match v
    case Null => "null"
    case TextValue(s) => s
    case Numeric(m, s) =>
      var (m', s') := Normalize(m, s);
      if s' == 0 then NatToString(m')
      else
        var digits := PadLeft(NatToString(m'), s' + 1);
        digits[..|digits| - s'] + "." + digits[|digits| - s'..]
  }

  function OptionalNatString(n: Option<nat>): string {
    if n.Some? then NatToString(n.value) else "null"
  }

  /** The printed form of an identifier token, as error messages show it. */
  lemma IdTokenPrinted()
    ensures Token(Id, TextValue("a"), Some(5), Some(14)).ToString() == "Token(ID, a, position = 5 : 14)"
  {
    assert NatToString(14) == "14" by {
      assert NatToString(1) == "1" && NatToString(4) == "4";
    }
    assert NatToString(5) == "5";
    assert "Token(" + "ID" + ", " + "a" + ", position = " + "5" + " : " + "14" + ")" == "Token(ID, a, position = 5 : 14)";
  }
}

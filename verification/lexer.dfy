/** The lexer: turns program text into positioned tokens, one per call.
    The pure functions below say what one call returns (Scan); the class Lexer is the
    step-by-step cursor of the source, proved to return what Scan says. */
module Lexing {
  import opened Wrappers
  import opened Text
  import opened Tokens
  import opened Errors

  // ---------------------------------------------------------------------------
  // Character classes

  /** The characters of the JavaScript class \s: white space and line terminators. */
  predicate IsWhitespace(c: char) {
    c == ' ' || c == '\t' || c == '\n' || c == '\r' || c == '\U{000B}' || c == '\U{000C}'
    || c == '\U{00A0}' || c == '\U{1680}' || ('\U{2000}' <= c <= '\U{200A}')
    || c == '\U{2028}' || c == '\U{2029}' || c == '\U{202F}' || c == '\U{205F}'
    || c == '\U{3000}' || c == '\U{FEFF}'
  }

  /** The lexer's digit test: a character whose numeric coercion is not NaN. The
      coercion trims white space and reads the empty string as 0, so every white-space
      character passes as well as '0'..'9'. */
  predicate IsDigit(c: char) {
    IsDecimalDigit(c) || IsWhitespace(c)
  }

  predicate IsAlpha(c: char) {
    'a' <= c <= 'z' || 'A' <= c <= 'Z'
  }

  predicate IsAlnum(c: char) {
    IsAlpha(c) || IsDecimalDigit(c)
  }

  function UpperChar(c: char): char {
    if 'a' <= c <= 'z' then ((c as int) - 32) as char else c
  }

  function ToUpper(s: string): (r: string)
    ensures |r| == |s|
    ensures forall i :: 0 <= i < |s| ==> r[i] == UpperChar(s[i])
  {
    seq(|s|, i requires 0 <= i < |s| => UpperChar(s[i]))
  }

  /** The reserved words, by their upper-case spelling. */
  const ReservedKeywords: map<string, TokenKind> :=
    map["PROGRAM" := ProgramKw, "PROCEDURE" := ProcedureKw, "VAR" := VarKw,
        "DIV" := IntegerDiv, "INTEGER" := IntegerKw, "REAL" := RealKw,
        "BEGIN" := BeginKw, "END" := EndKw]

  /** Every reserved word is the literal of the kind it maps to, and none maps to ID. */
  lemma ReservedKeywordsAreLiterals()
    ensures forall w :: w in ReservedKeywords ==> Literal(ReservedKeywords[w]) == w && ReservedKeywords[w] != Id
  {
  }

  // ---------------------------------------------------------------------------
  // Positions

  /** The character under the cursor at p; None once the text is exhausted. */
  function CharAt(text: string, p: nat): Option<char> {
    if p < |text| then Some(text[p]) else None
  }

  datatype Position = Position(line: nat, column: nat)

  /** The line and column the cursor holds at p, computed as the cursor moves: it starts
      at 1:1; stepping off a newline adds a line and restarts the column at 0; stepping
      onto a character adds one to the column. */
  function LineCol(text: string, p: nat): Position
    requires p <= |text|
  {
    if p == 0 then Position(1, 1)
    else
      var prev := LineCol(text, p - 1);
      var afterNewline := if text[p - 1] == '\n' then Position(prev.line + 1, 0) else prev;
      if p < |text| then Position(afterNewline.line, afterNewline.column + 1) else afterNewline
  }

  function NewlineCount(s: string): nat {
    if s == [] then 0 else NewlineCount(s[..|s| - 1]) + (if s[|s| - 1] == '\n' then 1 else 0)
  }

  /** The index just past the last newline of s, or 0 when s has none. */
  function LineStart(s: string): (k: nat)
    ensures k <= |s|
  {
    if s == [] then 0 else if s[|s| - 1] == '\n' then |s| else LineStart(s[..|s| - 1])
  }

  /** The cursor's line is one more than the newlines before it, and its column counts
      the characters since the last newline (the character under the cursor included). */
  lemma {:induction false} LineColCounts(text: string, p: nat)
    requires p <= |text|
    ensures LineCol(text, p).line == 1 + NewlineCount(text[..p])
    ensures p < |text| ==> LineCol(text, p).column == p - LineStart(text[..p]) + 1
    ensures 0 < p == |text| ==> LineCol(text, p).column == p - LineStart(text[..p])
  {
    if p > 0 {
      LineColCounts(text, p - 1);
      assert text[..p][..p - 1] == text[..p - 1];
    }
  }

  function TokenAt(kind: TokenKind, value: TokenValue, text: string, p: nat): Token
    requires p <= |text|
  {
    var at := LineCol(text, p);
    Token(kind, value, Some(at.line), Some(at.column))
  }

  // ---------------------------------------------------------------------------
  // Runs and comments

  /** The end of the maximal run of characters of class cls starting at p. */
  function RunEnd(text: string, p: nat, cls: char -> bool): (q: nat)
    requires p <= |text|
    ensures p <= q <= |text|
    ensures forall i :: p <= i < q ==> cls(text[i])
    ensures q == |text| || !cls(text[q])
    ensures p < |text| && cls(text[p]) ==> p < q
    decreases |text| - p
  {
    if p == |text| || !cls(text[p]) then p else RunEnd(text, p + 1, cls)
  }

  /** The index of the first '}' at or after p. */
  function CloseIndex(text: string, p: nat): (r: Option<nat>)
    requires p <= |text|
    ensures r.Some? ==> p <= r.value < |text| && text[r.value] == '}'
    ensures r.Some? ==> forall i :: p <= i < r.value ==> text[i] != '}'
    ensures r.None? ==> forall i :: p <= i < |text| ==> text[i] != '}'
    decreases |text| - p
  {
    if p == |text| then None else if text[p] == '}' then Some(p) else CloseIndex(text, p + 1)
  }

  /** Every comment opened at or after p is closed. A '{' outside a comment always
      opens one (it can belong to no other token), so the lexer, which loops forever on
      an unterminated comment, terminates on every call exactly when this holds. */
  predicate ClosedFrom(text: string, p: nat)
    requires p <= |text|
    decreases |text| - p
  {
    p == |text|
    || (if text[p] == '{' then
          var close := CloseIndex(text, p + 1);
          close.Some? && ClosedFrom(text, close.value + 1)
        else
          ClosedFrom(text, p + 1))
  }

  lemma {:induction false} ClosedFromSkip(text: string, p: nat, q: nat)
    requires p <= q <= |text| && ClosedFrom(text, p)
    requires forall i :: p <= i < q ==> text[i] != '{'
    ensures ClosedFrom(text, q)
    decreases q - p
  {
    if p < q {
      ClosedFromSkip(text, p + 1, q);
    }
  }

  /** A text with no '{' from p on has no comment to leave open. */
  lemma {:induction false} ClosedWithoutBraces(text: string, p: nat)
    requires p <= |text|
    requires forall i :: p <= i < |text| ==> text[i] != '{'
    ensures ClosedFrom(text, p)
    decreases |text| - p
  {
    if p < |text| {
      ClosedWithoutBraces(text, p + 1);
    }
  }

  // ---------------------------------------------------------------------------
  // What one call of the lexer returns

  /** A lexer step: the token (or the error raised) and the cursor position afterwards. */
  datatype Step = Step(outcome: Result<Token, Error>, pos: nat)

  /** The error raised on a character no rule accepts: the message names the character
      and the cursor's line and column; code and token are left absent. */
  function LexerErrorAt(text: string, p: nat): (e: Error)
    requires p < |text|
    ensures e.name == LexerError && e.errorCode.None? && e.token.None?
  {
    var at := LineCol(text, p);
    NewLexerError(None, None,
      "Lexer error on " + [text[p]] + " line: " + NatToString(at.line) + " column: " + NatToString(at.column))
  }

  /** An identifier or reserved word starting at the letter text[p]. */
  function ScanIdentifier(text: string, p: nat): (s: Step)
    requires p < |text| && IsAlpha(text[p])
    ensures s.outcome.Ok? && p < s.pos <= |text|
    ensures forall i :: p <= i < s.pos ==> IsAlnum(text[i])
    ensures s.pos == |text| || !IsAlnum(text[s.pos])
    ensures var t, word := s.outcome.value, text[p..s.pos];
      && t.kind != Eof
      && t == TokenAt(t.kind, t.value, text, s.pos)
      && (t.kind != Id ==> Literal(t.kind) == ToUpper(word) && t.value == TextValue(ToUpper(word)))
      && (t.kind == Id ==> ToUpper(word) !in ReservedKeywords && t.value == TextValue(word))
  {
    ReservedKeywordsAreLiterals();
    var q := RunEnd(text, p, IsAlnum);
    var word := text[p..q];
    var upper := ToUpper(word);
    if upper in ReservedKeywords then Step(Ok(TokenAt(ReservedKeywords[upper], TextValue(upper), text, q)), q)
    else Step(Ok(TokenAt(Id, TextValue(word), text, q)), q)
  }

  /** The longest prefix of s made of decimal digits. */
  function DigitPrefix(s: string): (d: string)
    ensures |d| <= |s| && d == s[..|d|] && AllDigits(d)
    ensures |d| == |s| || !IsDecimalDigit(s[|d|])
  {
    if s == [] || !IsDecimalDigit(s[0]) then "" else [s[0]] + DigitPrefix(s[1..])
  }

  /** JavaScript's parseInt on a string that starts with a digit: the value of the
      leading digits; whatever follows them is ignored. */
  function ParseInt(s: string): TokenValue
    requires |s| > 0 && IsDecimalDigit(s[0])
  {
    Numeric(DigitsValue(DigitPrefix(s)), 0)
  }

  /** JavaScript's parseFloat on a string that starts with a digit: leading digits,
      then, when a '.' follows them at once, the digits after it as the fraction. */
  function ParseFloat(s: string): TokenValue
    requires |s| > 0 && IsDecimalDigit(s[0])
  {
    var whole := DigitPrefix(s);
    if |whole| < |s| && s[|whole|] == '.' then
      var fraction := DigitPrefix(s[|whole| + 1..]);
      Numeric(DigitsValue(whole + fraction), |fraction|)
    else
      Numeric(DigitsValue(whole), 0)
  }

  /** A numeral starting at the digit text[p]: the run of the lexer's digits, then,
      if a '.' follows, the '.' and a second run; REAL_CONST exactly when there is a '.'. */
  function ScanNumber(text: string, p: nat): (s: Step)
    requires p < |text| && IsDecimalDigit(text[p])
    ensures s.outcome.Ok? && p < s.pos <= |text|
    ensures forall i :: p <= i < s.pos ==> IsDigit(text[i]) || text[i] == '.'
    ensures s.outcome.value.kind in {IntegerConst, RealConst} && s.outcome.value.value.Numeric?
    ensures s.outcome.value == TokenAt(s.outcome.value.kind, s.outcome.value.value, text, s.pos)
    ensures s.outcome.value.kind == RealConst <==> '.' in text[p..s.pos]
    ensures s.outcome.value.kind == IntegerConst ==> s.outcome.value.value == ParseInt(text[p..s.pos])
    ensures s.outcome.value.kind == RealConst ==> s.outcome.value.value == ParseFloat(text[p..s.pos])
  {
    var p1 := RunEnd(text, p, IsDigit);
    if p1 < |text| && text[p1] == '.' then
      var p2 := RunEnd(text, p1 + 1, IsDigit);
      assert text[p..p2][p1 - p] == '.';
      Step(Ok(TokenAt(RealConst, ParseFloat(text[p..p2]), text, p2)), p2)
    else
      assert forall i :: p <= i < p1 ==> text[i] != '.';
      Step(Ok(TokenAt(IntegerConst, ParseInt(text[p..p1]), text, p1)), p1)
  }

  /** What one call of the lexer returns from cursor position p, and where it leaves
      the cursor. White space and comments are skipped; at the end of the text the
      result is the EOF token. */
  function Scan(text: string, p: nat): (s: Step)
    requires p <= |text| && ClosedFrom(text, p)
    ensures p <= s.pos <= |text|
    ensures s.outcome.Ok? ==> ClosedFrom(text, s.pos)
    ensures s.outcome.Ok? && s.outcome.value.kind == Eof ==> s.outcome.value == EofToken && s.pos == |text|
    ensures s.outcome.Ok? && s.outcome.value.kind != Eof ==> p < s.pos
    ensures s.outcome.Err? ==> s.pos < |text| && ClosedFrom(text, s.pos)
    decreases |text| - p
  {
    if p == |text| then Step(Ok(EofToken), p)
    else
      var c := text[p];
      if IsWhitespace(c) then
        var q := RunEnd(text, p, IsWhitespace);
        ClosedFromSkip(text, p, q);
        Scan(text, q)
      else if c == '{' then
        Scan(text, CloseIndex(text, p + 1).value + 1)
      else if IsAlpha(c) then
        var s := ScanIdentifier(text, p);
        ClosedFromSkip(text, p, s.pos);
        s
      else if IsDigit(c) then
        var s := ScanNumber(text, p);
        ClosedFromSkip(text, p, s.pos);
        s
      else if c == ':' && CharAt(text, p + 1) == Some('=') then
        ClosedFromSkip(text, p, p + 2);
        Step(Ok(TokenAt(AssignOp, TextValue(":="), text, p + 2)), p + 2)
      else if SingleCharKind(c).Some? then
        Step(Ok(TokenAt(SingleCharKind(c).value, TextValue([c]), text, p)), p + 1)
      else
        Step(Err(LexerErrorAt(text, p)), p)
  }

  lemma SliceAround(s: string, i: nat, j: nat, k: nat)
    requires i <= j < k <= |s|
    ensures s[i..k] == s[i..j] + [s[j]] + s[j + 1..k]
  {
  }

  /** A numeral whose digit run is followed by '.': a REAL_CONST read up to the end of
      the second run. */
  lemma ScanNumberReal(text: string, p: nat, dot: nat, q: nat)
    requires p < dot < q <= |text| && IsDecimalDigit(text[p])
    requires dot == RunEnd(text, p, IsDigit) && text[dot] == '.' && q == RunEnd(text, dot + 1, IsDigit)
    ensures ScanNumber(text, p) == Step(Ok(TokenAt(RealConst, ParseFloat(text[p..q]), text, q)), q)
  {
  }

  /** A numeral whose digit run is not followed by '.': an INTEGER_CONST. */
  lemma ScanNumberInteger(text: string, p: nat, q: nat)
    requires p < q <= |text| && IsDecimalDigit(text[p])
    requires q == RunEnd(text, p, IsDigit) && (q == |text| || text[q] != '.')
    ensures ScanNumber(text, p) == Step(Ok(TokenAt(IntegerConst, ParseInt(text[p..q]), text, q)), q)
  {
  }

  /** Within a line the column grows by one per character: from p to q with no newline
      in between (q not at the end of the text), the line stays and the column advances
      by q - p. */
  lemma {:induction false} LineColWithinLine(text: string, p: nat, q: nat)
    requires p <= q < |text|
    requires forall i :: p <= i < q ==> text[i] != '\n'
    ensures LineCol(text, q) == Position(LineCol(text, p).line, LineCol(text, p).column + (q - p))
    decreases q - p
  {
    if p < q {
      LineColWithinLine(text, p, q - 1);
    }
  }

  /** A newline moves the cursor to column 1 of the next line: from p up to the newline
      at q, with no other newline in between. */
  lemma LineColNextLine(text: string, p: nat, q: nat)
    requires p <= q && q + 1 < |text| && text[q] == '\n'
    requires forall i :: p <= i < q ==> text[i] != '\n'
    ensures LineCol(text, q + 1) == Position(LineCol(text, p).line + 1, 1)
  {
    LineColWithinLine(text, p, q);
  }

  /** The cursor after a run of characters from p that holds no newline: same line,
      the column advanced by the run's length, or one less at the end of the text. */
  lemma RunPosition(text: string, p: nat, q: nat)
    requires p < q <= |text|
    requires forall i :: p <= i < q ==> text[i] != '\n'
    ensures LineCol(text, q).line == LineCol(text, p).line
    ensures LineCol(text, q).column == LineCol(text, p).column + (q - p) - (if q == |text| then 1 else 0)
  {
    if q < |text| {
      LineColWithinLine(text, p, q);
    } else {
      LineColWithinLine(text, p, q - 1);
      assert text[q - 1] != '\n';
    }
  }

  /** An identifier or keyword is reported on the line of its first letter, at the column
      of the cursor after its last one: the first letter's column plus the word's length,
      or one less when the word ends the text, since the cursor then stays on the last
      column. */
  lemma IdentifierPosition(text: string, p: nat)
    requires p < |text| && IsAlpha(text[p])
    ensures var s, at := ScanIdentifier(text, p), LineCol(text, p);
      && s.outcome.value.lineno == Some(at.line)
      && s.outcome.value.column == Some(at.column + (s.pos - p) - (if s.pos == |text| then 1 else 0))
  {
    var s := ScanIdentifier(text, p);
    forall i | p <= i < s.pos ensures text[i] != '\n' {
      assert IsAlnum(text[i]);
    }
    RunPosition(text, p, s.pos);
  }

  /** White space produces no token: the lexer goes on from the end of the run. */
  lemma ScanSkipsWhitespace(text: string, p: nat)
    requires p < |text| && IsWhitespace(text[p]) && ClosedFrom(text, p)
    ensures ClosedFrom(text, RunEnd(text, p, IsWhitespace))
    ensures Scan(text, p) == Scan(text, RunEnd(text, p, IsWhitespace))
  {
    ClosedFromSkip(text, p, RunEnd(text, p, IsWhitespace));
  }

  /** A comment produces no token: the lexer goes on after its closing brace. */
  lemma ScanSkipsComment(text: string, p: nat)
    requires p < |text| && text[p] == '{' && ClosedFrom(text, p)
    ensures CloseIndex(text, p + 1).Some? && ClosedFrom(text, CloseIndex(text, p + 1).value + 1)
    ensures Scan(text, p) == Scan(text, CloseIndex(text, p + 1).value + 1)
  {
  }

  // ---------------------------------------------------------------------------
  // The lexer object

  class Lexer {
    const text: string
    var pos: nat
    var currentChar: Option<char>
    var lineno: nat
    var column: nat

    /** The cursor fields agree with each other: the current character is the one at
        pos, and lineno/column are the cursor's position. */
    ghost predicate Positioned()
      reads this
    {
      pos <= |text| && currentChar == CharAt(text, pos) && Position(lineno, column) == LineCol(text, pos)
    }

    /** ... and no comment left ahead of the cursor is unterminated. */
    ghost predicate Valid()
      reads this
    {
      Positioned() && ClosedFrom(text, pos)
    }

    constructor(text: string)
      requires ClosedFrom(text, 0)
      ensures Valid() && this.text == text && pos == 0
    {
      this.text := text;
      pos := 0;
      currentChar := CharAt(text, 0);
      lineno := 1;
      column := 1;
    }

    /** Moves the cursor one character on. */
    method Advance()
      requires Positioned() && currentChar.Some?
      modifies this
      ensures Positioned() && pos == old(pos) + 1
    {
      if currentChar == Some('\n') {
        lineno := lineno + 1;
        column := 0;
      }
      pos := pos + 1;
      if pos > |text| - 1 {
        currentChar := None;
      } else {
        currentChar := Some(text[pos]);
        column := column + 1;
      }
    }

    /** The character after the current one, without moving. */
    method Peek() returns (c: Option<char>)
      requires Positioned()
      ensures c == CharAt(text, pos + 1)
    {
      var peekPos := pos + 1;
      if peekPos > |text| - 1 {
        return None;
      }
      return Some(text[peekPos]);
    }

    method SkipWhitespace()
      requires Valid()
      modifies this
      ensures Valid() && pos == RunEnd(text, old(pos), IsWhitespace)
    {
      while currentChar.Some? && IsWhitespace(currentChar.value)
        invariant Valid() && RunEnd(text, pos, IsWhitespace) == RunEnd(text, old(pos), IsWhitespace)
        decreases |text| - pos
      {
        Advance();
      }
    }

    /** Skips the rest of a comment whose '{' the cursor has just passed. */
    method SkipComment()
      requires Positioned() && 0 < pos && text[pos - 1] == '{' && ClosedFrom(text, pos - 1)
      modifies this
      ensures Valid() && pos == CloseIndex(text, old(pos)).value + 1
      ensures Scan(text, pos) == Scan(text, old(pos) - 1)
    {
      ghost var open := pos - 1;
      while currentChar != Some('}')
        invariant Positioned() && CloseIndex(text, pos) == CloseIndex(text, old(pos))
        decreases |text| - pos
      {
        Advance();
      }
      assert CloseIndex(text, open + 1) == Some(pos);
      ScanSkipsComment(text, open);
      Advance();
    }

    /** Reads a run of the lexer's digits (the loops of the numeral reader). */
    method DigitRun() returns (run: string)
      requires Valid()
      modifies this
      ensures Valid() && pos == RunEnd(text, old(pos), IsDigit) && run == text[old(pos)..pos]
    {
      run := "";
      while currentChar.Some? && IsDigit(currentChar.value)
        invariant Valid() && old(pos) <= pos && run == text[old(pos)..pos]
        invariant RunEnd(text, pos, IsDigit) == RunEnd(text, old(pos), IsDigit)
        decreases |text| - pos
      {
        run := run + [currentChar.value];
        Advance();
      }
    }

    /** Reads an integer or real numeral. */
    method Number() returns (t: Token)
      requires Valid() && currentChar.Some? && IsDecimalDigit(currentChar.value)
      modifies this
      ensures Valid() && ScanNumber(text, old(pos)) == Step(Ok(t), pos)
    {
      ghost var start := pos;
      var result := DigitRun();
      if currentChar == Some('.') {
        ghost var dot := pos;
        Advance();
        ClosedFromSkip(text, dot, pos);
        var fraction := DigitRun();
        SliceAround(text, start, dot, pos);
        result := result + ['.'] + fraction;
        assert result == text[start..pos];
        t := Token(RealConst, ParseFloat(result), Some(lineno), Some(column));
        ScanNumberReal(text, start, dot, pos);
      } else {
        t := Token(IntegerConst, ParseInt(result), Some(lineno), Some(column));
        ScanNumberInteger(text, start, pos);
      }
    }

    /** Reads an identifier or a reserved word. */
    method Identifier() returns (t: Token)
      requires Valid() && currentChar.Some? && IsAlpha(currentChar.value)
      modifies this
      ensures Valid() && ScanIdentifier(text, old(pos)) == Step(Ok(t), pos)
    {
      var value := "";
      while currentChar.Some? && IsAlnum(currentChar.value)
        invariant Valid() && old(pos) <= pos && value == text[old(pos)..pos]
        invariant RunEnd(text, pos, IsAlnum) == RunEnd(text, old(pos), IsAlnum)
        decreases |text| - pos
      {
        value := value + [currentChar.value];
        Advance();
      }
      var upper := ToUpper(value);
      if upper in ReservedKeywords {
        t := Token(ReservedKeywords[upper], TextValue(upper), Some(lineno), Some(column));
      } else {
        t := Token(Id, TextValue(value), Some(lineno), Some(column));
      }
    }

    /** The error for the current character (the source throws it). */
    method MakeError() returns (e: Error)
      requires Positioned() && currentChar.Some?
      ensures e == LexerErrorAt(text, pos)
    {
      var message := "Lexer error on " + [currentChar.value] + " line: " + NatToString(lineno)
        + " column: " + NatToString(column);
      e := NewLexerError(None, None, message);
    }

    /** Reads the token that starts at the current character, which is neither white
        space nor the start of a comment. */
    method ReadToken() returns (r: Result<Token, Error>)
      requires Valid() && currentChar.Some? && !IsWhitespace(currentChar.value) && currentChar.value != '{'
      modifies this
      ensures Valid() && Scan(text, old(pos)) == Step(r, pos)
    {
      var c := currentChar.value;
      if IsAlpha(c) {
        var t := Identifier();
        return Ok(t);
      }
      if IsDigit(c) {
        var t := Number();
        return Ok(t);
      }
      if c == ':' {
        var next := Peek();
        if next == Some('=') {
          ghost var start := pos;
          Advance();
          Advance();
          ClosedFromSkip(text, start, pos);
          r := Ok(Token(AssignOp, TextValue(":="), Some(lineno), Some(column)));
          assert Scan(text, start) == Step(r, pos);
          return;
        }
      }
      var kind := SingleCharKind(c);
      if kind.Some? {
        var t := Token(kind.value, TextValue([c]), Some(lineno), Some(column));
        Advance();
        return Ok(t);
      }
      var e := MakeError();
      return Err(e);
    }

    /** Returns the next token, or the error for a character no rule accepts. */
    method GetNextToken() returns (r: Result<Token, Error>)
      requires Valid()
      modifies this
      ensures Valid() && Scan(text, old(pos)) == Step(r, pos)
    {
      while currentChar.Some?
        invariant Valid() && Scan(text, pos) == Scan(text, old(pos))
        decreases |text| - pos
      {
        var c := currentChar.value;
        ghost var p := pos;
        if IsWhitespace(c) {
          ScanSkipsWhitespace(text, p);
          SkipWhitespace();
        } else if c == '{' {
          Advance();
          SkipComment();
        } else {
          r := ReadToken();
          return;
        }
      }
      return Ok(EofToken);
    }
  }
}

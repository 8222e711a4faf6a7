/** Properties of the lexer: white space and comments never produce a token, what the
    first significant character decides, and the token table of the lexer tests. */
module LexingProps {
  import opened Wrappers
  import opened Text
  import opened Tokens
  import opened Errors
  import opened Lexing

  /** The first position at or after p that is neither white space nor inside a comment. */
  function TriviaEnd(text: string, p: nat): (q: nat)
    requires p <= |text| && ClosedFrom(text, p)
    ensures p <= q <= |text| && ClosedFrom(text, q)
    ensures q < |text| ==> !IsWhitespace(text[q]) && text[q] != '{'
    decreases |text| - p
  {
    if p == |text| then p
    else if IsWhitespace(text[p]) then
      ScanSkipsWhitespace(text, p);
      TriviaEnd(text, RunEnd(text, p, IsWhitespace))
    else if text[p] == '{' then
      ScanSkipsComment(text, p);
      TriviaEnd(text, CloseIndex(text, p + 1).value + 1)
    else p
  }

  /** A character no lexer rule accepts. */
  predicate Unaccepted(c: char) {
    !IsWhitespace(c) && c != '{' && !IsAlpha(c) && !IsDigit(c) && c != ':' && SingleCharKind(c).None?
  }

  /** Trivia is skipped: what the lexer returns from p is what it returns from the first
      significant position. */
  lemma {:induction false} ScanStartsAfterTrivia(text: string, p: nat)
    requires p <= |text| && ClosedFrom(text, p)
    ensures Scan(text, p) == Scan(text, TriviaEnd(text, p))
    decreases |text| - p
  {
    if p < |text| && IsWhitespace(text[p]) {
      ScanSkipsWhitespace(text, p);
      ScanStartsAfterTrivia(text, RunEnd(text, p, IsWhitespace));
    } else if p < |text| && text[p] == '{' {
      ScanSkipsComment(text, p);
      ScanStartsAfterTrivia(text, CloseIndex(text, p + 1).value + 1);
    }
  }

  /** The first significant character decides the outcome: none left gives EOF, one no
      rule accepts gives a LexerError raised at it, any other gives a real token that
      consumes it. */
  lemma ScanClassification(text: string, p: nat)
    requires p <= |text| && ClosedFrom(text, p)
    ensures var q, s := TriviaEnd(text, p), Scan(text, p);
      && (q == |text| ==> s == Step(Ok(EofToken), |text|))
      && (q < |text| && Unaccepted(text[q]) ==> s == Step(Err(LexerErrorAt(text, q)), q))
      && (q < |text| && !Unaccepted(text[q]) ==> s.outcome.Ok? && s.outcome.value.kind != Eof && q < s.pos)
  {
    ScanStartsAfterTrivia(text, p);
    var q := TriviaEnd(text, p);
    if q < |text| && !Unaccepted(text[q]) {
      var c := text[q];
      if !IsAlpha(c) && !IsDigit(c) && !(c == ':' && CharAt(text, q + 1) == Some('=')) {
        assert SingleCharKind(c).Some?;
        assert Literal(SingleCharKind(c).value) == [c];
      }
    }
  }

  /** Only an exhausted text yields EOF, and the lexer keeps yielding it. */
  lemma EofExactlyAtEnd(text: string, p: nat)
    requires p <= |text| && ClosedFrom(text, p)
    ensures Scan(text, p).outcome == Ok(EofToken) <==> TriviaEnd(text, p) == |text|
    ensures Scan(text, p).outcome == Ok(EofToken) ==> Scan(text, Scan(text, p).pos) == Scan(text, p)
  {
    ScanClassification(text, p);
  }

  /** ':' directly followed by '=' is one ASSIGN token; otherwise ':' is a COLON. */
  lemma ColonOrAssign(text: string, p: nat)
    requires p < |text| && text[p] == ':' && ClosedFrom(text, p)
    ensures Scan(text, p).outcome.Ok?
    ensures CharAt(text, p + 1) == Some('=') ==>
      Scan(text, p).outcome.value.kind == AssignOp && Scan(text, p).pos == p + 2
    ensures CharAt(text, p + 1) != Some('=') ==>
      Scan(text, p).outcome.value.kind == Colon && Scan(text, p).pos == p + 1
  {
  }

  /** Dispatch on a letter, a digit and a one-character symbol. */
  lemma ScanLetter(text: string, p: nat)
    requires p < |text| && ClosedFrom(text, p) && IsAlpha(text[p])
    ensures Scan(text, p) == ScanIdentifier(text, p)
  {
  }

  lemma ScanDigit(text: string, p: nat)
    requires p < |text| && ClosedFrom(text, p) && IsDecimalDigit(text[p])
    ensures Scan(text, p) == ScanNumber(text, p)
  {
  }

  lemma ScanSymbol(text: string, p: nat)
    requires p < |text| && ClosedFrom(text, p) && SingleCharKind(text[p]).Some? && text[p] != ':'
    ensures Scan(text, p) == Step(Ok(TokenAt(SingleCharKind(text[p]).value, TextValue([text[p]]), text, p)), p + 1)
  {
    assert !IsWhitespace(text[p]) && !IsDigit(text[p]);
  }

  /** The first token of a comment-free text. */
  predicate FirstToken(text: string, kind: TokenKind, value: TokenValue)
    requires forall i :: 0 <= i < |text| ==> text[i] != '{'
  {
    ClosedWithoutBraces(text, 0);
    Scan(text, 0).outcome.Ok? && Scan(text, 0).outcome.value.kind == kind && Scan(text, 0).outcome.value.value == value
  }

  /** A word that is the whole text is read whole. */
  lemma WordToken(text: string)
    requires |text| > 0 && forall i :: 0 <= i < |text| ==> IsAlnum(text[i])
    requires IsAlpha(text[0])
    ensures ClosedFrom(text, 0)
    ensures forall i :: 0 <= i < |text| ==> text[i] != '{'
    ensures var upper := ToUpper(text);
      && (upper in ReservedKeywords ==> FirstToken(text, ReservedKeywords[upper], TextValue(upper)))
      && (upper !in ReservedKeywords ==> FirstToken(text, Id, TextValue(text)))
  {
    ClosedWithoutBraces(text, 0);
    ScanLetter(text, 0);
    assert RunEnd(text, 0, IsAlnum) == |text|;
    assert text[0..|text|] == text;
  }

  /** A one-character symbol that is the whole text. */
  lemma SymbolToken(c: char)
    requires SingleCharKind(c).Some? && c != ':'
    ensures c != '{' && FirstToken([c], SingleCharKind(c).value, TextValue([c]))
  {
    ClosedWithoutBraces([c], 0);
    ScanSymbol([c], 0);
  }

  /** The numerals of the lexer tests. */
  lemma LexerIntegerToken()
    ensures FirstToken("234", IntegerConst, Numeric(234, 0))
  {
    var text := "234";
    ClosedWithoutBraces(text, 0);
    assert RunEnd(text, 0, IsDigit) == 3;
    assert ParseInt(text[0..3]) == Numeric(234, 0) by {
      assert text[0..3] == text;
      assert DigitPrefix(text) == text;
      assert DigitsValue(text) == 234 by {
        assert text[..2] == "23" && "23"[..1] == "2";
      }
    }
    ScanDigit(text, 0);
    ScanNumberInteger(text, 0, 3);
  }

  lemma LexerRealToken()
    ensures FirstToken("3.14", RealConst, Numeric(314, 2))
  {
    var text := "3.14";
    ClosedWithoutBraces(text, 0);
    assert RunEnd(text, 0, IsDigit) == 1;
    assert RunEnd(text, 2, IsDigit) == 4;
    assert ParseFloat(text[0..4]) == Numeric(314, 2) by {
      assert text[0..4] == text;
      assert DigitPrefix(text) == "3";
      assert text[2..] == "14";
      assert DigitPrefix("14") == "14";
      assert "3" + "14" == "314";
      assert DigitsValue("314") == 314 by {
        assert "314"[..2] == "31" && "31"[..1] == "3";
      }
    }
    ScanDigit(text, 0);
    ScanNumberReal(text, 0, 1, 4);
  }

  /** The symbol tokens of the lexer tests: each text's first token has the listed kind
      and value. */
  lemma LexerOperatorTokens()
    ensures FirstToken("*", Mul, TextValue("*"))
    ensures FirstToken("/", FloatDiv, TextValue("/"))
    ensures FirstToken("+", Plus, TextValue("+"))
    ensures FirstToken("-", Minus, TextValue("-"))
  {
    SymbolToken('*');
    SymbolToken('/');
    SymbolToken('+');
    SymbolToken('-');
  }

  lemma LexerPunctuationTokens()
    ensures FirstToken("(", LParen, TextValue("("))
    ensures FirstToken(")", RParen, TextValue(")"))
    ensures FirstToken(".", Dot, TextValue("."))
    ensures FirstToken(";", Semi, TextValue(";"))
  {
    SymbolToken('(');
    SymbolToken(')');
    SymbolToken('.');
    SymbolToken(';');
  }

  lemma LexerAssignToken()
    ensures FirstToken(":=", AssignOp, TextValue(":="))
  {
    ClosedWithoutBraces(":=", 0);
    ColonOrAssign(":=", 0);
  }

  lemma UpperSpellings()
    ensures ToUpper("DIV") == "DIV" && ToUpper("BEGIN") == "BEGIN" && ToUpper("END") == "END"
    ensures ToUpper("begin") == "BEGIN" && ToUpper("Div") == "DIV"
  {
  }

  lemma UpperNumber()
    ensures ToUpper("number") == "NUMBER" && ToUpper("Number") == "NUMBER"
    ensures "NUMBER" !in ReservedKeywords
  {
  }

  /** The word tokens of the lexer tests. */
  lemma LexerWordTable()
    ensures FirstToken("DIV", IntegerDiv, TextValue("DIV"))
    ensures FirstToken("number", Id, TextValue("number"))
  {
    UpperSpellings();
    UpperNumber();
    WordToken("DIV");
    WordToken("number");
  }

  lemma LexerBlockWords()
    ensures FirstToken("BEGIN", BeginKw, TextValue("BEGIN"))
    ensures FirstToken("END", EndKw, TextValue("END"))
  {
    UpperSpellings();
    WordToken("BEGIN");
    WordToken("END");
  }

  /** Reserved words are recognised in any letter case, and the token value is then
      the upper-case spelling; an identifier keeps its own spelling. */
  lemma KeywordsIgnoreCase()
    ensures FirstToken("begin", BeginKw, TextValue("BEGIN"))
    ensures FirstToken("Div", IntegerDiv, TextValue("DIV"))
    ensures FirstToken("Number", Id, TextValue("Number"))
  {
    UpperSpellings();
    UpperNumber();
    WordToken("begin");
    WordToken("Div");
    WordToken("Number");
  }

  /** An unaccepted character raises a LexerError naming it and its position. */
  lemma LexerErrorOnUnknownCharacter()
    ensures ClosedFrom("<", 0)
    ensures Scan("<", 0).outcome == Err(Error(LexerError, None, None, "Lexer error on < line: 1 column: 1"))
  {
    var text := "<";
    ClosedWithoutBraces(text, 0);
    assert !IsWhitespace('<') && !IsDigit('<') && SingleCharKind('<').None?;
    assert Scan(text, 0) == Step(Err(LexerErrorAt(text, 0)), 0);
    assert LexerErrorAt(text, 0).message == "Lexer error on < line: 1 column: 1" by {
      assert LineCol(text, 0) == Position(1, 1);
      assert NatToString(1) == "1";
    }
  }

  // ---------------------------------------------------------------------------
  // Positions in a text given as its lines

  /** Lines joined by newlines: the text of a program written out line by line. */
  function JoinLines(lines: seq<string>): string {
    if |lines| == 0 then ""
    else if |lines| == 1 then lines[0]
    else JoinLines(lines[..|lines| - 1]) + "\n" + lines[|lines| - 1]
  }

  /** The offset of the first character of line l in JoinLines(lines). */
  function LineOffset(lines: seq<string>, l: nat): nat
    requires l < |lines|
  {
    if l == 0 then 0 else |JoinLines(lines[..l])| + 1
  }

  predicate NoNewlines(lines: seq<string>) {
    forall k :: 0 <= k < |lines| ==> '\n' !in lines[k]
  }

  lemma {:induction false} NewlineCountAppend(a: string, b: string)
    ensures NewlineCount(a + b) == NewlineCount(a) + NewlineCount(b)
    decreases |b|
  {
    if b != [] {
      assert (a + b)[..|a + b| - 1] == a + b[..|b| - 1];
      var last := if b[|b| - 1] == '\n' then 1 else 0;
      assert (a + b)[|a + b| - 1] == b[|b| - 1];
      assert NewlineCount(a + b) == NewlineCount(a + b[..|b| - 1]) + last;
      assert NewlineCount(b) == NewlineCount(b[..|b| - 1]) + last;
      NewlineCountAppend(a, b[..|b| - 1]);
    } else {
      assert a + b == a;
    }
  }

  lemma {:induction false} NewlineFree(s: string)
    requires '\n' !in s
    ensures NewlineCount(s) == 0 && LineStart(s) == 0
    decreases |s|
  {
    if s != [] {
      NewlineFree(s[..|s| - 1]);
    }
  }

  /** After a newline and a newline-free b, the line starts just past that newline. */
  lemma {:induction false} LineStartAfter(a: string, b: string)
    requires '\n' !in b
    ensures LineStart(a + "\n" + b) == |a| + 1
    decreases |b|
  {
    if b != [] {
      assert (a + "\n" + b)[..|a + "\n" + b| - 1] == a + "\n" + b[..|b| - 1];
      LineStartAfter(a, b[..|b| - 1]);
    }
  }

  /** A text of n newline-free lines holds n - 1 newlines. */
  lemma {:induction false} JoinLinesNewlines(lines: seq<string>)
    requires |lines| > 0 && NoNewlines(lines)
    ensures NewlineCount(JoinLines(lines)) == |lines| - 1
    decreases |lines|
  {
    var n := |lines|;
    if n == 1 {
      NewlineFree(lines[0]);
    } else {
      var init := lines[..n - 1];
      JoinLinesNewlines(init);
      NewlineCountAppend(JoinLines(init) + "\n", lines[n - 1]);
      NewlineCountAppend(JoinLines(init), "\n");
      NewlineFree(lines[n - 1]);
      assert NewlineCount("\n") == 1 by {
        assert "\n"[..0] == "";
      }
    }
  }

  /** The text of the first lines is a prefix of the whole text. */
  lemma {:induction false} JoinLinesPrefix(lines: seq<string>, m: nat)
    requires 0 < m <= |lines|
    ensures JoinLines(lines[..m]) <= JoinLines(lines)
    decreases |lines| - m
  {
    var n := |lines|;
    if m < n {
      JoinLinesPrefix(lines[..n - 1], m);
      assert lines[..n - 1][..m] == lines[..m];
    } else {
      assert lines[..m] == lines;
    }
  }

  /** The last line of a text of more than one line follows a newline. */
  lemma JoinLinesLast(lines: seq<string>, l: nat)
    requires 0 < l < |lines|
    ensures JoinLines(lines[..l + 1]) == JoinLines(lines[..l]) + "\n" + lines[l]
  {
    assert lines[..l + 1][..l] == lines[..l];
  }

  lemma SlicePrefix(text: string, head: string, line: string, c: nat)
    requires head + line <= text && c < |line|
    ensures |head| + c < |text| && text[|head| + c] == line[c]
    ensures text[..|head| + c] == head + line[..c]
  {
    var upto := head + line;
    assert upto[|head| + c] == line[c];
    assert upto[..|head| + c] == head + line[..c];
  }

  /** The text up to character c of line l: the lines before it, a newline, and the
      first c characters of line l. */
  lemma LinePrefix(lines: seq<string>, l: nat, c: nat)
    requires l < |lines| && c < |lines[l]|
    ensures var text, p := JoinLines(lines), LineOffset(lines, l) + c;
      && p < |text| && text[p] == lines[l][c]
      && text[..p] == (if l == 0 then [] else JoinLines(lines[..l]) + "\n") + lines[l][..c]
  {
    var head: string := if l == 0 then [] else JoinLines(lines[..l]) + "\n";
    JoinLinesPrefix(lines, l + 1);
    if l == 0 {
      assert lines[..1] == [lines[0]];
    } else {
      JoinLinesLast(lines, l);
    }
    assert JoinLines(lines[..l + 1]) == head + lines[l];
    SlicePrefix(JoinLines(lines), head, lines[l], c);
  }

  /** The line and column of a cursor whose text so far is head (the lines before, each
      ended by its newline) and the newline-free part of the current line. */
  lemma PositionAfterLines(lines: seq<string>, l: nat, before: string, text: string, p: nat)
    requires NoNewlines(lines) && l < |lines| && '\n' !in before
    requires p < |text| && text[..p] == (if l == 0 then [] else JoinLines(lines[..l]) + "\n") + before
    ensures LineCol(text, p) == Position(l + 1, |before| + 1)
  {
    NewlineFree(before);
    if l > 0 {
      var init := JoinLines(lines[..l]);
      assert NoNewlines(lines[..l]);
      JoinLinesNewlines(lines[..l]);
      NewlineCountAppend(init + "\n", before);
      NewlineCountAppend(init, "\n");
      assert NewlineCount("\n") == 1 by {
        assert "\n"[..0] == "";
      }
      LineStartAfter(init, before);
    } else {
      assert text[..p] == before;
    }
    LineColCounts(text, p);
  }

  /** Character c of line l of a text written line by line is where the lexer reports
      line l + 1, column c + 1. */
  lemma LinePosition(lines: seq<string>, l: nat, c: nat)
    requires NoNewlines(lines) && l < |lines| && c < |lines[l]|
    ensures var text, p := JoinLines(lines), LineOffset(lines, l) + c;
      && p < |text| && text[p] == lines[l][c]
      && LineCol(text, p) == Position(l + 1, c + 1)
  {
    var text, p := JoinLines(lines), LineOffset(lines, l) + c;
    var before := lines[l][..c];
    assert '\n' !in before by {
      assert forall x :: x in before ==> x in lines[l];
    }
    LinePrefix(lines, l, c);
    PositionAfterLines(lines, l, before, text, p);
    assert |before| == c;
  }

  /** A letter followed by a character that is neither letter nor digit is an identifier
      of one letter, unless it is a reserved word, reported at the cursor after it. */
  lemma OneLetterScan(text: string, p: nat)
    requires p + 1 < |text| && IsAlpha(text[p]) && !IsAlnum(text[p + 1])
    requires ToUpper([text[p]]) !in ReservedKeywords
    ensures ScanIdentifier(text, p) == Step(Ok(TokenAt(Id, TextValue([text[p]]), text, p + 1)), p + 1)
  {
    assert RunEnd(text, p, IsAlnum) == p + 1;
    assert text[p..p + 1] == [text[p]];
  }

  /** A one-letter identifier at character c of line l is reported at line l + 1, column
      c + 2: the cursor stops on the character after it. */
  lemma OneLetterIdentifier(lines: seq<string>, l: nat, c: nat)
    requires NoNewlines(lines) && l < |lines| && c + 1 < |lines[l]|
    requires IsAlpha(lines[l][c]) && !IsAlnum(lines[l][c + 1])
    requires ToUpper([lines[l][c]]) !in ReservedKeywords
    ensures var text, p := JoinLines(lines), LineOffset(lines, l) + c;
      && p < |text| && text[p] == lines[l][c]
      && ScanIdentifier(text, p) == Step(Ok(Token(Id, TextValue([lines[l][c]]), Some(l + 1), Some(c + 2))), p + 1)
  {
    var text, p := JoinLines(lines), LineOffset(lines, l) + c;
    LinePosition(lines, l, c);
    LinePosition(lines, l, c + 1);
    OneLetterScan(text, p);
  }

  /** The duplicate-identifier test: a is declared on line 4 and again on line 5. */
  const DuplicateIdLines: seq<string> := [
    "",
    "        PROGRAM Test;",
    "        VAR",
    "            a : INTEGER;",
    "            a : REAL;" + "  {Duplicate identifier}",
    "        BEGIN",
    "          a := 5;",
    "        END.",
    "      "]

  /** The undeclared-identifier test: b is used on line 6 and declared nowhere. */
  const IdNotFoundLines: seq<string> := [
    "",
    "        PROGRAM Test;",
    "        VAR",
    "            a : INTEGER;",
    "        BEGIN",
    "          a := 5 + b;",
    "        END.",
    "      "]

  /** The identifier rule puts the second a of the duplicate-identifier test at 5:14,
      the position its semantic error names. */
  lemma DuplicateIdTokenPosition()
    ensures var text, p := JoinLines(DuplicateIdLines), LineOffset(DuplicateIdLines, 4) + 12;
      && p < |text| && text[p] == 'a'
      && ScanIdentifier(text, p) == Step(Ok(Token(Id, TextValue("a"), Some(5), Some(14))), p + 1)
  {
    assert NoNewlines(DuplicateIdLines);
    assert DuplicateIdLines[4][12] == 'a' && DuplicateIdLines[4][13] == ' ';
    assert ToUpper("a") == "A";
    OneLetterIdentifier(DuplicateIdLines, 4, 12);
  }

  /** The identifier rule puts the b of the undeclared-identifier test at 6:21, the
      position its semantic error names. */
  lemma IdNotFoundTokenPosition()
    ensures var text, p := JoinLines(IdNotFoundLines), LineOffset(IdNotFoundLines, 5) + 19;
      && p < |text| && text[p] == 'b'
      && ScanIdentifier(text, p) == Step(Ok(Token(Id, TextValue("b"), Some(6), Some(21))), p + 1)
  {
    assert NoNewlines(IdNotFoundLines);
    assert IdNotFoundLines[5][19] == 'b' && IdNotFoundLines[5][20] == ';';
    assert ToUpper("b") == "B";
    OneLetterIdentifier(IdNotFoundLines, 5, 19);
  }

  /** The parser test with a spurious parenthesis: a := 1 (1 + 2) on line 6. */
  const SpuriousParenthesesLines: seq<string> := [
    "",
    "      PROGRAM Test;",
    "      VAR",
    "          a : INTEGER;",
    "      BEGIN",
    "          a := 1 (1 + 2);" + " {Invalid syntax}",
    "      END.",
    "    "]

  /** The '(' of that test is where the lexer reports 6:18: reaching it, the lexer
      returns the LPAREN token the parser's error names. */
  lemma SpuriousParenthesisPosition()
    ensures var text, p := JoinLines(SpuriousParenthesesLines), LineOffset(SpuriousParenthesesLines, 5) + 17;
      && p < |text| && text[p] == '('
      && (ClosedFrom(text, p) ==> Scan(text, p) == Step(Ok(Token(LParen, TextValue("("), Some(6), Some(18))), p + 1))
  {
    var lines := SpuriousParenthesesLines;
    assert NoNewlines(lines);
    assert lines[5][17] == '(';
    var text, p := JoinLines(lines), LineOffset(lines, 5) + 17;
    LinePosition(lines, 5, 17);
    if ClosedFrom(text, p) {
      ScanSymbol(text, p);
    }
  }

  /** The lexer's digit test accepts white space, so a numeral runs on across white
      space and the digits after it: "1 2" is a single INTEGER_CONST of value 1 that
      consumes the "2", and it is positioned after the whole run. */
  lemma NumeralAbsorbsWhitespace()
    ensures ClosedFrom("1 2", 0)
    ensures Scan("1 2", 0) == Step(Ok(Token(IntegerConst, Numeric(1, 0), Some(1), Some(3))), 3)
  {
    var text := "1 2";
    ClosedWithoutBraces(text, 0);
    assert RunEnd(text, 0, IsDigit) == 3;
    assert LineCol(text, 3) == Position(1, 3);
    assert ParseInt(text[0..3]) == Numeric(1, 0) by {
      assert DigitPrefix(text) == "1";
      assert DigitsValue("1") == 1;
      assert text[0..3] == text;
    }
    ScanDigit(text, 0);
    ScanNumberInteger(text, 0, 3);
  }
}

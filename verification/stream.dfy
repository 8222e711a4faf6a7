/** The tokens a lexer yields on successive calls, as a sequence. The parser reads the
    lexer one call at a time; this is the sequence of what those calls return, so the
    grammar can be stated over it. */
module TokenStreams {
  import opened Wrappers
  import opened Tokens
  import opened Errors
  import opened Lexing

  /** One token with the cursor position after it and the character under the cursor
      there (the parser peeks at that character to tell a call from an assignment). */
  datatype Scanned = Scanned(token: Token, end: nat, follow: Option<char>)

  /** The tokens up to and including EOF, or up to the first lexer error, which is then
      kept as the failure: a call past the last token raises it. */
  datatype TokenStream = TokenStream(items: seq<Scanned>, failure: Option<Error>) {
    predicate Valid() {
      && |items| > 0
      && (forall i :: 0 <= i < |items| - 1 ==> items[i].token.kind != Eof)
      && (items[|items| - 1].token.kind == Eof <==> failure.None?)
    }
  }

  /** What successive lexer calls return, starting from cursor position p. */
  function TokenizeFrom(text: string, p: nat): (ts: TokenStream)
    requires p <= |text| && ClosedFrom(text, p)
    ensures |ts.items| == 0 ==> ts.failure.Some?
    ensures |ts.items| > 0 ==> ts.Valid()
    decreases |text| - p
  {
    var s := Scan(text, p);
    match s.outcome
    case Err(e) => TokenStream([], Some(e))
    case Ok(t) =>
      var first := Scanned(t, s.pos, CharAt(text, s.pos));
      if t.kind == Eof then TokenStream([first], None)
      else
        var rest := TokenizeFrom(text, s.pos);
        TokenStream([first] + rest.items, rest.failure)
  }

  /** The first call: the first item, or the failure when there is none. */
  lemma TokenizeFirst(text: string, p: nat)
    requires p <= |text| && ClosedFrom(text, p)
    ensures var ts := TokenizeFrom(text, p);
      && (|ts.items| > 0 ==> Scan(text, p) == Step(Ok(ts.items[0].token), ts.items[0].end))
      && (|ts.items| > 0 ==> ts.items[0].follow == CharAt(text, ts.items[0].end))
      && (|ts.items| == 0 ==> Scan(text, p).outcome == Err(ts.failure.value))
  {
  }

  /** The call after item i returns item i+1; after the last item it raises the failure,
      or, when the last item is EOF, returns EOF again without moving. */
  lemma {:induction false} TokenizeNext(text: string, p: nat, i: nat)
    requires p <= |text| && ClosedFrom(text, p)
    requires i < |TokenizeFrom(text, p).items|
    ensures var ts := TokenizeFrom(text, p); var it := ts.items[i];
      && it.end <= |text| && ClosedFrom(text, it.end) && it.follow == CharAt(text, it.end)
      && (i + 1 < |ts.items| ==>
            Scan(text, it.end) == Step(Ok(ts.items[i + 1].token), ts.items[i + 1].end)
            && ts.items[i + 1].follow == CharAt(text, ts.items[i + 1].end))
      && (i + 1 == |ts.items| && ts.failure.Some? ==> Scan(text, it.end).outcome == Err(ts.failure.value))
      && (i + 1 == |ts.items| && ts.failure.None? ==>
            it.token == EofToken && Scan(text, it.end) == Step(Ok(EofToken), it.end))
    decreases |text| - p
  {
    var s := Scan(text, p);
    var t := s.outcome.value;
    if t.kind != Eof {
      var rest := TokenizeFrom(text, s.pos);
      if i == 0 {
        TokenizeFirst(text, s.pos);
      } else {
        TokenizeNext(text, s.pos, i - 1);
        assert TokenizeFrom(text, p).items[i] == rest.items[i - 1];
      }
    }
  }
}

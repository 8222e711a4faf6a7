/** Properties of the formal parameter list: a list printed as its groups, separated by
    SEMI, is parsed back into the parameters of the groups, flattened in order. */
module ParameterListProps {
  import opened Wrappers
  import opened Tokens
  import opened Ast
  import opened TokenStreams
  import opened Grammar
  import opened ParsingProps

  const CommaToken := Token(Comma, TextValue(","), None, None)
  const ColonToken := Token(Colon, TextValue(":"), None, None)
  const SemiToken := Token(Semi, TextValue(";"), None, None)

  predicate AllIds(names: seq<Var>) {
    names == [] || (names[0].token.kind == Id && AllIds(names[1..]))
  }

  /** The groups formal_parameters can build: identifiers sharing a type INTEGER or
      REAL. */
  predicate GroupWellFormed(g: TypedNames) {
    |g.names| > 0 && AllIds(g.names) && g.typeNode.token.kind in {IntegerKw, RealKw}
  }

  predicate GroupsWellFormed(gs: seq<TypedNames>) {
    gs == [] || (GroupWellFormed(gs[0]) && GroupsWellFormed(gs[1..]))
  }

  /** (COMMA ID)* for the given names. */
  function CommaNames(names: seq<Var>): (toks: seq<Token>)
    ensures |toks| == 2 * |names|
  {
    if names == [] then [] else [CommaToken, names[0].token] + CommaNames(names[1..])
  }

  /** A group printed as ID (COMMA ID)* COLON type_spec. */
  function GroupTokens(g: TypedNames): (toks: seq<Token>)
    requires GroupWellFormed(g)
    ensures |toks| == 2 * |g.names| + 1
  {
    [g.names[0].token] + CommaNames(g.names[1..]) + [ColonToken, g.typeNode.token]
  }

  /** Groups printed as (SEMI formal_parameters)*. */
  function SemiGroups(gs: seq<TypedNames>): seq<Token>
    requires GroupsWellFormed(gs)
  {
    if gs == [] then [] else [SemiToken] + GroupTokens(gs[0]) + SemiGroups(gs[1..])
  }

  /** A nonempty list of groups printed as formal_parameter_list. */
  function ParamListTokens(gs: seq<TypedNames>): seq<Token>
    requires |gs| > 0 && GroupsWellFormed(gs)
  {
    GroupTokens(gs[0]) + SemiGroups(gs[1..])
  }

  /** The parameters of the groups, group after group, each in its own order. */
  function Flatten(gs: seq<TypedNames>): seq<Param> {
    if gs == [] then [] else Params(gs[0]) + Flatten(gs[1..])
  }

  // ---------------------------------------------------------------------------
  // Sequence facts, kept apart from the grammar

  lemma {:induction false} AppendHead<T>(acc: seq<T>, xs: seq<T>)
    requires |xs| > 0
    ensures acc + [xs[0]] + xs[1..] == acc + xs
  {
    assert [xs[0]] + xs[1..] == xs;
  }

  lemma {:induction false} FlattenCons(acc: seq<Param>, gs: seq<TypedNames>)
    requires |gs| > 0
    ensures acc + Params(gs[0]) + Flatten(gs[1..]) == acc + Flatten(gs)
  {
    assert Flatten(gs) == Params(gs[0]) + Flatten(gs[1..]);
  }

  // ---------------------------------------------------------------------------
  // Where the printed pieces lie in the stream

  lemma {:induction false} CommaNamesAt(ts: TokenStream, i: nat, names: seq<Var>)
    requires TokensAt(ts, i, CommaNames(names)) && |names| > 0
    ensures i + 2 < |ts.items| && Current(ts, i) == CommaToken && Current(ts, i + 1) == names[0].token
    ensures TokensAt(ts, i + 2, CommaNames(names[1..]))
  {
    var pair := [CommaToken, names[0].token];
    assert CommaNames(names) == pair + CommaNames(names[1..]);
    TokensAtSplit(ts, i, pair, CommaNames(names[1..]));
    TokensAtSplit(ts, i, [CommaToken], [names[0].token]);
    TokensAtHead(ts, i, [CommaToken]);
    TokensAtHead(ts, i + 1, [names[0].token]);
  }

  lemma {:induction false} GroupAt(ts: TokenStream, i: nat, g: TypedNames)
    requires GroupWellFormed(g) && TokensAt(ts, i, GroupTokens(g))
    ensures Current(ts, i) == g.names[0].token && TokensAt(ts, i + 1, CommaNames(g.names[1..]))
    ensures var c := i + 2 * |g.names| - 1;
      c + 2 < |ts.items| && Current(ts, c) == ColonToken && Current(ts, c + 1) == g.typeNode.token
  {
    var first, rest, tail := [g.names[0].token], CommaNames(g.names[1..]), [ColonToken, g.typeNode.token];
    TokensAt3(ts, i, first, rest, tail);
    TokensAtHead(ts, i, first);
    var c := i + 1 + |rest|;
    TokensAtSplit(ts, c, [ColonToken], [g.typeNode.token]);
    TokensAtHead(ts, c, [ColonToken]);
    TokensAtHead(ts, c + 1, [g.typeNode.token]);
  }

  lemma {:induction false} SemiGroupsAt(ts: TokenStream, i: nat, gs: seq<TypedNames>)
    requires GroupsWellFormed(gs) && |gs| > 0 && TokensAt(ts, i, SemiGroups(gs))
    ensures GroupWellFormed(gs[0]) && GroupsWellFormed(gs[1..])
    ensures i + 1 < |ts.items| && Current(ts, i) == SemiToken && TokensAt(ts, i + 1, GroupTokens(gs[0]))
    ensures |SemiGroups(gs)| == 1 + |GroupTokens(gs[0])| + |SemiGroups(gs[1..])|
    ensures TokensAt(ts, i + 1 + |GroupTokens(gs[0])|, SemiGroups(gs[1..]))
  {
    var g, rest := GroupTokens(gs[0]), SemiGroups(gs[1..]);
    assert SemiGroups(gs) == [SemiToken] + g + rest;
    TokensAt3(ts, i, [SemiToken], g, rest);
    TokensAtHead(ts, i, [SemiToken]);
  }

  lemma {:induction false} ParamListAt(ts: TokenStream, i: nat, gs: seq<TypedNames>)
    requires GroupsWellFormed(gs) && |gs| > 0 && TokensAt(ts, i, ParamListTokens(gs))
    ensures GroupWellFormed(gs[0]) && GroupsWellFormed(gs[1..])
    ensures TokensAt(ts, i, GroupTokens(gs[0])) && TokensAt(ts, i + |GroupTokens(gs[0])|, SemiGroups(gs[1..]))
    ensures |ParamListTokens(gs)| == |GroupTokens(gs[0])| + |SemiGroups(gs[1..])|
  {
    TokensAtSplit(ts, i, GroupTokens(gs[0]), SemiGroups(gs[1..]));
  }

  // ---------------------------------------------------------------------------
  // The loops, one turn at a time

  lemma {:induction false} IdTailStep(ts: TokenStream, i: nat, acc: seq<Var>)
    requires ts.Valid() && i + 2 < |ts.items| && Current(ts, i).kind == Comma && Current(ts, i + 1).kind == Id
    ensures IdTail(ts, i, acc) == IdTail(ts, i + 2, acc + [Var(Current(ts, i + 1))])
  {
    assert Eat(ts, i, Comma) == Ok(i + 1);
    assert Eat(ts, i + 1, Id) == Ok(i + 2);
  }

  lemma {:induction false} ParamGroupsStep(ts: TokenStream, i: nat, acc: seq<Param>, ps: seq<Param>, k: nat)
    requires ts.Valid() && i + 1 < |ts.items| && Current(ts, i).kind == Semi
    requires FormalParametersAt(ts, i + 1) == Ok(Parsed(ps, k))
    ensures k < |ts.items| && ParamGroups(ts, i, acc) == ParamGroups(ts, k, acc + ps)
  {
    var e := Eat(ts, i, Semi);
    assert e == Ok(i + 1);
    var r := ParamGroups(ts, k, acc + ps);
    assert ParamGroups(ts, i, acc) == r;
  }

  /** ID (COMMA ID)* COLON type_spec, taken apart at its three parts. */
  lemma {:induction false} TypedNamesStep(ts: TokenStream, i: nat, names: seq<Var>, c: nat, t: Type)
    requires ts.Valid() && i + 1 < |ts.items| && Current(ts, i).kind == Id
    requires IdTail(ts, i + 1, [Var(Current(ts, i))]) == Ok(Parsed(names, c))
    requires c + 1 < |ts.items| && Current(ts, c).kind == Colon && TypeSpecAt(ts, c + 1) == Ok(Parsed(t, c + 2))
    ensures TypedNamesAt(ts, i) == Ok(Parsed(TypedNames(names, t), c + 2))
  {
    assert Eat(ts, i, Id) == Ok(i + 1);
    assert Eat(ts, c, Colon) == Ok(c + 1);
  }

  lemma {:induction false} ParameterListStep(ts: TokenStream, i: nat, ps: seq<Param>, k: nat)
    requires ts.Valid() && i < |ts.items| && Current(ts, i).kind == Id
    requires FormalParametersAt(ts, i) == Ok(Parsed(ps, k))
    ensures k < |ts.items| && FormalParameterListAt(ts, i) == ParamGroups(ts, k, ps)
  {
  }

  // ---------------------------------------------------------------------------
  // The round trip

  /** From index i on, the stream holds COMMA and each name in turn, and the token at
      end is not COMMA. */
  predicate NamesLaidOut(ts: TokenStream, i: nat, names: seq<Var>, end: nat)
    requires ts.Valid()
    decreases |names|
  {
    && i < |ts.items|
    && if names == [] then i == end && Current(ts, i).kind != Comma
       else
         && i + 2 < |ts.items| && Current(ts, i).kind == Comma && Current(ts, i + 1).kind == Id
         && names[0] == Var(Current(ts, i + 1))
         && NamesLaidOut(ts, i + 2, names[1..], end)
  }

  lemma {:induction false} CommaNamesLaidOut(ts: TokenStream, i: nat, names: seq<Var>)
    requires ts.Valid() && TokensAt(ts, i, CommaNames(names)) && AllIds(names)
    requires Current(ts, i + 2 * |names|).kind != Comma
    ensures NamesLaidOut(ts, i, names, i + 2 * |names|)
    decreases |names|
  {
    if names != [] {
      CommaNamesAt(ts, i, names);
      CommaNamesLaidOut(ts, i + 2, names[1..]);
    }
  }

  /** Names laid out in the stream are read by the name loop, in order. */
  lemma {:induction false} NamesParsed(ts: TokenStream, i: nat, names: seq<Var>, acc: seq<Var>, end: nat)
    requires ts.Valid() && NamesLaidOut(ts, i, names, end)
    ensures IdTail(ts, i, acc) == Ok(Parsed(acc + names, end))
    decreases |names|
  {
    if names == [] {
      assert acc + names == acc;
    } else {
      IdTailStep(ts, i, acc);
      NamesParsed(ts, i + 2, names[1..], acc + [names[0]], end);
      AppendHead(acc, names);
    }
  }

  /** The name loop reads back the printed names after the first. */
  lemma {:induction false} IdTailRoundTrip(ts: TokenStream, i: nat, names: seq<Var>, acc: seq<Var>)
    requires ts.Valid() && TokensAt(ts, i, CommaNames(names)) && AllIds(names)
    requires Current(ts, i + 2 * |names|).kind != Comma
    ensures IdTail(ts, i, acc) == Ok(Parsed(acc + names, i + 2 * |names|))
  {
    CommaNamesLaidOut(ts, i, names);
    NamesParsed(ts, i, names, acc, i + 2 * |names|);
  }

  /** A printed group is read back by ID (COMMA ID)* COLON type_spec. */
  lemma {:induction false} TypedNamesRoundTrip(ts: TokenStream, i: nat, g: TypedNames)
    requires ts.Valid() && GroupWellFormed(g) && TokensAt(ts, i, GroupTokens(g))
    ensures TypedNamesAt(ts, i) == Ok(Parsed(g, i + |GroupTokens(g)|))
  {
    GroupAt(ts, i, g);
    var c := i + 2 * |g.names| - 1;
    IdTailRoundTrip(ts, i + 1, g.names[1..], [g.names[0]]);
    assert [g.names[0]] + g.names[1..] == g.names;
    assert TypeSpecAt(ts, c + 1) == Ok(Parsed(g.typeNode, c + 2));
    TypedNamesStep(ts, i, g.names, c, g.typeNode);
  }

  lemma {:induction false} FormalParametersRoundTrip(ts: TokenStream, i: nat, g: TypedNames)
    requires ts.Valid() && GroupWellFormed(g) && TokensAt(ts, i, GroupTokens(g))
    ensures FormalParametersAt(ts, i) == Ok(Parsed(Params(g), i + |GroupTokens(g)|))
  {
    TypedNamesRoundTrip(ts, i, g);
  }

  /** From index i on, the stream holds SEMI formal_parameters for each group in turn,
      each parsed into that group's parameters, and the token at end is not SEMI. */
  predicate GroupsParsed(ts: TokenStream, i: nat, gs: seq<TypedNames>, end: nat)
    requires ts.Valid() && i < |ts.items|
    decreases |gs|
  {
    if gs == [] then i == end && Current(ts, i).kind != Semi
    else
      && i + 1 < |ts.items| && Current(ts, i).kind == Semi
      && var r := FormalParametersAt(ts, i + 1);
      && r.Ok? && r.value.value == Params(gs[0])
      && GroupsParsed(ts, r.value.next, gs[1..], end)
  }

  lemma {:induction false} GroupsParsedCons(ts: TokenStream, i: nat, gs: seq<TypedNames>, k: nat, end: nat)
    requires ts.Valid() && i + 1 < |ts.items| && Current(ts, i).kind == Semi && |gs| > 0
    requires FormalParametersAt(ts, i + 1) == Ok(Parsed(Params(gs[0]), k))
    requires k < |ts.items| && GroupsParsed(ts, k, gs[1..], end)
    ensures GroupsParsed(ts, i, gs, end)
  {
  }

  /** From index i on, the stream holds each group printed after a SEMI, and the token
      at end is not SEMI. */
  predicate GroupsLaidOut(ts: TokenStream, i: nat, gs: seq<TypedNames>, end: nat)
    requires ts.Valid() && i < |ts.items|
    decreases |gs|
  {
    if gs == [] then i == end && Current(ts, i).kind != Semi
    else
      && Current(ts, i).kind == Semi && GroupWellFormed(gs[0])
      && TokensAt(ts, i + 1, GroupTokens(gs[0]))
      && GroupsLaidOut(ts, i + 1 + |GroupTokens(gs[0])|, gs[1..], end)
  }

  lemma {:induction false} SemiGroupsLaidOut(ts: TokenStream, i: nat, gs: seq<TypedNames>)
    requires ts.Valid() && GroupsWellFormed(gs)
    requires TokensAt(ts, i, SemiGroups(gs)) && Current(ts, i + |SemiGroups(gs)|).kind != Semi
    ensures GroupsLaidOut(ts, i, gs, i + |SemiGroups(gs)|)
    decreases |gs|
  {
    if gs == [] {
      assert SemiGroups(gs) == [];
    } else {
      SemiGroupsAt(ts, i, gs);
      var k := i + 1 + |GroupTokens(gs[0])|;
      assert k + |SemiGroups(gs[1..])| == i + |SemiGroups(gs)|;
      SemiGroupsLaidOut(ts, k, gs[1..]);
    }
  }

  /** After the first laid-out group, the rest are laid out. */
  lemma LaidOutTail(ts: TokenStream, i: nat, gs: seq<TypedNames>, end: nat, k: nat)
    requires ts.Valid() && i < |ts.items| && GroupsLaidOut(ts, i, gs, end) && gs != []
    requires k == i + 1 + |GroupTokens(gs[0])|
    ensures k < |ts.items| && GroupsLaidOut(ts, k, gs[1..], end)
  {
  }

  /** The first laid-out group is parsed, and what follows it parses as the rest. */
  lemma {:induction false} LaidOutHead(ts: TokenStream, i: nat, gs: seq<TypedNames>, end: nat, k: nat)
    requires ts.Valid() && i + 1 < |ts.items| && Current(ts, i).kind == Semi && gs != []
    requires GroupWellFormed(gs[0]) && TokensAt(ts, i + 1, GroupTokens(gs[0]))
    requires k == i + 1 + |GroupTokens(gs[0])| && k < |ts.items| && GroupsParsed(ts, k, gs[1..], end)
    ensures GroupsParsed(ts, i, gs, end)
  {
    FormalParametersRoundTrip(ts, i + 1, gs[0]);
    GroupsParsedCons(ts, i, gs, k, end);
  }

  /** Groups laid out in the stream are parsed group by group. */
  lemma {:induction false} LaidOutParsed(ts: TokenStream, i: nat, gs: seq<TypedNames>, end: nat)
    requires ts.Valid() && i < |ts.items| && GroupsLaidOut(ts, i, gs, end)
    ensures GroupsParsed(ts, i, gs, end)
    decreases |gs|
  {
    if gs != [] {
      var k := i + 1 + |GroupTokens(gs[0])|;
      LaidOutTail(ts, i, gs, end, k);
      LaidOutParsed(ts, k, gs[1..], end);
      LaidOutHead(ts, i, gs, end, k);
    }
  }

  /** The printed groups are parsed group by group. */
  lemma {:induction false} SemiGroupsParsed(ts: TokenStream, i: nat, gs: seq<TypedNames>)
    requires ts.Valid() && GroupsWellFormed(gs)
    requires TokensAt(ts, i, SemiGroups(gs)) && Current(ts, i + |SemiGroups(gs)|).kind != Semi
    ensures GroupsParsed(ts, i, gs, i + |SemiGroups(gs)|)
  {
    SemiGroupsLaidOut(ts, i, gs);
    LaidOutParsed(ts, i, gs, i + |SemiGroups(gs)|);
  }

  /** The group loop appends the parameters of the groups it parses, in order. */
  lemma {:induction false} ParamGroupsLoop(ts: TokenStream, i: nat, gs: seq<TypedNames>, acc: seq<Param>, end: nat)
    requires ts.Valid() && i < |ts.items| && GroupsParsed(ts, i, gs, end)
    ensures ParamGroups(ts, i, acc) == Ok(Parsed(acc + Flatten(gs), end))
    decreases |gs|
  {
    if gs == [] {
      assert acc + Flatten(gs) == acc;
    } else {
      var r := FormalParametersAt(ts, i + 1);
      ParamGroupsStep(ts, i, acc, Params(gs[0]), r.value.next);
      ParamGroupsLoop(ts, r.value.next, gs[1..], acc + Params(gs[0]), end);
      FlattenCons(acc, gs);
    }
  }

  /** The group loop reads back printed groups, appending their parameters in order. */
  lemma {:induction false} ParamGroupsRoundTrip(ts: TokenStream, i: nat, gs: seq<TypedNames>, acc: seq<Param>)
    requires ts.Valid() && GroupsWellFormed(gs)
    requires TokensAt(ts, i, SemiGroups(gs)) && Current(ts, i + |SemiGroups(gs)|).kind != Semi
    ensures ParamGroups(ts, i, acc) == Ok(Parsed(acc + Flatten(gs), i + |SemiGroups(gs)|))
  {
    SemiGroupsParsed(ts, i, gs);
    ParamGroupsLoop(ts, i, gs, acc, i + |SemiGroups(gs)|);
  }

  /** From index i on, the stream holds the first group printed, then the others each
      after a SEMI, and the token at end is not SEMI. */
  predicate ListLaidOut(ts: TokenStream, i: nat, gs: seq<TypedNames>, end: nat)
    requires ts.Valid()
  {
    && |gs| > 0 && GroupWellFormed(gs[0]) && TokensAt(ts, i, GroupTokens(gs[0]))
    && GroupsLaidOut(ts, i + |GroupTokens(gs[0])|, gs[1..], end)
  }

  lemma {:induction false} ParamListLaidOut(ts: TokenStream, i: nat, gs: seq<TypedNames>)
    requires ts.Valid() && |gs| > 0 && GroupsWellFormed(gs)
    requires TokensAt(ts, i, ParamListTokens(gs)) && Current(ts, i + |ParamListTokens(gs)|).kind != Semi
    ensures ListLaidOut(ts, i, gs, i + |ParamListTokens(gs)|)
  {
    ParamListAt(ts, i, gs);
    SemiGroupsLaidOut(ts, i + |GroupTokens(gs[0])|, gs[1..]);
  }

  /** A list laid out in the stream is parsed into the parameters of its groups. */
  lemma {:induction false} LaidOutListParsed(ts: TokenStream, i: nat, gs: seq<TypedNames>, end: nat)
    requires ts.Valid() && ListLaidOut(ts, i, gs, end)
    ensures FormalParameterListAt(ts, i) == Ok(Parsed(Flatten(gs), end))
  {
    var toks := GroupTokens(gs[0]);
    var k := i + |toks|;
    TokensAtHead(ts, i, toks);
    assert toks[0] == gs[0].names[0].token;
    FormalParametersRoundTrip(ts, i, gs[0]);
    LaidOutParsed(ts, k, gs[1..], end);
    ParameterListLoop(ts, i, gs, k, end);
  }

  /** A first group parsed, then the groups after it, make the whole list. */
  lemma {:induction false} ParameterListLoop(ts: TokenStream, i: nat, gs: seq<TypedNames>, k: nat, end: nat)
    requires ts.Valid() && |gs| > 0 && i < k < |ts.items| && Current(ts, i).kind == Id
    requires FormalParametersAt(ts, i) == Ok(Parsed(Params(gs[0]), k))
    requires GroupsParsed(ts, k, gs[1..], end)
    ensures FormalParameterListAt(ts, i) == Ok(Parsed(Flatten(gs), end))
  {
    ParameterListStep(ts, i, Params(gs[0]), k);
    ParamGroupsLoop(ts, k, gs[1..], Params(gs[0]), end);
    FlattenCons([], gs);
  }

  /** A printed formal parameter list, followed by any token but SEMI (the source then
      expects RPAREN), is parsed into the parameters of its groups, flattened in order. */
  lemma {:induction false} ParameterListRoundTrip(ts: TokenStream, i: nat, gs: seq<TypedNames>)
    requires ts.Valid() && |gs| > 0 && GroupsWellFormed(gs)
    requires TokensAt(ts, i, ParamListTokens(gs)) && Current(ts, i + |ParamListTokens(gs)|).kind != Semi
    ensures FormalParameterListAt(ts, i) == Ok(Parsed(Flatten(gs), i + |ParamListTokens(gs)|))
  {
    ParamListLaidOut(ts, i, gs);
    LaidOutListParsed(ts, i, gs, i + |ParamListTokens(gs)|);
  }
}

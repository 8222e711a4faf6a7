/** Symbols and scoped symbol tables. A table has a name, a nesting level and a map from
    names to symbols; the chain of enclosing tables is a sequence, outermost first, so the
    current scope is the last element and its enclosing scope the one before it. */
module Symbols {
  import opened Wrappers
  import opened Ast

  /** A variable (with the symbol its type name resolved to, if any), a built-in type, or
      a procedure with its formal parameters and, once its body has been analyzed, the
      body itself. */
  datatype Symbol =
    | VarSymbol(name: string, varType: Option<Symbol>)
    | BuiltinTypeSymbol(name: string)
    | ProcedureSymbol(name: string, formalParams: seq<Symbol>, blockAst: Option<Block>)

  datatype Scope = Scope(scopeName: string, scopeLevel: nat, symbols: map<string, Symbol>) {
    /** Enters sym under its name; an entry of the same name is replaced. */
    function Define(sym: Symbol): (s: Scope)
      ensures s.scopeName == scopeName && s.scopeLevel == scopeLevel
      ensures sym.name in s.symbols && s.symbols[sym.name] == sym
      ensures s.symbols.Keys == symbols.Keys + {sym.name}
      ensures forall x :: x in symbols && x != sym.name ==> x in s.symbols && s.symbols[x] == symbols[x]
    {
      this.(symbols := symbols[sym.name := sym])
    }
  }

  /** The current scope and its enclosing scopes, outermost first. */
  type Chain = seq<Scope>

  /** A fresh table with the two built-in types entered, INTEGER first. */
  function InitBuiltins(s: Scope): (r: Scope)
    ensures r.scopeName == s.scopeName && r.scopeLevel == s.scopeLevel
    ensures r.symbols.Keys == s.symbols.Keys + {"INTEGER", "REAL"}
    ensures r.symbols["INTEGER"] == BuiltinTypeSymbol("INTEGER") && r.symbols["REAL"] == BuiltinTypeSymbol("REAL")
  {
    s.Define(BuiltinTypeSymbol("INTEGER")).Define(BuiltinTypeSymbol("REAL"))
  }

  /** The global scope a program opens: level 1, holding just the built-in types. */
  function GlobalScope(): (s: Scope)
    ensures s.scopeName == "global" && s.scopeLevel == 1
    ensures s.symbols == map["INTEGER" := BuiltinTypeSymbol("INTEGER"), "REAL" := BuiltinTypeSymbol("REAL")]
  {
    InitBuiltins(Scope("global", 1, map[]))
  }

  /** Looks name up in the current scope and, unless currentScopeOnly is set, outward
      through the enclosing scopes; None past the outermost one. */
  function Lookup(chain: Chain, name: string, currentScopeOnly: bool): Option<Symbol>
    decreases |chain|
  {
    if |chain| == 0 then None
    else
      var scope := chain[|chain| - 1];
      if name in scope.symbols then Some(scope.symbols[name])
      else if currentScopeOnly then None
      else Lookup(chain[..|chain| - 1], name, false)
  }

  /** Defines sym in the current scope; the enclosing scopes are not touched. */
  function DefineInCurrent(chain: Chain, sym: Symbol): (r: Chain)
    requires |chain| > 0
    ensures |r| == |chain| && r[..|chain| - 1] == chain[..|chain| - 1]
    ensures r[|chain| - 1] == chain[|chain| - 1].Define(sym)
  {
    chain[..|chain| - 1] + [chain[|chain| - 1].Define(sym)]
  }

  /** Defining in a chain written as its enclosing scopes and its current scope. */
  lemma DefineInLast(outer: Chain, current: Scope, sym: Symbol)
    ensures DefineInCurrent(outer + [current], sym) == outer + [current.Define(sym)]
  {
    assert (outer + [current])[..|outer|] == outer;
  }

  /** Scope k of the chain holds name, and no scope inside it does. */
  predicate InnermostHolder(chain: Chain, name: string, k: nat) {
    k < |chain| && name in chain[k].symbols
    && forall j :: k < j < |chain| ==> name !in chain[j].symbols
  }

  /** Lookup finds something exactly when some scope of the chain holds the name. */
  lemma {:induction false} LookupFinds(chain: Chain, name: string)
    ensures Lookup(chain, name, false).Some? <==> exists k :: 0 <= k < |chain| && name in chain[k].symbols
    decreases |chain|
  {
    if |chain| > 0 && name !in chain[|chain| - 1].symbols {
      var outer := chain[..|chain| - 1];
      LookupFinds(outer, name);
      assert forall k :: 0 <= k < |outer| ==> outer[k] == chain[k];
    }
  }

  /** Lookup finds the entry of the innermost scope that holds the name: inner
      definitions shadow outer ones. */
  lemma {:induction false} LookupInnermost(chain: Chain, name: string, k: nat)
    requires InnermostHolder(chain, name, k)
    ensures Lookup(chain, name, false) == Some(chain[k].symbols[name])
    decreases |chain|
  {
    var n := |chain| - 1;
    if k < n {
      var outer := chain[..n];
      assert outer[k] == chain[k];
      assert InnermostHolder(outer, name, k);
      LookupInnermost(outer, name, k);
    }
  }

  /** With currentScopeOnly, only the current scope is consulted. */
  lemma LookupCurrentOnly(chain: Chain, name: string)
    requires |chain| > 0
    ensures Lookup(chain, name, true).Some? <==> name in chain[|chain| - 1].symbols
    ensures Lookup(chain, name, true).Some? ==> Lookup(chain, name, true) == Lookup(chain, name, false)
  {
  }

  /** After a definition the name yields the new symbol, from anywhere; every other name
      yields what it did before. */
  lemma DefineThenLookup(chain: Chain, sym: Symbol, name: string, currentScopeOnly: bool)
    requires |chain| > 0
    ensures name == sym.name ==> Lookup(DefineInCurrent(chain, sym), name, currentScopeOnly) == Some(sym)
    ensures name != sym.name ==> Lookup(DefineInCurrent(chain, sym), name, currentScopeOnly) == Lookup(chain, name, currentScopeOnly)
  {
    var r := DefineInCurrent(chain, sym);
    assert r[..|r| - 1] == chain[..|chain| - 1];
  }

  /** A second definition of the same name replaces the first outright. */
  lemma DefineTwice(chain: Chain, a: Symbol, b: Symbol)
    requires |chain| > 0 && a.name == b.name
    ensures DefineInCurrent(DefineInCurrent(chain, a), b) == DefineInCurrent(chain, b)
  {
    var n := |chain| - 1;
    assert chain[n].symbols[a.name := a][b.name := b] == chain[n].symbols[b.name := b];
  }
}

/** The parent-linked symbol table of the core's runtime: each table holds its own immutable
    bindings (`scope`) and mutable ones (`mutables`) and may point at a parent table that it
    shares with other children. Lookup of an immutable symbol climbs the parent chain; a
    mutable symbol is looked for in the table itself only. */
module ParentTables {
  import opened Wrappers
  import opened Symbols
  import opened Scopes
  import opened RunErrors
  import opened Forms
  import opened StackTables

  class SymbolTable {
    var parent: SymbolTable?
    var scope: map<Symbol, Value>
    var mutables: map<Symbol, Value>
    ghost var Repr: set<object>

    /** The table and its whole parent chain, with no cycle. */
    ghost predicate Valid()
      reads this, Repr
      decreases Repr
    {
      this in Repr &&
      (parent != null ==>
         parent in Repr && parent.Repr <= Repr && this !in parent.Repr && parent.Valid())
    }

    /** The immutable bindings of the chain, this table first and the root last. */
    ghost function Chain(): (r: seq<map<Symbol, Value>>)
      reads this, Repr
      requires Valid()
      ensures |r| > 0 && r[0] == scope
      ensures parent == null ==> r == [scope]
      ensures parent != null ==> r[1..] == parent.Chain()
      decreases Repr
    {
      [scope] + if parent == null then [] else parent.Chain()
    }

    /** `lookup` as a function of the tables. */
    function LookupValue(s: Symbol): (r: RunResult<Value>)
      reads this, Repr
      requires Valid()
      ensures !r.Halted()
      ensures IsMutable(s) ==> r == (if s in mutables then Ok(mutables[s]) else Err(UndefinedMutable(s)))
      ensures !IsMutable(s) && s in scope ==> r == Ok(scope[s])
      ensures !IsMutable(s) && s !in scope && parent == null ==> r == Err(Undefined(s))
      ensures !IsMutable(s) && s !in scope && parent != null ==> r == parent.LookupValue(s)
      decreases Repr
    {
      if IsMutable(s) then
        if s in mutables then Ok(mutables[s]) else Err(UndefinedMutable(s))
      else if s in scope then Ok(scope[s])
      else if parent == null then Err(Undefined(s))
      else parent.LookupValue(s)
    }

    /** `root`: a table without a parent and without bindings. */
    constructor Root()
      ensures Valid() && fresh(Repr)
      ensures parent == null && scope == map[] && mutables == map[]
    {
      parent := null;
      scope := map[];
      mutables := map[];
      Repr := {this};
    }

    /** `from_parent`: an empty table whose parent is `p`, which it shares. */
    constructor FromParent(p: SymbolTable)
      requires p.Valid()
      ensures Valid() && fresh(Repr - p.Repr)
      ensures parent == p && scope == map[] && mutables == map[]
    {
      parent := p;
      scope := map[];
      mutables := map[];
      Repr := {this} + p.Repr;
    }

    /** `lookup`. */
    method Lookup(s: Symbol) returns (r: RunResult<Value>)
      requires Valid()
      ensures r == LookupValue(s)
      decreases Repr
    {
      if IsMutable(s) {
        if s in mutables {
          r := Ok(mutables[s]);
        } else {
          r := Err(UndefinedMutable(s));
        }
      } else if s in scope {
        r := Ok(scope[s]);
      } else if parent == null {
        r := Err(Undefined(s));
      } else {
        r := parent.Lookup(s);
      }
    }

    /** `assign`: a mutable symbol is (re)bound in this table's mutables; an immutable one is
        bound in its scope unless the scope already holds it. Parents are never touched. */
    method Assign(s: Symbol, v: Value) returns (r: RunResult<()>)
      requires Valid()
      modifies this
      ensures Valid() && Repr == old(Repr) && parent == old(parent)
      ensures IsMutable(s) ==> r == Ok(()) && mutables == old(mutables)[s := v] && scope == old(scope)
      ensures !IsMutable(s) && s in old(scope) ==>
                r == Err(ImmutableRebind(s)) && scope == old(scope) && mutables == old(mutables)
      ensures !IsMutable(s) && s !in old(scope) ==>
                r == Ok(()) && scope == old(scope)[s := v] && mutables == old(mutables)
    {
      if IsMutable(s) {
        mutables := mutables[s := v];
        r := Ok(());
      } else if s in scope {
        r := Err(ImmutableRebind(s));
      } else {
        scope := scope[s := v];
        r := Ok(());
      }
    }
  }

  /** An immutable lookup finds the binding of the nearest table in the chain that has one,
      exactly as a stack of scopes with this table innermost; it fails only when no table of
      the chain, the root included, has the symbol. */
  lemma {:induction false} LookupAlongChain(t: SymbolTable, s: Symbol)
    requires t.Valid() && !IsMutable(s)
    ensures t.LookupValue(s) == match FindFirst(t.Chain(), s)
                                case Some(v) => Ok(v)
                                case None => Err(Undefined(s))
    decreases t.Repr
  {
    if s !in t.scope && t.parent != null {
      LookupAlongChain(t.parent, s);
      assert t.Chain()[1..] == t.parent.Chain();
    }
  }

  /** A child's own binding shadows any binding of its parents. */
  lemma ChildShadowsParent(t: SymbolTable, s: Symbol)
    requires t.Valid() && !IsMutable(s) && s in t.scope
    ensures t.LookupValue(s) == Ok(t.scope[s])
  {
  }

  /** A fresh child looks every immutable symbol up as its parent does; a mutable symbol is
      not found in it, whatever the parent holds. */
  lemma FreshChildLookup(t: SymbolTable, s: Symbol)
    requires t.Valid() && t.parent != null && t.scope == map[] && t.mutables == map[]
    ensures !IsMutable(s) ==> t.LookupValue(s) == t.parent.LookupValue(s)
    ensures IsMutable(s) ==> t.LookupValue(s) == Err(UndefinedMutable(s))
  {
  }

  /** Assigning then looking up the same symbol in the same table gives the value, and a
      second immutable assignment of it is refused. */
  method AssignThenLookup(t: SymbolTable, s: Symbol, v: Value, w: Value) returns (first: RunResult<Value>, second: RunResult<()>)
    requires t.Valid() && (IsMutable(s) || s !in t.scope)
    modifies t
    ensures t.Valid() && first == Ok(v)
    ensures IsMutable(s) ==> second == Ok(()) && t.LookupValue(s) == Ok(w)
    ensures !IsMutable(s) ==> second == Err(ImmutableRebind(s)) && t.LookupValue(s) == Ok(v)
  {
    var _ := t.Assign(s, v);
    first := t.Lookup(s);
    second := t.Assign(s, w);
  }
}

/** The flat symbol tables of the earlier drafts: a stack of scopes whose LAST element is the
    innermost one (the sources push and pop at the back of a linked list). None of them
    checks rebinding: registering a symbol replaces its binding in the innermost scope. */
module FlatTables {
  import opened Wrappers
  import opened Scopes
  import opened FlatSymbols
  import opened RunErrors
  import opened ClassicForms

  type Frames<V> = seq<map<Symbol, V>>

  /** `create_scope` on a value: a new empty innermost scope. */
  function PushFrame<V>(st: Frames<V>): (r: Frames<V>)
    ensures |r| == |st| + 1 && r[..|st|] == st && r[|st|] == map[]
  {
    st + [map[]]
  }

  /** `drop_scope` on a value: the innermost scope goes; without one nothing happens. */
  function PopFrame<V>(st: Frames<V>): (r: Frames<V>)
    ensures st == [] ==> r == []
    ensures st != [] ==> r == st[..|st| - 1]
  {
    if st == [] then [] else st[..|st| - 1]
  }

  /** `register` (or `insert`) on a value: the symbol is bound in the innermost scope, replacing
      any binding it had there; the source unwraps the innermost scope, so without one it
      panics. */
  function RegisterIn<V>(st: Frames<V>, s: Symbol, v: V): (r: (RunResult<()>, Frames<V>))
    ensures r.0.Panic? <==> st == []
    ensures st == [] ==> r == (Panic(UnwrapNone), st)
    ensures st != [] ==> r.0 == Ok(()) && |r.1| == |st| && r.1[..|st| - 1] == st[..|st| - 1]
                         && r.1[|st| - 1] == st[|st| - 1][s := v]
  {
    if st == [] then (Panic(UnwrapNone), st)
    else (Ok(()), st[..|st| - 1] + [st[|st| - 1][s := v]])
  }

  /** The error of a lookup that finds nothing, in the core draft. */
  function UndefinedSymbol(s: Symbol): RunError
  {
    Top(None, "Use of undefined symbol `" + ToText(s) + "`. Maybe you misspeled or the symbol's scope got dropped")
  }

  /** `lookup` of the core draft on a value: the binding of the innermost scope that has the
      symbol. */
  function LookupLast<V>(st: Frames<V>, s: Symbol): (r: RunResult<V>)
    ensures r.Ok? <==> exists i :: 0 <= i < |st| && s in st[i]
    ensures r.Ok? ==> exists i :: 0 <= i < |st| && s in st[i] && st[i][s] == r.value
                                  && forall j :: i < j < |st| ==> s !in st[j]
    ensures r.Err? ==> r.error == UndefinedSymbol(s)
    ensures !r.Halted()
  {
    match FindLast(st, s)
    case Some(v) => Ok(v)
    case None => Err(UndefinedSymbol(s))
  }

  /** `lookup` of the runtime draft on a value: the same search, with a plain message. */
  function RfindIn<V>(st: Frames<V>, s: Symbol): (r: Result<V, string>)
    ensures r.Success? <==> exists i :: 0 <= i < |st| && s in st[i]
    ensures r.Success? ==> Some(r.value) == FindLast(st, s)
    ensures r.Failure? ==> r.error == "Tried to lookup for undefined symbol `" + ToText(s) + "`"
  {
    match FindLast(st, s)
    case Some(v) => Success(v)
    case None => Failure("Tried to lookup for undefined symbol `" + ToText(s) + "`")
  }

  /** `lookup` of the virtual machine's table on a value: the innermost scope alone is
      consulted, so outer bindings are invisible; the source unwraps the innermost scope. */
  function LookupTop<V>(st: Frames<V>, s: Symbol): (r: RunResult<Option<V>>)
    ensures r.Panic? <==> st == []
    ensures st != [] ==> r == Ok(if s in st[|st| - 1] then Some(st[|st| - 1][s]) else None)
    ensures !r.Err? && !r.OutOfFuel?
  {
    if st == [] then Panic(UnwrapNone)
    else if s in st[|st| - 1] then Ok(Some(st[|st| - 1][s]))
    else Ok(None)
  }

  /** Looking up a symbol right after registering it gives the registered value. */
  lemma RegisterThenLookup<V>(st: Frames<V>, s: Symbol, v: V)
    requires st != []
    ensures LookupLast(RegisterIn(st, s, v).1, s) == Ok(v)
    ensures RfindIn(RegisterIn(st, s, v).1, s) == Success(v)
    ensures LookupTop(RegisterIn(st, s, v).1, s) == Ok(Some(v))
  {
    FindLastAt(RegisterIn(st, s, v).1, s, |st| - 1);
  }

  /** Registering twice is registering the second value: nothing refuses a rebinding. */
  lemma RegisterOverwrites<V>(st: Frames<V>, s: Symbol, v: V, w: V)
    requires st != []
    ensures RegisterIn(RegisterIn(st, s, v).1, s, w) == RegisterIn(st, s, w)
  {
    var st1 := RegisterIn(st, s, v).1;
    assert st1[..|st1| - 1] == st[..|st| - 1];
    assert st1[|st1| - 1][s := w] == st[|st| - 1][s := w];
  }

  /** The innermost binding wins: scopes opened later shadow the ones below. */
  lemma InnermostLookup<V>(st: Frames<V>, s: Symbol, i: nat)
    requires i < |st| && s in st[i]
    requires forall j :: i < j < |st| ==> s !in st[j]
    ensures LookupLast(st, s) == Ok(st[i][s])
    ensures RfindIn(st, s) == Success(st[i][s])
  {
    FindLastAt(st, s, i);
  }

  /** A scope opened, written to and dropped leaves the stack exactly as before, so the
      dropped bindings disappear and the ones they shadowed are visible again. */
  lemma ScopeDropRestores<V>(st: Frames<V>, s: Symbol, v: V)
    ensures PopFrame(RegisterIn(PushFrame(st), s, v).1) == st
    ensures forall t :: LookupLast(PopFrame(RegisterIn(PushFrame(st), s, v).1), t) == LookupLast(st, t)
  {
    var pushed := PushFrame(st);
    assert pushed[..|pushed| - 1] == st;
  }

  /** Right after a new scope opens, the virtual machine's lookup finds nothing. */
  lemma NewScopeHidesOuter<V>(st: Frames<V>, s: Symbol)
    ensures LookupTop(PushFrame(st), s) == Ok(None)
  {
  }

  /** Adjacent equal items collapsed into one (Rust's `Vec::dedup`). */
  function DedupAdjacent(xs: seq<Symbol>): (r: seq<Symbol>)
    ensures forall x :: x in r <==> x in xs
    ensures forall i :: 0 <= i < |r| - 1 ==> r[i] != r[i + 1]
    ensures xs != [] ==> r != [] && r[0] == xs[0]
    ensures |r| <= |xs|
  {
    if |xs| <= 1 then xs
    else if xs[0] == xs[1] then DedupAdjacent(xs[1..])
    else [xs[0]] + DedupAdjacent(xs[1..])
  }

  /** Equal items that are not adjacent both stay. */
  lemma DedupKeepsApart(a: Symbol, b: Symbol)
    requires a != b
    ensures DedupAdjacent([a, b, a]) == [a, b, a]
  {
    assert [a, b, a][1..] == [b, a];
    assert [b, a][1..] == [a];
  }

  /** The symbols bound in some scope of the stack. */
  ghost function BoundIn<V>(st: Frames<V>): (r: set<Symbol>)
    ensures forall s :: s in r <==> exists j :: 0 <= j < |st| && s in st[j]
  {
    if st == [] then {}
    else
      var rest := BoundIn(st[1..]);
      assert forall s :: (exists j :: 1 <= j < |st| && s in st[j]) ==> s in rest by {
        forall s, j | 1 <= j < |st| && s in st[j] ensures s in rest {
          assert st[1..][j - 1] == st[j];
        }
      }
      st[0].Keys + rest
  }

  /** The symbols a listing names. */
  ghost function ListedIn<V>(r: seq<(Symbol, V)>): (ks: set<Symbol>)
    ensures forall s :: s in ks <==> exists a :: 0 <= a < |r| && r[a].0 == s
  {
    set a | 0 <= a < |r| :: r[a].0
  }

  /** A listing of the stack's bindings: each symbol at most once, with the value its
      innermost binding has. */
  ghost predicate Faithful<V>(st: Frames<V>, r: seq<(Symbol, V)>)
  {
    (forall a :: 0 <= a < |r| ==> FindLast(st, r[a].0) == Some(r[a].1)) &&
    (forall a, b :: 0 <= a < b < |r| ==> r[a].0 != r[b].0)
  }

  /** Listing one more symbol of scope `i` that no later scope binds keeps the listing
      faithful. */
  lemma ListOne<V>(st: Frames<V>, r: seq<(Symbol, V)>, i: nat, k: Symbol)
    requires i < |st| && k in st[i] && k !in ListedIn(r) && k !in BoundIn(st[i + 1..])
    requires Faithful(st, r)
    ensures Faithful(st, r + [(k, st[i][k])])
    ensures ListedIn(r + [(k, st[i][k])]) == ListedIn(r) + {k}
  {
    var r' := r + [(k, st[i][k])];
    forall j | i < j < |st| ensures k !in st[j] {
      assert st[i + 1..][j - i - 1] == st[j];
    }
    FindLastAt(st, k, i);
    assert r'[|r|].0 == k;
    forall t | t in ListedIn(r) ensures t in ListedIn(r') {
      var a :| 0 <= a < |r| && r[a].0 == t;
      assert r'[a] == r[a];
    }
  }

  /** The symbol table of the core draft (`vaca-core`). */
  class CoreTable {
    var tables: Frames<Value>

    /** `new`: no scope at all. */
    constructor ()
      ensures tables == []
    {
      tables := [];
    }

    method CreateScope()
      modifies this
      ensures tables == PushFrame(old(tables))
    {
      tables := tables + [map[]];
    }

    method DropScope()
      modifies this
      ensures tables == PopFrame(old(tables))
    {
      if tables != [] {
        tables := tables[..|tables| - 1];
      }
    }

    method Register(s: Symbol, v: Value) returns (r: RunResult<()>)
      modifies this
      ensures (r, tables) == RegisterIn(old(tables), s, v)
    {
      if tables == [] {
        return Panic(UnwrapNone);
      }
      var n := |tables| - 1;
      tables := tables[..n] + [tables[n][s := v]];
      r := Ok(());
    }

    /** `lookup`: the scopes are searched from the innermost outwards. */
    method Lookup(s: Symbol) returns (r: RunResult<Value>)
      ensures r == LookupLast(tables, s)
    {
      var i := |tables|;
      while i > 0 && s !in tables[i - 1]
        invariant 0 <= i <= |tables|
        invariant forall j :: i <= j < |tables| ==> s !in tables[j]
      {
        i := i - 1;
      }
      if i > 0 {
        FindLastAt(tables, s, i - 1);
        r := Ok(tables[i - 1][s]);
      } else {
        r := Err(UndefinedSymbol(s));
      }
    }

    /** `env`: the scopes from the innermost outwards, each symbol listed the first time it is
        met, with its value. So every bound symbol is listed exactly once, with the value a
        lookup gives. The order within a scope is the map's, which the model leaves open. */
    method Env() returns (r: seq<(Symbol, Value)>)
      ensures forall a :: 0 <= a < |r| ==> FindLast(tables, r[a].0) == Some(r[a].1)
      ensures forall a, b :: 0 <= a < b < |r| ==> r[a].0 != r[b].0
      ensures ListedIn(r) == BoundIn(tables)
    {
      var seen: set<Symbol> := {};
      r := [];
      var i := |tables|;
      assert tables[i..] == [];
      while i > 0
        invariant 0 <= i <= |tables|
        invariant seen == BoundIn(tables[i..]) == ListedIn(r)
        invariant Faithful(tables, r)
      {
        i := i - 1;
        var scope := tables[i];
        assert tables[i..][0] == scope && tables[i..][1..] == tables[i + 1..];
        var later := seen;
        var rest := scope.Keys;
        while rest != {}
          invariant rest <= scope.Keys
          invariant seen == later + (scope.Keys - rest) == ListedIn(r)
          invariant Faithful(tables, r)
          decreases rest
        {
          var k :| k in rest;
          rest := rest - {k};
          if k !in seen {
            ListOne(tables, r, i, k);
            seen := seen + {k};
            r := r + [(k, scope[k])];
          }
        }
      }
      assert tables[i..] == tables;
    }
  }

  /** The symbol table of the runtime draft: the same stack, with plain-message errors. */
  class RuntimeTable<V> {
    var scopes: Frames<V>

    /** `new`: no scope at all. */
    constructor ()
      ensures scopes == []
    {
      scopes := [];
    }

    method CreateScope()
      modifies this
      ensures scopes == PushFrame(old(scopes))
    {
      scopes := scopes + [map[]];
    }

    method DropScope()
      modifies this
      ensures scopes == PopFrame(old(scopes))
    {
      if scopes != [] {
        scopes := scopes[..|scopes| - 1];
      }
    }

    method Insert(s: Symbol, v: V) returns (r: RunResult<()>)
      modifies this
      ensures (r, scopes) == RegisterIn(old(scopes), s, v)
    {
      if scopes == [] {
        return Panic(UnwrapNone);
      }
      var n := |scopes| - 1;
      scopes := scopes[..n] + [scopes[n][s := v]];
      r := Ok(());
    }

    /** `lookup`: the last scope that has the symbol (`rfind`). */
    method Lookup(s: Symbol) returns (r: Result<V, string>)
      ensures r == RfindIn(scopes, s)
    {
      var i := |scopes|;
      while i > 0 && s !in scopes[i - 1]
        invariant 0 <= i <= |scopes|
        invariant forall j :: i <= j < |scopes| ==> s !in scopes[j]
      {
        i := i - 1;
      }
      if i > 0 {
        FindLastAt(scopes, s, i - 1);
        r := Success(scopes[i - 1][s]);
      } else {
        r := Failure("Tried to lookup for undefined symbol `" + ToText(s) + "`");
      }
    }

    /** `env`: the symbols of every scope, outermost first, with adjacent repeats collapsed,
        each paired with the value a lookup gives, which is its innermost binding. Repeats
        that are not adjacent stay (see `DedupKeepsApart`). */
    method Env() returns (r: seq<(Symbol, V)>)
      ensures forall a :: 0 <= a < |r| ==> FindLast(scopes, r[a].0) == Some(r[a].1)
      ensures forall a :: 0 <= a < |r| - 1 ==> r[a].0 != r[a + 1].0
      ensures ListedIn(r) == BoundIn(scopes)
    {
      var symbols: seq<Symbol> := [];
      var i := 0;
      while i < |scopes|
        invariant 0 <= i <= |scopes|
        invariant forall s :: s in symbols <==> exists j :: 0 <= j < i && s in scopes[j]
      {
        var rest := scopes[i].Keys;
        while rest != {}
          invariant rest <= scopes[i].Keys
          invariant forall s :: s in symbols <==> (exists j :: 0 <= j < i && s in scopes[j]) || (s in scopes[i] && s !in rest)
          decreases rest
        {
          var k :| k in rest;
          rest := rest - {k};
          symbols := symbols + [k];
        }
        i := i + 1;
      }
      symbols := DedupAdjacent(symbols);
      assert forall s :: s in symbols <==> s in BoundIn(scopes);
      r := [];
      var n := 0;
      while n < |symbols|
        invariant 0 <= n <= |symbols| && |r| == n
        invariant forall a :: 0 <= a < n ==> r[a].0 == symbols[a] && FindLast(scopes, r[a].0) == Some(r[a].1)
      {
        assert symbols[n] in symbols;
        var v := Lookup(symbols[n]);
        r := r + [(symbols[n], v.value)];
        n := n + 1;
      }
      assert forall s :: s in symbols <==> s in ListedIn(r);
    }
  }

  /** The symbol table of the virtual machine draft: its lookup sees the innermost scope only. */
  class VmTable {
    var tables: Frames<Value>

    /** `new`: no scope at all. */
    constructor ()
      ensures tables == []
    {
      tables := [];
    }

    method CreateScope()
      modifies this
      ensures tables == PushFrame(old(tables))
    {
      tables := tables + [map[]];
    }

    method DropScope()
      modifies this
      ensures tables == PopFrame(old(tables))
    {
      if tables != [] {
        tables := tables[..|tables| - 1];
      }
    }

    method Register(s: Symbol, v: Value) returns (r: RunResult<()>)
      modifies this
      ensures (r, tables) == RegisterIn(old(tables), s, v)
    {
      if tables == [] {
        return Panic(UnwrapNone);
      }
      var n := |tables| - 1;
      tables := tables[..n] + [tables[n][s := v]];
      r := Ok(());
    }

    method Lookup(s: Symbol) returns (r: RunResult<Option<Value>>)
      ensures r == LookupTop(tables, s)
    {
      if tables == [] {
        return Panic(UnwrapNone);
      }
      var top := tables[|tables| - 1];
      r := if s in top then Ok(Some(top[s])) else Ok(None);
    }
  }
}

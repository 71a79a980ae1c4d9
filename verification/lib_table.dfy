/** The table of a library's exported symbols. */
module LibTables {
  import opened Symbols
  import opened RunErrors

  /** The reason of the panic raised when a symbol that was not exported is looked up. */
  const UntreatedSymbol := "Undefined symbols aren't being treated"

  /** The assignments `new` builds from its entries, inserted in order so that a later entry
      for the same symbol replaces an earlier one. */
  function FromEntries<V>(entries: seq<(Symbol, V)>): (r: map<Symbol, V>)
    ensures forall s :: s in r <==> exists i :: 0 <= i < |entries| && entries[i].0 == s
    decreases |entries|
  {
    if entries == [] then map[]
    else
      var init := entries[..|entries| - 1];
      var rest := FromEntries(init);
      assert forall i :: 0 <= i < |init| ==> init[i] == entries[i];
      rest[entries[|entries| - 1].0 := entries[|entries| - 1].1]
  }

  class LibTable<V> {
    var assignments: map<Symbol, V>

    /** `new`: every entry inserted in order. */
    constructor(entries: seq<(Symbol, V)>)
      ensures assignments == FromEntries(entries)
    {
      var m: map<Symbol, V> := map[];
      var i := 0;
      while i < |entries|
        invariant 0 <= i <= |entries|
        invariant m == FromEntries(entries[..i])
      {
        assert entries[..i + 1][..i] == entries[..i];
        m := m[entries[i].0 := entries[i].1];
        i := i + 1;
      }
      assert entries[..i] == entries;
      assignments := m;
    }

    /** `lookup`: the value of an exported symbol; any other symbol makes the table panic,
        for undefined symbols are meant to be refused by the build step. */
    method Lookup(s: Symbol) returns (r: RunResult<V>)
      ensures r.Ok? <==> s in assignments
      ensures r.Ok? ==> r.value == assignments[s]
      ensures !r.Ok? ==> r == Panic(UntreatedSymbol)
    {
      if s in assignments {
        r := Ok(assignments[s]);
      } else {
        r := Panic(UntreatedSymbol);
      }
    }
  }

  /** The value a symbol has after `new` is that of its last entry. */
  lemma {:induction false} LastEntryWins<V>(entries: seq<(Symbol, V)>, i: nat)
    requires i < |entries|
    requires forall j :: i < j < |entries| ==> entries[j].0 != entries[i].0
    ensures entries[i].0 in FromEntries(entries) && FromEntries(entries)[entries[i].0] == entries[i].1
    decreases |entries|
  {
    if i < |entries| - 1 {
      var init := entries[..|entries| - 1];
      assert init[i] == entries[i];
      forall j | i < j < |init| ensures init[j].0 != init[i].0 {
        assert init[j] == entries[j];
      }
      LastEntryWins(init, i);
    }
  }

  /** Two entries for the same symbol: the second one is the value. */
  lemma DuplicateEntry<V>(s: Symbol, v: V, w: V)
    ensures FromEntries([(s, v), (s, w)]) == map[s := w]
  {
    assert [(s, v), (s, w)][..1] == [(s, v)];
    assert [(s, v)][..0] == [];
  }
}

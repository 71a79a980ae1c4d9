/** The table a native library exposes to the virtual machine: names mapped to runnables,
    where a name can be exported once only. */
module ExternalTables {
  import opened Wrappers

  /** `export_symbol` on the table's contents: refused, with the table unchanged, when the
      name is already exported; otherwise the name is bound to the value. */
  function ExportIn<T>(table: map<string, T>, symbol: string, value: T): (r: (Result<(), ()>, map<string, T>))
    ensures r.0.Failure? <==> symbol in table
    ensures r.0.Failure? ==> r.1 == table
    ensures r.0.Success? ==> r.1 == table[symbol := value]
  {
    if symbol in table then (Failure(()), table) else (Success(()), table[symbol := value])
  }

  /** `get` on the table's contents. */
  function GetIn<T>(table: map<string, T>, name: string): (r: Option<T>)
    ensures r.Some? <==> name in table
    ensures r.Some? ==> r.value == table[name]
  {
    if name in table then Some(table[name]) else None
  }

  /** Exporting a run of entries one after the other, ignoring the refusals. */
  function ExportAll<T>(table: map<string, T>, entries: seq<(string, T)>): (r: map<string, T>)
    ensures table.Keys <= r.Keys
    ensures forall name :: name in table ==> r[name] == table[name]
    decreases |entries|
  {
    if entries == [] then table
    else ExportAll(ExportIn(table, entries[0].0, entries[0].1).1, entries[1..])
  }

  class ExternalTable<T> {
    var table: map<string, T>

    /** `new`: nothing exported. */
    constructor()
      ensures table == map[]
    {
      table := map[];
    }

    /** `export_symbol`. */
    method ExportSymbol(symbol: string, value: T) returns (r: Result<(), ()>)
      modifies this
      ensures (r, table) == ExportIn(old(table), symbol, value)
    {
      if symbol in table {
        r := Failure(());
      } else {
        table := table[symbol := value];
        r := Success(());
      }
    }

    /** `get`. */
    method Get(name: string) returns (r: Option<T>)
      ensures r == GetIn(table, name)
    {
      if name in table {
        r := Some(table[name]);
      } else {
        r := None;
      }
    }
  }

  /** A new table has no name. */
  lemma NewTableEmpty<T>(name: string)
    ensures GetIn<T>(map[], name) == None
  {
  }

  /** Exporting an unused name succeeds and `get` then returns its value; an export never
      changes the entry of another name. */
  lemma ExportThenGet<T>(table: map<string, T>, symbol: string, value: T, other: string)
    requires symbol !in table && other != symbol
    ensures ExportIn(table, symbol, value).0 == Success(())
    ensures GetIn(ExportIn(table, symbol, value).1, symbol) == Some(value)
    ensures GetIn(ExportIn(table, symbol, value).1, other) == GetIn(table, other)
  {
  }

  /** Exporting a name a second time is refused and the first value stays. */
  lemma ExportTwice<T>(table: map<string, T>, symbol: string, v: T, w: T)
    ensures var t1 := ExportIn(table, symbol, v).1;
            ExportIn(t1, symbol, w).0 == Failure(()) &&
            GetIn(ExportIn(t1, symbol, w).1, symbol) == GetIn(t1, symbol)
  {
  }

  /** Starting from a new table, a name is bound to the value of its first export. */
  lemma {:induction false} FirstExportWins<T>(table: map<string, T>, entries: seq<(string, T)>, i: nat)
    requires i < |entries| && entries[i].0 !in table
    requires forall j :: 0 <= j < i ==> entries[j].0 != entries[i].0
    ensures GetIn(ExportAll(table, entries), entries[i].0) == Some(entries[i].1)
    decreases i
  {
    var t1 := ExportIn(table, entries[0].0, entries[0].1).1;
    if i == 0 {
    } else {
      assert entries[1..][i - 1] == entries[i];
      forall j | 0 <= j < i - 1 ensures entries[1..][j].0 != entries[i].0 {
        assert entries[1..][j] == entries[j + 1];
      }
      FirstExportWins(t1, entries[1..], i - 1);
    }
  }
}

/** The standard library's registration for the earlier core draft: `logic::load`,
    `array::load` and `utils::load` put their natives into the innermost scope, and
    `create_table` opens one scope and loads the libraries it names into it. */
module ClassicLibrary {
  import opened Wrappers
  import opened Scopes
  import opened FlatSymbols
  import opened RunErrors
  import opened ClassicForms
  import opened ClassicValues
  import opened FlatTables
  import opened ClassicEval
  import opened ClassicProperties

  /** A symbol and the value `register!` binds it to. */
  type Entry = (Symbol, Value)

  /** The symbols of a parameter list, in order. */
  function Names(params: seq<string>): (r: seq<Symbol>)
    ensures |r| == |params|
    ensures forall i :: 0 <= i < |params| ==> r[i] == Symbol(params[i])
  {
    if params == [] then [] else [Symbol(params[0])] + Names(params[1..])
  }

  /** `function!(code, p, …)` registered under `name`: a native function over the given
      parameters, none of them supplied yet. */
  function NativeEntry(name: string, code: Native, params: seq<string>): (e: Entry)
    ensures e.0 == Symbol(name) && e.1.Function?
    ensures e.1.fun.arity == |params| && e.1.fun.partials == []
    ensures e.1.fun.params == Names(params) && e.1.fun.native == Some(code) && e.1.fun.body.None?
  {
    (Symbol(name), Function(NativeFunction(Names(params), code)))
  }

  /** A native macro registered under `name`; macros of the library take their argument forms
      as they are, so they carry no parameter count. */
  function MacroEntry(name: string, code: MacroCode): (e: Entry)
    ensures e.0 == Symbol(name) && e.1 == Macro(MacroValue(0, code))
  {
    (Symbol(name), Macro(MacroValue(0, code)))
  }

  /** What `logic::load` registers, in order. */
  function LogicEntries(): (r: seq<Entry>)
    ensures |r| == 10
    ensures forall i, j :: 0 <= i < j < |r| ==> r[i].0 != r[j].0
    ensures r[0].0 == Symbol("if") && r[0].1 == Macro(MacroValue(0, IfMacro))
    ensures r[1].0 == Symbol("assert") && r[1].1 == Macro(MacroValue(0, AssertMacro))
    ensures forall i :: 2 <= i < |r| ==>
              r[i].1.Function? && r[i].1.fun.params == [Symbol("a"), Symbol("b")] && r[i].1.fun.native.Some?
  {
    [ MacroEntry("if", IfMacro),
      MacroEntry("assert", AssertMacro),
      NativeEntry("==", EqNative, ["a", "b"]),
      NativeEntry("!=", NeqNative, ["a", "b"]),
      NativeEntry("<", LtNative, ["a", "b"]),
      NativeEntry(">", GtNative, ["a", "b"]),
      NativeEntry("<=", LeNative, ["a", "b"]),
      NativeEntry(">=", GeNative, ["a", "b"]),
      NativeEntry("&", AndNative, ["a", "b"]),
      NativeEntry("|", OrNative, ["a", "b"]) ]
  }

  /** What `array::load` registers, in order. */
  function ArrayEntries(): (r: seq<Entry>)
    ensures |r| == 7
    ensures forall i, j :: 0 <= i < j < |r| ==> r[i].0 != r[j].0
    ensures forall i :: 0 <= i < |r| ==>
              r[i].1.Function? && r[i].1.fun.native.Some? && r[i].1.fun.partials == [] && |r[i].1.fun.params| >= 2
    ensures forall i :: 1 <= i < 4 ==> r[i].1.fun.params[0] == Symbol("f")
    ensures forall i :: 0 <= i < 6 ==> r[i].1.fun.params[|r[i].1.fun.params| - 1] == Symbol("array")
  {
    [ NativeEntry("nth", NthNative, ["index", "array"]),
      NativeEntry("map", MapNative, ["f", "array"]),
      NativeEntry("reduce", ReduceNative, ["f", "init", "array"]),
      NativeEntry("scan", ScanNative, ["f", "init", "array"]),
      NativeEntry("append", AppendNative, ["item", "array"]),
      NativeEntry("prepend", PrependNative, ["item", "array"]),
      NativeEntry("concat", ConcatNative, ["init", "end"]) ]
  }

  /** What `utils::load` registers. */
  function UtilsEntries(): (r: seq<Entry>)
    ensures r == [(Symbol("|>"), Macro(MacroValue(0, PipeMacro)))]
  {
    [ MacroEntry("|>", PipeMacro) ]
  }

  /** The entries registered one after the other into the innermost scope; the outer scopes
      keep their bindings. */
  function RegisterAll(st: Stack, entries: seq<Entry>): (r: Stack)
    requires st != []
    ensures |r| == |st| && r[..|st| - 1] == st[..|st| - 1]
    decreases |entries|
  {
    if entries == [] then st
    else RegisterAll(RegisterIn(st, entries[0].0, entries[0].1).1, entries[1..])
  }

  /** Loading one list of entries after another is loading them all in order. */
  lemma {:induction false} RegisterAllAppend(st: Stack, a: seq<Entry>, b: seq<Entry>)
    requires st != []
    ensures RegisterAll(RegisterAll(st, a), b) == RegisterAll(st, a + b)
    decreases |a|
  {
    if a != [] {
      assert (a + b)[0] == a[0] && (a + b)[1..] == a[1..] + b;
      RegisterAllAppend(RegisterIn(st, a[0].0, a[0].1).1, a[1..], b);
    } else {
      assert a + b == b;
    }
  }

  /** A symbol that no entry names keeps its binding (or its absence) in the innermost scope. */
  lemma {:induction false} RegisterAllKeeps(st: Stack, entries: seq<Entry>, s: Symbol)
    requires st != []
    requires forall i :: 0 <= i < |entries| ==> entries[i].0 != s
    ensures var r := RegisterAll(st, entries);
            (s in r[|r| - 1] <==> s in st[|st| - 1]) &&
            (s in st[|st| - 1] ==> r[|r| - 1][s] == st[|st| - 1][s])
    decreases |entries|
  {
    if entries != [] {
      RegisterAllKeeps(RegisterIn(st, entries[0].0, entries[0].1).1, entries[1..], s);
    }
  }

  /** The last entry that names a symbol decides its binding in the innermost scope. */
  lemma {:induction false} RegisterAllLast(st: Stack, entries: seq<Entry>, i: nat)
    requires st != [] && i < |entries|
    requires forall j :: i < j < |entries| ==> entries[j].0 != entries[i].0
    ensures var r := RegisterAll(st, entries);
            entries[i].0 in r[|r| - 1] && r[|r| - 1][entries[i].0] == entries[i].1
    decreases |entries|
  {
    var st1 := RegisterIn(st, entries[0].0, entries[0].1).1;
    if i == 0 {
      RegisterAllKeeps(st1, entries[1..], entries[0].0);
    } else {
      RegisterAllLast(st1, entries[1..], i - 1);
    }
  }

  /** The table `create_table` builds: one scope holding the logic and array libraries. */
  function LibraryTable(): (r: Stack)
    ensures |r| == 1
  {
    RegisterAll(PushFrame([]), LogicEntries() + ArrayEntries())
  }

  /** `load` of one library into a table: its entries are registered in order. */
  method Load(table: CoreTable, entries: seq<Entry>)
    requires table.tables != []
    modifies table
    ensures table.tables == RegisterAll(old(table.tables), entries)
  {
    var i := 0;
    while i < |entries|
      invariant 0 <= i <= |entries|
      invariant table.tables != []
      invariant RegisterAll(table.tables, entries[i..]) == RegisterAll(old(table.tables), entries)
    {
      assert entries[i..][0] == entries[i] && entries[i..][1..] == entries[i + 1..];
      var _ := table.Register(entries[i].0, entries[i].1);
      i := i + 1;
    }
  }

  /** `create_table`: a new table, one scope, the libraries loaded into it. */
  method CreateTable() returns (table: CoreTable)
    ensures fresh(table) && table.tables == LibraryTable()
  {
    table := new CoreTable();
    table.CreateScope();
    Load(table, LogicEntries());
    Load(table, ArrayEntries());
    RegisterAllAppend(PushFrame([]), LogicEntries(), ArrayEntries());
  }

  /** `|>` is defined by `utils`, which `create_table` does not load: looking it up in the
      library table fails. */
  lemma PipeNotLoaded()
    ensures LookupLast(LibraryTable(), Symbol("|>")) == Err(UndefinedSymbol(Symbol("|>")))
  {
    var es := LogicEntries() + ArrayEntries();
    forall i | 0 <= i < |es| ensures es[i].0 != Symbol("|>") {
      assert es[i].0.text != "|>";
    }
    RegisterAllKeeps(PushFrame([]), es, Symbol("|>"));
  }

  /** Every library name is bound to the native it registers. */
  lemma EntriesLoaded(i: nat)
    requires i < |LogicEntries() + ArrayEntries()|
    ensures var e := (LogicEntries() + ArrayEntries())[i];
            LookupLast(LibraryTable(), e.0) == Ok(e.1)
  {
    var es := LogicEntries() + ArrayEntries();
    forall j | i < j < |es| ensures es[j].0 != es[i].0 {
      assert es[j].0.text != es[i].0.text;
    }
    RegisterAllLast(PushFrame([]), es, i);
  }

  /** The symbol `f` is not bound in the library table. */
  lemma FNotLoaded()
    ensures FindLast(LibraryTable(), Symbol("f")).None?
  {
    var es := LogicEntries() + ArrayEntries();
    forall i | 0 <= i < |es| ensures es[i].0 != Symbol("f") {
      assert es[i].0.text != "f";
    }
    RegisterAllKeeps(PushFrame([]), es, Symbol("f"));
  }

  /** Binding the parameters `item` and `array` opens one scope holding just those two. */
  lemma BindItemArray(st: Stack, x: Value, y: Value)
    ensures BindAll(PushFrame(st), [Symbol("item"), Symbol("array")], [x, y])
              == st + [map[Symbol("item") := x, Symbol("array") := y]]
  {
    var st1 := RegisterIn(PushFrame(st), Symbol("item"), x).1;
    assert st1 == st + [map[Symbol("item") := x]];
    var st2 := RegisterIn(st1, Symbol("array"), y).1;
    assert st2 == st + [map[Symbol("item") := x, Symbol("array") := y]];
  }

  /** The library's `append` is the native `append` code over `item` and `array`. */
  lemma AppendEntry()
    ensures ArrayEntries()[4].1.fun == NativeFunction([Symbol("item"), Symbol("array")], AppendNative)
  {
  }

  /** The native `append` code is the `append` lookup, and leaves the table alone. */
  lemma AppendNativeRun(fuel: nat, st: Stack)
    ensures RunNative(fuel, st, AppendNative) == (Append(st), st)
  {
  }

  /** The library's `append`, called with an item and an array from a table that binds
      nothing named `f`, panics: its native reads `f`, which is not one of its parameters. */
  lemma AppendReadsF(fuel: nat, st: Stack, x: Value, items: seq<Value>)
    requires fuel > 0
    requires FindLast(st, Symbol("f")).None?
    ensures var append := ArrayEntries()[4].1.fun;
            ExecFunction(fuel, st, append, [x, Array(items)]).0 == Panic(UnwrapErr)
  {
    AppendEntry();
    var append := ArrayEntries()[4].1.fun;
    var st1 := st + [map[Symbol("item") := x, Symbol("array") := Array(items)]];
    BindItemArray(st, x, Array(items));
    NativeCall(fuel, st, append, [x, Array(items)]);
    AppendNativeRun(fuel - 1, st1);
    assert Symbol("f") != Symbol("item") && Symbol("f") != Symbol("array");
    assert FindLast(st1, Symbol("f")).None?;
  }

  /** In the table `create_table` builds, the library's `append` always panics. */
  lemma LoadedAppendPanics(fuel: nat, x: Value, items: seq<Value>)
    requires fuel > 0
    ensures var append := ArrayEntries()[4].1.fun;
            ExecFunction(fuel, LibraryTable(), append, [x, Array(items)]).0 == Panic(UnwrapErr)
  {
    FNotLoaded();
    AppendReadsF(fuel, LibraryTable(), x, items);
  }

  /** `prepend`'s native code, run in a scope binding `item` and `array`. */
  lemma PrependNativeRun(fuel: nat, st: Stack, x: Value, items: seq<Value>)
    ensures var st1 := st + [map[Symbol("item") := x, Symbol("array") := Array(items)]];
            RunNative(fuel, st1, PrependNative) == (Ok(Array(items + [x])), st1)
  {
    var st1 := st + [map[Symbol("item") := x, Symbol("array") := Array(items)]];
    assert Arg(st1, "item") == Ok(x);
    assert ArrayArg(st1, "array") == Ok(items);
  }

  /** The library's `prepend` puts the item at the END of the array and leaves the table as
      it was. */
  lemma PrependAddsLast(fuel: nat, st: Stack, x: Value, items: seq<Value>)
    requires fuel > 0
    ensures var prepend := ArrayEntries()[5].1.fun;
            ExecFunction(fuel, st, prepend, [x, Array(items)]) == (Ok(Array(items + [x])), st)
  {
    var prepend := ArrayEntries()[5].1.fun;
    assert prepend == NativeFunction([Symbol("item"), Symbol("array")], PrependNative);
    BindItemArray(st, x, Array(items));
    PrependNativeRun(fuel - 1, st, x, items);
    NativeCall(fuel, st, prepend, [x, Array(items)]);
  }
}

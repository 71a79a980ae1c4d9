/** The earlier core draft's evaluator as the source runs it: every operation updates one
    mutable symbol table (`&mut SymbolTable`) step by step, looping where the source loops.
    Each method is proved to leave the table, and to return the result, that `ClassicEval`
    gives for the table it started from. */
module ClassicRunner {
  import opened Wrappers
  import opened Scopes
  import opened FlatSymbols
  import opened RunErrors
  import opened ClassicForms
  import opened ClassicValues
  import opened ClassicNatives
  import opened FlatTables
  import opened ClassicEval

  /** How a code block's running result meets the result of the forms still to run: the
      first error is kept unless a later form halts. */
  function BlockJoin(acc: RunResult<Value>, rest: Ran): (r: Ran)
    ensures r.1 == rest.1
    ensures rest.0.Halted() ==> r.0 == rest.0
    ensures !acc.Err? ==> r.0 == rest.0
  {
    (if acc.Err? && !rest.0.Halted() then acc else rest.0, rest.1)
  }

  /** How an array's running result meets the result of the items still to run: values are
      appended in order, and the first error is kept unless a later item halts. */
  function ItemsJoin(acc: RunResult<seq<Value>>, rest: (RunResult<seq<Value>>, Stack)): (r: (RunResult<seq<Value>>, Stack))
    requires !acc.Halted()
    ensures r.1 == rest.1
    ensures acc.Ok? && rest.0.Ok? ==> r.0 == Ok(acc.value + rest.0.value)
    ensures rest.0.Halted() ==> r.0 == rest.0
  {
    if rest.0.Halted() then rest
    else if acc.Err? then (acc, rest.1)
    else if rest.0.Err? then rest
    else (Ok(acc.value + rest.0.value), rest.1)
  }

  /** `lookup!(table, name).unwrap()` in a native. */
  method ArgOf(table: CoreTable, name: string) returns (r: RunResult<Value>)
    ensures r == Arg(table.tables, name)
  {
    var l := table.Lookup(Symbol(name));
    r := if l.Ok? then Ok(l.value) else Panic(UnwrapErr);
  }

  /** `Form::eval`. */
  method EvalForm(fuel: nat, table: CoreTable, f: Form) returns (r: RunResult<Value>)
    modifies table
    ensures (r, table.tables) == Eval(fuel, old(table.tables), f)
    decreases fuel, 1, f, 1
  {
    match f
    case AssignmentList(pairs) =>
      var res := RunPairs(fuel, table, pairs);
      r := if res.Ok? then Ok(Nil) else Rethrow(res);
    case CodeBlock(forms) =>
      table.CreateScope();
      r := RunBlock(fuel, table, forms);
      if !r.Halted() {
        table.DropScope();
      }
    case FunctionLit(params, body) =>
      r := Ok(Function(NewFunction(params, body)));
    case MacroLit(params, body) =>
      r := Ok(Macro(DefinedMacro(params, body)));
    case Call(_, _) =>
      r := RunCall(fuel, table, f);
    case ArrayLit(items) =>
      r := RunArray(fuel, table, items);
    case Literal(l) =>
      if l.SymbolLit? {
        var v := table.Lookup(l.sym);
        r := WrapErr(v, Some(FormText(f)), None);
      } else {
        r := Ok(LiteralValue(l));
      }
  }

  /** The pairs of an assignment list, in order, until the first failure. */
  method RunPairs(fuel: nat, table: CoreTable, pairs: seq<Pair>) returns (r: RunResult<()>)
    modifies table
    ensures (r, table.tables) == EvalPairs(fuel, old(table.tables), pairs)
    decreases fuel, 1, pairs, 1
  {
    ghost var goal := EvalPairs(fuel, table.tables, pairs);
    var i := 0;
    while i < |pairs|
      invariant 0 <= i <= |pairs|
      invariant EvalPairs(fuel, table.tables, pairs[i..]) == goal
      decreases |pairs| - i
    {
      assert pairs[i..][0] == pairs[i] && pairs[i..][1..] == pairs[i + 1..];
      var res := RunPair(fuel, table, pairs[i]);
      if !res.Ok? {
        return res;
      }
      i := i + 1;
    }
    assert pairs[i..] == [];
    r := Ok(());
  }

  /** One pair: the right-hand side is evaluated and the symbol registered. */
  method RunPair(fuel: nat, table: CoreTable, p: Pair) returns (r: RunResult<()>)
    modifies table
    ensures (r, table.tables) == EvalPair(fuel, old(table.tables), p)
    decreases fuel, 1, p, 0
  {
    var v := EvalForm(fuel, table, p.rhs);
    if !v.Ok? {
      return Rethrow(v);
    }
    r := table.Register(p.target, v.value);
  }

  /** The forms of a code block: all of them, those after a failure too, keeping the first
      error or else the last value. */
  method RunBlock(fuel: nat, table: CoreTable, forms: seq<Form>) returns (r: RunResult<Value>)
    modifies table
    ensures (r, table.tables) == EvalBlock(fuel, old(table.tables), forms)
    decreases fuel, 1, forms, 1
  {
    if forms == [] {
      return Ok(Nil);
    }
    ghost var goal := EvalBlock(fuel, table.tables, forms);
    assert forms[0] in forms;
    r := EvalForm(fuel, table, forms[0]);
    if r.Halted() || |forms| == 1 {
      return;
    }
    var i := 1;
    while i < |forms|
      invariant 1 <= i <= |forms|
      invariant r.Halted() || i == |forms| ==> goal == (r, table.tables)
      invariant !r.Halted() && i < |forms| ==> goal == BlockJoin(r, EvalBlock(fuel, table.tables, forms[i..]))
      decreases |forms| - i
    {
      if r.Halted() {
        break;
      }
      assert forms[i..][0] == forms[i] && forms[i..][1..] == forms[i + 1..];
      assert forms[i] in forms;
      var next := EvalForm(fuel, table, forms[i]);
      if next.Halted() || !r.Err? {
        r := next;
      }
      i := i + 1;
    }
  }

  /** `Form::Array`: every item, those after a failure too; the values in order, or the first
      error wrapped with the array's text. */
  method RunArray(fuel: nat, table: CoreTable, items: seq<Form>) returns (r: RunResult<Value>)
    modifies table
    ensures (r, table.tables) == EvalArrayForm(fuel, old(table.tables), items)
    decreases fuel, 1, items, 1
  {
    ghost var goal := EvalItems(fuel, table.tables, items);
    var acc: RunResult<seq<Value>> := Ok([]);
    var i := 0;
    assert goal.0.Ok? ==> [] + goal.0.value == goal.0.value;
    while i < |items|
      invariant 0 <= i <= |items|
      invariant !acc.Halted() ==> goal == ItemsJoin(acc, EvalItems(fuel, table.tables, items[i..]))
      invariant acc.Halted() ==> goal == (acc, table.tables)
      decreases |items| - i
    {
      if acc.Halted() {
        break;
      }
      assert items[i..][0] == items[i] && items[i..][1..] == items[i + 1..];
      assert items[i] in items;
      ghost var st0 := table.tables;
      var v := EvalForm(fuel, table, items[i]);
      ghost var rest := EvalItems(fuel, table.tables, items[i + 1..]);
      assert EvalItems(fuel, st0, items[i..]) ==
        if v.Halted() then (Rethrow(v), table.tables)
        else if rest.0.Halted() then rest
        else if v.Err? then (Err(v.error), rest.1)
        else if rest.0.Err? then rest
        else (Ok([v.value] + rest.0.value), rest.1);
      if acc.Ok? && v.Ok? && rest.0.Ok? {
        assert acc.value + ([v.value] + rest.0.value) == (acc.value + [v.value]) + rest.0.value;
      }
      if v.Halted() {
        acc := Rethrow(v);
      } else if acc.Ok? {
        acc := if v.Ok? then Ok(acc.value + [v.value]) else Err(v.error);
      }
      i := i + 1;
    }
    if !acc.Halted() {
      assert items[i..] == [];
      assert acc.Ok? ==> acc.value + [] == acc.value;
    }
    if acc.Ok? {
      r := Ok(Array(acc.value));
    } else if acc.Err? {
      r := Err(Stream(acc.error, Some(FormText(ArrayLit(items))), Some(ItemNote)));
    } else {
      r := Rethrow(acc);
    }
  }

  /** The `Call` case of `Form::eval`. */
  method RunCall(fuel: nat, table: CoreTable, f: Form) returns (r: RunResult<Value>)
    requires f.Call?
    modifies table
    ensures (r, table.tables) == EvalCall(fuel, old(table.tables), f)
    decreases fuel, 1, f, 0
  {
    var cv := EvalForm(fuel, table, f.callable);
    if cv.Err? {
      r := Err(Stream(cv.error, Some(FormText(f)), Some(CallableNote)));
    } else if cv.Halted() {
      r := cv;
    } else {
      r := RunApply(fuel, table, f, cv.value);
    }
  }

  /** The callable's value applied to the call's arguments. */
  method RunApply(fuel: nat, table: CoreTable, f: Form, callee: Value) returns (r: RunResult<Value>)
    requires f.Call?
    modifies table
    ensures (r, table.tables) == Apply(fuel, old(table.tables), f, callee)
    decreases fuel, 1, f.args, 2
  {
    var src := Some(FormText(f));
    match callee
    case Function(fn) =>
      var av := RunArray(fuel, table, f.args);
      if av.Err? {
        r := Err(Stream(av.error, src, Some(ArgumentNote)));
      } else if av.Halted() {
        r := av;
      } else {
        var res := ExecFunction(fuel, table, fn, av.value.items);
        r := WrapErr(res, src, None);
      }
    case Macro(m) =>
      var res := ExecMacro(fuel, table, m, f.args);
      r := WrapErr(res, src, None);
    case _ =>
      if |f.args| == 0 {
        r := Ok(callee);
      } else {
        match Shown(callee)
        case Ok(t) => r := Err(Top(src, "Trying call a non function value `" + t + "`"));
        case _ => r := Panic(LazyDisplay);
      }
  }

  // ---------------------------------------------------------------------------------------
  // Functions, macros and pending calls

  /** `Function::exec`: the arity checks, then a new scope where the parameters are registered
      one by one, the body or native code, and the scope dropped. */
  method ExecFunction(fuel: nat, table: CoreTable, f: FunctionValue, args: seq<Value>) returns (r: RunResult<Value>)
    modifies table
    ensures (r, table.tables) == ClassicEval.ExecFunction(fuel, old(table.tables), f, args)
    decreases fuel, 0
  {
    if f.arity < |args| {
      return Err(TooManyArguments(f, |args|));
    } else if f.arity > |args| {
      return Ok(Function(PartialFunction(f, args)));
    } else if fuel == 0 {
      return OutOfFuel;
    }
    table.CreateScope();
    BindParams(table, f.params, f.partials + args);
    if f.body.Some? {
      r := EvalForm(fuel - 1, table, f.body.value);
    } else if f.native.Some? {
      r := RunNative(fuel - 1, table, f.native.value);
    } else {
      r := Panic(UnwrapNone);
    }
    if !r.Halted() {
      table.DropScope();
    }
  }

  /** `zip(params, values)`, each pair registered in the innermost scope in turn. */
  method BindParams(table: CoreTable, params: seq<Symbol>, values: seq<Value>)
    requires table.tables != []
    modifies table
    ensures table.tables == BindAll(old(table.tables), params, values)
  {
    ghost var bound := BindAll(table.tables, params, values);
    var i := 0;
    while i < |params| && i < |values|
      invariant 0 <= i <= |params| && i <= |values| && table.tables != []
      invariant BindAll(table.tables, params[i..], values[i..]) == bound
      decreases |params| - i
    {
      assert params[i..][0] == params[i] && params[i..][1..] == params[i + 1..];
      assert values[i..][0] == values[i] && values[i..][1..] == values[i + 1..];
      var _ := table.Register(params[i], values[i]);
      i := i + 1;
    }
    assert params[i..] == [] || values[i..] == [];
  }

  /** `Macro::exec` for the library's native macros. */
  method ExecMacro(fuel: nat, table: CoreTable, m: MacroValue, forms: seq<Form>) returns (r: RunResult<Value>)
    modifies table
    ensures (r, table.tables) == ClassicEval.ExecMacro(fuel, old(table.tables), m, forms)
    decreases fuel, 0
  {
    if fuel == 0 {
      return OutOfFuel;
    }
    match m.code
    case Defined(_, _) => r := Panic(MacroExecUnknown);
    case IfMacro => r := If(fuel - 1, table, forms);
    case AssertMacro => r := Assert(fuel - 1, table, forms);
    case PipeMacro => r := Pipe(fuel - 1, table, forms);
  }

  /** `Call::exec`. */
  method CallExec(fuel: nat, table: CoreTable, p: Pending) returns (r: RunResult<Value>)
    modifies table
    ensures (r, table.tables) == ClassicEval.CallExec(fuel, old(table.tables), p)
    decreases fuel, 2, 1
  {
    var cv := EvalForm(fuel, table, p.callable);
    if cv.Err? {
      r := Err(Stream(cv.error, None, Some(CalleeNote)));
    } else if cv.Halted() {
      r := cv;
    } else {
      r := ApplyPending(fuel, table, p, cv.value);
    }
  }

  /** The pending call's callable value applied. */
  method ApplyPending(fuel: nat, table: CoreTable, p: Pending, callee: Value) returns (r: RunResult<Value>)
    modifies table
    ensures (r, table.tables) == ClassicEval.ApplyPending(fuel, old(table.tables), p, callee)
    decreases fuel, 2, 0
  {
    var src := Some(FormText(p.callable));
    match callee
    case Function(fn) =>
      var av := RunArray(fuel, table, p.arguments);
      if av.Err? {
        r := Err(Stream(av.error, src, Some(ArgumentNote)));
      } else if av.Halted() {
        r := av;
      } else {
        var res := ExecFunction(fuel, table, fn, av.value.items);
        r := WrapErr(res, src, None);
      }
    case Macro(m) =>
      var res := ExecMacro(fuel, table, m, p.arguments);
      r := WrapErr(res, src, None);
    case LazyCall(l) =>
      if fuel == 0 {
        r := OutOfFuel;
      } else {
        var res := CallExec(fuel - 1, table, l);
        r := WrapErr(res, None, Some(LazyCalleeNote));
      }
    case _ =>
      r := Panic(Unreachable);
  }

  /** `strict_eval`: while the value is a pending call, it is run. */
  method StrictEval(fuel: nat, table: CoreTable, v: Value) returns (r: RunResult<Value>)
    modifies table
    ensures (r, table.tables) == ClassicEval.StrictEval(fuel, old(table.tables), v)
    decreases fuel, 3
  {
    ghost var goal := ClassicEval.StrictEval(fuel, table.tables, v);
    var value := v;
    var n: nat := fuel;
    while value.LazyCall?
      invariant n <= fuel
      invariant ClassicEval.StrictEval(n, table.tables, value) == goal
      decreases n
    {
      if n == 0 {
        return OutOfFuel;
      }
      var res := CallExec(n - 1, table, value.call);
      if !res.Ok? {
        return res;
      }
      value := res.value;
      n := n - 1;
    }
    r := Ok(value);
  }

  // ---------------------------------------------------------------------------------------
  // Native macros

  /** `if`. */
  method If(fuel: nat, table: CoreTable, forms: seq<Form>) returns (r: RunResult<Value>)
    modifies table
    ensures (r, table.tables) == ClassicEval.If(fuel, old(table.tables), forms)
    decreases fuel, 2
  {
    if |forms| != 3 {
      return Err(FromString(IfArity));
    }
    var c := EvalForm(fuel, table, forms[0]);
    if !c.Ok? {
      return c;
    }
    var b := AsBoolean(c.value);
    if !b.Ok? {
      r := Panic(LazyTruth);
    } else if b.value {
      r := EvalForm(fuel, table, forms[1]);
    } else {
      r := EvalForm(fuel, table, forms[2]);
    }
  }

  /** `assert`: the forms in order until one is false. */
  method Assert(fuel: nat, table: CoreTable, forms: seq<Form>) returns (r: RunResult<Value>)
    modifies table
    ensures (r, table.tables) == ClassicEval.Assert(fuel, old(table.tables), forms)
    decreases fuel, 2, forms
  {
    ghost var goal := ClassicEval.Assert(fuel, table.tables, forms);
    var i := 0;
    while i < |forms|
      invariant 0 <= i <= |forms|
      invariant ClassicEval.Assert(fuel, table.tables, forms[i..]) == goal
      decreases |forms| - i
    {
      assert forms[i..][0] == forms[i] && forms[i..][1..] == forms[i + 1..];
      var src := Some(FormText(forms[i]));
      var v := EvalForm(fuel, table, forms[i]);
      if v.Err? {
        return Err(Stream(v.error, src, None));
      } else if v.Halted() {
        return v;
      }
      var b := AsBoolean(v.value);
      if !b.Ok? {
        return Panic(LazyTruth);
      } else if !b.value {
        return Err(Top(src, "Assertion failed"));
      }
      i := i + 1;
    }
    assert forms[i..] == [];
    r := Ok(Bool(true));
  }

  /** `|>`: the first form's value, then each target function applied in turn. */
  method Pipe(fuel: nat, table: CoreTable, forms: seq<Form>) returns (r: RunResult<Value>)
    modifies table
    ensures (r, table.tables) == ClassicEval.Pipe(fuel, old(table.tables), forms)
    decreases fuel, 3
  {
    if forms == [] {
      return Err(Top(Some("|>"), "Piping must have an initial value"));
    }
    var init := EvalForm(fuel, table, forms[0]);
    if init.Err? {
      return Err(Stream(init.error, Some("|>"), Some(PipeInitNote)));
    } else if init.Halted() {
      return init;
    }
    ghost var goal := PipeAll(fuel, table.tables, init.value, forms[1..]);
    var acc := init.value;
    var i := 1;
    while i < |forms|
      invariant 1 <= i <= |forms|
      invariant PipeAll(fuel, table.tables, acc, forms[i..]) == goal
      decreases |forms| - i
    {
      assert forms[i..][0] == forms[i] && forms[i..][1..] == forms[i + 1..];
      var t := EvalForm(fuel, table, forms[i]);
      if t.Err? {
        return Err(Stream(t.error, None, Some(PipeTargetNote)));
      } else if t.Halted() {
        return t;
      }
      if !t.value.Function? {
        var text := Shown(t.value);
        return if text.Ok? then
            Err(Top(None, "attempt to pipe in `" + text.value + "` which isn't a function. One may only pipe over functions"))
          else Panic(LazyDisplay);
      }
      var v := ExecFunction(fuel, table, t.value.fun, [acc]);
      if v.Err? {
        return Err(Stream(v.error, None, Some(PipeExecNote)));
      } else if v.Halted() {
        return v;
      }
      acc := v.value;
      i := i + 1;
    }
    assert forms[i..] == [];
    r := Ok(acc);
  }

  // ---------------------------------------------------------------------------------------
  // Native functions

  /** A native function's code, run in the table where its parameters are bound. */
  method RunNative(fuel: nat, table: CoreTable, n: Native) returns (r: RunResult<Value>)
    modifies table
    ensures (r, table.tables) == ClassicEval.RunNative(fuel, old(table.tables), n)
    decreases fuel, 3
  {
    match n
    case EqNative => r := Relate(table, EqRel);
    case NeqNative => r := Relate(table, NeqRel);
    case LtNative => r := Relate(table, LtRel);
    case GtNative => r := Relate(table, GtRel);
    case LeNative => r := Relate(table, LeRel);
    case GeNative => r := Relate(table, GeRel);
    case AndNative => r := Logic(table, true);
    case OrNative => r := Logic(table, false);
    case NthNative => r := Nth(table);
    case PrependNative => r := Prepend(table);
    case AppendNative => r := Append(table);
    case ConcatNative => r := Concat(table);
    case MapNative => r := Map(fuel, table);
    case ReduceNative => r := Reduce(fuel, table);
    case ScanNative => r := Scan(fuel, table);
  }

  /** `generic_rel`. */
  method Relate(table: CoreTable, op: Relation) returns (r: RunResult<Value>)
    ensures r == ClassicEval.Relate(table.tables, op)
  {
    var a := ArgOf(table, "a");
    var b := ArgOf(table, "b");
    r := if !a.Ok? then a else if !b.Ok? then b else Compare(op, a.value, b.value);
  }

  /** `generic_bool`. */
  method Logic(table: CoreTable, conj: bool) returns (r: RunResult<Value>)
    ensures r == ClassicEval.Logic(table.tables, conj)
  {
    var a := ArgOf(table, "a");
    var b := ArgOf(table, "b");
    r := if !a.Ok? then a else if !b.Ok? then b else BoolOp(conj, a.value, b.value);
  }

  /** `lookup!(table, name).unwrap()` followed by `as_vec`. */
  method ArrayOf(table: CoreTable, name: string) returns (r: RunResult<seq<Value>>)
    ensures r == ArrayArg(table.tables, name)
  {
    var v := ArgOf(table, name);
    r := if !v.Ok? then Rethrow(v) else ToArray(v.value);
  }

  /** `nth`: a negative index is raised by the length until it is not negative. */
  method Nth(table: CoreTable) returns (r: RunResult<Value>)
    ensures r == ClassicEval.Nth(table.tables)
  {
    var index := ArgOf(table, "index");
    if !index.Ok? {
      return index;
    }
    var items := ArrayOf(table, "array");
    if !items.Ok? {
      return Rethrow(items);
    }
    if !index.value.Integer? || items.value == [] {
      return NthOf(index.value, items.value);
    }
    var len := |items.value|;
    var i := index.value.i;
    if i >= 0 {
      i := i % len;
    } else {
      while i < 0
        invariant i < len && i % len == index.value.i % len
        decreases -i
      {
        ResidueShift(i, len);
        i := i + len;
      }
      SmallResidue(i, len);
    }
    r := Ok(items.value[i]);
  }

  /** `prepend`. */
  method Prepend(table: CoreTable) returns (r: RunResult<Value>)
    ensures r == ClassicEval.Prepend(table.tables)
  {
    var item := ArgOf(table, "item");
    if !item.Ok? {
      return item;
    }
    var items := ArrayOf(table, "array");
    r := if !items.Ok? then Rethrow(items) else Ok(Array(items.value + [item.value]));
  }

  /** `append`. */
  method Append(table: CoreTable) returns (r: RunResult<Value>)
    ensures r == ClassicEval.Append(table.tables)
  {
    var item := ArgOf(table, "f");
    if !item.Ok? {
      return item;
    }
    var items := ArrayOf(table, "array");
    r := if !items.Ok? then Rethrow(items) else Ok(Array([item.value] + items.value));
  }

  /** `concat`. */
  method Concat(table: CoreTable) returns (r: RunResult<Value>)
    ensures r == ClassicEval.Concat(table.tables)
  {
    var init := ArrayOf(table, "init");
    if !init.Ok? {
      return Rethrow(init);
    }
    var end := ArrayOf(table, "end");
    r := if !end.Ok? then Rethrow(end) else Ok(Array(init.value + end.value));
  }

  /** The values computed so far in front of those still to come. */
  function Prefixed(done: seq<Value>, rest: (RunResult<seq<Value>>, Stack)): (r: (RunResult<seq<Value>>, Stack))
    ensures r.1 == rest.1 && (r.0.Ok? <==> rest.0.Ok?)
    ensures rest.0.Ok? ==> r.0.value == done + rest.0.value
  {
    (if rest.0.Ok? then Ok(done + rest.0.value) else rest.0, rest.1)
  }

  /** Values put in front in two steps are put in front at once. */
  lemma PrefixedTwice(done: seq<Value>, more: seq<Value>, rest: (RunResult<seq<Value>>, Stack))
    ensures Prefixed(done, Prefixed(more, rest)) == Prefixed(done + more, rest)
  {
    if rest.0.Ok? {
      assert done + (more + rest.0.value) == (done + more) + rest.0.value;
    }
  }

  /** The first application of `map`, when it succeeds, is put in front of the others. */
  lemma MapStep(fuel: nat, st: Stack, fun: FunctionValue, items: seq<Value>)
    requires items != [] && ClassicEval.ExecFunction(fuel, st, fun, [items[0]]).0.Ok?
    ensures var (v, st1) := ClassicEval.ExecFunction(fuel, st, fun, [items[0]]);
            MapAll(fuel, st, fun, items) == Prefixed([v.value], MapAll(fuel, st1, fun, items[1..]))
  {
  }

  /** The first step of `scan`, when it succeeds, is put in front of the others. */
  lemma ScanStep(fuel: nat, st: Stack, fun: FunctionValue, acc: Value, items: seq<Value>)
    requires items != [] && ClassicEval.ExecFunction(fuel, st, fun, [acc, items[0]]).0.Ok?
    ensures var (v, st1) := ClassicEval.ExecFunction(fuel, st, fun, [acc, items[0]]);
            ScanAll(fuel, st, fun, acc, items) == Prefixed([v.value], ScanAll(fuel, st1, fun, v.value, items[1..]))
  {
  }

  /** `map`: `f` applied to each item of the array. */
  method Map(fuel: nat, table: CoreTable) returns (r: RunResult<Value>)
    modifies table
    ensures (r, table.tables) == ClassicEval.Map(fuel, old(table.tables))
    decreases fuel, 2, 1
  {
    var f := ArgOf(table, "f");
    if !f.Ok? {
      return f;
    }
    var arr := ArgOf(table, "array");
    if !arr.Ok? {
      return arr;
    } else if !f.value.Function? {
      return NotAFunction(f.value);
    }
    var items := ToArray(arr.value);
    if !items.Ok? {
      return Rethrow(items);
    }
    var res := MapItems(fuel, table, f.value.fun, items.value);
    r := if res.Ok? then Ok(Array(res.value)) else Rethrow(res);
  }

  /** The loop of `map`: each item is replaced, in place and in order, by `f` applied to it. */
  method MapItems(fuel: nat, table: CoreTable, fun: FunctionValue, items: seq<Value>) returns (r: RunResult<seq<Value>>)
    modifies table
    ensures (r, table.tables) == MapAll(fuel, old(table.tables), fun, items)
    decreases fuel, 2, 0, items
  {
    var out := items;
    ghost var goal := MapAll(fuel, table.tables, fun, out);
    assert goal.0.Ok? ==> [] + goal.0.value == goal.0.value;
    var i := 0;
    while i < |out|
      invariant 0 <= i <= |out| == |items|
      invariant out[i..] == items[i..]
      invariant goal == Prefixed(out[..i], MapAll(fuel, table.tables, fun, out[i..]))
      decreases |out| - i
    {
      assert out[i..][0] == out[i] && out[i..][1..] == out[i + 1..];
      ghost var st0 := table.tables;
      var v := ExecFunction(fuel, table, fun, [out[i]]);
      if !v.Ok? {
        return Rethrow(v);
      }
      MapStep(fuel, st0, fun, out[i..]);
      PrefixedTwice(out[..i], [v.value], MapAll(fuel, table.tables, fun, out[i + 1..]));
      ghost var done := out[..i];
      out := out[i := v.value];
      assert out[..i + 1] == done + [v.value];
      assert out[i + 1..] == items[i + 1..];
      i := i + 1;
    }
    assert out[i..] == [] && out[..i] + [] == out;
    r := Ok(out);
  }

  /** `reduce`: the running value is replaced by `f` applied to it and each item in turn. */
  method Reduce(fuel: nat, table: CoreTable) returns (r: RunResult<Value>)
    modifies table
    ensures (r, table.tables) == ClassicEval.Reduce(fuel, old(table.tables))
    decreases fuel, 2, 1
  {
    var f := ArgOf(table, "f");
    if !f.Ok? {
      return f;
    }
    var init := ArgOf(table, "init");
    if !init.Ok? {
      return init;
    }
    var arr := ArgOf(table, "array");
    if !arr.Ok? {
      return arr;
    } else if !f.value.Function? {
      return NotAFunction(f.value);
    }
    var items := ToArray(arr.value);
    if !items.Ok? {
      return Rethrow(items);
    }
    var fun := f.value.fun;
    ghost var goal := ReduceAll(fuel, table.tables, fun, init.value, items.value);
    var acc := init.value;
    var i := 0;
    while i < |items.value|
      invariant 0 <= i <= |items.value|
      invariant ReduceAll(fuel, table.tables, fun, acc, items.value[i..]) == goal
      decreases |items.value| - i
    {
      assert items.value[i..][0] == items.value[i] && items.value[i..][1..] == items.value[i + 1..];
      var v := ExecFunction(fuel, table, fun, [acc, items.value[i]]);
      if !v.Ok? {
        return v;
      }
      acc := v.value;
      i := i + 1;
    }
    assert items.value[i..] == [];
    r := Ok(acc);
  }

  /** `scan`: as `reduce`, keeping every running value. */
  method Scan(fuel: nat, table: CoreTable) returns (r: RunResult<Value>)
    modifies table
    ensures (r, table.tables) == ClassicEval.Scan(fuel, old(table.tables))
    decreases fuel, 2, 1
  {
    var f := ArgOf(table, "f");
    if !f.Ok? {
      return f;
    }
    var init := ArgOf(table, "init");
    if !init.Ok? {
      return init;
    }
    var arr := ArgOf(table, "array");
    if !arr.Ok? {
      return arr;
    } else if !f.value.Function? {
      return NotAFunction(f.value);
    }
    var items := ToArray(arr.value);
    if !items.Ok? {
      return Rethrow(items);
    }
    var res := ScanItems(fuel, table, f.value.fun, init.value, items.value);
    r := if res.Ok? then Ok(Array(res.value)) else Rethrow(res);
  }

  /** The loop of `scan`: each item is replaced, in place, by the running value after it. */
  method ScanItems(fuel: nat, table: CoreTable, fun: FunctionValue, init: Value, items: seq<Value>)
      returns (r: RunResult<seq<Value>>)
    modifies table
    ensures (r, table.tables) == ScanAll(fuel, old(table.tables), fun, init, items)
    decreases fuel, 2, 0, items
  {
    var out := items;
    var acc := init;
    ghost var goal := ScanAll(fuel, table.tables, fun, acc, out);
    assert goal.0.Ok? ==> [] + goal.0.value == goal.0.value;
    var i := 0;
    while i < |out|
      invariant 0 <= i <= |out| == |items|
      invariant out[i..] == items[i..]
      invariant goal == Prefixed(out[..i], ScanAll(fuel, table.tables, fun, acc, out[i..]))
      decreases |out| - i
    {
      assert out[i..][0] == out[i] && out[i..][1..] == out[i + 1..];
      ghost var st0 := table.tables;
      var v := ExecFunction(fuel, table, fun, [acc, out[i]]);
      if !v.Ok? {
        return Rethrow(v);
      }
      ScanStep(fuel, st0, fun, acc, out[i..]);
      PrefixedTwice(out[..i], [v.value], ScanAll(fuel, table.tables, fun, v.value, out[i + 1..]));
      acc := v.value;
      ghost var done := out[..i];
      out := out[i := acc];
      assert out[..i + 1] == done + [acc];
      assert out[i + 1..] == items[i + 1..];
      i := i + 1;
    }
    assert out[i..] == [] && out[..i] + [] == out;
    r := Ok(out);
  }
}

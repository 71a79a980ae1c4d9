/** Properties of the earlier core draft's evaluator and of its standard library. */
module ClassicProperties {
  import opened Wrappers
  import opened Scopes
  import opened FlatSymbols
  import opened RunErrors
  import opened ClassicForms
  import opened ClassicValues
  import opened ClassicNatives
  import opened FlatTables
  import opened ClassicEval

  // ---------------------------------------------------------------------------------------
  // Forms

  /** A constant literal is its value and leaves the table alone; a symbol literal is the
      innermost binding, and an unbound one is reported through a `Stream` caused by it. */
  lemma LiteralEval(fuel: nat, st: Stack, l: Literal)
    ensures !l.SymbolLit? ==> Eval(fuel, st, Literal(l)) == (Ok(LiteralValue(l)), st)
    ensures l.SymbolLit? && FindLast(st, l.sym).Some? ==> Eval(fuel, st, Literal(l)) == (Ok(FindLast(st, l.sym).value), st)
    ensures l.SymbolLit? && FindLast(st, l.sym).None? ==>
              Eval(fuel, st, Literal(l)) == (Err(Stream(UndefinedSymbol(l.sym), Some(FormText(Literal(l))), None)), st)
  {
  }

  /** The symbols of an assignment list. */
  function Targets(pairs: seq<Pair>): (r: seq<Symbol>)
    ensures |r| == |pairs| && forall i :: 0 <= i < |pairs| ==> r[i] == pairs[i].target
  {
    if pairs == [] then [] else [pairs[0].target] + Targets(pairs[1..])
  }

  /** The constant values of an assignment list. */
  function ConstantValues(pairs: seq<Pair>): (r: seq<Value>)
    requires forall i :: 0 <= i < |pairs| ==> pairs[i].rhs.Literal? && !pairs[i].rhs.lit.SymbolLit?
    ensures |r| == |pairs| && forall i :: 0 <= i < |pairs| ==> r[i] == LiteralValue(pairs[i].rhs.lit)
  {
    if pairs == [] then [] else [LiteralValue(pairs[0].rhs.lit)] + ConstantValues(pairs[1..])
  }

  /** An assignment list of constants registers each symbol in the innermost scope, in order,
      exactly as a function call binds its parameters. */
  lemma {:induction false} ConstantAssignments(fuel: nat, st: Stack, pairs: seq<Pair>)
    requires st != []
    requires forall i :: 0 <= i < |pairs| ==> pairs[i].rhs.Literal? && !pairs[i].rhs.lit.SymbolLit?
    ensures EvalPairs(fuel, st, pairs) == (Ok(()), BindAll(st, Targets(pairs), ConstantValues(pairs)))
    decreases |pairs|
  {
    if pairs != [] {
      var st1 := RegisterIn(st, pairs[0].target, LiteralValue(pairs[0].rhs.lit)).1;
      assert EvalPair(fuel, st, pairs[0]) == (Ok(()), st1);
      assert Targets(pairs)[1..] == Targets(pairs[1..]);
      assert ConstantValues(pairs)[1..] == ConstantValues(pairs[1..]);
      ConstantAssignments(fuel, st1, pairs[1..]);
    }
  }

  /** The pairs of `a + b` are those of `a`, then, only when all of them succeeded, those of
      `b` from the table `a` left. */
  lemma {:induction false} EvalPairsAppend(fuel: nat, st: Stack, a: seq<Pair>, b: seq<Pair>)
    ensures var (ra, sta) := EvalPairs(fuel, st, a);
            EvalPairs(fuel, st, a + b) == if ra.Ok? then EvalPairs(fuel, sta, b) else (ra, sta)
    decreases |a|
  {
    if a == [] {
      assert a + b == b;
    } else {
      assert (a + b)[0] == a[0];
      assert (a + b)[1..] == a[1..] + b;
      var (first, st1) := EvalPair(fuel, st, a[0]);
      if first.Ok? {
        EvalPairsAppend(fuel, st1, a[1..], b);
      }
    }
  }

  /** The first pair that fails ends the list with its own outcome: the pairs after it are not
      evaluated. */
  lemma PairFailureStops(fuel: nat, st: Stack, a: seq<Pair>, p: Pair, rest: seq<Pair>)
    requires EvalPairs(fuel, st, a).0.Ok?
    requires !EvalPair(fuel, EvalPairs(fuel, st, a).1, p).0.Ok?
    ensures EvalPairs(fuel, st, a + [p] + rest) == EvalPair(fuel, EvalPairs(fuel, st, a).1, p)
  {
    assert a + [p] + rest == a + ([p] + rest);
    EvalPairsAppend(fuel, st, a, [p] + rest);
    assert ([p] + rest)[0] == p;
  }

  /** An assignment list is nil when every pair succeeded; otherwise it is the failing pair's
      outcome, its error unchanged. */
  lemma AssignmentListResult(fuel: nat, st: Stack, pairs: seq<Pair>)
    ensures var (res, st1) := EvalPairs(fuel, st, pairs);
            var r := Eval(fuel, st, AssignmentList(pairs));
            r.1 == st1 && (r.0 == Ok(Nil) <==> res.Ok?) && (r.0.Err? <==> res.Err?) &&
            (res.Err? ==> r.0.error == res.error)
  {
  }

  /** The values of constant forms, in order. */
  function ConstantsOf(items: seq<Form>): (r: seq<Value>)
    requires forall i :: 0 <= i < |items| ==> items[i].Literal? && !items[i].lit.SymbolLit?
    ensures |r| == |items| && forall i :: 0 <= i < |items| ==> r[i] == LiteralValue(items[i].lit)
  {
    if items == [] then [] else [LiteralValue(items[0].lit)] + ConstantsOf(items[1..])
  }

  /** An array of constants is the array of their values, in order, and the table is left
      alone. */
  lemma {:induction false} ConstantArray(fuel: nat, st: Stack, items: seq<Form>)
    requires forall i :: 0 <= i < |items| ==> items[i].Literal? && !items[i].lit.SymbolLit?
    ensures EvalItems(fuel, st, items) == (Ok(ConstantsOf(items)), st)
    ensures EvalArrayForm(fuel, st, items) == (Ok(Array(ConstantsOf(items))), st)
    decreases |items|
  {
    if items != [] {
      ConstantArray(fuel, st, items[1..]);
      assert ConstantsOf(items) == [LiteralValue(items[0].lit)] + ConstantsOf(items[1..]);
    }
  }

  /** An array item after a failing one is still evaluated: its assignments reach the table,
      while the array reports the first error. */
  lemma ItemsAfterFailure(fuel: nat, st: Stack, items: seq<Form>)
    requires |items| > 1
    requires Eval(fuel, st, items[0]).0.Err?
    requires !EvalItems(fuel, Eval(fuel, st, items[0]).1, items[1..]).0.Halted()
    ensures EvalItems(fuel, st, items) ==
              (Err(Eval(fuel, st, items[0]).0.error), EvalItems(fuel, Eval(fuel, st, items[0]).1, items[1..]).1)
  {
  }

  /** A code block evaluates its forms after a failing one too, reports the first failure and
      drops its scope. */
  lemma BlockAfterFailure(fuel: nat, st: Stack, forms: seq<Form>)
    requires |forms| > 1
    requires Eval(fuel, st, forms[0]).0.Err?
    requires !EvalBlock(fuel, Eval(fuel, st, forms[0]).1, forms[1..]).0.Halted()
    ensures EvalBlock(fuel, st, forms) == (Eval(fuel, st, forms[0]).0, EvalBlock(fuel, Eval(fuel, st, forms[0]).1, forms[1..]).1)
  {
  }

  /** A code block of one form has that form's result, run in a new frame, and the table is
      as it was, when the form does not halt. */
  lemma BlockOfOne(fuel: nat, st: Stack, f: Form)
    requires !Eval(fuel, PushFrame(st), f).0.Halted()
    ensures Eval(fuel, st, CodeBlock([f])) == (Eval(fuel, PushFrame(st), f).0, st)
  {
  }

  /** A form that succeeds and is not the last hands the rest of the block the table it
      left, and the block's result is the rest's. */
  lemma BlockContinues(fuel: nat, st: Stack, forms: seq<Form>)
    requires |forms| > 1 && Eval(fuel, st, forms[0]).0.Ok?
    ensures EvalBlock(fuel, st, forms) == EvalBlock(fuel, Eval(fuel, st, forms[0]).1, forms[1..])
  {
  }

  /** An empty code block is nil and leaves the table as it was. */
  lemma EmptyBlock(fuel: nat, st: Stack)
    ensures Eval(fuel, st, CodeBlock([])) == (Ok(Nil), st)
  {
  }

  // ---------------------------------------------------------------------------------------
  // Calls

  /** A call whose callable has a value applies that value to the argument forms. */
  lemma CallApplies(fuel: nat, st: Stack, c: Form, args: seq<Form>)
    requires Eval(fuel, st, c).0.Ok?
    ensures Eval(fuel, st, Call(c, args)) == Apply(fuel, Eval(fuel, st, c).1, Call(c, args), Eval(fuel, st, c).0.value)
  {
    assert Eval(fuel, st, Call(c, args)) == EvalCall(fuel, st, Call(c, args));
  }

  /** A callable that evaluates to a value other than a function or macro is the call's
      result when there are no arguments; with arguments it is a `Top` error caused by the
      call, and the arguments are not evaluated. */
  lemma NonCallableCall(fuel: nat, st: Stack, c: Form, args: seq<Form>)
    requires Eval(fuel, st, c).0.Ok?
    requires !Eval(fuel, st, c).0.value.Function? && !Eval(fuel, st, c).0.value.Macro?
    ensures args == [] ==> Eval(fuel, st, Call(c, args)) == Eval(fuel, st, c)
    ensures args != [] && !HasLazy(Eval(fuel, st, c).0.value) ==>
              Eval(fuel, st, Call(c, args)).0.Err? &&
              Eval(fuel, st, Call(c, args)).0.error.Top? &&
              Eval(fuel, st, Call(c, args)).0.error.src == Some(FormText(Call(c, args))) &&
              Eval(fuel, st, Call(c, args)).1 == Eval(fuel, st, c).1
  {
    CallApplies(fuel, st, c, args);
  }

  /** A macro callee receives the argument forms themselves, unevaluated and in order. */
  lemma MacroGetsForms(fuel: nat, st: Stack, c: Form, args: seq<Form>)
    requires Eval(fuel, st, c).0.Ok? && Eval(fuel, st, c).0.value.Macro?
    ensures var (cv, st1) := Eval(fuel, st, c);
            var (res, st2) := ExecMacro(fuel, st1, cv.value.mac, args);
            Eval(fuel, st, Call(c, args)) == (WrapErr(res, Some(FormText(Call(c, args))), None), st2)
  {
    CallApplies(fuel, st, c, args);
  }

  /** A function callee receives the values of the arguments, evaluated as an array. */
  lemma FunctionGetsValues(fuel: nat, st: Stack, c: Form, args: seq<Form>)
    requires Eval(fuel, st, c).0.Ok? && Eval(fuel, st, c).0.value.Function?
    requires EvalArrayForm(fuel, Eval(fuel, st, c).1, args).0.Ok?
    ensures var (cv, st1) := Eval(fuel, st, c);
            var (av, st2) := EvalArrayForm(fuel, st1, args);
            var (res, st3) := ExecFunction(fuel, st2, cv.value.fun, av.value.items);
            Eval(fuel, st, Call(c, args)) == (WrapErr(res, Some(FormText(Call(c, args))), None), st3)
  {
    CallApplies(fuel, st, c, args);
  }

  /** A failure of the callable is reported through a `Stream` with the callable note. */
  lemma CallableFailure(fuel: nat, st: Stack, c: Form, args: seq<Form>)
    requires Eval(fuel, st, c).0.Err?
    ensures Eval(fuel, st, Call(c, args)) ==
              (Err(Stream(Eval(fuel, st, c).0.error, Some(FormText(Call(c, args))), Some(CallableNote))), Eval(fuel, st, c).1)
  {
  }

  /** A pending call whose callable is itself a pending call runs that one, whatever its own
      arguments are. */
  lemma LazyCalleeIgnoresArguments(fuel: nat, st: Stack, c: Form, args: seq<Form>, other: seq<Form>)
    requires Eval(fuel, st, c).0.Ok? && Eval(fuel, st, c).0.value.LazyCall?
    ensures CallExec(fuel, st, Pending(c, args)) == CallExec(fuel, st, Pending(c, other))
  {
  }

  /** A pending call's callable that fails is reported through a `Stream` with the callee
      note and no place. */
  lemma PendingCalleeFailure(fuel: nat, st: Stack, p: Pending)
    requires Eval(fuel, st, p.callable).0.Err?
    ensures CallExec(fuel, st, p) == (Err(Stream(Eval(fuel, st, p.callable).0.error, None, Some(CalleeNote))), Eval(fuel, st, p.callable).1)
  {
  }

  /** A pending call to a function evaluates its arguments as an array and runs the function
      on their values; an argument's failure carries the argument note, the function's the
      callable's text. */
  lemma PendingFunctionGetsValues(fuel: nat, st: Stack, p: Pending)
    requires Eval(fuel, st, p.callable).0.Ok? && Eval(fuel, st, p.callable).0.value.Function?
    ensures var (cv, st1) := Eval(fuel, st, p.callable);
            var (av, st2) := EvalArrayForm(fuel, st1, p.arguments);
            var src := Some(FormText(p.callable));
            (av.Err? ==> CallExec(fuel, st, p) == (Err(Stream(av.error, src, Some(ArgumentNote))), st2)) &&
            (av.Ok? ==>
               var (res, st3) := ExecFunction(fuel, st2, cv.value.fun, av.value.items);
               CallExec(fuel, st, p) == (WrapErr(res, src, None), st3))
  {
  }

  /** A pending call to a macro hands it the argument forms unevaluated, in order. */
  lemma PendingMacroGetsForms(fuel: nat, st: Stack, p: Pending)
    requires Eval(fuel, st, p.callable).0.Ok? && Eval(fuel, st, p.callable).0.value.Macro?
    ensures var (cv, st1) := Eval(fuel, st, p.callable);
            var (res, st2) := ExecMacro(fuel, st1, cv.value.mac, p.arguments);
            CallExec(fuel, st, p) == (WrapErr(res, Some(FormText(p.callable)), None), st2)
  {
  }

  /** A pending call whose callable is no function, macro or pending call is unreachable
      code: a panic. */
  lemma CallExecUnreachable(fuel: nat, st: Stack, p: Pending)
    requires Eval(fuel, st, p.callable).0.Ok?
    requires var v := Eval(fuel, st, p.callable).0.value; !v.Function? && !v.Macro? && !v.LazyCall?
    ensures CallExec(fuel, st, p).0 == Panic(Unreachable)
  {
  }

  // ---------------------------------------------------------------------------------------
  // Function execution

  /** The values bound to distinct parameters: parameter `i` is bound to value `i`. */
  lemma {:induction false} BindAllBinds(st: Stack, params: seq<Symbol>, values: seq<Value>, i: nat)
    requires st != [] && i < |params| && i < |values|
    requires forall j, k :: 0 <= j < k < |params| ==> params[j] != params[k]
    ensures var r := BindAll(st, params, values);
            params[i] in r[|r| - 1] && r[|r| - 1][params[i]] == values[i]
    decreases |params|
  {
    var st1 := RegisterIn(st, params[0], values[0]).1;
    if i == 0 {
      BindAllKeeps(st1, params[1..], values[1..], params[0]);
    } else {
      BindAllBinds(st1, params[1..], values[1..], i - 1);
    }
  }

  /** Binding other parameters keeps the binding of a symbol that is not among them. */
  lemma {:induction false} BindAllKeeps(st: Stack, params: seq<Symbol>, values: seq<Value>, s: Symbol)
    requires st != [] && s in st[|st| - 1]
    requires forall j :: 0 <= j < |params| ==> params[j] != s
    ensures var r := BindAll(st, params, values);
            s in r[|r| - 1] && r[|r| - 1][s] == st[|st| - 1][s]
    decreases |params|
  {
    if params != [] && values != [] {
      var st1 := RegisterIn(st, params[0], values[0]).1;
      BindAllKeeps(st1, params[1..], values[1..], s);
    }
  }

  /** On a full call of a function with a body, the body runs in a new scope where the
      parameters are bound to the arguments supplied earlier followed by the new ones; the
      scope is dropped afterwards. */
  lemma FullCall(fuel: nat, st: Stack, f: FunctionValue, args: seq<Value>)
    requires f.arity == |args| && fuel > 0 && f.body.Some?
    ensures var (res, st2) := Eval(fuel - 1, BindAll(PushFrame(st), f.params, f.partials + args), f.body.value);
            ExecFunction(fuel, st, f, args) == (res, if res.Halted() then st2 else st)
  {
  }

  /** Inside the body of a full call, parameter `i` of a well-formed function with distinct
      parameters reads the `i`-th of the earlier arguments followed by the new ones. */
  lemma FullCallParameter(fuel: nat, st: Stack, f: FunctionValue, args: seq<Value>, i: nat)
    requires WellFormed(f) && f.arity == |args| && i < |f.params|
    requires forall j, k :: 0 <= j < k < |f.params| ==> f.params[j] != f.params[k]
    ensures var inner := BindAll(PushFrame(st), f.params, f.partials + args);
            FindLast(inner, f.params[i]) == Some((f.partials + args)[i])
  {
    var inner := BindAll(PushFrame(st), f.params, f.partials + args);
    BindAllBinds(PushFrame(st), f.params, f.partials + args, i);
    FindLastAt(inner, f.params[i], |inner| - 1);
  }

  /** The native code runs exactly when there is no body. */
  lemma NativeCall(fuel: nat, st: Stack, f: FunctionValue, args: seq<Value>)
    requires f.arity == |args| && fuel > 0 && f.body.None? && f.native.Some?
    ensures var (res, st2) := RunNative(fuel - 1, BindAll(PushFrame(st), f.params, f.partials + args), f.native.value);
            ExecFunction(fuel, st, f, args) == (res, if res.Halted() then st2 else st)
  {
  }

  /** Supplying the arguments over two calls gives the same result as supplying them in one:
      the first call returns the partial function, and the second binds the same values. */
  lemma CurriedCall(fuel: nat, st: Stack, f: FunctionValue, a: seq<Value>, b: seq<Value>)
    requires |a| < f.arity && |a| + |b| == f.arity
    ensures ExecFunction(fuel, st, f, a) == (Ok(Function(PartialFunction(f, a))), st)
    ensures ExecFunction(fuel, st, PartialFunction(f, a), b) == ExecFunction(fuel, st, f, a + b)
  {
    assert PartialFunction(f, a).partials + b == f.partials + (a + b);
  }

  // ---------------------------------------------------------------------------------------
  // Native macros

  /** `if` evaluates the condition and then exactly one branch; the other is never run. */
  lemma IfOneBranch(fuel: nat, st: Stack, c: Form, t: Form, e: Form)
    requires Eval(fuel, st, c).0.Ok? && AsBoolean(Eval(fuel, st, c).0.value).Ok?
    ensures var (v, st1) := Eval(fuel, st, c);
            If(fuel, st, [c, t, e]) == if AsBoolean(v.value).value then Eval(fuel, st1, t) else Eval(fuel, st1, e)
  {
  }

  /** `assert` stops at the first false form: the forms after it are not evaluated. */
  lemma AssertStops(fuel: nat, st: Stack, forms: seq<Form>)
    requires forms != []
    requires Eval(fuel, st, forms[0]).0 == Ok(Bool(false))
    ensures Assert(fuel, st, forms) == (Err(Top(Some(FormText(forms[0])), "Assertion failed")), Eval(fuel, st, forms[0]).1)
    ensures Assert(fuel, st, forms) == Assert(fuel, st, forms[..1])
  {
  }

  /** `assert` goes on past a true form: the rest are checked from the table it left. */
  lemma AssertContinues(fuel: nat, st: Stack, forms: seq<Form>)
    requires forms != []
    requires Eval(fuel, st, forms[0]).0 == Ok(Bool(true))
    ensures Assert(fuel, st, forms) == Assert(fuel, Eval(fuel, st, forms[0]).1, forms[1..])
  {
  }

  /** `assert` of nothing is true. */
  lemma AssertNothing(fuel: nat, st: Stack)
    ensures Assert(fuel, st, []) == (Ok(Bool(true)), st)
  {
  }

  /** `|>` of one form is that form's value. */
  lemma PipeOne(fuel: nat, st: Stack, f: Form)
    requires Eval(fuel, st, f).0.Ok?
    ensures Pipe(fuel, st, [f]) == Eval(fuel, st, f)
  {
  }

  /** `|>` applies the target functions left to right: the running value goes through the
      first target before the rest. */
  lemma PipeStep(fuel: nat, st: Stack, acc: Value, g: Form, rest: seq<Form>)
    requires Eval(fuel, st, g).0.Ok? && Eval(fuel, st, g).0.value.Function?
    requires var (t, st1) := Eval(fuel, st, g); ExecFunction(fuel, st1, t.value.fun, [acc]).0.Ok?
    ensures var (t, st1) := Eval(fuel, st, g);
            var (v, st2) := ExecFunction(fuel, st1, t.value.fun, [acc]);
            PipeAll(fuel, st, acc, [g] + rest) == PipeAll(fuel, st2, v.value, rest)
  {
    assert ([g] + rest)[1..] == rest;
  }

  /** A pipe target that is not a function ends the pipe with an error. */
  lemma PipeNonFunction(fuel: nat, st: Stack, acc: Value, g: Form, rest: seq<Form>)
    requires Eval(fuel, st, g).0.Ok? && !Eval(fuel, st, g).0.value.Function?
    requires !HasLazy(Eval(fuel, st, g).0.value)
    ensures PipeAll(fuel, st, acc, [g] + rest).0.Err?
    ensures PipeAll(fuel, st, acc, [g] + rest).0.error.Top?
  {
  }

  // ---------------------------------------------------------------------------------------
  // Native functions over arrays

  /** `map` gives, at each position, the result of `f` on the item there alone. */
  lemma {:induction false} MapAllElements(fuel: nat, st: Stack, f: FunctionValue, items: seq<Value>)
    requires MapAll(fuel, st, f, items).0.Ok?
    ensures var out := MapAll(fuel, st, f, items).0.value;
            forall i :: 0 <= i < |items| ==> ExecFunction(fuel, st, f, [items[i]]).0 == Ok(out[i])
    decreases |items|
  {
    if items != [] {
      MapAllElements(fuel, st, f, items[1..]);
      var out := MapAll(fuel, st, f, items).0.value;
      forall i | 0 < i < |items| ensures ExecFunction(fuel, st, f, [items[i]]).0 == Ok(out[i]) {
        assert items[1..][i - 1] == items[i];
      }
    }
  }

  /** The running value after a prefix of the items, as `reduce` computes it. */
  lemma {:induction false} ReduceSplit(fuel: nat, st: Stack, f: FunctionValue, acc: Value, items: seq<Value>, x: Value)
    requires ReduceAll(fuel, st, f, acc, items).0.Ok?
    ensures ReduceAll(fuel, st, f, acc, items + [x]) ==
              ReduceAll(fuel, st, f, ReduceAll(fuel, st, f, acc, items).0.value, [x])
    decreases |items|
  {
    if items != [] {
      assert (items + [x])[0] == items[0] && (items + [x])[1..] == items[1..] + [x];
      var v := ExecFunction(fuel, st, f, [acc, items[0]]).0;
      ReduceSplit(fuel, st, f, v.value, items[1..], x);
    }
  }

  /** Each value `scan` keeps is the fold of `reduce` over the items up to it, so that its last
      value is what `reduce` gives. */
  lemma {:induction false} ScanIsRunningReduce(fuel: nat, st: Stack, f: FunctionValue, acc: Value, items: seq<Value>)
    requires ScanAll(fuel, st, f, acc, items).0.Ok?
    ensures var out := ScanAll(fuel, st, f, acc, items).0.value;
            forall i :: 0 <= i < |items| ==> ReduceAll(fuel, st, f, acc, items[..i + 1]) == (Ok(out[i]), st)
    decreases |items|
  {
    if items != [] {
      var v := ExecFunction(fuel, st, f, [acc, items[0]]).0;
      ScanIsRunningReduce(fuel, st, f, v.value, items[1..]);
      var out := ScanAll(fuel, st, f, acc, items).0.value;
      forall i | 0 <= i < |items| ensures ReduceAll(fuel, st, f, acc, items[..i + 1]) == (Ok(out[i]), st) {
        assert items[..i + 1][0] == items[0];
        if i > 0 {
          assert items[..i + 1][1..] == items[1..][..i];
        } else {
          assert items[..1][1..] == [];
        }
      }
    }
  }

  /** The last value `scan` keeps is the value of `reduce`. */
  lemma ScanLastIsReduce(fuel: nat, st: Stack, f: FunctionValue, acc: Value, items: seq<Value>)
    requires items != [] && ScanAll(fuel, st, f, acc, items).0.Ok?
    ensures ReduceAll(fuel, st, f, acc, items) == (Ok(ScanAll(fuel, st, f, acc, items).0.value[|items| - 1]), st)
  {
    ScanIsRunningReduce(fuel, st, f, acc, items);
    assert items[..|items|] == items;
  }

  /** The scope of a native call of `prepend` or `append`: `item` and `array` bound. */
  function ItemScope(item: Value, items: seq<Value>): (st: Stack)
    ensures |st| == 1
  {
    [map[Symbol("item") := item, Symbol("array") := Array(items)]]
  }

  /** `prepend` puts the item at the END of the array, and `append` does not read its `item`
      parameter at all: it looks up `f`, which its parameters do not bind, and panics when
      nothing else binds it either. */
  lemma PrependAppendSwapped(item: Value, items: seq<Value>)
    ensures Prepend(ItemScope(item, items)) == Ok(Array(items + [item]))
    ensures Append(ItemScope(item, items)) == Panic(UnwrapErr)
  {
    var st := ItemScope(item, items);
    assert Symbol("f") != Symbol("item") && Symbol("f") != Symbol("array");
    FindLastAt(st, Symbol("item"), 0);
    FindLastAt(st, Symbol("array"), 0);
    assert FindLast(st[..0], Symbol("f")) == None;
  }
}

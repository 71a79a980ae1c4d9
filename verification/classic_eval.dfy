/** Meaning of the earlier core draft's evaluator (`Form::eval`, `Call::exec`, `Function::exec`,
    `strict_eval`) and of the standard library's natives that run code: functions from a
    stack of scopes to a result and the new stack.

    Running a function body, a macro or a pending call is not structural recursion on the form
    being evaluated, so every function here takes `fuel`, the number of such runs that may
    still be entered; running out of it yields `OutOfFuel`, which the source does not have. */
module ClassicEval {
  import opened Wrappers
  import opened Text
  import opened Scopes
  import opened FlatSymbols
  import opened RunErrors
  import opened ClassicForms
  import opened ClassicValues
  import opened ClassicNatives
  import opened FlatTables

  type Stack = Frames<Value>
  type Ran = (RunResult<Value>, Stack)

  const CallableNote := "Error happened while trying to evaluate the callable part of the current call"
  const ArgumentNote := "Error happened while evaluating an argument of the current call"
  const ItemNote := "Error happened while evaluating an item of the current array"
  const CalleeNote := "Error happened while trying to evaluate callable element of the current call"
  const LazyCalleeNote := "Error happened while resolving lazy call in the callable element of the current call"
  const IfArity := "Wrong argument count for if. Needed a condition, a truth expression and a fake expression"
  const PipeInitNote := "Error happened whileevalutating the inital value of the piping sequence"
  const PipeTargetNote := "Error happened while trying to eval form to receive piping"
  const PipeExecNote := "Error happened while executing function in piping sequence"
  /** The reason of the panic raised by `unreachable!()`. */
  const Unreachable := "internal error: entered unreachable code"
  /** The reason of the panic raised by `unwrap` on an error. */
  const UnwrapErr := "called `Result::unwrap()` on an `Err` value"
  /** Running a macro with a defined body: `Macro::exec` is not part of this model. */
  const MacroExecUnknown := "Macro::exec"

  /** Only the innermost scope may differ: the depth and every outer scope are kept. */
  predicate SameOuter(a: Stack, b: Stack)
  {
    |a| == |b| && (a == [] || a[..|a| - 1] == b[..|b| - 1])
  }

  /** `Stream` wrapping of an error; any other result passes unchanged. */
  function WrapErr<T>(r: RunResult<T>, src: Option<string>, note: Option<string>): (u: RunResult<T>)
    ensures r.Err? <==> u.Err?
    ensures r.Err? ==> u.error == Stream(r.error, src, note)
    ensures !r.Err? ==> u == r
  {
    if r.Err? then Err(Stream(r.error, src, note)) else r
  }

  /** A native's `lookup!(table, name).unwrap()`: the innermost binding of the name; an
      unbound name is a panic. */
  function Arg(st: Stack, name: string): (r: RunResult<Value>)
    ensures r.Ok? <==> FindLast(st, Symbol(name)).Some?
    ensures r.Ok? ==> Some(r.value) == FindLast(st, Symbol(name))
    ensures !r.Ok? ==> r == Panic(UnwrapErr)
  {
    match FindLast(st, Symbol(name))
    case Some(v) => Ok(v)
    case None => Panic(UnwrapErr)
  }

  /** `Function::exec`'s binding of the parameters: `zip(params, values)`, each registered in
      the innermost scope, which exists, in order. */
  function BindAll(st: Stack, params: seq<Symbol>, values: seq<Value>): (r: Stack)
    requires st != []
    ensures SameOuter(st, r)
    decreases |params|
  {
    if params == [] || values == [] then st
    else BindAll(RegisterIn(st, params[0], values[0]).1, params[1..], values[1..])
  }

  /** The error of a call with more arguments than the function still misses: a `Top` error
      caused by the body's text, none for a native function. */
  function TooManyArguments(f: FunctionValue, got: nat): (e: RunError)
    ensures e.Top? && (e.src.Some? <==> f.body.Some?)
  {
    Top(if f.body.Some? then Some(FormText(f.body.value)) else None,
        "Too many arguments passed to function call, expected " + NatText(f.arity) + ", but got " + NatText(got))
  }

  // ---------------------------------------------------------------------------------------
  // Forms

  /** `Form::eval`. */
  function Eval(fuel: nat, st: Stack, f: Form): (r: Ran)
    ensures !r.0.Halted() ==> SameOuter(st, r.1)
    ensures f.CodeBlock? && !r.0.Halted() ==> r.1 == st
    decreases fuel, 1, f, 1
  {
    match f
    case AssignmentList(pairs) =>
      var (res, st1) := EvalPairs(fuel, st, pairs);
      (if res.Ok? then Ok(Nil) else Rethrow(res), st1)
    case CodeBlock(forms) =>
      var (res, st1) := EvalBlock(fuel, PushFrame(st), forms);
      if res.Halted() then (res, st1) else (res, PopFrame(st1))
    case FunctionLit(params, body) => (Ok(Function(NewFunction(params, body))), st)
    case MacroLit(params, body) => (Ok(Macro(DefinedMacro(params, body))), st)
    case Call(_, _) => EvalCall(fuel, st, f)
    case ArrayLit(items) => EvalArrayForm(fuel, st, items)
    case Literal(l) =>
      if l.SymbolLit? then (WrapErr(LookupLast(st, l.sym), Some(FormText(f)), None), st)
      else (Ok(LiteralValue(l)), st)
  }

  /** The pairs of an assignment list in order: each right-hand side is evaluated and its
      symbol registered in the innermost scope; the first failure ends the list. */
  function EvalPairs(fuel: nat, st: Stack, pairs: seq<Pair>): (r: (RunResult<()>, Stack))
    ensures !r.0.Halted() ==> SameOuter(st, r.1)
    decreases fuel, 1, pairs, 1
  {
    if pairs == [] then (Ok(()), st)
    else
      var (first, st1) := EvalPair(fuel, st, pairs[0]);
      if !first.Ok? then (first, st1) else EvalPairs(fuel, st1, pairs[1..])
  }

  function EvalPair(fuel: nat, st: Stack, p: Pair): (r: (RunResult<()>, Stack))
    ensures !r.0.Halted() ==> SameOuter(st, r.1)
    decreases fuel, 1, p, 0
  {
    var (v, st1) := Eval(fuel, st, p.rhs);
    if !v.Ok? then (Rethrow(v), st1) else RegisterIn(st1, p.target, v.value)
  }

  /** The forms of a code block: every one is evaluated, those after a failure too; the result
      is the first error, or else the last value, or nil for no form. */
  function EvalBlock(fuel: nat, st: Stack, forms: seq<Form>): (r: Ran)
    ensures !r.0.Halted() ==> SameOuter(st, r.1)
    decreases fuel, 1, forms, 1
  {
    if forms == [] then (Ok(Nil), st)
    else
      var (first, st1) := Eval(fuel, st, forms[0]);
      if first.Halted() || |forms| == 1 then (first, st1)
      else
        var (rest, st2) := EvalBlock(fuel, st1, forms[1..]);
        (if first.Err? && !rest.Halted() then first else rest, st2)
  }

  /** The items of an array: every one is evaluated, those after a failure too; the result is
      the first error or else all the values. */
  function EvalItems(fuel: nat, st: Stack, items: seq<Form>): (r: (RunResult<seq<Value>>, Stack))
    ensures !r.0.Halted() ==> SameOuter(st, r.1)
    ensures r.0.Ok? ==> |r.0.value| == |items|
    decreases fuel, 1, items, 0
  {
    if items == [] then (Ok([]), st)
    else
      var (first, st1) := Eval(fuel, st, items[0]);
      if first.Halted() then (Rethrow(first), st1)
      else
        var (rest, st2) := EvalItems(fuel, st1, items[1..]);
        if rest.Halted() then (rest, st2)
        else if first.Err? then (Err(first.error), st2)
        else if rest.Err? then (rest, st2)
        else (Ok([first.value] + rest.value), st2)
  }

  /** `Form::Array` evaluation: an array of the items' values; an item's error is wrapped in
      a `Stream` caused by the array's text. */
  function EvalArrayForm(fuel: nat, st: Stack, items: seq<Form>): (r: Ran)
    ensures !r.0.Halted() ==> SameOuter(st, r.1)
    ensures r.0.Ok? ==> r.0.value.Array? && |r.0.value.items| == |items|
    ensures r.0.Ok? <==> EvalItems(fuel, st, items).0.Ok?
    ensures r.0.Ok? ==> r.0.value.items == EvalItems(fuel, st, items).0.value
    ensures r.0.Err? <==> EvalItems(fuel, st, items).0.Err?
    ensures r.0.Err? ==> r.0.error == Stream(EvalItems(fuel, st, items).0.error, Some(FormText(ArrayLit(items))), Some(ItemNote))
    decreases fuel, 1, items, 1
  {
    var (res, st1) := EvalItems(fuel, st, items);
    if res.Ok? then (Ok(Array(res.value)), st1)
    else if res.Err? then (Err(Stream(res.error, Some(FormText(ArrayLit(items))), Some(ItemNote))), st1)
    else (Rethrow(res), st1)
  }

  /** The `Call` case of `Form::eval`: the callable is evaluated, then its value applied. */
  function EvalCall(fuel: nat, st: Stack, f: Form): (r: Ran)
    requires f.Call?
    ensures !r.0.Halted() ==> SameOuter(st, r.1)
    decreases fuel, 1, f, 0
  {
    var (cv, st1) := Eval(fuel, st, f.callable);
    if cv.Err? then (Err(Stream(cv.error, Some(FormText(f)), Some(CallableNote))), st1)
    else if cv.Halted() then (cv, st1)
    else Apply(fuel, st1, f, cv.value)
  }

  /** The value of a call's callable applied: a function receives the values of the
      arguments, a macro their forms; any other value is the result when there is no
      argument. */
  function Apply(fuel: nat, st: Stack, f: Form, callee: Value): (r: Ran)
    requires f.Call?
    ensures !r.0.Halted() ==> SameOuter(st, r.1)
    decreases fuel, 1, f.args, 2
  {
    var src := Some(FormText(f));
    match callee
    case Function(fn) =>
      var (av, st1) := EvalArrayForm(fuel, st, f.args);
      if av.Err? then (Err(Stream(av.error, src, Some(ArgumentNote))), st1)
      else if av.Halted() then (av, st1)
      else
        var (res, st2) := ExecFunction(fuel, st1, fn, av.value.items);
        (WrapErr(res, src, None), st2)
    case Macro(m) =>
      var (res, st1) := ExecMacro(fuel, st, m, f.args);
      (WrapErr(res, src, None), st1)
    case _ =>
      if |f.args| == 0 then (Ok(callee), st)
      else
        match Shown(callee)
        case Ok(t) => (Err(Top(src, "Trying call a non function value `" + t + "`")), st)
        case _ => (Panic(LazyDisplay), st)
  }

  // ---------------------------------------------------------------------------------------
  // Functions, macros and pending calls

  /** `Function::exec`: too many arguments is an error; too few give the partial function;
      otherwise the parameters are bound to the supplied arguments followed by these in a
      new scope, the body (or the native code when there is none) runs, and the scope is
      dropped whatever the outcome. */
  function ExecFunction(fuel: nat, st: Stack, f: FunctionValue, args: seq<Value>): (r: Ran)
    ensures !r.0.Halted() ==> r.1 == st
    ensures f.arity < |args| ==> r == (Err(TooManyArguments(f, |args|)), st)
    ensures f.arity > |args| ==> r == (Ok(Function(PartialFunction(f, args))), st)
    decreases fuel, 0
  {
    if f.arity < |args| then (Err(TooManyArguments(f, |args|)), st)
    else if f.arity > |args| then (Ok(Function(PartialFunction(f, args))), st)
    else if fuel == 0 then (OutOfFuel, st)
    else
      var st1 := BindAll(PushFrame(st), f.params, f.partials + args);
      var (res, st2) :=
        if f.body.Some? then Eval(fuel - 1, st1, f.body.value)
        else if f.native.Some? then RunNative(fuel - 1, st1, f.native.value)
        else (Panic(UnwrapNone), st1);
      if res.Halted() then (res, st2) else (res, PopFrame(st2))
  }

  /** `Macro::exec`: the library's native macros receive the argument forms unevaluated. */
  function ExecMacro(fuel: nat, st: Stack, m: MacroValue, forms: seq<Form>): (r: Ran)
    ensures !r.0.Halted() ==> SameOuter(st, r.1)
    decreases fuel, 0
  {
    if fuel == 0 then (OutOfFuel, st)
    else
      match m.code
      case Defined(_, _) => (Panic(MacroExecUnknown), st)
      case IfMacro => If(fuel - 1, st, forms)
      case AssertMacro => Assert(fuel - 1, st, forms)
      case PipeMacro => Pipe(fuel - 1, st, forms)
  }

  /** `Call::exec`: a pending call. The callable may itself be a pending call, which is run
      in turn; any value that is not a function, a macro or a pending call is unreachable. */
  function CallExec(fuel: nat, st: Stack, p: Pending): (r: Ran)
    ensures !r.0.Halted() ==> SameOuter(st, r.1)
    decreases fuel, 2, 1
  {
    var (cv, st1) := Eval(fuel, st, p.callable);
    if cv.Err? then (Err(Stream(cv.error, None, Some(CalleeNote))), st1)
    else if cv.Halted() then (cv, st1)
    else ApplyPending(fuel, st1, p, cv.value)
  }

  /** The value of a pending call's callable applied. */
  function ApplyPending(fuel: nat, st: Stack, p: Pending, callee: Value): (r: Ran)
    ensures !r.0.Halted() ==> SameOuter(st, r.1)
    decreases fuel, 2, 0
  {
    var src := Some(FormText(p.callable));
    match callee
    case Function(fn) =>
      var (av, st1) := EvalArrayForm(fuel, st, p.arguments);
      if av.Err? then (Err(Stream(av.error, src, Some(ArgumentNote))), st1)
      else if av.Halted() then (av, st1)
      else
        var (res, st2) := ExecFunction(fuel, st1, fn, av.value.items);
        (WrapErr(res, src, None), st2)
    case Macro(m) =>
      var (res, st1) := ExecMacro(fuel, st, m, p.arguments);
      (WrapErr(res, src, None), st1)
    case LazyCall(l) =>
      if fuel == 0 then (OutOfFuel, st)
      else
        var (res, st1) := CallExec(fuel - 1, st, l);
        (WrapErr(res, None, Some(LazyCalleeNote)), st1)
    case _ => (Panic(Unreachable), st)
  }

  /** `strict_eval`: pending calls are run until the value is no longer one. */
  function StrictEval(fuel: nat, st: Stack, v: Value): (r: Ran)
    ensures r.0.Ok? ==> !r.0.value.LazyCall?
    ensures !v.LazyCall? ==> r == (Ok(v), st)
    ensures !r.0.Halted() ==> SameOuter(st, r.1)
    decreases fuel, 3
  {
    if !v.LazyCall? then (Ok(v), st)
    else if fuel == 0 then (OutOfFuel, st)
    else
      var (res, st1) := CallExec(fuel - 1, st, v.call);
      if !res.Ok? then (res, st1) else StrictEval(fuel - 1, st1, res.value)
  }

  // ---------------------------------------------------------------------------------------
  // Native macros

  /** `if`: exactly three forms; the condition is evaluated, then one branch and never the
      other. */
  function If(fuel: nat, st: Stack, forms: seq<Form>): (r: Ran)
    ensures !r.0.Halted() ==> SameOuter(st, r.1)
    ensures |forms| != 3 ==> r == (Err(FromString(IfArity)), st)
    decreases fuel, 2
  {
    if |forms| != 3 then (Err(FromString(IfArity)), st)
    else
      var (c, st1) := Eval(fuel, st, forms[0]);
      if !c.Ok? then (c, st1)
      else
        match AsBoolean(c.value)
        case Ok(b) => if b then Eval(fuel, st1, forms[1]) else Eval(fuel, st1, forms[2])
        case _ => (Panic(LazyTruth), st1)
  }

  /** `assert`: the forms in order; the first one whose value is false stops the run with an
      "Assertion failed" error, and true is the result when none is. */
  function Assert(fuel: nat, st: Stack, forms: seq<Form>): (r: Ran)
    ensures !r.0.Halted() ==> SameOuter(st, r.1)
    ensures r.0.Ok? ==> r.0.value == Bool(true)
    decreases fuel, 2, forms
  {
    if forms == [] then (Ok(Bool(true)), st)
    else
      var src := Some(FormText(forms[0]));
      var (v, st1) := Eval(fuel, st, forms[0]);
      if v.Err? then (Err(Stream(v.error, src, None)), st1)
      else if v.Halted() then (v, st1)
      else
        match AsBoolean(v.value)
        case Ok(b) =>
          if !b then (Err(Top(src, "Assertion failed")), st1)
          else Assert(fuel, st1, forms[1..])
        case _ => (Panic(LazyTruth), st1)
  }

  /** `|>`: the first form's value is piped through the functions the other forms evaluate
      to, left to right. */
  function Pipe(fuel: nat, st: Stack, forms: seq<Form>): (r: Ran)
    ensures !r.0.Halted() ==> SameOuter(st, r.1)
    ensures forms == [] ==> r == (Err(Top(Some("|>"), "Piping must have an initial value")), st)
    decreases fuel, 3
  {
    if forms == [] then (Err(Top(Some("|>"), "Piping must have an initial value")), st)
    else
      var (init, st1) := Eval(fuel, st, forms[0]);
      if init.Err? then (Err(Stream(init.error, Some("|>"), Some(PipeInitNote))), st1)
      else if init.Halted() then (init, st1)
      else PipeAll(fuel, st1, init.value, forms[1..])
  }

  /** The fold of `|>` over its target forms from the running value `acc`. */
  function PipeAll(fuel: nat, st: Stack, acc: Value, forms: seq<Form>): (r: Ran)
    ensures !r.0.Halted() ==> SameOuter(st, r.1)
    ensures forms == [] ==> r == (Ok(acc), st)
    decreases fuel, 2, forms, 1
  {
    if forms == [] then (Ok(acc), st)
    else
      var (t, st1) := Eval(fuel, st, forms[0]);
      if t.Err? then (Err(Stream(t.error, None, Some(PipeTargetNote))), st1)
      else if t.Halted() then (t, st1)
      else if t.value.Function? then PipeInto(fuel, st1, t.value.fun, acc, forms[1..])
      else
        match Shown(t.value)
        case Ok(text) =>
          (Err(Top(None, "attempt to pipe in `" + text + "` which isn't a function. One may only pipe over functions")), st1)
        case _ => (Panic(LazyDisplay), st1)
  }

  /** One step of `|>`: the target function applied to the running value, then the rest. */
  function PipeInto(fuel: nat, st: Stack, fn: FunctionValue, acc: Value, rest: seq<Form>): (r: Ran)
    ensures !r.0.Halted() ==> SameOuter(st, r.1)
    decreases fuel, 2, rest, 2
  {
    var (v, st1) := ExecFunction(fuel, st, fn, [acc]);
    if v.Err? then (Err(Stream(v.error, None, Some(PipeExecNote))), st1)
    else if v.Halted() then (v, st1)
    else PipeAll(fuel, st1, v.value, rest)
  }

  // ---------------------------------------------------------------------------------------
  // Native functions

  /** A native function's code, run in the scope where its parameters are bound; each reads
      its arguments back with `lookup!(…).unwrap()`. */
  function RunNative(fuel: nat, st: Stack, n: Native): (r: Ran)
    ensures !r.0.Halted() ==> r.1 == st
    decreases fuel, 3
  {
    match n
    case EqNative => (Relate(st, EqRel), st)
    case NeqNative => (Relate(st, NeqRel), st)
    case LtNative => (Relate(st, LtRel), st)
    case GtNative => (Relate(st, GtRel), st)
    case LeNative => (Relate(st, LeRel), st)
    case GeNative => (Relate(st, GeRel), st)
    case AndNative => (Logic(st, true), st)
    case OrNative => (Logic(st, false), st)
    case NthNative => (Nth(st), st)
    case PrependNative => (Prepend(st), st)
    case AppendNative => (Append(st), st)
    case ConcatNative => (Concat(st), st)
    case MapNative => Map(fuel, st)
    case ReduceNative => Reduce(fuel, st)
    case ScanNative => Scan(fuel, st)
  }

  /** `generic_rel` with its lookups of `a` and `b`. */
  function Relate(st: Stack, op: Relation): (r: RunResult<Value>)
    ensures Arg(st, "a").Ok? && Arg(st, "b").Ok? ==> r == Compare(op, Arg(st, "a").value, Arg(st, "b").value)
  {
    var a := Arg(st, "a");
    var b := Arg(st, "b");
    if !a.Ok? then a else if !b.Ok? then b else Compare(op, a.value, b.value)
  }

  /** `generic_bool` with its lookups of `a` and `b`. */
  function Logic(st: Stack, conj: bool): (r: RunResult<Value>)
    ensures Arg(st, "a").Ok? && Arg(st, "b").Ok? ==> r == BoolOp(conj, Arg(st, "a").value, Arg(st, "b").value)
  {
    var a := Arg(st, "a");
    var b := Arg(st, "b");
    if !a.Ok? then a else if !b.Ok? then b else BoolOp(conj, a.value, b.value)
  }

  /** The array view of a looked-up argument (`as_vec`): any other value is a panic. */
  function ArrayArg(st: Stack, name: string): (r: RunResult<seq<Value>>)
    ensures r.Ok? <==> Arg(st, name).Ok? && Arg(st, name).value.Array?
    ensures r.Ok? ==> r.value == Arg(st, name).value.items
    ensures !r.Ok? ==> r.Panic?
  {
    var v := Arg(st, name);
    if !v.Ok? then Rethrow(v) else ToArray(v.value)
  }

  /** `nth`: the index is read, then the array, and only then is the index's kind checked. */
  function Nth(st: Stack): (r: RunResult<Value>)
    ensures Arg(st, "index").Ok? && ArrayArg(st, "array").Ok? ==>
              r == NthOf(Arg(st, "index").value, ArrayArg(st, "array").value)
  {
    var index := Arg(st, "index");
    var items := ArrayArg(st, "array");
    if !index.Ok? then index else if !items.Ok? then Rethrow(items) else NthOf(index.value, items.value)
  }

  /** `prepend`: the item goes to the END of the array. */
  function Prepend(st: Stack): (r: RunResult<Value>)
    ensures Arg(st, "item").Ok? && ArrayArg(st, "array").Ok? ==>
              r == Ok(Array(ArrayArg(st, "array").value + [Arg(st, "item").value]))
  {
    var item := Arg(st, "item");
    var items := ArrayArg(st, "array");
    if !item.Ok? then item else if !items.Ok? then Rethrow(items) else Ok(Array(items.value + [item.value]))
  }

  /** `append`: the value bound to `f`, which is not one of its parameters, goes to the FRONT
      of the array. */
  function Append(st: Stack): (r: RunResult<Value>)
    ensures Arg(st, "f").Ok? && ArrayArg(st, "array").Ok? ==>
              r == Ok(Array([Arg(st, "f").value] + ArrayArg(st, "array").value))
    ensures !Arg(st, "f").Ok? ==> r == Panic(UnwrapErr)
  {
    var item := Arg(st, "f");
    var items := ArrayArg(st, "array");
    if !item.Ok? then item else if !items.Ok? then Rethrow(items) else Ok(Array([item.value] + items.value))
  }

  /** `concat`: the items of `init` followed by those of `end`. */
  function Concat(st: Stack): (r: RunResult<Value>)
    ensures ArrayArg(st, "init").Ok? && ArrayArg(st, "end").Ok? ==>
              r == Ok(Array(ArrayArg(st, "init").value + ArrayArg(st, "end").value))
  {
    var init := ArrayArg(st, "init");
    var end := ArrayArg(st, "end");
    if !init.Ok? then Rethrow(init) else if !end.Ok? then Rethrow(end) else Ok(Array(init.value + end.value))
  }

  /** `map`: `f` must be a function; it is applied to each item in order, and the first
      failure ends the run. */
  function Map(fuel: nat, st: Stack): (r: Ran)
    ensures !r.0.Halted() ==> r.1 == st
    ensures !Arg(st, "f").Ok? ==> r == (Panic(UnwrapErr), st)
    ensures Arg(st, "f").Ok? && Arg(st, "array").Ok? && !Arg(st, "f").value.Function? ==>
              r == (NotAFunction(Arg(st, "f").value), st)
    ensures Arg(st, "f").Ok? && Arg(st, "f").value.Function? && Arg(st, "array").Ok? && Arg(st, "array").value.Array? ==>
              var res := MapAll(fuel, st, Arg(st, "f").value.fun, Arg(st, "array").value.items).0;
              (r.0.Ok? <==> res.Ok?) && (r.0.Ok? ==> r.0.value == Array(res.value)) && (r.0.Err? <==> res.Err?) &&
              (r.0.Err? ==> r.0.error == res.error)
    decreases fuel, 2, 1
  {
    var f := Arg(st, "f");
    var arr := Arg(st, "array");
    if !f.Ok? then (f, st)
    else if !arr.Ok? then (arr, st)
    else if !f.value.Function? then (NotAFunction(f.value), st)
    else
      var asArray := ToArray(arr.value);
      if !asArray.Ok? then (Rethrow(asArray), st)
      else
        var items := asArray.value;
        var (res, st1) := MapAll(fuel, st, f.value.fun, items);
        (if res.Ok? then Ok(Array(res.value)) else Rethrow(res), st1)
  }

  /** The applications of `map`: `f` on each item alone, in order. */
  function MapAll(fuel: nat, st: Stack, f: FunctionValue, items: seq<Value>): (r: (RunResult<seq<Value>>, Stack))
    ensures !r.0.Halted() ==> r.1 == st
    ensures r.0.Ok? ==> |r.0.value| == |items|
    decreases fuel, 2, 0, items
  {
    if items == [] then (Ok([]), st)
    else
      var (v, st1) := ExecFunction(fuel, st, f, [items[0]]);
      if !v.Ok? then (Rethrow(v), st1)
      else
        var (rest, st2) := MapAll(fuel, st1, f, items[1..]);
        if !rest.Ok? then (rest, st2) else (Ok([v.value] + rest.value), st2)
  }

  /** `reduce`: `f` must be a function; it is folded from `init` over the items, left to
      right, and the first failure ends the run. */
  function Reduce(fuel: nat, st: Stack): (r: Ran)
    ensures !r.0.Halted() ==> r.1 == st
    ensures !Arg(st, "f").Ok? ==> r == (Panic(UnwrapErr), st)
    ensures Arg(st, "f").Ok? && Arg(st, "init").Ok? && Arg(st, "array").Ok? && !Arg(st, "f").value.Function? ==>
              r == (NotAFunction(Arg(st, "f").value), st)
    ensures Arg(st, "f").Ok? && Arg(st, "f").value.Function? && Arg(st, "init").Ok? && Arg(st, "array").Ok? && Arg(st, "array").value.Array? ==>
              r == ReduceAll(fuel, st, Arg(st, "f").value.fun, Arg(st, "init").value, Arg(st, "array").value.items)
    decreases fuel, 2, 1
  {
    var f := Arg(st, "f");
    var init := Arg(st, "init");
    var arr := Arg(st, "array");
    if !f.Ok? then (f, st)
    else if !init.Ok? then (init, st)
    else if !arr.Ok? then (arr, st)
    else if !f.value.Function? then (NotAFunction(f.value), st)
    else
      var asArray := ToArray(arr.value);
      if !asArray.Ok? then (Rethrow(asArray), st)
      else ReduceAll(fuel, st, f.value.fun, init.value, asArray.value)
  }

  /** The left fold of `reduce`: `acc` is replaced by `f` applied to it and the next item. */
  function ReduceAll(fuel: nat, st: Stack, f: FunctionValue, acc: Value, items: seq<Value>): (r: Ran)
    ensures !r.0.Halted() ==> r.1 == st
    ensures items == [] ==> r == (Ok(acc), st)
    decreases fuel, 2, 0, items
  {
    if items == [] then (Ok(acc), st)
    else
      var (v, st1) := ExecFunction(fuel, st, f, [acc, items[0]]);
      if !v.Ok? then (v, st1) else ReduceAll(fuel, st1, f, v.value, items[1..])
  }

  /** `scan`: as `reduce`, keeping every intermediate value in place of its item. */
  function Scan(fuel: nat, st: Stack): (r: Ran)
    ensures !r.0.Halted() ==> r.1 == st
    ensures !Arg(st, "f").Ok? ==> r == (Panic(UnwrapErr), st)
    ensures Arg(st, "f").Ok? && Arg(st, "init").Ok? && Arg(st, "array").Ok? && !Arg(st, "f").value.Function? ==>
              r == (NotAFunction(Arg(st, "f").value), st)
    ensures Arg(st, "f").Ok? && Arg(st, "f").value.Function? && Arg(st, "init").Ok? && Arg(st, "array").Ok? && Arg(st, "array").value.Array? ==>
              var res := ScanAll(fuel, st, Arg(st, "f").value.fun, Arg(st, "init").value, Arg(st, "array").value.items).0;
              (r.0.Ok? <==> res.Ok?) && (r.0.Ok? ==> r.0.value == Array(res.value)) && (r.0.Err? <==> res.Err?) &&
              (r.0.Err? ==> r.0.error == res.error)
    decreases fuel, 2, 1
  {
    var f := Arg(st, "f");
    var init := Arg(st, "init");
    var arr := Arg(st, "array");
    if !f.Ok? then (f, st)
    else if !init.Ok? then (init, st)
    else if !arr.Ok? then (arr, st)
    else if !f.value.Function? then (NotAFunction(f.value), st)
    else
      var asArray := ToArray(arr.value);
      if !asArray.Ok? then (Rethrow(asArray), st)
      else
        var items := asArray.value;
        var (res, st1) := ScanAll(fuel, st, f.value.fun, init.value, items);
        (if res.Ok? then Ok(Array(res.value)) else Rethrow(res), st1)
  }

  /** The running values of `scan` from `acc`. */
  function ScanAll(fuel: nat, st: Stack, f: FunctionValue, acc: Value, items: seq<Value>): (r: (RunResult<seq<Value>>, Stack))
    ensures !r.0.Halted() ==> r.1 == st
    ensures r.0.Ok? ==> |r.0.value| == |items|
    decreases fuel, 2, 0, items
  {
    if items == [] then (Ok([]), st)
    else
      var (v, st1) := ExecFunction(fuel, st, f, [acc, items[0]]);
      if !v.Ok? then (Rethrow(v), st1)
      else
        var (rest, st2) := ScanAll(fuel, st1, f, v.value, items[1..]);
        if !rest.Ok? then (rest, st2) else (Ok([v.value] + rest.value), st2)
  }
}

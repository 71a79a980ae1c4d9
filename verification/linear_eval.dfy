/** Meaning of the linear runner: how a form is run against the runtime symbol table, as
    functions from a stack of scopes to a result and the new stack.

    The runner is a tree walk, but calling a function runs its body, which is not part of the
    call's form, so every function here takes `fuel`: the number of function bodies that may
    still be entered. Running out of it yields `OutOfFuel`, which the source does not have. */
module LinearEval {
  import opened Wrappers
  import opened Text
  import opened Symbols
  import opened RunErrors
  import opened Forms
  import opened Callables
  import opened StackTables

  type Ran = (RunResult<Value>, Stack)

  const CallableNote := "error while evaluating callable part of current call"
  const ArgumentsNote := "error while evaluating arguments of current call"
  const NotFunctional := "Passed arguments to non-functional form"
  /** The reason of the panic raised by `todo!()`. */
  const NotImplemented := "not yet implemented"

  /** Only the innermost scope may differ: the depth and every outer scope are kept. */
  predicate SameOuter(a: Stack, b: Stack)
  {
    |a| == |b| && (a == [] || a[1..] == b[1..])
  }

  /** Value a symbol would be captured as: the result of a successful lookup. */
  function Resolve(st: Stack, s: Symbol): (r: Option<Value>)
    ensures r.Some? <==> LookupIn(st, s).Ok?
    ensures r.Some? ==> r.value == LookupIn(st, s).value
  {
    if LookupIn(st, s).Ok? then Some(LookupIn(st, s).value) else None
  }

  // ---------------------------------------------------------------------------------------
  // Closure realisation

  /** Whether capturing in `f` would look a mutable symbol up, which panics on an empty stack. */
  predicate HasMutableLeaf(f: Form)
    decreases f, 1
  {
    match f.expr
    case SymbolRef(s) => IsMutable(s)
    case AssignmentList(pairs) => PairsHaveMutableLeaf(pairs)
    case Scope(forms) => AnyHasMutableLeaf(forms)
    case FunctionLit(_, body) => HasMutableLeaf(body)
    case MacroLit(_, _, body) => HasMutableLeaf(body)
    case Call(c, args) => HasMutableLeaf(c) || AnyHasMutableLeaf(args)
    case ArrayLit(items) => AnyHasMutableLeaf(items)
    case _ => false
  }

  predicate AnyHasMutableLeaf(forms: seq<Form>)
    decreases forms, 0
  {
    forms != [] && (HasMutableLeaf(forms[0]) || AnyHasMutableLeaf(forms[1..]))
  }

  predicate BindingHasMutableLeaf(b: Binding)
    decreases b
  {
    HasMutableLeaf(b.rhs)
  }

  predicate PairsHaveMutableLeaf(pairs: seq<Binding>)
    decreases pairs
  {
    pairs != [] && (BindingHasMutableLeaf(pairs[0]) || PairsHaveMutableLeaf(pairs[1..]))
  }

  /** `realize_captures`: every symbol leaf whose lookup succeeds becomes a capture of the
      value found; the rest of the tree is rebuilt as it was. The table is only read. */
  function Realize(st: Stack, f: Form): (r: Form)
    ensures r.span == f.span
    ensures f.expr.SymbolRef? ==>
              r.expr == (if Resolve(st, f.expr.sym).Some? then Capture(Resolve(st, f.expr.sym).value) else f.expr)
    ensures IsLiteral(f.expr) || f.expr.Capture? ==> r == f
    decreases f, 1
  {
    match f.expr
    case SymbolRef(s) =>
      (match Resolve(st, s)
       case Some(v) => Form(Capture(v), f.span)
       case None => f)
    case AssignmentList(pairs) => Form(AssignmentList(RealizePairs(st, pairs)), f.span)
    case Scope(forms) => Form(Scope(RealizeEach(st, forms)), f.span)
    case FunctionLit(params, body) => Form(FunctionLit(params, Realize(st, body)), f.span)
    case MacroLit(caps, params, body) => Form(MacroLit(caps, params, Realize(st, body)), f.span)
    case Call(c, args) => Form(Call(Realize(st, c), RealizeEach(st, args)), f.span)
    case ArrayLit(items) => Form(ArrayLit(RealizeEach(st, items)), f.span)
    case _ => f
  }

  function RealizeEach(st: Stack, forms: seq<Form>): (r: seq<Form>)
    ensures |r| == |forms|
    decreases forms, 0
  {
    if forms == [] then [] else [Realize(st, forms[0])] + RealizeEach(st, forms[1..])
  }

  function RealizeBinding(st: Stack, b: Binding): (r: Binding)
    ensures r.target == b.target
    decreases b
  {
    Binding(b.target, Realize(st, b.rhs))
  }

  function RealizePairs(st: Stack, pairs: seq<Binding>): (r: seq<Binding>)
    ensures |r| == |pairs|
    decreases pairs
  {
    if pairs == [] then [] else [RealizeBinding(st, pairs[0])] + RealizePairs(st, pairs[1..])
  }

  /** `run_function`: a function value over the literal's parameters and its realised body;
      the table is left as it was. */
  function EvalFunctionLit(st: Stack, params: seq<Symbol>, body: Form): (r: Ran)
    ensures r.1 == st
    ensures r.0.Panic? <==> st == [] && HasMutableLeaf(body)
    ensures !r.0.Panic? ==> r.0 == Ok(Function(NewFunction(params, Realize(st, body))))
  {
    if st == [] && HasMutableLeaf(body) then (Panic(UnwrapNone), st)
    else (Ok(Function(NewFunction(params, Realize(st, body)))), st)
  }

  /** `run_macro`: a macro value over the literal's parameters and its realised body. */
  function EvalMacroLit(st: Stack, params: seq<Symbol>, body: Form): (r: Ran)
    ensures r.1 == st
    ensures r.0.Panic? <==> st == [] && HasMutableLeaf(body)
    ensures !r.0.Panic? ==> r.0 == Ok(Macro(NewMacro(params, Realize(st, body))))
  {
    if st == [] && HasMutableLeaf(body) then (Panic(UnwrapNone), st)
    else (Ok(Macro(NewMacro(params, Realize(st, body)))), st)
  }

  // ---------------------------------------------------------------------------------------
  // Running forms

  /** `run_form`. */
  function Eval(fuel: nat, st: Stack, f: Form): (r: Ran)
    ensures r.0.Ok? ==> SameOuter(st, r.1)
    ensures f.expr.Scope? && r.0.Ok? ==> r.1 == st
    decreases fuel, 1, f, 2
  {
    match f.expr
    case SymbolRef(s) => (LookupIn(st, s), st)
    case AssignmentList(pairs) =>
      var (res, st1) := EvalPairs(fuel, st, pairs);
      (if res.Ok? then IntoResult(res.value, Nil) else Rethrow(res), st1)
    case Scope(forms) => EvalScope(fuel, st, forms)
    case FunctionLit(params, body) => EvalFunctionLit(st, params, body)
    case MacroLit(_, params, body) => EvalMacroLit(st, params, body)
    case Call(_, _) => EvalCall(fuel, st, f)
    case ArrayLit(items) =>
      var (res, st1) := EvalArray(fuel, st, items);
      (if res.Ok? then Ok(Array(res.value)) else Rethrow(res), st1)
    case Capture(v) => (Ok(v), st)
    case _ => (Ok(FromLiteral(f.expr)), st)
  }

  /** `run_array`: the forms in order, stopping at the first one that does not give a value. */
  function EvalArray(fuel: nat, st: Stack, forms: seq<Form>): (r: (RunResult<seq<Value>>, Stack))
    ensures r.0.Ok? ==> |r.0.value| == |forms| && SameOuter(st, r.1)
    decreases fuel, 1, forms, 0
  {
    if forms == [] then (Ok([]), st)
    else
      var (first, st1) := Eval(fuel, st, forms[0]);
      if !first.Ok? then (Rethrow(first), st1)
      else
        var (rest, st2) := EvalArray(fuel, st1, forms[1..]);
        if !rest.Ok? then (rest, st2) else (Ok([first.value] + rest.value), st2)
  }

  /** One pair of `run_assignment_list`: the value's form runs first, then the symbol is
      bound to it in the innermost scope, never as an action. */
  function EvalBinding(fuel: nat, st: Stack, b: Binding): (r: (RunResult<()>, Stack))
    ensures r.0.Ok? ==> SameOuter(st, r.1)
    decreases fuel, 1, b, 0
  {
    var (v, st1) := Eval(fuel, st, b.rhs);
    if !v.Ok? then (Rethrow(v), st1) else BindIn(st1, b.target, v.value, false)
  }

  /** The pairs of `run_assignment_list`: every pair is attempted, also after a failed one,
      and the errors are collected in order. Only a panic (or the fuel bound) stops it. */
  function EvalPairs(fuel: nat, st: Stack, pairs: seq<Binding>): (r: (RunResult<seq<RunError>>, Stack))
    ensures !r.0.Err?
    ensures r.0.Ok? ==> |r.0.value| <= |pairs|
    ensures r.0 == Ok([]) ==> SameOuter(st, r.1)
    decreases fuel, 1, pairs, 1
  {
    if pairs == [] then (Ok([]), st)
    else
      var (o, st1) := EvalBinding(fuel, st, pairs[0]);
      if o.Halted() then (Rethrow(o), st1)
      else
        var (rest, st2) := EvalPairs(fuel, st1, pairs[1..]);
        if !rest.Ok? then (rest, st2)
        else (Ok((if o.Err? then [o.error] else []) + rest.value), st2)
  }

  /** `run_scope`: a new scope, the forms in order, the last one's value (Nil when there is
      none), and the scope dropped. A failing form that is not the last returns at once and
      leaves its scope open. On success the table is exactly as before. */
  function EvalScope(fuel: nat, st: Stack, forms: seq<Form>): (r: Ran)
    ensures r.0.Ok? ==> r.1 == st
    ensures forms == [] ==> r == (Ok(Nil), st)
    decreases fuel, 1, forms, 1
  {
    if forms == [] then (Ok(Nil), PopScope(PushScope(st)))
    else EvalBody(fuel, PushScope(st), forms)
  }

  /** The forms of a scope whose scope is open: the last form's result with the scope dropped,
      or the first failure of an earlier form with the scope still open. */
  function EvalBody(fuel: nat, st: Stack, forms: seq<Form>): (r: Ran)
    requires forms != []
    ensures r.0.Ok? ==> r.1 == PopScope(st)
    decreases fuel, 1, forms, 0
  {
    var (first, st1) := Eval(fuel, st, forms[0]);
    if |forms| == 1 then (first, PopScope(st1))
    else if !first.Ok? then (first, st1)
    else EvalBody(fuel, st1, forms[1..])
  }

  /** Whether a callable part is run by the call itself; any other form (a literal, an
      assignment list, an array) is only run when the call has no arguments. */
  predicate IsCallablePart(e: Expr)
  {
    e.SymbolRef? || e.Scope? || e.FunctionLit? || e.MacroLit? || e.Call? || e.Capture?
  }

  /** `run_call`: the callable part is run (its failure wrapped in a stream), then a function
      gets its arguments run in order and is executed, a macro is handed to the unfinished
      macro execution, and any other value is the result of a call without arguments. */
  function EvalCall(fuel: nat, st: Stack, f: Form): (r: Ran)
    requires f.expr.Call?
    ensures r.0.Ok? ==> SameOuter(st, r.1)
    ensures !IsCallablePart(f.expr.callable.expr) && f.expr.args != [] ==>
              r == (Err(Top(Some(f.expr.callable.span), NotFunctional)), st)
    decreases fuel, 1, f, 1
  {
    var c := f.expr.callable;
    var args := f.expr.args;
    if !IsCallablePart(c.expr) then
      if |args| > 0 then (Err(Top(Some(c.span), NotFunctional)), st) else Eval(fuel, st, c)
    else
      var (cv, st1) :=
        match c.expr
        case SymbolRef(s) => (LookupIn(st, s), st)
        case Scope(forms) => EvalScope(fuel, st, forms)
        case FunctionLit(params, body) => EvalFunctionLit(st, params, body)
        case MacroLit(_, params, body) => EvalMacroLit(st, params, body)
        case Call(_, _) => EvalCall(fuel, st, c)
        case Capture(v) => (Ok(v), st);
      match cv
      case Err(e) => (Err(Stream(e, Some(c.span), Some(CallableNote))), st1)
      case Panic(m) => (Panic(m), st1)
      case OutOfFuel => (OutOfFuel, st1)
      case Ok(v) => ApplyCallee(fuel, st1, f, v)
  }

  /** The value of a call's callable part applied: a function gets its arguments run in order
      and is executed, a macro is handed to the unfinished macro execution, and any other
      value is the result of a call without arguments. */
  function ApplyCallee(fuel: nat, st: Stack, f: Form, v: Value): (r: Ran)
    requires f.expr.Call?
    ensures r.0.Ok? ==> SameOuter(st, r.1)
    decreases fuel, 1, f, 0
  {
    var args := f.expr.args;
    match v
    case Function(func) =>
      var (vs, st1) := EvalArray(fuel, st, args);
      (match vs
       case Ok(values) => EvalExecute(fuel, st1, func, values)
       case Err(e) => (Err(Stream(e, None, Some(ArgumentsNote))), st1)
       case Panic(m) => (Panic(m), st1)
       case OutOfFuel => (OutOfFuel, st1))
    case Macro(_) => (Panic(NotImplemented), st)
    case _ => if |args| > 0 then (Err(Top(Some(f.expr.callable.span), NotFunctional)), st) else (Ok(v), st)
  }

  /** The parameters bound to the arguments pairwise, as `zip` pairs them: as many pairs as
      the shorter of the two has. Refused bindings are ignored. */
  function BindParams(st: Stack, params: seq<Symbol>, args: seq<Value>): (r: Stack)
    requires st != []
    ensures |r| == |st| && r[1..] == st[1..]
    decreases params
  {
    if params == [] || args == [] then st
    else BindParams(BindIn(st, params[0], args[0], false).1, params[1..], args[1..])
  }

  function TooManyArguments(arity: nat, given: nat): RunError
  {
    Top(None, "Too many arguments provided to function call. Expected " + NatText(arity)
              + ", got " + NatText(given))
  }

  /** `execute_function`: too many arguments is an error, too few give a partially applied
      function, and exactly as many run the body in a new scope holding the parameters bound
      to the new arguments. The scope is dropped after the body, whatever its result. */
  function EvalExecute(fuel: nat, st: Stack, func: FunctionValue, args: seq<Value>): (r: Ran)
    ensures |args| > func.arity ==> r == (Err(TooManyArguments(func.arity, |args|)), st)
    ensures |args| < func.arity ==> r == (Ok(Function(PartialFunction(func, args))), st)
    ensures r.0.Ok? ==> r.1 == st
    decreases fuel, 0
  {
    if |args| > func.arity then (Err(TooManyArguments(func.arity, |args|)), st)
    else if |args| < func.arity then (Ok(Function(PartialFunction(func, args))), st)
    else if fuel == 0 then (OutOfFuel, st)
    else
      var (res, st1) := Eval(fuel - 1, BindParams(PushScope(st), func.params, args), func.body);
      (res, PopScope(st1))
  }
}

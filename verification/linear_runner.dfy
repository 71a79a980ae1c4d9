/** The linear runner: forms run one after the other against a `SymbolTableStack` that every
    step updates in place. Each method is proved to leave the table, and to return the
    result, that the matching function of `LinearEval` gives. */
module LinearRunner {
  import opened Wrappers
  import opened RunErrors
  import opened Forms
  import opened Callables
  import opened StackTables
  import opened LinearEval

  /** `run_form`. */
  method RunForm(table: SymbolTableStack, fuel: nat, f: Form) returns (r: RunResult<Value>)
    modifies table
    ensures (r, table.stack) == Eval(fuel, old(table.stack), f)
    decreases fuel, 1, f, 2
  {
    match f.expr
    case SymbolRef(s) => r := table.Lookup(s);
    case AssignmentList(_) => r := RunAssignmentList(table, fuel, f);
    case Scope(forms) => r := RunScope(table, fuel, forms);
    case FunctionLit(params, body) => r := EvalFunctionLit(table.stack, params, body).0;
    case MacroLit(_, params, body) => r := EvalMacroLit(table.stack, params, body).0;
    case Call(_, _) => r := RunCall(table, fuel, f);
    case ArrayLit(items) =>
      var res := RunArray(table, fuel, items);
      r := if res.Ok? then Ok(Array(res.value)) else Rethrow(res);
    case Capture(v) => r := Ok(v);
    case _ => r := Ok(FromLiteral(f.expr));
  }

  /** `run_array`: the values of the forms in order; the first failure is returned at once. */
  method RunArray(table: SymbolTableStack, fuel: nat, forms: seq<Form>) returns (r: RunResult<seq<Value>>)
    modifies table
    ensures (r, table.stack) == EvalArray(fuel, old(table.stack), forms)
    decreases fuel, 1, forms, 0
  {
    ghost var goal := EvalArray(fuel, table.stack, forms);
    var values: seq<Value> := [];
    var i := 0;
    assert forms[i..] == forms;
    if goal.0.Ok? {
      assert values + goal.0.value == goal.0.value;
    }
    while i < |forms|
      invariant 0 <= i <= |forms|
      invariant goal == (var (rest, s) := EvalArray(fuel, table.stack, forms[i..]);
                         (if rest.Ok? then Ok(values + rest.value) else rest, s))
    {
      assert forms[i..][0] == forms[i] && forms[i..][1..] == forms[i + 1..];
      var v := RunForm(table, fuel, forms[i]);
      if !v.Ok? {
        return Rethrow(v);
      }
      ghost var (rest, s) := EvalArray(fuel, table.stack, forms[i + 1..]);
      if rest.Ok? {
        assert values + ([v.value] + rest.value) == (values + [v.value]) + rest.value;
      }
      values := values + [v.value];
      i := i + 1;
    }
    assert EvalArray(fuel, table.stack, forms[i..]) == (Ok([]), table.stack) by {
      assert forms[i..] == [];
    }
    assert values + [] == values;
    r := Ok(values);
  }

  /** One pair of `run_assignment_list`: the value's form runs, then its value is assigned,
      never as an action. */
  method RunBinding(table: SymbolTableStack, fuel: nat, b: Binding) returns (r: RunResult<()>)
    modifies table
    ensures (r, table.stack) == EvalBinding(fuel, old(table.stack), b)
    decreases fuel, 1, b, 0
  {
    var v := RunForm(table, fuel, b.rhs);
    if !v.Ok? {
      return Rethrow(v);
    }
    r := table.Assign(b.target, v.value, false);
  }

  /** `run_assignment_list`: every pair is attempted, the failed ones are collected and
      handed to `into_result` with Nil as the value. */
  method RunAssignmentList(table: SymbolTableStack, fuel: nat, f: Form) returns (r: RunResult<Value>)
    requires f.expr.AssignmentList?
    modifies table
    ensures (r, table.stack) == Eval(fuel, old(table.stack), f)
    decreases fuel, 1, f, 1
  {
    var pairs := f.expr.pairs;
    ghost var goal := EvalPairs(fuel, table.stack, pairs);
    var errs: seq<RunError> := [];
    var i := 0;
    assert pairs[i..] == pairs;
    if goal.0.Ok? {
      assert errs + goal.0.value == goal.0.value;
    }
    while i < |pairs|
      invariant 0 <= i <= |pairs|
      invariant goal == (var (rest, s) := EvalPairs(fuel, table.stack, pairs[i..]);
                         (if rest.Ok? then Ok(errs + rest.value) else rest, s))
    {
      assert pairs[i..][0] == pairs[i] && pairs[i..][1..] == pairs[i + 1..];
      var o := RunBinding(table, fuel, pairs[i]);
      if o.Halted() {
        return Rethrow(o);
      }
      var head: seq<RunError> := if o.Err? then [o.error] else [];
      ghost var (rest, s) := EvalPairs(fuel, table.stack, pairs[i + 1..]);
      if rest.Ok? {
        assert errs + (head + rest.value) == (errs + head) + rest.value;
      }
      errs := errs + head;
      i := i + 1;
    }
    assert EvalPairs(fuel, table.stack, pairs[i..]) == (Ok([]), table.stack) by {
      assert pairs[i..] == [];
    }
    assert errs + [] == errs;
    r := IntoResult(errs, Nil);
  }

  /** `run_scope`: a new scope; every form but the last runs and a failure returns at once,
      without dropping the scope; the last form's result is returned after the drop. */
  method RunScope(table: SymbolTableStack, fuel: nat, forms: seq<Form>) returns (r: RunResult<Value>)
    modifies table
    ensures (r, table.stack) == EvalScope(fuel, old(table.stack), forms)
    decreases fuel, 1, forms, 1
  {
    table.CreateScope();
    if forms == [] {
      table.DropScope();
      return Ok(Nil);
    }
    ghost var goal := EvalBody(fuel, table.stack, forms);
    var i := 0;
    assert forms[i..] == forms;
    while i < |forms| - 1
      invariant 0 <= i <= |forms| - 1
      invariant goal == EvalBody(fuel, table.stack, forms[i..])
    {
      assert forms[i..][0] == forms[i] && forms[i..][1..] == forms[i + 1..];
      var res := RunForm(table, fuel, forms[i]);
      if !res.Ok? {
        return res;
      }
      i := i + 1;
    }
    assert forms[i..] == [forms[|forms| - 1]];
    r := RunForm(table, fuel, forms[|forms| - 1]);
    table.DropScope();
  }

  /** `run_call`. */
  method RunCall(table: SymbolTableStack, fuel: nat, f: Form) returns (r: RunResult<Value>)
    requires f.expr.Call?
    modifies table
    ensures (r, table.stack) == EvalCall(fuel, old(table.stack), f)
    decreases fuel, 1, f, 1
  {
    var c := f.expr.callable;
    var args := f.expr.args;
    if !IsCallablePart(c.expr) {
      if |args| > 0 {
        return Err(Top(Some(c.span), NotFunctional));
      }
      r := RunForm(table, fuel, c);
      return;
    }
    var cv: RunResult<Value>;
    match c.expr {
      case SymbolRef(s) => cv := table.Lookup(s);
      case Scope(forms) => cv := RunScope(table, fuel, forms);
      case FunctionLit(params, body) => cv := EvalFunctionLit(table.stack, params, body).0;
      case MacroLit(_, params, body) => cv := EvalMacroLit(table.stack, params, body).0;
      case Call(_, _) => cv := RunCall(table, fuel, c);
      case Capture(v) => cv := Ok(v);
    }
    if cv.Err? {
      return Err(Stream(cv.error, Some(c.span), Some(CallableNote)));
    }
    if !cv.Ok? {
      return cv;
    }
    r := RunCallee(table, fuel, f, cv.value);
  }

  /** The callable part's value applied to the call's arguments. */
  method RunCallee(table: SymbolTableStack, fuel: nat, f: Form, v: Value) returns (r: RunResult<Value>)
    requires f.expr.Call?
    modifies table
    ensures (r, table.stack) == ApplyCallee(fuel, old(table.stack), f, v)
    decreases fuel, 1, f, 0
  {
    var args := f.expr.args;
    match v {
      case Function(func) =>
        var vs := RunArray(table, fuel, args);
        if vs.Err? {
          return Err(Stream(vs.error, None, Some(ArgumentsNote)));
        }
        if !vs.Ok? {
          return Rethrow(vs);
        }
        r := ExecuteFunction(table, fuel, func, vs.value);
      case Macro(_) =>
        r := Panic(NotImplemented);
      case _ =>
        if |args| > 0 {
          r := Err(Top(Some(f.expr.callable.span), NotFunctional));
        } else {
          r := Ok(v);
        }
    }
  }

  /** `execute_function`: the arity check, partial application, or the body run in a new
      scope after each parameter is assigned its argument; the scope is dropped afterwards. */
  method ExecuteFunction(table: SymbolTableStack, fuel: nat, func: FunctionValue, args: seq<Value>)
    returns (r: RunResult<Value>)
    modifies table
    ensures (r, table.stack) == EvalExecute(fuel, old(table.stack), func, args)
    decreases fuel, 0
  {
    if |args| > func.arity {
      return Err(TooManyArguments(func.arity, |args|));
    }
    if |args| < func.arity {
      return Ok(Function(PartialFunction(func, args)));
    }
    if fuel == 0 {
      return OutOfFuel;
    }
    table.CreateScope();
    ghost var goal := BindParams(table.stack, func.params, args);
    var i := 0;
    assert func.params[i..] == func.params && args[i..] == args;
    while i < |func.params| && i < |args|
      invariant 0 <= i <= |func.params| && i <= |args|
      invariant table.stack != []
      invariant goal == BindParams(table.stack, func.params[i..], args[i..])
    {
      assert func.params[i..][0] == func.params[i] && func.params[i..][1..] == func.params[i + 1..];
      assert args[i..][0] == args[i] && args[i..][1..] == args[i + 1..];
      var _ := table.Assign(func.params[i], args[i], false);
      i := i + 1;
    }
    assert func.params[i..] == [] || args[i..] == [];
    r := RunForm(table, fuel - 1, func.body);
    table.DropScope();
  }
}

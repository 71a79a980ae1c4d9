/** Properties of the linear runner's meaning: closure realisation keeps the tree and is
    idempotent, arrays and assignment lists compose over concatenation, and the call protocol
    behaves as written, including where it differs from the older evaluator. */
module LinearProperties {
  import opened Wrappers
  import opened Symbols
  import opened RunErrors
  import opened Forms
  import opened Callables
  import opened StackTables
  import opened LinearEval

  // ---------------------------------------------------------------------------------------
  // Closure realisation

  /** `g` is `f` with some symbol leaves replaced by captures: same constructors, spans,
      parameter lists, capture lists and assignment targets, and children of the same shape. */
  predicate SameShape(f: Form, g: Form)
    decreases f, 1
  {
    f.span == g.span &&
    match f.expr
    case SymbolRef(_) => g.expr == f.expr || g.expr.Capture?
    case AssignmentList(pairs) => g.expr.AssignmentList? && PairsSameShape(pairs, g.expr.pairs)
    case Scope(forms) => g.expr.Scope? && EachSameShape(forms, g.expr.forms)
    case FunctionLit(params, body) =>
      g.expr.FunctionLit? && g.expr.params == params && SameShape(body, g.expr.body)
    case MacroLit(caps, params, body) =>
      g.expr.MacroLit? && g.expr.captures == caps && g.expr.params == params && SameShape(body, g.expr.body)
    case Call(c, args) => g.expr.Call? && SameShape(c, g.expr.callable) && EachSameShape(args, g.expr.args)
    case ArrayLit(items) => g.expr.ArrayLit? && EachSameShape(items, g.expr.items)
    case _ => g == f
  }

  predicate EachSameShape(fs: seq<Form>, gs: seq<Form>)
    decreases fs, 0
  {
    |fs| == |gs| && (fs == [] || (SameShape(fs[0], gs[0]) && EachSameShape(fs[1..], gs[1..])))
  }

  predicate BindingSameShape(b: Binding, c: Binding)
    decreases b
  {
    b.target == c.target && SameShape(b.rhs, c.rhs)
  }

  predicate PairsSameShape(ps: seq<Binding>, qs: seq<Binding>)
    decreases ps
  {
    |ps| == |qs| && (ps == [] || (BindingSameShape(ps[0], qs[0]) && PairsSameShape(ps[1..], qs[1..])))
  }

  /** Realisation keeps the tree: only symbol leaves may become captures. */
  lemma {:induction false} RealizeSameShape(st: Stack, f: Form)
    ensures SameShape(f, Realize(st, f))
    decreases f, 1
  {
    match f.expr
    case SymbolRef(_) =>
    case AssignmentList(pairs) => RealizePairsSameShape(st, pairs);
    case Scope(forms) => RealizeEachSameShape(st, forms);
    case FunctionLit(_, body) => RealizeSameShape(st, body);
    case MacroLit(_, _, body) => RealizeSameShape(st, body);
    case Call(c, args) => RealizeSameShape(st, c); RealizeEachSameShape(st, args);
    case ArrayLit(items) => RealizeEachSameShape(st, items);
    case _ =>
  }

  lemma {:induction false} RealizeEachSameShape(st: Stack, forms: seq<Form>)
    ensures EachSameShape(forms, RealizeEach(st, forms))
    decreases forms, 0
  {
    if forms != [] {
      RealizeSameShape(st, forms[0]);
      RealizeEachSameShape(st, forms[1..]);
    }
  }

  lemma {:induction false} RealizePairsSameShape(st: Stack, pairs: seq<Binding>)
    ensures PairsSameShape(pairs, RealizePairs(st, pairs))
    decreases pairs
  {
    if pairs != [] {
      RealizeBindingSameShape(st, pairs[0]);
      RealizePairsSameShape(st, pairs[1..]);
    }
  }

  lemma {:induction false} RealizeBindingSameShape(st: Stack, b: Binding)
    ensures BindingSameShape(b, RealizeBinding(st, b))
    decreases b
  {
    RealizeSameShape(st, b.rhs);
  }

  /** Realising twice against the same table gives what realising once gives: a capture is
      left alone, and a symbol that did not resolve still does not. */
  lemma {:induction false} RealizeIdempotent(st: Stack, f: Form)
    ensures Realize(st, Realize(st, f)) == Realize(st, f)
    decreases f, 1
  {
    match f.expr
    case SymbolRef(_) =>
    case AssignmentList(pairs) => RealizePairsIdempotent(st, pairs);
    case Scope(forms) => RealizeEachIdempotent(st, forms);
    case FunctionLit(_, body) => RealizeIdempotent(st, body);
    case MacroLit(_, _, body) => RealizeIdempotent(st, body);
    case Call(c, args) => RealizeIdempotent(st, c); RealizeEachIdempotent(st, args);
    case ArrayLit(items) => RealizeEachIdempotent(st, items);
    case _ =>
  }

  lemma {:induction false} RealizeEachIdempotent(st: Stack, forms: seq<Form>)
    ensures RealizeEach(st, RealizeEach(st, forms)) == RealizeEach(st, forms)
    decreases forms, 0
  {
    if forms != [] {
      var r := RealizeEach(st, forms);
      assert r[0] == Realize(st, forms[0]) && r[1..] == RealizeEach(st, forms[1..]);
      RealizeIdempotent(st, forms[0]);
      RealizeEachIdempotent(st, forms[1..]);
    }
  }

  lemma {:induction false} RealizePairsIdempotent(st: Stack, pairs: seq<Binding>)
    ensures RealizePairs(st, RealizePairs(st, pairs)) == RealizePairs(st, pairs)
    decreases pairs
  {
    if pairs != [] {
      var r := RealizePairs(st, pairs);
      assert r[0] == RealizeBinding(st, pairs[0]) && r[1..] == RealizePairs(st, pairs[1..]);
      RealizeBindingIdempotent(st, pairs[0]);
      RealizePairsIdempotent(st, pairs[1..]);
    }
  }

  lemma {:induction false} RealizeBindingIdempotent(st: Stack, b: Binding)
    ensures RealizeBinding(st, RealizeBinding(st, b)) == RealizeBinding(st, b)
    decreases b
  {
    RealizeIdempotent(st, b.rhs);
  }

  /** A function literal captures its own parameter when a symbol of that name is visible
      where the literal is run, so the body no longer refers to the argument: `(fn [p] p)`
      called with `w` where `p` is bound to `v` gives `v`. */
  lemma ParameterCapturedFromOuterScope(fuel: nat, st: Stack, p: Symbol, v: Value, w: Value,
                                         bodySpan: string, litSpan: string, argSpan: string, span: string)
    requires fuel > 0 && !IsMutable(p) && LookupIn(st, p) == Ok(v)
    ensures var lit := Form(FunctionLit([p], Form(SymbolRef(p), bodySpan)), litSpan);
            Eval(fuel, st, Form(Call(lit, [Form(Capture(w), argSpan)]), span)) == (Ok(v), st)
  {
    var body := Form(SymbolRef(p), bodySpan);
    var lit := Form(FunctionLit([p], body), litSpan);
    var arg := Form(Capture(w), argSpan);
    var f := Form(Call(lit, [arg]), span);
    var func := NewFunction([p], Form(Capture(v), bodySpan));
    CapturingLiteral(st, p, v, bodySpan);
    SingleCapturedArgument(fuel, st, w, argSpan);
    CapturedBodyRun(fuel, st, p, v, w, bodySpan);
    CallOfLiteral(fuel, st, f, func);
    assert ApplyCallee(fuel, st, f, Function(func)) == EvalExecute(fuel, st, func, [w]);
  }

  /** A call whose callable part is a function literal applies the function the literal gives. */
  lemma CallOfLiteral(fuel: nat, st: Stack, f: Form, func: FunctionValue)
    requires f.expr.Call? && f.expr.callable.expr.FunctionLit?
    requires var c := f.expr.callable.expr; EvalFunctionLit(st, c.params, c.body) == (Ok(Function(func)), st)
    ensures Eval(fuel, st, f) == ApplyCallee(fuel, st, f, Function(func))
  {
    assert Eval(fuel, st, f) == EvalCall(fuel, st, f);
  }

  /** The literal `(fn [p] p)` run where `p` is bound to `v` is the function whose body is `v`. */
  lemma CapturingLiteral(st: Stack, p: Symbol, v: Value, bodySpan: string)
    requires !IsMutable(p) && LookupIn(st, p) == Ok(v)
    ensures EvalFunctionLit(st, [p], Form(SymbolRef(p), bodySpan)) ==
              (Ok(Function(NewFunction([p], Form(Capture(v), bodySpan)))), st)
  {
    var body := Form(SymbolRef(p), bodySpan);
    assert Realize(st, body) == Form(Capture(v), bodySpan);
    assert !HasMutableLeaf(body);
  }

  /** One captured value as the arguments of a call. */
  lemma SingleCapturedArgument(fuel: nat, st: Stack, w: Value, argSpan: string)
    ensures EvalArray(fuel, st, [Form(Capture(w), argSpan)]) == (Ok([w]), st)
  {
    var arg := Form(Capture(w), argSpan);
    assert [arg][0] == arg && [arg][1..] == [];
    assert Eval(fuel, st, arg) == (Ok(w), st);
    assert EvalArray(fuel, st, []) == (Ok([]), st);
    assert [w] + [] == [w];
  }

  /** The function whose body is the captured `v` gives `v`, whatever its argument. */
  lemma CapturedBodyRun(fuel: nat, st: Stack, p: Symbol, v: Value, w: Value, bodySpan: string)
    requires fuel > 0
    ensures EvalExecute(fuel, st, NewFunction([p], Form(Capture(v), bodySpan)), [w]) == (Ok(v), st)
  {
    var st1 := BindParams(PushScope(st), [p], [w]);
    assert Eval(fuel - 1, st1, Form(Capture(v), bodySpan)) == (Ok(v), st1);
  }


  // ---------------------------------------------------------------------------------------
  // Arrays, assignment lists and scopes

  /** Running `a + b` as an array runs `a`, then (when `a` gave values) `b` from the table `a`
      left: values keep their order and the first failure stops the rest. */
  lemma {:induction false} EvalArrayAppend(fuel: nat, st: Stack, a: seq<Form>, b: seq<Form>)
    ensures var (ra, sa) := EvalArray(fuel, st, a);
            EvalArray(fuel, st, a + b) ==
              if !ra.Ok? then (ra, sa)
              else
                var (rb, sb) := EvalArray(fuel, sa, b);
                (if rb.Ok? then Ok(ra.value + rb.value) else rb, sb)
    decreases a
  {
    if a == [] {
      assert a + b == b;
      var (rb, sb) := EvalArray(fuel, st, b);
      if rb.Ok? { assert [] + rb.value == rb.value; }
    } else {
      assert (a + b)[0] == a[0] && (a + b)[1..] == a[1..] + b;
      var (first, st1) := Eval(fuel, st, a[0]);
      if first.Ok? {
        EvalArrayAppend(fuel, st1, a[1..], b);
        var (rest, st2) := EvalArray(fuel, st1, a[1..]);
        if rest.Ok? {
          var (rb, sb) := EvalArray(fuel, st2, b);
          if rb.Ok? {
            assert [first.value] + (rest.value + rb.value) == ([first.value] + rest.value) + rb.value;
          }
        }
      }
    }
  }

  /** Running the pairs `a + b` runs every pair of `a` and then every pair of `b`, also after
      failures, and reports the errors of both in order; only a halt in `a` skips `b`. */
  lemma {:induction false} EvalPairsAppend(fuel: nat, st: Stack, a: seq<Binding>, b: seq<Binding>)
    ensures var (ra, sa) := EvalPairs(fuel, st, a);
            EvalPairs(fuel, st, a + b) ==
              if !ra.Ok? then (ra, sa)
              else
                var (rb, sb) := EvalPairs(fuel, sa, b);
                (if rb.Ok? then Ok(ra.value + rb.value) else rb, sb)
    decreases a
  {
    if a == [] {
      assert a + b == b;
      var (rb, sb) := EvalPairs(fuel, st, b);
      if rb.Ok? { assert [] + rb.value == rb.value; }
    } else {
      assert (a + b)[0] == a[0] && (a + b)[1..] == a[1..] + b;
      var (o, st1) := EvalBinding(fuel, st, a[0]);
      if !o.Halted() {
        EvalPairsAppend(fuel, st1, a[1..], b);
        var (rest, st2) := EvalPairs(fuel, st1, a[1..]);
        if rest.Ok? {
          var (rb, sb) := EvalPairs(fuel, st2, b);
          if rb.Ok? {
            var head: seq<RunError> := if o.Err? then [o.error] else [];
            assert head + (rest.value + rb.value) == (head + rest.value) + rb.value;
          }
        }
      }
    }
  }

  /** An assignment list gives Nil exactly when no pair failed; otherwise the errors of the
      failed pairs, one as it is and several in a multi-stream. */
  lemma AssignmentListResult(fuel: nat, st: Stack, pairs: seq<Binding>, span: string)
    ensures var r := Eval(fuel, st, Form(AssignmentList(pairs), span)).0;
            var p := EvalPairs(fuel, st, pairs).0;
            (r.Ok? <==> p == Ok([])) && (r.Ok? ==> r.value == Nil)
            && (p.Ok? && |p.value| == 1 ==> r == Err(p.value[0]))
            && (p.Ok? && |p.value| > 1 ==> r == Err(MultiStream(p.value, "program", None)))
  {
  }

  /** A scope whose first form fails while more forms follow returns that failure with its
      scope still open: the table is one scope deeper than before. */
  lemma ScopeErrorLeavesScopeOpen(fuel: nat, st: Stack, s: Symbol, symSpan: string, rest: seq<Form>, span: string)
    requires !IsMutable(s) && LookupIn(st, s).Err? && rest != []
    ensures Eval(fuel, st, Form(Scope([Form(SymbolRef(s), symSpan)] + rest), span)) == (Err(Undefined(s)), PushScope(st))
    ensures |Eval(fuel, st, Form(Scope([Form(SymbolRef(s), symSpan)] + rest), span)).1| == |st| + 1
  {
    var sym := Form(SymbolRef(s), symSpan);
    var forms := [sym] + rest;
    UndefinedInNewScope(fuel, st, s, symSpan);
    BodyStopsAtFailure(fuel, PushScope(st), forms);
    ScopeForm(fuel, st, forms, span);
  }

  /** A symbol defined nowhere is still undefined once a scope is opened. */
  lemma UndefinedInNewScope(fuel: nat, st: Stack, s: Symbol, symSpan: string)
    requires !IsMutable(s) && LookupIn(st, s).Err?
    ensures Eval(fuel, PushScope(st), Form(SymbolRef(s), symSpan)) == (Err(Undefined(s)), PushScope(st))
  {
    NewScopeVisibility(st, s);
  }

  /** A scope form runs its forms in a scope of their own. */
  lemma ScopeForm(fuel: nat, st: Stack, forms: seq<Form>, span: string)
    ensures Eval(fuel, st, Form(Scope(forms), span)) == EvalScope(fuel, st, forms)
  {
  }

  /** A failing form followed by more forms ends the body with that failure. */
  lemma BodyStopsAtFailure(fuel: nat, st: Stack, forms: seq<Form>)
    requires |forms| > 1 && !Eval(fuel, st, forms[0]).0.Ok?
    ensures EvalBody(fuel, st, forms) == Eval(fuel, st, forms[0])
  {
  }

  /** A form that succeeds and is not the last hands the rest of the body the table it left. */
  lemma BodyContinues(fuel: nat, st: Stack, forms: seq<Form>)
    requires |forms| > 1 && Eval(fuel, st, forms[0]).0.Ok?
    ensures EvalBody(fuel, st, forms) == EvalBody(fuel, Eval(fuel, st, forms[0]).1, forms[1..])
  {
  }

  /** The last form's result, whatever it is, is the body's, and the scope is dropped. */
  lemma BodyLast(fuel: nat, st: Stack, f: Form)
    ensures EvalBody(fuel, st, [f]) == (Eval(fuel, st, f).0, PopScope(Eval(fuel, st, f).1))
  {
    assert [f][0] == f;
  }

  // ---------------------------------------------------------------------------------------
  // The call protocol

  /** A value that is neither a function nor a macro, called without arguments, is the
      result; called with arguments it is an error. The arguments are never run. */
  lemma NonCallableValue(fuel: nat, st: Stack, v: Value, cspan: string, args: seq<Form>, span: string)
    requires !v.Function? && !v.Macro?
    ensures var f := Form(Call(Form(Capture(v), cspan), args), span);
            EvalCall(fuel, st, f) == if args == [] then (Ok(v), st) else (Err(Top(Some(cspan), NotFunctional)), st)
  {
  }

  /** Calling a macro reaches the unfinished macro execution, which panics. */
  lemma MacroCallPanics(fuel: nat, st: Stack, m: MacroValue, cspan: string, args: seq<Form>, span: string)
    ensures EvalCall(fuel, st, Form(Call(Form(Capture(Macro(m)), cspan), args), span)) == (Panic(NotImplemented), st)
  {
  }

  /** A failing callable part is wrapped in a stream at its span with the callable note, and
      the arguments are not run. */
  lemma CallableFailureWrapped(fuel: nat, st: Stack, s: Symbol, cspan: string, args: seq<Form>, span: string)
    requires LookupIn(st, s).Err?
    ensures EvalCall(fuel, st, Form(Call(Form(SymbolRef(s), cspan), args), span))
            == (Err(Stream(LookupIn(st, s).error, Some(cspan), Some(CallableNote))), st)
  {
  }

  /** A full call binds the parameters to the new arguments only: the arguments held by a
      partial application are not consulted. After `f := (fn [x y] x)` is applied to `a`,
      applying the result to `b` gives `b`, where the older evaluator binds `x` to `a`. */
  lemma PartialArgumentsIgnored(fuel: nat, st: Stack, x: Symbol, y: Symbol, a: Value, b: Value, span: string)
    requires fuel > 0 && !IsMutable(x)
    ensures var g := PartialFunction(NewFunction([x, y], Form(SymbolRef(x), span)), [a]);
            g.arity == 1 && g.partials == [a]
            && EvalExecute(fuel, st, g, [b]) == (Ok(b), st)
  {
    var g := PartialFunction(NewFunction([x, y], Form(SymbolRef(x), span)), [a]);
    var st1 := PushScope(st);
    var st2 := BindIn(st1, x, b, false).1;
    assert BindParams(st1, g.params, [b]) == st2 by {
      assert g.params[1..] == [y] && [b][1..] == [];
    }
    BindThenLookup(st1, x, b, false);
  }

  /** The scope of a full call is dropped once after the body, so a body that leaves a scope
      of its own open makes the call leave one open too: the depth is restored only when the
      body succeeds. */
  lemma FailedBodyLeavesScopeOpen(fuel: nat, st: Stack, s: Symbol, symSpan: string, rest: seq<Form>, span: string)
    requires fuel > 0 && !IsMutable(s) && LookupIn(st, s).Err? && rest != []
    ensures var body := Form(Scope([Form(SymbolRef(s), symSpan)] + rest), span);
            var r := EvalExecute(fuel, st, NewFunction([], body), []);
            r.0 == Err(Undefined(s)) && |r.1| == |st| + 1
  {
    NewScopeVisibility(st, s);
    ScopeErrorLeavesScopeOpen(fuel - 1, PushScope(st), s, symSpan, rest, span);
  }
}

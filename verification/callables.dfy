/** Function and macro values of the newest core draft: construction and partial application.
    A callable keeps the number of arguments still missing (`arity`); partial application
    lowers it by the number of arguments supplied and appends them to `partials`. */
module Callables {
  import opened Wrappers
  import opened Text
  import opened Symbols
  import opened Forms

  /** Every argument a callable is still missing plus the ones it already holds make up its
      parameter list. */
  predicate FunctionWellFormed(f: FunctionValue)
  {
    f.arity + |f.partials| == |f.params|
  }

  predicate MacroWellFormed(m: MacroValue)
  {
    m.params.Some? && m.arity + |m.partials| == |m.params.value|
  }

  /** A function value straight from its literal: nothing applied yet. */
  function NewFunction(params: seq<Symbol>, body: Form): (f: FunctionValue)
    ensures FunctionWellFormed(f) && f.partials == []
    ensures f.arity == |params| && f.params == params && f.body == body
  {
    FunctionValue(|params|, params, [], body)
  }

  /** Partial application: `args` are appended to the held arguments and the arity drops by
      their number. The arity is an unsigned count, so no more arguments than it may be given. */
  function PartialFunction(f: FunctionValue, args: seq<Value>): (r: FunctionValue)
    requires |args| <= f.arity
    ensures r.arity == f.arity - |args| && r.partials == f.partials + args
    ensures r.params == f.params && r.body == f.body
    ensures FunctionWellFormed(f) ==> FunctionWellFormed(r)
  {
    f.(arity := f.arity - |args|, partials := f.partials + args)
  }

  /** Applying in two steps is applying everything at once. */
  lemma PartialFunctionTwice(f: FunctionValue, a: seq<Value>, b: seq<Value>)
    requires |a| + |b| <= f.arity
    ensures PartialFunction(PartialFunction(f, a), b) == PartialFunction(f, a + b)
  {
    assert f.partials + a + b == f.partials + (a + b);
  }

  /** The parameter names separated by single spaces. */
  function SpanFromArgs(f: FunctionValue): (r: string)
    ensures f.params == [] ==> r == ""
    ensures |f.params| == 1 ==> r == ToText(f.params[0])
    ensures |r| == TotalLength(ParamTexts(f.params)) + if f.params == [] then 0 else |f.params| - 1
  {
    JoinLength(ParamTexts(f.params), " ");
    Join(ParamTexts(f.params), " ")
  }

  function ParamTexts(params: seq<Symbol>): (r: seq<string>)
    ensures |r| == |params| && forall i :: 0 <= i < |params| ==> r[i] == ToText(params[i])
  {
    if params == [] then [] else [ToText(params[0])] + ParamTexts(params[1..])
  }

  function TotalLength(items: seq<string>): nat
  {
    if items == [] then 0 else |items[0]| + TotalLength(items[1..])
  }

  /** The joined text holds every item plus one separator between each two. */
  lemma {:induction false} JoinLength(items: seq<string>, sep: string)
    ensures |Join(items, sep)| == TotalLength(items) + if items == [] then 0 else (|items| - 1) * |sep|
  {
    if |items| > 1 {
      JoinLength(items[1..], sep);
    }
  }

  /** A macro value straight from its literal. */
  function NewMacro(params: seq<Symbol>, body: Form): (m: MacroValue)
    ensures MacroWellFormed(m) && m.partials == []
    ensures m.arity == |params| && m.params == Some(params) && m.body == body
  {
    MacroValue(|params|, Some(params), [], body)
  }

  /** Partial application of a macro to unevaluated forms. */
  function PartialMacro(m: MacroValue, forms: seq<Form>): (r: MacroValue)
    requires |forms| <= m.arity
    ensures r.arity == m.arity - |forms| && r.partials == m.partials + forms
    ensures r.params == m.params && r.body == m.body
    ensures MacroWellFormed(m) ==> MacroWellFormed(r)
  {
    m.(arity := m.arity - |forms|, partials := m.partials + forms)
  }

  lemma PartialMacroTwice(m: MacroValue, a: seq<Form>, b: seq<Form>)
    requires |a| + |b| <= m.arity
    ensures PartialMacro(PartialMacro(m, a), b) == PartialMacro(m, a + b)
  {
    assert m.partials + a + b == m.partials + (a + b);
  }
}

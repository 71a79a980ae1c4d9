/** The runtime symbol table of the linear runner: a stack of scopes, each mapping symbols to
    entries that hold a value and whether it came from an action. Index 0 is the innermost
    scope (the source pushes and pops at the front of a linked list). The table of external
    libraries kept beside the stack is not part of this model. */
module StackTables {
  import opened Wrappers
  import opened Symbols
  import opened Scopes
  import opened RunErrors
  import opened Forms

  datatype Entry = Entry(value: Value, isAction: bool)

  type Stack = seq<map<Symbol, Entry>>

  function UndefinedMutable(s: Symbol): RunError
  {
    Top(Some(ToText(s)), "use of undefined mutable symbol `" + ToText(s)
                         + "`. Mutable symbols are only accessible in the scope they were created")
  }

  function Undefined(s: Symbol): RunError
  {
    Top(Some(ToText(s)), "use of undefined symbol `" + ToText(s) + "`")
  }

  function ImmutableRebind(s: Symbol): RunError
  {
    Top(Some(ToText(s)), "atempt to mutate immutable symbol `" + ToText(s)
                         + "`. If you need mutation, try creating `" + ToText(s) + "'`")
  }

  /** `create_scope` on a value. */
  function PushScope(st: Stack): (r: Stack)
    ensures |r| == |st| + 1 && r[0] == map[] && r[1..] == st
  {
    [map[]] + st
  }

  /** `drop_scope` on a value: popping an empty list does nothing. */
  function PopScope(st: Stack): (r: Stack)
    ensures st == [] ==> r == []
    ensures st != [] ==> r == st[1..]
  {
    if st == [] then [] else st[1..]
  }

  /** `lookup` on a value. A mutable symbol is looked for in the innermost scope only (whose
      absence is a panic); an immutable one in every scope, innermost first. */
  function LookupIn(st: Stack, s: Symbol): (r: RunResult<Value>)
    ensures r.Panic? <==> IsMutable(s) && st == []
    ensures r.OutOfFuel? == false
    ensures IsMutable(s) && st != [] ==>
              (r.Ok? <==> s in st[0]) && (r.Ok? ==> r.value == st[0][s].value)
              && (r.Err? ==> r.error == UndefinedMutable(s))
    ensures !IsMutable(s) ==>
              (r.Ok? <==> exists i :: 0 <= i < |st| && s in st[i])
              && (r.Err? ==> r.error == Undefined(s))
  {
    if IsMutable(s) then
      if st == [] then Panic(UnwrapNone)
      else if s in st[0] then Ok(st[0][s].value)
      else Err(UndefinedMutable(s))
    else
      match FindFirst(st, s)
      case Some(e) => Ok(e.value)
      case None => Err(Undefined(s))
  }

  /** `is_action` on a value: a mutable symbol always counts as an action; an immutable one
      reports the flag of its innermost entry. The error for a missing immutable symbol speaks
      of a mutable one, as the source's message does. */
  function IsActionIn(st: Stack, s: Symbol): (r: RunResult<bool>)
    ensures IsMutable(s) ==> r == Ok(true)
    ensures !IsMutable(s) ==> (r.Ok? <==> exists i :: 0 <= i < |st| && s in st[i])
    ensures !IsMutable(s) && r.Err? ==> r.error == Top(Some(ToText(s)), "use of undefined mutable symbol `" + ToText(s) + "`")
    ensures !r.Halted()
  {
    if IsMutable(s) then Ok(true)
    else
      match FindFirst(st, s)
      case Some(e) => Ok(e.isAction)
      case None => Err(Top(Some(ToText(s)), "use of undefined mutable symbol `" + ToText(s) + "`"))
  }

  /** `assign` on a value. A mutable symbol is (re)bound in the innermost scope as an action,
      whatever the flag passed; an immutable one is bound there with the flag unless that
      scope already holds it. Without an innermost scope the source panics. */
  function BindIn(st: Stack, s: Symbol, v: Value, isAction: bool): (r: (RunResult<()>, Stack))
    ensures r.0.Panic? <==> st == []
    ensures r.0.OutOfFuel? == false
    ensures st != [] ==> (r.0.Ok? <==> IsMutable(s) || s !in st[0])
    ensures r.0.Err? ==> r.0.error == ImmutableRebind(s)
    ensures !r.0.Ok? ==> r.1 == st
    ensures r.0.Ok? ==> |r.1| == |st| && r.1[1..] == st[1..]
                        && r.1[0] == st[0][s := Entry(v, if IsMutable(s) then true else isAction)]
  {
    if st == [] then (Panic(UnwrapNone), st)
    else if IsMutable(s) then (Ok(()), [st[0][s := Entry(v, true)]] + st[1..])
    else if s in st[0] then (Err(ImmutableRebind(s)), st)
    else (Ok(()), [st[0][s := Entry(v, isAction)]] + st[1..])
  }

  /** A symbol just bound is looked up to the value it was bound to. */
  lemma BindThenLookup(st: Stack, s: Symbol, v: Value, isAction: bool)
    requires BindIn(st, s, v, isAction).0.Ok?
    ensures LookupIn(BindIn(st, s, v, isAction).1, s) == Ok(v)
  {
    var st' := BindIn(st, s, v, isAction).1;
    if !IsMutable(s) {
      FindFirstAt(st', s, 0);
    }
  }

  /** A mutable symbol can always be bound again, replacing its value. */
  lemma MutableRebind(st: Stack, s: Symbol, v: Value, w: Value)
    requires st != [] && IsMutable(s)
    ensures BindIn(st, s, v, false).0.Ok?
    ensures var st1 := BindIn(st, s, v, false).1;
            BindIn(st1, s, w, false).0.Ok? && LookupIn(BindIn(st1, s, w, false).1, s) == Ok(w)
  {
    BindThenLookup(BindIn(st, s, v, false).1, s, w, false);
  }

  /** An immutable symbol bound in the innermost scope cannot be bound there again. */
  lemma NoImmutableRebind(st: Stack, s: Symbol, v: Value, w: Value, a: bool, b: bool)
    requires !IsMutable(s) && BindIn(st, s, v, a).0.Ok?
    ensures BindIn(BindIn(st, s, v, a).1, s, w, b) == (Err(ImmutableRebind(s)), BindIn(st, s, v, a).1)
  {
  }

  /** An immutable symbol is looked up to its innermost binding: inner scopes shadow outer ones. */
  lemma {:induction false} InnermostWins(st: Stack, s: Symbol, i: nat)
    requires !IsMutable(s) && i < |st| && s in st[i]
    requires forall j :: 0 <= j < i ==> s !in st[j]
    ensures LookupIn(st, s) == Ok(st[i][s].value)
  {
    FindFirstAt(st, s, i);
  }

  /** Right after a new scope opens, no mutable symbol is visible, while every immutable one
      is looked up as before. */
  lemma NewScopeVisibility(st: Stack, s: Symbol)
    ensures IsMutable(s) ==> LookupIn(PushScope(st), s) == Err(UndefinedMutable(s))
    ensures !IsMutable(s) ==> LookupIn(PushScope(st), s) == LookupIn(st, s)
  {
    if !IsMutable(s) {
      assert PushScope(st)[1..] == st;
    }
  }

  /** A mutable symbol's entry is always an action, whatever flag it was bound with. */
  lemma MutableIsAction(st: Stack, s: Symbol, v: Value, isAction: bool)
    requires st != [] && IsMutable(s)
    ensures BindIn(st, s, v, isAction).1[0][s].isAction
    ensures IsActionIn(BindIn(st, s, v, isAction).1, s) == Ok(true)
  {
  }

  /** Binding leaves every other symbol's lookup unchanged. */
  lemma BindKeepsOthers(st: Stack, s: Symbol, v: Value, isAction: bool, t: Symbol)
    requires t != s && BindIn(st, s, v, isAction).0.Ok?
    ensures LookupIn(BindIn(st, s, v, isAction).1, t) == LookupIn(st, t)
  {
    var st' := BindIn(st, s, v, isAction).1;
    assert st'[1..] == st[1..] && t in st'[0] <==> t in st[0];
    if !IsMutable(t) {
      assert forall i :: 0 <= i < |st| ==> (t in st'[i] <==> t in st[i]) by {
        forall i | 0 <= i < |st| ensures t in st'[i] <==> t in st[i] {
          if i > 0 { assert st'[i] == st'[1..][i - 1]; }
        }
      }
      if FindFirst(st, t).Some? {
        var i :| 0 <= i < |st| && t in st[i] && forall j :: 0 <= j < i ==> t !in st[j];
        if i == 0 {
          FindFirstAt(st', t, 0);
        } else {
          assert st'[i] == st'[1..][i - 1] && st[i] == st[1..][i - 1];
          FindFirstAt(st', t, i);
          FindFirstAt(st, t, i);
        }
      }
    }
  }

  /** The runtime symbol table. */
  class SymbolTableStack {
    var stack: Stack

    /** `new`: no scope at all. */
    constructor ()
      ensures stack == []
    {
      stack := [];
    }

    method CreateScope()
      modifies this
      ensures stack == PushScope(old(stack))
    {
      stack := [map[]] + stack;
    }

    method DropScope()
      modifies this
      ensures stack == PopScope(old(stack))
    {
      if stack != [] {
        stack := stack[1..];
      }
    }

    method Lookup(s: Symbol) returns (r: RunResult<Value>)
      ensures r == LookupIn(stack, s)
    {
      if IsMutable(s) {
        if stack == [] {
          return Panic(UnwrapNone);
        }
        if s in stack[0] {
          r := Ok(stack[0][s].value);
        } else {
          r := Err(UndefinedMutable(s));
        }
      } else {
        var i := 0;
        while i < |stack| && s !in stack[i]
          invariant 0 <= i <= |stack|
          invariant forall j :: 0 <= j < i ==> s !in stack[j]
        {
          i := i + 1;
        }
        if i < |stack| {
          FindFirstAt(stack, s, i);
          r := Ok(stack[i][s].value);
        } else {
          r := Err(Undefined(s));
        }
      }
    }

    method IsAction(s: Symbol) returns (r: RunResult<bool>)
      ensures r == IsActionIn(stack, s)
    {
      if IsMutable(s) {
        return Ok(true);
      }
      var i := 0;
      while i < |stack| && s !in stack[i]
        invariant 0 <= i <= |stack|
        invariant forall j :: 0 <= j < i ==> s !in stack[j]
      {
        i := i + 1;
      }
      if i < |stack| {
        FindFirstAt(stack, s, i);
        r := Ok(stack[i][s].isAction);
      } else {
        r := Err(Top(Some(ToText(s)), "use of undefined mutable symbol `" + ToText(s) + "`"));
      }
    }

    method Assign(s: Symbol, v: Value, isAction: bool) returns (r: RunResult<()>)
      modifies this
      ensures (r, stack) == BindIn(old(stack), s, v, isAction)
    {
      if stack == [] {
        return Panic(UnwrapNone);
      }
      if IsMutable(s) {
        stack := [stack[0][s := Entry(v, true)]] + stack[1..];
        r := Ok(());
      } else if s in stack[0] {
        r := Err(ImmutableRebind(s));
      } else {
        stack := [stack[0][s := Entry(v, isAction)]] + stack[1..];
        r := Ok(());
      }
    }
  }
}

/** The static symbol table of the build step: a stack of scopes holding the symbols that are
    known to be assigned. Index 0 is the innermost scope (the source pushes at the front). */
module TrackTables {
  import opened Wrappers
  import opened Symbols
  import opened BuildErrors
  import opened Scopes

  type Track = seq<set<Symbol>>

  /** A mutable symbol is visible only in the innermost scope; an immutable one in any scope. */
  predicate IsAssignedIn(sc: Track, s: Symbol)
    ensures IsAssignedIn(sc, s) ==> sc != []
    ensures sc != [] && s in sc[0] ==> IsAssignedIn(sc, s)
    ensures IsMutable(s) && IsAssignedIn(sc, s) ==> s in sc[0]
    ensures !IsMutable(s) ==> (IsAssignedIn(sc, s) <==> exists i :: 0 <= i < |sc| && s in sc[i])
  {
    if IsMutable(s) then sc != [] && s in sc[0] else AnyHas(sc, s)
  }

  /** A mutable symbol can always be (re)assigned; an immutable one only when an innermost
      scope exists and does not hold it yet. */
  predicate CanAssignIn(sc: Track, s: Symbol)
    ensures IsMutable(s) ==> CanAssignIn(sc, s)
    ensures !IsMutable(s) && CanAssignIn(sc, s) ==> sc != [] && !(s in sc[0])
    ensures |sc| == 1 ==> (CanAssignIn(sc, s) <==> IsMutable(s) || !IsAssignedIn(sc, s))
  {
    if IsMutable(s) then true else sc != [] && s !in sc[0]
  }

  /** Error reported for a refused assignment. */
  function ReassignError(s: Symbol): BuildError
  {
    Top(ToText(s), "attempt to reassign immutable symbol " + ToText(s))
  }

  /** Error reported for a symbol that is not visible. */
  function UndefinedError(s: Symbol): BuildError
  {
    Top(ToText(s),
        if IsMutable(s) then
          "attempt to use undefined mutable symbol " + ToText(s)
          + ". Remember that mutable symbols aren't accessible in inner scopes."
        else
          "attemp to use undefined symbol " + ToText(s) + ".")
  }

  /** `create_scope` on a value: a new empty innermost scope. */
  function Pushed(sc: Track): (r: Track)
    ensures |r| == |sc| + 1 && r[0] == {} && r[1..] == sc
  {
    [{}] + sc
  }

  /** `drop_scope` on a value: the innermost scope goes; nothing happens on an empty table. */
  function Popped(sc: Track): (r: Track)
    ensures sc == [] ==> r == []
    ensures sc != [] ==> |r| == |sc| - 1 && r == sc[1..]
  {
    if sc == [] then [] else sc[1..]
  }

  /** `assign` on a value. An assignment the table refuses leaves it unchanged; an accepted
      one adds the symbol to the innermost scope and to no other. The source unwraps the
      innermost scope, so a mutable symbol needs one. */
  function AssignIn(sc: Track, s: Symbol): (r: (Outcome<BuildError>, Track))
    requires sc != [] || !IsMutable(s)
    ensures r.0.Pass? <==> CanAssignIn(sc, s)
    ensures r.0.Fail? ==> r.0.error == ReassignError(s) && r.1 == sc
    ensures r.0.Pass? ==> |r.1| == |sc| && r.1[0] == sc[0] + {s} && r.1[1..] == sc[1..]
  {
    if CanAssignIn(sc, s) then (Pass, [sc[0] + {s}] + sc[1..])
    else (Fail(ReassignError(s)), sc)
  }

  /** `validate` on a value: passes exactly when the symbol is visible. */
  function ValidateIn(sc: Track, s: Symbol): (r: Outcome<BuildError>)
    ensures r.Pass? <==> IsAssignedIn(sc, s)
    ensures r.Fail? ==> r.error == UndefinedError(s)
  {
    if IsAssignedIn(sc, s) then Pass else Fail(UndefinedError(s))
  }

  /** A symbol that was just assigned validates. */
  lemma AssignThenValidate(sc: Track, s: Symbol)
    requires sc != []
    ensures AssignIn(sc, s).0.Pass? ==> ValidateIn(AssignIn(sc, s).1, s).Pass?
  {
    var r := AssignIn(sc, s);
    if r.0.Pass? && !IsMutable(s) {
      assert s in r.1[0];
    }
  }

  /** An immutable symbol cannot be assigned twice in the same scope. */
  lemma NoImmutableRebind(sc: Track, s: Symbol)
    requires sc != [] && !IsMutable(s)
    requires AssignIn(sc, s).0.Pass?
    ensures AssignIn(AssignIn(sc, s).1, s) == (Fail(ReassignError(s)), AssignIn(sc, s).1)
  {
  }

  /** An immutable symbol of an outer scope may be shadowed in a new inner scope, and stays
      visible there. */
  lemma ImmutableVisibleInside(sc: Track, s: Symbol)
    requires !IsMutable(s) && IsAssignedIn(sc, s)
    ensures IsAssignedIn(Pushed(sc), s) && CanAssignIn(Pushed(sc), s)
  {
    var i :| 0 <= i < |sc| && s in sc[i];
    assert s in Pushed(sc)[i + 1];
  }

  /** A mutable symbol is never visible from a scope created after it was assigned. */
  lemma MutableHiddenInside(sc: Track, s: Symbol)
    requires IsMutable(s)
    ensures !IsAssignedIn(Pushed(sc), s)
  {
  }

  /** Assigning one symbol does not change whether another symbol validates, except that a
      symbol never becomes invisible. */
  lemma AssignKeepsVisibility(sc: Track, s: Symbol, t: Symbol)
    requires sc != []
    requires IsAssignedIn(sc, t)
    ensures IsAssignedIn(AssignIn(sc, s).1, t)
  {
    if !IsMutable(t) {
      var i :| 0 <= i < |sc| && t in sc[i];
      assert t in AssignIn(sc, s).1[i];
    }
  }

  /** Creating a scope and dropping it gives the table back. */
  lemma CreateDropRestores(sc: Track)
    ensures Popped(Pushed(sc)) == sc
  {
  }

  /** The build step's symbol tracker. */
  class TrackTable {
    var scopes: Track

    /** An empty table with no scope at all. */
    constructor ()
      ensures scopes == []
    {
      scopes := [];
    }

    method CreateScope()
      modifies this
      ensures scopes == Pushed(old(scopes))
    {
      scopes := [{}] + scopes;
    }

    method DropScope()
      modifies this
      ensures scopes == Popped(old(scopes))
    {
      if scopes != [] {
        scopes := scopes[1..];
      }
    }

    /** Records `s` as assigned when that is allowed; reports a reassignment otherwise. */
    method Assign(s: Symbol) returns (r: Outcome<BuildError>)
      requires scopes != [] || !IsMutable(s)
      modifies this
      ensures (r, scopes) == AssignIn(old(scopes), s)
    {
      if CanAssignIn(scopes, s) {
        scopes := [scopes[0] + {s}] + scopes[1..];
        r := Pass;
      } else {
        r := Fail(ReassignError(s));
      }
    }

    /** Checks that `s` is visible; the table is left as it is. */
    method Validate(s: Symbol) returns (r: Outcome<BuildError>)
      ensures r.Pass? <==> IsAssignedIn(scopes, s)
      ensures r == ValidateIn(scopes, s)
    {
      if IsMutable(s) {
        r := if scopes != [] && s in scopes[0] then Pass else Fail(UndefinedError(s));
      } else {
        r := if AnyHas(scopes, s) then Pass else Fail(UndefinedError(s));
      }
    }
  }
}

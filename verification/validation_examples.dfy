/** The build step on the three programs of the validator's own test suite. */
module ValidationExamples {
  import opened Wrappers
  import opened Symbols
  import opened TrackTables
  import opened Forms
  import opened SymbolValidation

  function Sym(name: string): Form
  {
    Form(SymbolRef(Local(name)), name)
  }

  function Int(i: int): Form
  {
    Form(IntegerLit(i), "")
  }

  /** `#(name value)` */
  function Let(name: string, value: Form): Form
  {
    Form(AssignmentList([Binding(Local(name), value)]), "")
  }

  /** `(callee args...)` */
  function Apply(callee: string, args: seq<Form>): Form
  {
    Form(Call(Sym(callee), args), "")
  }

  /** `#(a 10) #(b 5) (println (+ a b))` */
  function SumProgram(): seq<Form>
  {
    [Let("a", Int(10)), Let("b", Int(5)), Apply("println", [Apply("+", [Sym("a"), Sym("b")])])]
  }

  lemma LetPasses(sc: Track, name: string, i: int)
    requires sc != [] && !EndsWithQuote(name) && Local(name) !in sc[0]
    ensures CheckForm(sc, Let(name, Int(i))) == (Pass, [sc[0] + {Local(name)}] + sc[1..])
  {
    var b := Binding(Local(name), Int(i));
    assert CheckBinding(sc, b) == (Pass, [sc[0] + {Local(name)}] + sc[1..]);
    assert CheckPairs(sc, [b]) == ([], [sc[0] + {Local(name)}] + sc[1..]) by {
      var sc1 := [sc[0] + {Local(name)}] + sc[1..];
      assert [b][0] == b && [b][1..] == [];
      assert CheckPairs(sc1, []) == ([], sc1);
      assert CheckPairs(sc, [b]).1 == sc1;
      assert CheckPairs(sc, [b]).0 == [];
    }
  }

  /** `#(a a)` with a fresh immutable `a` passes even where `a` alone would not: the pair's
      symbol is assigned before its value is checked. */
  lemma SelfReferencePasses(sc: Track, name: string)
    requires sc != [] && !EndsWithQuote(name) && Local(name) !in sc[0]
    ensures CheckForm(sc, Let(name, Sym(name))) == (Pass, [sc[0] + {Local(name)}] + sc[1..])
    ensures !IsAssignedIn(sc, Local(name)) ==> CheckForm(sc, Sym(name)).0.Fail?
  {
    var b := Binding(Local(name), Sym(name));
    var sc1 := [sc[0] + {Local(name)}] + sc[1..];
    assert AssignIn(sc, Local(name)) == (Pass, sc1);
    assert IsAssignedIn(sc1, Local(name));
    assert CheckBinding(sc, b) == (Pass, sc1);
    CheckPairsStep(sc, [b]);
    assert [b][1..] == [];
    assert CheckPairs(sc1, []) == ([], sc1);
  }

  lemma SymPasses(sc: Track, name: string)
    requires sc != [] && IsAssignedIn(sc, Local(name))
    ensures CheckForm(sc, Sym(name)) == (Pass, sc)
  {
  }

  /** A call of a visible immutable name on arguments that pass in a new scope passes. */
  lemma ApplyPasses(sc: Track, callee: string, args: seq<Form>)
    requires sc != [] && !EndsWithQuote(callee) && IsAssignedIn(sc, Local(callee))
    requires CheckEach(Pushed(sc), args).0 == []
    ensures CheckForm(sc, Apply(callee, args)) == (Pass, sc)
  {
    SymPasses(sc, callee);
  }

  /** In any table where `println` and `+` are visible and `a`, `b` are not yet assigned in
      the innermost scope, the sum program passes. */
  lemma SumProgramPassesIn(sc: Track)
    requires sc != [] && IsAssignedIn(sc, Local("println")) && IsAssignedIn(sc, Local("+"))
    requires Local("a") !in sc[0] && Local("b") !in sc[0]
    ensures CheckEach(sc, SumProgram()).0 == []
  {
    var p := SumProgram();
    LetPasses(sc, "a", 10);
    var sc1 := [sc[0] + {Local("a")}] + sc[1..];
    AssignKeepsVisibility(sc, Local("a"), Local("println"));
    AssignKeepsVisibility(sc, Local("a"), Local("+"));
    LetPasses(sc1, "b", 5);
    var sc2 := [sc1[0] + {Local("b")}] + sc1[1..];
    assert IsAssignedIn(sc2, Local("a")) && IsAssignedIn(sc2, Local("b"));
    assert IsAssignedIn(sc2, Local("println")) && IsAssignedIn(sc2, Local("+"));
    var inner := Pushed(Pushed(sc2));
    ImmutableVisibleInside(sc2, Local("a"));
    ImmutableVisibleInside(Pushed(sc2), Local("a"));
    ImmutableVisibleInside(sc2, Local("b"));
    ImmutableVisibleInside(Pushed(sc2), Local("b"));
    ImmutableVisibleInside(sc2, Local("+"));
    SymPasses(inner, "a");
    SymPasses(inner, "b");
    assert CheckEach(inner, [Sym("a"), Sym("b")]).0 == [];
    ApplyPasses(Pushed(sc2), "+", [Sym("a"), Sym("b")]);
    assert CheckEach(Pushed(sc2), [Apply("+", [Sym("a"), Sym("b")])]).0 == [];
    ApplyPasses(sc2, "println", [Apply("+", [Sym("a"), Sym("b")])]);
    assert CheckEach(sc2, p[2..]).0 == [];
    assert CheckEach(sc1, p[1..]).0 == [];
  }

  /** The program table: `println` and `+` are visible, the test programs' own names are not
      assigned yet. */
  lemma ProgramTrackFacts()
    ensures IsAssignedIn(ProgramTrack(), Local("println")) && IsAssignedIn(ProgramTrack(), Local("+"))
    ensures Local("a") !in ProgramTrack()[0] && Local("b") !in ProgramTrack()[0]
    ensures Local("a'") !in ProgramTrack()[0]
  {
    StlNamesVisible(15);
    StlNamesVisible(0);
    assert StlNames[15] == "println" && StlNames[0] == "+";
    forall t | t in ["a", "b", "a'"] ensures Local(t) !in ProgramTrack()[0] {
      assert t !in StlNames;
    }
  }

  /** The valid program of the test suite passes the build step. */
  lemma SumProgramPasses()
    ensures CheckProgram(SumProgram()).Pass?
    ensures CheckBuild(SumProgram()) == Success(SumProgram())
  {
    ProgramTrackFacts();
    SumProgramPassesIn(ProgramTrack());
  }

  function Text(t: string): Form
  {
    Form(StringLit(t), "")
  }

  /** `#(a "Text") (println a) #(a "Another text")` */
  function RebindProgram(): seq<Form>
  {
    [Form(AssignmentList([Binding(Local("a"), Text("Text"))]), ""),
     Apply("println", [Sym("a")]),
     Form(AssignmentList([Binding(Local("a"), Text("Another text"))]), "")]
  }

  /** The first binding of `a` passes and adds `a` to the innermost scope. */
  lemma RebindFirstPasses(sc: Track)
    requires sc != [] && Local("a") !in sc[0]
    ensures CheckForm(sc, RebindProgram()[0]) == (Pass, [sc[0] + {Local("a")}] + sc[1..])
  {
    var b1 := Binding(Local("a"), Text("Text"));
    var sc1 := [sc[0] + {Local("a")}] + sc[1..];
    assert CheckBinding(sc, b1) == (Pass, sc1);
    assert CheckPairs(sc, [b1]) == ([], sc1) by {
      assert [b1][0] == b1 && [b1][1..] == [];
      assert CheckPairs(sc1, []) == ([], sc1);
      assert CheckPairs(sc, [b1]).1 == sc1;
      assert CheckPairs(sc, [b1]).0 == [];
    }
  }

  /** Binding `a` again where the innermost scope already holds it fails. */
  lemma RebindThirdFails(sc: Track)
    requires sc != [] && Local("a") in sc[0]
    ensures CheckForm(sc, RebindProgram()[2]).0.Fail?
  {
    var b3 := Binding(Local("a"), Text("Another text"));
    assert CheckBinding(sc, b3).0.Fail?;
    assert CheckPairs(sc, [b3]).0 != [] by {
      assert [b3][0] == b3;
    }
  }

  /** Rebinding an immutable symbol in the same scope is reported. */
  lemma RebindProgramFailsIn(sc: Track)
    requires sc != [] && IsAssignedIn(sc, Local("println")) && Local("a") !in sc[0]
    ensures CheckEach(sc, RebindProgram()).0 != []
  {
    var p := RebindProgram();
    RebindFirstPasses(sc);
    var sc1 := CheckForm(sc, p[0]).1;
    var (o2, sc2) := CheckForm(sc1, p[1]);
    assert sc2 == sc1;
    RebindThirdFails(sc2);
    assert p[2..] == [p[2]];
    assert CheckEach(sc2, p[2..]).0 != [];
    assert CheckEach(sc1, p[1..]).0 != [];
  }

  /** The rebinding program of the test suite fails the build step. */
  lemma RebindProgramFails()
    ensures CheckProgram(RebindProgram()).Fail?
  {
    ProgramTrackFacts();
    RebindProgramFailsIn(ProgramTrack());
  }

  /** A name that is not visible fails, and the table is unchanged. */
  lemma SymFails(sc: Track, name: string)
    requires sc != [] && !IsAssignedIn(sc, Local(name))
    ensures CheckForm(sc, Sym(name)).0.Fail? && CheckForm(sc, Sym(name)).1 == sc
  {
  }

  /** A single form contributes one failure exactly when it fails. */
  lemma EachOne(sc: Track, f: Form)
    requires sc != []
    ensures |CheckEach(sc, [f]).0| == (if CheckForm(sc, f).0.Fail? then 1 else 0)
    ensures CheckEach(sc, [f]).1 == CheckForm(sc, f).1
  {
    assert [f][0] == f && [f][1..] == [];
  }

  /** A call of a visible name fails when its arguments fail in the new scope. */
  lemma ApplyFails(sc: Track, callee: string, args: seq<Form>)
    requires sc != [] && IsAssignedIn(sc, Local(callee))
    requires CheckEach(Pushed(sc), args).0 != []
    ensures CheckForm(sc, Apply(callee, args)).0.Fail? && CheckForm(sc, Apply(callee, args)).1 == sc
  {
    SymPasses(sc, callee);
  }

  /** A scope fails when one of its forms fails in the new scope. */
  lemma ScopeFails(sc: Track, forms: seq<Form>)
    requires sc != [] && CheckEach(Pushed(sc), forms).0 != []
    ensures CheckForm(sc, Form(Scope(forms), "")).0.Fail?
  {
  }

  /** `#'(a' "Text") (println a') { (println a') }` */
  function MutableProgram(): seq<Form>
  {
    [Form(AssignmentList([Binding(Local("a'"), Text("Text"))]), ""),
     Apply("println", [Sym("a'")]),
     Form(Scope([Apply("println", [Sym("a'")])]), "")]
  }

  /** A mutable symbol is reported when used in an inner scope, and also when it is passed
      straight to a call in its own scope, because call arguments are checked in a new scope:
      the program has two failures. */
  lemma MutableProgramFailsTwiceIn(sc: Track)
    requires sc != [] && IsAssignedIn(sc, Local("println")) && Local("a'") !in sc[0]
    ensures |CheckEach(sc, MutableProgram()).0| == 2
  {
    var p := MutableProgram();
    var a' := Local("a'");
    assert IsMutable(a');
    var b1 := Binding(a', Text("Text"));
    var sc1 := [sc[0] + {a'}] + sc[1..];
    assert CheckBinding(sc, b1) == (Pass, sc1);
    assert CheckPairs(sc, [b1]) == ([], sc1) by {
      assert [b1][0] == b1 && [b1][1..] == [];
      assert CheckPairs(sc1, []) == ([], sc1);
      assert CheckPairs(sc, [b1]).1 == sc1;
      assert CheckPairs(sc, [b1]).0 == [];
    }
    assert CheckForm(sc, p[0]) == (Pass, sc1);
    AssignKeepsVisibility(sc, a', Local("println"));
    MutableHiddenInside(sc1, a');
    SymFails(Pushed(sc1), "a'");
    EachOne(Pushed(sc1), Sym("a'"));
    ApplyFails(sc1, "println", [Sym("a'")]);
    ImmutableVisibleInside(sc1, Local("println"));
    MutableHiddenInside(Pushed(sc1), a');
    SymFails(Pushed(Pushed(sc1)), "a'");
    EachOne(Pushed(Pushed(sc1)), Sym("a'"));
    ApplyFails(Pushed(sc1), "println", [Sym("a'")]);
    EachOne(Pushed(sc1), p[2].expr.forms[0]);
    ScopeFails(sc1, [Apply("println", [Sym("a'")])]);
    assert p[2..] == [p[2]];
    EachOne(sc1, p[2]);
    assert p[1..][0] == p[1] && p[1..][1..] == p[2..];
    assert |CheckEach(sc1, p[1..]).0| == 2;
  }

  /** The mutable program of the test suite fails the build step with one multi-stream
      gathering its two failures. */
  lemma MutableProgramFailsTwice()
    ensures |CheckEach(ProgramTrack(), MutableProgram()).0| == 2
    ensures CheckProgram(MutableProgram()).Fail?
    ensures CheckProgram(MutableProgram()).error.MultiStream?
  {
    ProgramTrackFacts();
    MutableProgramFailsTwiceIn(ProgramTrack());
  }
}

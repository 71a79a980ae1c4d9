/** Symbol validation of the build step: before a program runs, every symbol it uses must be
    assigned in a scope that is visible at the point of use. The walk mirrors evaluation:
    assignment lists add to the innermost scope, scopes, function and macro bodies, call
    arguments and array items are checked inside a fresh scope.

    `Check*` functions give the meaning of each validation step on a table value; the
    `Validate*` methods run the same walk on a `TrackTable` and are proved to agree. */
module SymbolValidation {
  import opened Wrappers
  import opened Symbols
  import opened BuildErrors
  import opened TrackTables
  import opened Forms

  type Checked = (Outcome<BuildError>, Track)

  /** Validation never adds or removes scopes, never touches the outer scopes and only ever
      adds symbols to the innermost one. */
  predicate Grows(before: Track, after: Track)
  {
    |after| == |before| && before != [] && after[1..] == before[1..] && before[0] <= after[0]
  }

  lemma GrowsTransitive(a: Track, b: Track, c: Track)
    requires Grows(a, b) && Grows(b, c)
    ensures Grows(a, c)
  {
  }

  /** Gathers the failures of a list of forms checked inside the scope of `span`: none passes,
      one is wrapped in a stream at that span, several in a multi-stream at that span. */
  function Aggregate(errs: seq<BuildError>, span: string): (r: Outcome<BuildError>)
    ensures r.Pass? <==> errs == []
    ensures |errs| == 1 ==> r == Fail(Stream(errs[0], span, None))
    ensures |errs| > 1 ==> r == Fail(MultiStream(errs, span, None))
  {
    if errs == [] then Pass
    else if |errs| == 1 then Fail(Stream(errs[0], span, None))
    else Fail(MultiStream(errs, span, None))
  }

  /** Failures of one assignment: the symbol's, the value's, or both in a multi-stream at the
      span of the assigned value's form. */
  function CombinePair(sres: Outcome<BuildError>, fres: Outcome<BuildError>, rhsSpan: string): (r: Outcome<BuildError>)
    ensures r.Pass? <==> sres.Pass? && fres.Pass?
    ensures sres.Fail? && fres.Fail? ==> r.error == MultiStream([sres.error, fres.error], rhsSpan, None)
  {
    match (sres, fres)
    case (Pass, Pass) => Pass
    case (Pass, Fail(e)) => Fail(e)
    case (Fail(e), Pass) => Fail(e)
    case (Fail(s), Fail(f)) => Fail(MultiStream([s, f], rhsSpan, None))
  }

  const BodyNote := "Use of undefined symbols in the macro body"
  const CallNote := "Use of undefined symbols in the function call"
  const ArrayNote := "Use of undefined symbols inside an array"

  /** Validation of one form. Symbols must be visible; the other forms are checked through
      their parts; literals and captured values always pass. */
  function CheckForm(sc: Track, f: Form): (r: Checked)
    requires sc != []
    ensures Grows(sc, r.1)
    ensures f.expr.SymbolRef? ==> r == (ValidateIn(sc, f.expr.sym), sc)
    ensures f.expr.Scope? || f.expr.ArrayLit? || f.expr.FunctionLit? || f.expr.MacroLit? ==> r.1 == sc
    decreases f, 1
  {
    match f.expr
    case SymbolRef(s) => (ValidateIn(sc, s), sc)
    case AssignmentList(pairs) => CheckAssignments(sc, f)
    case Scope(forms) => CheckForms(sc, f.span, forms)
    case FunctionLit(_, _) => CheckCallableBody(sc, f)
    case MacroLit(_, _, _) => CheckCallableBody(sc, f)
    case Call(_, _) => CheckCall(sc, f)
    case ArrayLit(_) => CheckArray(sc, f)
    case _ => (Pass, sc)
  }

  /** Forms checked in order, every one of them, collecting the failures. */
  function CheckEach(sc: Track, forms: seq<Form>): (r: (seq<BuildError>, Track))
    requires sc != []
    ensures Grows(sc, r.1)
    ensures |r.0| <= |forms|
    ensures forms == [] ==> r == ([], sc)
    decreases forms, 0
  {
    if forms == [] then ([], sc)
    else
      var (o, sc1) := CheckForm(sc, forms[0]);
      var (errs, sc2) := CheckEach(sc1, forms[1..]);
      ((if o.Fail? then [o.error] else []) + errs, sc2)
  }

  /** A list of forms is checked inside a new scope, which is dropped afterwards: the table
      comes back exactly as it was. */
  function CheckForms(sc: Track, span: string, forms: seq<Form>): (r: Checked)
    requires sc != []
    ensures r.1 == sc
    ensures r.0.Pass? <==> CheckEach(Pushed(sc), forms).0 == []
    ensures r.0 == Aggregate(CheckEach(Pushed(sc), forms).0, span)
    decreases forms, 1
  {
    var (errs, sc1) := CheckEach(Pushed(sc), forms);
    (Aggregate(errs, span), Popped(sc1))
  }

  /** One pair of an assignment list: the symbol is assigned first, then the value's form is
      checked in the table the assignment left, so with the symbol already in scope. The pair
      fails when either step fails, with that step's error; when both fail the two errors are
      gathered at the value's span. */
  function CheckBinding(sc: Track, b: Binding): (r: Checked)
    requires sc != []
    ensures Grows(sc, r.1) && b.target in r.1[0]
    ensures var (sres, sc1) := AssignIn(sc, b.target);
            var fres := CheckForm(sc1, b.rhs).0;
            (r.0.Pass? <==> sres.Pass? && fres.Pass?)
            && (sres.Fail? && fres.Pass? ==> r.0 == sres)
            && (sres.Pass? && fres.Fail? ==> r.0 == fres)
            && (sres.Fail? && fres.Fail? ==> r.0 == Fail(MultiStream([sres.error, fres.error], b.rhs.span, None)))
    decreases b
  {
    var (sres, sc1) := AssignIn(sc, b.target);
    var (fres, sc2) := CheckForm(sc1, b.rhs);
    (CombinePair(sres, fres, b.rhs.span), sc2)
  }

  /** Every pair of an assignment list, in order. */
  function CheckPairs(sc: Track, pairs: seq<Binding>): (r: (seq<BuildError>, Track))
    requires sc != []
    ensures Grows(sc, r.1)
    ensures forall b :: b in pairs ==> b.target in r.1[0]
    ensures pairs == [] ==> r == ([], sc)
    decreases pairs
  {
    if pairs == [] then ([], sc)
    else
      var (o, sc1) := CheckBinding(sc, pairs[0]);
      var (errs, sc2) := CheckPairs(sc1, pairs[1..]);
      assert forall k :: 1 <= k < |pairs| ==> pairs[k] == pairs[1..][k - 1];
      ((if o.Fail? then [o.error] else []) + errs, sc2)
  }

  /** An assignment list adds its symbols to the current scope (no new scope) and reports the
      failed pairs gathered at its span. */
  function CheckAssignments(sc: Track, f: Form): (r: Checked)
    requires sc != [] && f.expr.AssignmentList?
    ensures Grows(sc, r.1)
    ensures forall k :: 0 <= k < |f.expr.pairs| ==> IsAssignedIn(r.1, f.expr.pairs[k].target)
    ensures r.0 == Aggregate(CheckPairs(sc, f.expr.pairs).0, f.span)
    decreases f, 0
  {
    var (errs, sc1) := CheckPairs(sc, f.expr.pairs);
    (Aggregate(errs, f.span), sc1)
  }

  /** The first pair of a list is checked first, the rest from the table it left. */
  lemma CheckPairsStep(sc: Track, pairs: seq<Binding>)
    requires sc != [] && pairs != []
    ensures var (o, sc1) := CheckBinding(sc, pairs[0]);
            var (errs, sc2) := CheckPairs(sc1, pairs[1..]);
            CheckPairs(sc, pairs) == ((if o.Fail? then [o.error] else []) + errs, sc2)
  {
  }

  /** `CheckPairsStep` on the pairs from index `i` on. */
  lemma CheckPairsAt(sc: Track, pairs: seq<Binding>, i: nat)
    requires sc != [] && i < |pairs|
    ensures var (o, sc1) := CheckBinding(sc, pairs[i]);
            var (errs, sc2) := CheckPairs(sc1, pairs[i + 1..]);
            CheckPairs(sc, pairs[i..]) == ((if o.Fail? then [o.error] else []) + errs, sc2)
  {
    assert pairs[i..][0] == pairs[i] && pairs[i..][1..] == pairs[i + 1..];
    CheckPairsStep(sc, pairs[i..]);
  }

  /** `CheckPairsAppend` when the first list is empty. */
  lemma CheckPairsAppendNil(sc: Track, b: seq<Binding>)
    requires sc != []
    ensures CheckPairs(sc, [] + b) == ([] + CheckPairs(sc, b).0, CheckPairs(sc, b).1)
  {
    assert [] + b == b;
    assert [] + CheckPairs(sc, b).0 == CheckPairs(sc, b).0;
  }

  /** The first pair and the rest of `a + b` when `a` is not empty. */
  lemma AppendFirst(a: seq<Binding>, b: seq<Binding>)
    requires a != []
    ensures (a + b)[0] == a[0] && (a + b)[1..] == a[1..] + b
  {
  }

  /** Gathered failures concatenate associatively. */
  lemma SeqAssociates(x: seq<BuildError>, y: seq<BuildError>, z: seq<BuildError>)
    ensures x + (y + z) == (x + y) + z
  {
  }

  /** The first pair of `a` is checked first, whether or not `b` follows it: `head` is what
      it adds to the failures and `sc1` the table it leaves. */
  lemma CheckPairsSplit(sc: Track, a: seq<Binding>, b: seq<Binding>) returns (head: seq<BuildError>, sc1: Track)
    requires sc != [] && a != []
    ensures sc1 != []
    ensures CheckPairs(sc, a) == (head + CheckPairs(sc1, a[1..]).0, CheckPairs(sc1, a[1..]).1)
    ensures CheckPairs(sc, a + b) == (head + CheckPairs(sc1, a[1..] + b).0, CheckPairs(sc1, a[1..] + b).1)
  {
    var o;
    o, sc1 := CheckBinding(sc, a[0]).0, CheckBinding(sc, a[0]).1;
    head := if o.Fail? then [o.error] else [];
    CheckPairsStep(sc, a);
    AppendFirst(a, b);
    CheckPairsStep(sc, a + b);
  }

  /** The pairs of a list are checked one after another, each from the table the ones before
      it left: the failures of `a + b` are those of `a` followed by those of `b`. */
  lemma {:induction false} CheckPairsAppend(sc: Track, a: seq<Binding>, b: seq<Binding>)
    requires sc != []
    ensures var (ea, sa) := CheckPairs(sc, a);
            var (eb, sb) := CheckPairs(sa, b);
            CheckPairs(sc, a + b) == (ea + eb, sb)
    decreases |a|
  {
    if a == [] {
      CheckPairsAppendNil(sc, b);
    } else {
      var head, sc1 := CheckPairsSplit(sc, a, b);
      CheckPairsAppend(sc1, a[1..], b);
      SeqAssociates(head, CheckPairs(sc1, a[1..]).0, CheckPairs(CheckPairs(sc1, a[1..]).1, b).0);
    }
  }

  /** Assigns every symbol in turn, ignoring refusals: afterwards the innermost scope holds
      exactly what it held plus the symbols. */
  function AssignAll(sc: Track, syms: seq<Symbol>): (r: Track)
    requires sc != []
    ensures |r| == |sc| && r[1..] == sc[1..]
    ensures forall s :: s in r[0] <==> s in sc[0] || s in syms
    decreases syms
  {
    if syms == [] then sc
    else AssignAll(AssignIn(sc, syms[0]).1, syms[1..])
  }

  /** A function or macro body is checked in a new scope holding its parameters; the literal
      fails exactly when its body does, with the body's error wrapped at the literal's span. */
  function CheckCallableBody(sc: Track, f: Form): (r: Checked)
    requires sc != [] && (f.expr.FunctionLit? || f.expr.MacroLit?)
    ensures r.1 == sc
    ensures var b := CheckForm(AssignAll(Pushed(sc), f.expr.params), f.expr.body).0;
            (r.0.Pass? <==> b.Pass?)
            && (b.Fail? ==> r.0 == Fail(Stream(b.error, f.span, Some(BodyNote))))
    decreases f, 0
  {
    var body := if f.expr.FunctionLit? then f.expr.body else f.expr.body;
    var params := if f.expr.FunctionLit? then f.expr.params else f.expr.params;
    var (o, sc1) := CheckForm(AssignAll(Pushed(sc), params), body);
    (if o.Fail? then Fail(Stream(o.error, f.span, Some(BodyNote))) else Pass, Popped(sc1))
  }

  /** A call: the callable is checked in the current scope, the arguments as a list of forms
      in a new scope; both failures are gathered together. */
  function CheckCall(sc: Track, f: Form): (r: Checked)
    requires sc != [] && f.expr.Call?
    ensures Grows(sc, r.1)
    ensures r.1 == CheckForm(sc, f.expr.callable).1
    ensures var (c, sc1) := CheckForm(sc, f.expr.callable);
            var a := CheckForms(sc1, f.span, f.expr.args).0;
            (r.0.Pass? <==> c.Pass? && a.Pass?)
            && (c.Fail? && a.Pass? ==> r.0 == c)
            && (c.Pass? && a.Fail? ==> r.0 == a)
            && (c.Fail? && a.Fail? ==> r.0 == Fail(MultiStream([c.error, a.error], f.span, Some(CallNote))))
    decreases f, 0
  {
    var (cres, sc1) := CheckForm(sc, f.expr.callable);
    var (ares, sc2) := CheckForms(sc1, f.span, f.expr.args);
    (match (cres, ares)
     case (Pass, Pass) => Pass
     case (Pass, Fail(a)) => Fail(a)
     case (Fail(c), Pass) => Fail(c)
     case (Fail(c), Fail(a)) => Fail(MultiStream([c, a], f.span, Some(CallNote))),
     sc2)
  }

  /** Literals and captured values always pass and leave the table as it is. */
  lemma LiteralPasses(sc: Track, f: Form)
    requires sc != [] && (IsLiteral(f.expr) || f.expr.Capture?)
    ensures CheckForm(sc, f) == (Pass, sc)
  {
  }

  /** A call passes exactly when its callable passes in the current scope and its arguments
      pass in a new scope. When only the callable fails the call has its error; when only
      arguments fail it has their error gathered at the call's span; when both fail, the two
      are gathered with the call's note. */
  lemma CallOutcome(sc: Track, f: Form)
    requires sc != [] && f.expr.Call?
    ensures var (c, sc1) := CheckForm(sc, f.expr.callable);
            var a := CheckEach(Pushed(sc1), f.expr.args).0;
            var r := CheckForm(sc, f).0;
            (r.Pass? <==> c.Pass? && a == [])
            && (c.Fail? && a == [] ==> r == c)
            && (c.Pass? && a != [] ==> r == Aggregate(a, f.span))
            && (c.Fail? && a != [] ==> r == Fail(MultiStream([c.error, Aggregate(a, f.span).error], f.span, Some(CallNote))))
  {
    assert CheckForm(sc, f) == CheckCall(sc, f);
  }

  /** The forms of a list are checked one after another, each from the table the ones before
      it left: the failures of `a + b` are those of `a` followed by those of `b`. */
  lemma {:induction false} CheckEachAppend(sc: Track, a: seq<Form>, b: seq<Form>)
    requires sc != []
    ensures var (ea, sa) := CheckEach(sc, a);
            var (eb, sb) := CheckEach(sa, b);
            CheckEach(sc, a + b) == (ea + eb, sb)
    decreases |a|
  {
    if a == [] {
      assert a + b == b;
      assert CheckEach(sc, a) == ([], sc);
      assert [] + CheckEach(sc, b).0 == CheckEach(sc, b).0;
    } else {
      assert (a + b)[0] == a[0];
      assert (a + b)[1..] == a[1..] + b;
      var (o, sc1) := CheckForm(sc, a[0]);
      var head: seq<BuildError> := if o.Fail? then [o.error] else [];
      CheckEachAppend(sc1, a[1..], b);
      var (ea, sa) := CheckEach(sc1, a[1..]);
      var (eb, sb) := CheckEach(sa, b);
      assert CheckEach(sc, a + b) == (head + (ea + eb), sb);
      assert CheckEach(sc, a) == (head + ea, sa);
      assert head + (ea + eb) == (head + ea) + eb;
    }
  }

  /** One form contributes its own error to the list's failures when it fails, and nothing
      when it passes. */
  lemma CheckEachOne(sc: Track, f: Form)
    requires sc != []
    ensures var (o, sc1) := CheckForm(sc, f);
            CheckEach(sc, [f]) == (if o.Fail? then [o.error] else [], sc1)
  {
    var (o, sc1) := CheckForm(sc, f);
    assert [f][0] == f && [f][1..] == [];
    assert CheckEach(sc1, []) == ([], sc1);
    var head: seq<BuildError> := if o.Fail? then [o.error] else [];
    assert head + [] == head;
  }

  /** An array: its items are checked as a list of forms in a new scope; the array fails
      exactly when some item does, with the items' gathered error wrapped once more. */
  function CheckArray(sc: Track, f: Form): (r: Checked)
    requires sc != [] && f.expr.ArrayLit?
    ensures r.1 == sc
    ensures var errs := CheckEach(Pushed(sc), f.expr.items).0;
            (r.0.Pass? <==> errs == [])
            && (errs != [] ==> r.0 == Fail(Stream(Aggregate(errs, f.span).error, f.span, Some(ArrayNote))))
    decreases f, 0
  {
    var (o, sc1) := CheckForms(sc, f.span, f.expr.items);
    (if o.Fail? then Fail(Stream(o.error, f.span, Some(ArrayNote))) else Pass, sc1)
  }

  /** Names of the standard library the build step treats as assigned. */
  const StlNames: seq<string> := ["+", "-", "*", "/", "^", "map", "reduce", "fold", "scan", "filter",
                                  "append", "prepend", "pop-back", "pop-front", "print", "println", "readln", "format"]

  /** No standard library name both starts with a letter and holds a `/`, so each of them
      parses to a local symbol. */
  lemma StlNameIsLocal(k: nat)
    requires k < |StlNames|
    ensures |StlNames[k]| > 0 && FromText(StlNames[k]) == Local(StlNames[k])
    ensures !IsMutable(Local(StlNames[k]))
  {
    var t := StlNames[k];
    assert |t| > 0 && t[|t| - 1] != '\'';
    if k == 3 {
      assert t[0] == '/';
    } else {
      assert '/' !in t;
    }
  }

  /** The table a program is checked in: one scope holding the standard library names. */
  function ProgramTrack(): (r: Track)
    ensures |r| == 1
  {
    [set k | 0 <= k < |StlNames| :: Local(StlNames[k])]
  }

  /** Every standard library name is visible everywhere in a program. */
  lemma StlNamesVisible(k: nat)
    requires k < |StlNames|
    ensures IsAssignedIn(ProgramTrack(), Local(StlNames[k]))
  {
    StlNameIsLocal(k);
  }

  /** `validate_program`: every top-level form is checked, in order, with one shared table. */
  function CheckProgram(forms: seq<Form>): (r: Outcome<BuildError>)
    ensures r.Pass? <==> CheckEach(ProgramTrack(), forms).0 == []
    ensures var errs := CheckEach(ProgramTrack(), forms).0;
            |errs| == 1 ==> r == Fail(errs[0])
    ensures var errs := CheckEach(ProgramTrack(), forms).0;
            |errs| > 1 ==> r == Fail(MultiStream(errs, "", Some("The current program uses undefined symbols")))
  {
    var (errs, _) := CheckEach(ProgramTrack(), forms);
    if errs == [] then Pass
    else if |errs| == 1 then Fail(errs[0])
    else Fail(MultiStream(errs, "", Some("The current program uses undefined symbols")))
  }

  /** `build_program`: the same check, yielding the program itself when it passes. */
  function CheckBuild(forms: seq<Form>): (r: Result<seq<Form>, BuildError>)
    ensures r.Success? <==> CheckProgram(forms).Pass?
    ensures r.Success? ==> r.value == forms
    ensures r.Failure? && |CheckEach(ProgramTrack(), forms).0| == 1 ==> Fail(r.error) == CheckProgram(forms)
    ensures var errs := CheckEach(ProgramTrack(), forms).0;
            |errs| > 1 ==> r == Failure(MultiStream(errs, "program", None))
  {
    var (errs, _) := CheckEach(ProgramTrack(), forms);
    if errs == [] then Success(forms)
    else if |errs| == 1 then Failure(errs[0])
    else Failure(MultiStream(errs, "program", None))
  }

  // ---------------------------------------------------------------------------------------
  // The validation walk over a `TrackTable`.

  method ValidateForm(track: TrackTable, f: Form) returns (r: Outcome<BuildError>)
    requires track.scopes != []
    modifies track
    ensures (r, track.scopes) == CheckForm(old(track.scopes), f)
    decreases f, 1
  {
    match f.expr {
      case SymbolRef(s) => r := track.Validate(s);
      case AssignmentList(_) => r := ValidateAssignmentList(track, f);
      case Scope(forms) => r := ValidateForms(track, f.span, forms);
      case FunctionLit(_, _) => r := ValidateFunction(track, f);
      case MacroLit(_, _, _) => r := ValidateMacro(track, f);
      case Call(_, _) => r := ValidateCall(track, f);
      case ArrayLit(_) => r := ValidateArray(track, f);
      case _ => r := Pass;
    }
  }

  /** Checks every form of `forms` in a new scope and gathers the failures at `span`. */
  method ValidateForms(track: TrackTable, span: string, forms: seq<Form>) returns (r: Outcome<BuildError>)
    requires track.scopes != []
    modifies track
    ensures (r, track.scopes) == CheckForms(old(track.scopes), span, forms)
    decreases forms, 1
  {
    track.CreateScope();
    var errs := ValidateEach(track, forms);
    r := Aggregate(errs, span);
    track.DropScope();
  }

  /** Assigns the pair's symbol, then checks its value in the table that left. */
  method ValidatePair(track: TrackTable, b: Binding) returns (r: Outcome<BuildError>)
    requires track.scopes != []
    modifies track
    ensures (r, track.scopes) == CheckBinding(old(track.scopes), b)
    decreases b
  {
    var sres := track.Assign(b.target);
    var fres := ValidateForm(track, b.rhs);
    r := CombinePair(sres, fres, b.rhs.span);
  }

  /** Assigns each pair's symbol, then checks its value, gathering the failures of all pairs. */
  method ValidateAssignmentList(track: TrackTable, f: Form) returns (r: Outcome<BuildError>)
    requires track.scopes != [] && f.expr.AssignmentList?
    modifies track
    ensures (r, track.scopes) == CheckAssignments(old(track.scopes), f)
    decreases f, 0
  {
    var pairs := f.expr.pairs;
    ghost var total := CheckPairs(track.scopes, pairs);
    var errs: seq<BuildError> := [];
    var i := 0;
    assert pairs[0..] == pairs;
    while i < |pairs|
      invariant 0 <= i <= |pairs| && track.scopes != []
      invariant total.0 == errs + CheckPairs(track.scopes, pairs[i..]).0
      invariant total.1 == CheckPairs(track.scopes, pairs[i..]).1
    {
      ghost var before := track.scopes;
      var o := ValidatePair(track, pairs[i]);
      CheckPairsAt(before, pairs, i);
      ghost var rest := CheckPairs(track.scopes, pairs[i + 1..]).0;
      if o.Fail? {
        assert errs + ([o.error] + rest) == (errs + [o.error]) + rest;
        errs := errs + [o.error];
      } else {
        assert [] + rest == rest;
      }
      i := i + 1;
    }
    assert CheckPairs(track.scopes, pairs[i..]) == ([], track.scopes) by { assert pairs[i..] == []; }
    assert errs + [] == errs;
    r := Aggregate(errs, f.span);
  }

  /** Assigns every parameter in the innermost scope, ignoring refusals. */
  method AssignParameters(track: TrackTable, params: seq<Symbol>)
    requires track.scopes != []
    modifies track
    ensures track.scopes == AssignAll(old(track.scopes), params)
  {
    var i := 0;
    assert params[0..] == params;
    while i < |params|
      invariant 0 <= i <= |params| && track.scopes != []
      invariant AssignAll(old(track.scopes), params) == AssignAll(track.scopes, params[i..])
    {
      assert params[i..][0] == params[i] && params[i..][1..] == params[i + 1..];
      var _ := track.Assign(params[i]);
      i := i + 1;
    }
  }

  method ValidateFunction(track: TrackTable, f: Form) returns (r: Outcome<BuildError>)
    requires track.scopes != [] && f.expr.FunctionLit?
    modifies track
    ensures (r, track.scopes) == CheckCallableBody(old(track.scopes), f)
    decreases f, 0
  {
    track.CreateScope();
    AssignParameters(track, f.expr.params);
    var bres := ValidateForm(track, f.expr.body);
    track.DropScope();
    r := if bres.Fail? then Fail(Stream(bres.error, f.span, Some(BodyNote))) else Pass;
  }

  method ValidateMacro(track: TrackTable, f: Form) returns (r: Outcome<BuildError>)
    requires track.scopes != [] && f.expr.MacroLit?
    modifies track
    ensures (r, track.scopes) == CheckCallableBody(old(track.scopes), f)
    decreases f, 0
  {
    track.CreateScope();
    AssignParameters(track, f.expr.params);
    var bres := ValidateForm(track, f.expr.body);
    track.DropScope();
    r := if bres.Fail? then Fail(Stream(bres.error, f.span, Some(BodyNote))) else Pass;
  }

  method ValidateCall(track: TrackTable, f: Form) returns (r: Outcome<BuildError>)
    requires track.scopes != [] && f.expr.Call?
    modifies track
    ensures (r, track.scopes) == CheckCall(old(track.scopes), f)
    decreases f, 0
  {
    var cres := ValidateForm(track, f.expr.callable);
    var ares := ValidateForms(track, f.span, f.expr.args);
    match (cres, ares) {
      case (Pass, Pass) => r := Pass;
      case (Pass, Fail(a)) => r := Fail(a);
      case (Fail(c), Pass) => r := Fail(c);
      case (Fail(c), Fail(a)) => r := Fail(MultiStream([c, a], f.span, Some(CallNote)));
    }
  }

  method ValidateArray(track: TrackTable, f: Form) returns (r: Outcome<BuildError>)
    requires track.scopes != [] && f.expr.ArrayLit?
    modifies track
    ensures (r, track.scopes) == CheckArray(old(track.scopes), f)
    decreases f, 0
  {
    r := ValidateForms(track, f.span, f.expr.items);
    if r.Fail? {
      r := Fail(Stream(r.error, f.span, Some(ArrayNote)));
    }
  }

  /** Assigns every standard library name, each parsed from its text. */
  method PopulateTrack(track: TrackTable)
    requires track.scopes == Pushed([])
    modifies track
    ensures track.scopes == ProgramTrack()
  {
    var names := StlNames;
    var i := 0;
    while i < |names|
      invariant 0 <= i <= |names| && |track.scopes| == 1
      invariant track.scopes[0] == set k | 0 <= k < i :: Local(names[k])
    {
      StlNameIsLocal(i);
      var _ := track.Assign(FromText(names[i]));
      i := i + 1;
    }
  }

  /** A fresh table with one scope holding the standard library names. */
  method NewProgramTrack() returns (track: TrackTable)
    ensures fresh(track) && track.scopes == ProgramTrack()
  {
    track := new TrackTable();
    track.CreateScope();
    PopulateTrack(track);
  }

  /** Runs the checks of every top-level form with one shared table, gathering the failures. */
  method ValidateEach(track: TrackTable, forms: seq<Form>) returns (errs: seq<BuildError>)
    requires track.scopes != []
    modifies track
    ensures (errs, track.scopes) == CheckEach(old(track.scopes), forms)
    decreases forms, 0
  {
    ghost var start := track.scopes;
    var i := 0;
    errs := [];
    assert forms[0..] == forms;
    while i < |forms|
      invariant 0 <= i <= |forms| && track.scopes != []
      invariant CheckEach(start, forms).0 == errs + CheckEach(track.scopes, forms[i..]).0
      invariant CheckEach(start, forms).1 == CheckEach(track.scopes, forms[i..]).1
    {
      ghost var before := track.scopes;
      assert forms[i..][0] == forms[i] && forms[i..][1..] == forms[i + 1..];
      var o := ValidateForm(track, forms[i]);
      ghost var rest := CheckEach(track.scopes, forms[i + 1..]);
      assert CheckEach(before, forms[i..]) == ((if o.Fail? then [o.error] else []) + rest.0, rest.1);
      if o.Fail? {
        errs := errs + [o.error];
      }
      i := i + 1;
    }
    assert CheckEach(track.scopes, forms[i..]) == ([], track.scopes) by { assert forms[i..] == []; }
    assert errs + [] == errs;
  }

  method ValidateProgram(forms: seq<Form>) returns (r: Outcome<BuildError>)
    ensures r == CheckProgram(forms)
  {
    var track := NewProgramTrack();
    var errs := ValidateEach(track, forms);
    if errs == [] {
      r := Pass;
    } else if |errs| == 1 {
      r := Fail(errs[0]);
    } else {
      r := Fail(MultiStream(errs, "", Some("The current program uses undefined symbols")));
    }
  }

  method BuildProgram(forms: seq<Form>) returns (r: Result<seq<Form>, BuildError>)
    ensures r == CheckBuild(forms)
  {
    var track := NewProgramTrack();
    var errs := ValidateEach(track, forms);
    if errs == [] {
      r := Success(forms);
    } else if |errs| == 1 {
      r := Failure(errs[0]);
    } else {
      r := Failure(MultiStream(errs, "program", None));
    }
  }
}

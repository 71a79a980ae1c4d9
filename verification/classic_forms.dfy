/** Forms and values of the earlier core draft: a tree-walking evaluator over a flat symbol
    table whose symbols are plain text. A value may be a pending call (`LazyCall`) that
    `strict_eval` resolves. Functions are either defined by a body or native; the native code
    of the standard library is named by `Native`, the native macros by `MacroCode`. */
module ClassicForms {
  import opened Wrappers
  import opened Text
  import opened Floats
  import opened FlatSymbols

  datatype Literal =
    | NilLit
    | IntegerLit(i: int)
    | FloatLit(f: Float)
    | CharLit(c: char)
    | StringLit(s: string)
    | BoolLit(b: bool)
    | SymbolLit(sym: Symbol)

  datatype Form =
    | AssignmentList(pairs: seq<Pair>)
    | CodeBlock(forms: seq<Form>)
    | FunctionLit(params: seq<Symbol>, body: Form)
    | MacroLit(params: seq<Symbol>, body: Form)
    | Call(callable: Form, args: seq<Form>)
    | ArrayLit(items: seq<Form>)
    | Literal(lit: Literal)

  /** One pair of an assignment list: the symbol and the form of its value. */
  datatype Pair = Pair(target: Symbol, rhs: Form)

  /** A call kept for later: the callable form and the argument forms. */
  datatype Pending = Pending(callable: Form, arguments: seq<Form>)

  /** The native functions of the standard library. */
  datatype Native =
    | EqNative | NeqNative | LtNative | GtNative | LeNative | GeNative
    | AndNative | OrNative
    | NthNative | MapNative | ReduceNative | ScanNative
    | AppendNative | PrependNative | ConcatNative

  /** What a macro runs: a defined body, or one of the library's native macros. */
  datatype MacroCode =
    | Defined(params: seq<Symbol>, body: Form)
    | IfMacro
    | AssertMacro
    | PipeMacro

  datatype Value =
    | Nil
    | NotANumber
    | Bool(b: bool)
    | Integer(i: int)
    | FloatVal(f: Float)
    | Char(c: char)
    | Str(s: string)
    | Array(items: seq<Value>)
    | Function(fun: FunctionValue)
    | Macro(mac: MacroValue)
    | LazyCall(call: Pending)

  /** A function: the number of arguments still missing, its parameters, the arguments
      already supplied, and either a body or native code. */
  datatype FunctionValue =
    FunctionValue(arity: nat, params: seq<Symbol>, partials: seq<Value>, body: Option<Form>, native: Option<Native>)

  datatype MacroValue = MacroValue(arity: nat, code: MacroCode)

  /** The text of a literal as it is written in a program. */
  function LiteralText(l: Literal): (r: string)
    ensures l.NilLit? ==> r == "nil"
    ensures l.BoolLit? ==> r == (if l.b then "true" else "false")
    ensures l.IntegerLit? ==> r == IntText(l.i)
    ensures l.CharLit? ==> r == ['\'', l.c, '\'']
    ensures l.StringLit? ==> |r| == |l.s| + 2 && r[0] == '"' && r[|r| - 1] == '"' && r[1..|r| - 1] == l.s
    ensures l.SymbolLit? ==> r == ToText(l.sym)
  {
    match l
    case NilLit => "nil"
    case IntegerLit(i) => IntText(i)
    case FloatLit(f) => FloatText(f)
    case CharLit(c) => "'" + [c] + "'"
    case StringLit(s) => "\"" + s + "\""
    case BoolLit(b) => if b then "true" else "false"
    case SymbolLit(s) => ToText(s)
  }

  /** The text of a form (its `Display`): each kind of form is written between its own
      delimiters, and its parts in order. */
  function FormText(f: Form): (r: string)
    ensures f.AssignmentList? ==> |r| >= 4 && r[..3] == "#( " && r[|r| - 1] == ')'
    ensures f.CodeBlock? ==> |r| >= 4 && r[..2] == "{\n" && r[|r| - 2..] == "}\n"
    ensures f.FunctionLit? ==> |r| >= 5 && r[..3] == "<( " && r[|r| - 2..] == " )"
    ensures f.MacroLit? ==> |r| >= 5 && r[..3] == "[( " && r[|r| - 2..] == " )"
    ensures f.Call? ==> |r| >= 3 && r[..2] == "( " && r[|r| - 1] == ')'
    ensures f.ArrayLit? ==> |r| >= 3 && r[..2] == "[ " && r[|r| - 1] == ']'
    ensures f.Literal? ==> r == LiteralText(f.lit)
    ensures f.AssignmentList? ==> r == "#( " + PairsText(f.pairs) + ")"
    ensures f.CodeBlock? ==> r == "{\n" + LinesText(f.forms) + "}\n"
    ensures f.FunctionLit? || f.MacroLit? ==>
              r == (if f.FunctionLit? then "<( " else "[( ") + ParamsText(f.params)
                   + (if |f.params| > 0 then "-> " else "") + FormText(f.body) + " )"
    ensures f.Call? ==> r == "( " + FormText(f.callable) + " " + SpacedText(f.args) + ")"
    ensures f.ArrayLit? ==> r == "[ " + SpacedText(f.items) + "]"
    decreases f, 1
  {
    match f
    case AssignmentList(pairs) => "#( " + PairsText(pairs) + ")"
    case CodeBlock(forms) => "{\n" + LinesText(forms) + "}\n"
    case FunctionLit(params, body) =>
      "<( " + ParamsText(params) + (if |params| > 0 then "-> " else "") + FormText(body) + " )"
    case MacroLit(params, body) =>
      "[( " + ParamsText(params) + (if |params| > 0 then "-> " else "") + FormText(body) + " )"
    case Call(callable, args) => "( " + FormText(callable) + " " + SpacedText(args) + ")"
    case ArrayLit(items) => "[ " + SpacedText(items) + "]"
    case Literal(l) => LiteralText(l)
  }

  /** Each form's text followed by a space. */
  function SpacedText(forms: seq<Form>): (r: string)
    ensures forms == [] ==> r == ""
    ensures |forms| == 1 ==> r == FormText(forms[0]) + " "
    decreases forms, 0
  {
    if forms == [] then "" else FormText(forms[0]) + " " + SpacedText(forms[1..])
  }

  /** Each form's text on a line of its own, indented by a tab. */
  function LinesText(forms: seq<Form>): (r: string)
    ensures forms == [] ==> r == ""
    ensures |forms| == 1 ==> r == "\t" + FormText(forms[0]) + "\n"
    decreases forms, 0
  {
    if forms == [] then "" else "\t" + FormText(forms[0]) + "\n" + LinesText(forms[1..])
  }

  /** Each pair as its symbol and its form, each followed by a space. */
  function PairsText(pairs: seq<Pair>): (r: string)
    ensures pairs == [] ==> r == ""
    ensures |pairs| == 1 ==> r == PairText(pairs[0])
    decreases pairs, 0
  {
    if pairs == [] then "" else PairText(pairs[0]) + PairsText(pairs[1..])
  }

  /** One pair: its symbol and its form, each followed by a space. */
  function PairText(p: Pair): (r: string)
    decreases p, 0
  {
    ToText(p.target) + " " + FormText(p.rhs) + " "
  }

  /** Each parameter's text followed by a space. */
  function ParamsText(params: seq<Symbol>): (r: string)
    ensures params == [] ==> r == ""
    ensures |params| == 1 ==> r == ToText(params[0]) + " "
  {
    if params == [] then "" else ToText(params[0]) + " " + ParamsText(params[1..])
  }

  /** The text of a list of forms is written one form after another: the text of two lists
      joined is their texts joined, so each further form adds its text and a space. */
  lemma {:induction false} SpacedTextAppend(a: seq<Form>, b: seq<Form>)
    ensures SpacedText(a + b) == SpacedText(a) + SpacedText(b)
    decreases |a|
  {
    if a == [] {
      assert a + b == b;
    } else {
      assert (a + b)[0] == a[0];
      assert (a + b)[1..] == a[1..] + b;
      SpacedTextAppend(a[1..], b);
    }
  }

  /** The lines of two lists of forms joined are their lines joined: each further form adds one
      tab-indented line. */
  lemma {:induction false} LinesTextAppend(a: seq<Form>, b: seq<Form>)
    ensures LinesText(a + b) == LinesText(a) + LinesText(b)
    decreases |a|
  {
    if a == [] {
      assert a + b == b;
    } else {
      assert (a + b)[0] == a[0];
      assert (a + b)[1..] == a[1..] + b;
      LinesTextAppend(a[1..], b);
    }
  }

  /** The text of two lists of pairs joined is their texts joined: each further pair adds its
      symbol, its form and a space after each. */
  lemma {:induction false} PairsTextAppend(a: seq<Pair>, b: seq<Pair>)
    ensures PairsText(a + b) == PairsText(a) + PairsText(b)
    decreases |a|
  {
    if a == [] {
      assert a + b == b;
    } else {
      assert (a + b)[0] == a[0];
      assert (a + b)[1..] == a[1..] + b;
      PairsTextAppend(a[1..], b);
    }
  }

  /** The text of two parameter lists joined is their texts joined: each further parameter adds
      its name and a space. */
  lemma {:induction false} ParamsTextAppend(a: seq<Symbol>, b: seq<Symbol>)
    ensures ParamsText(a + b) == ParamsText(a) + ParamsText(b)
    decreases |a|
  {
    if a == [] {
      assert a + b == b;
    } else {
      assert (a + b)[0] == a[0];
      assert (a + b)[1..] == a[1..] + b;
      ParamsTextAppend(a[1..], b);
    }
  }

  /** Whether `s` occurs free in `f`: as a symbol literal that no enclosing function or macro
      literal binds. The symbols an assignment list binds are not occurrences. */
  predicate Free(s: Symbol, f: Form)
    decreases f, 1
  {
    match f
    case AssignmentList(pairs) => FreeInPairs(s, pairs)
    case CodeBlock(forms) => FreeInAny(s, forms)
    case FunctionLit(params, body) => s !in params && Free(s, body)
    case MacroLit(params, body) => s !in params && Free(s, body)
    case Call(callable, args) => Free(s, callable) || FreeInAny(s, args)
    case ArrayLit(items) => FreeInAny(s, items)
    case Literal(l) => l == SymbolLit(s)
  }

  predicate FreeInAny(s: Symbol, forms: seq<Form>)
    decreases forms, 0
  {
    forms != [] && (Free(s, forms[0]) || FreeInAny(s, forms[1..]))
  }

  predicate FreeInPairs(s: Symbol, pairs: seq<Pair>)
    decreases pairs, 0
  {
    pairs != [] && (FreeInPair(s, pairs[0]) || FreeInPairs(s, pairs[1..]))
  }

  predicate FreeInPair(s: Symbol, p: Pair)
    decreases p, 0
  {
    Free(s, p.rhs)
  }

  /** `replace_symbol`: every free occurrence of `s` becomes `g`. The body of a function or
      macro literal that binds `s` is left alone, and so are the symbols an assignment list
      binds. */
  function Replace(f: Form, s: Symbol, g: Form): (r: Form)
    ensures f.AssignmentList? ==> r.AssignmentList? && |r.pairs| == |f.pairs|
                                  && forall i :: 0 <= i < |f.pairs| ==> r.pairs[i].target == f.pairs[i].target
    ensures f.CodeBlock? ==> r.CodeBlock? && |r.forms| == |f.forms|
    ensures f.FunctionLit? ==> r.FunctionLit? && r.params == f.params && (s in f.params ==> r.body == f.body)
    ensures f.MacroLit? ==> r.MacroLit? && r.params == f.params && (s in f.params ==> r.body == f.body)
    ensures f.Call? ==> r.Call? && |r.args| == |f.args|
    ensures f.ArrayLit? ==> r.ArrayLit? && |r.items| == |f.items|
    ensures f.Literal? ==> r == (if f.lit == SymbolLit(s) then g else f)
    decreases f, 1
  {
    match f
    case AssignmentList(pairs) => AssignmentList(ReplacePairs(pairs, s, g))
    case CodeBlock(forms) => CodeBlock(ReplaceAll(forms, s, g))
    case FunctionLit(params, body) => FunctionLit(params, if s in params then body else Replace(body, s, g))
    case MacroLit(params, body) => MacroLit(params, if s in params then body else Replace(body, s, g))
    case Call(callable, args) => Call(Replace(callable, s, g), ReplaceAll(args, s, g))
    case ArrayLit(items) => ArrayLit(ReplaceAll(items, s, g))
    case Literal(l) => if l == SymbolLit(s) then g else f
  }

  function ReplaceAll(forms: seq<Form>, s: Symbol, g: Form): (r: seq<Form>)
    ensures |r| == |forms|
    decreases forms, 0
  {
    if forms == [] then [] else [Replace(forms[0], s, g)] + ReplaceAll(forms[1..], s, g)
  }

  function ReplacePairs(pairs: seq<Pair>, s: Symbol, g: Form): (r: seq<Pair>)
    ensures |r| == |pairs|
    ensures forall i :: 0 <= i < |pairs| ==> r[i].target == pairs[i].target
    decreases pairs, 0
  {
    if pairs == [] then [] else [ReplacePair(pairs[0], s, g)] + ReplacePairs(pairs[1..], s, g)
  }

  function ReplacePair(p: Pair, s: Symbol, g: Form): (r: Pair)
    ensures r.target == p.target
    decreases p, 0
  {
    Pair(p.target, Replace(p.rhs, s, g))
  }

  /** Replacing a symbol that does not occur free leaves the form as it was. */
  lemma {:induction false} ReplaceNotFree(f: Form, s: Symbol, g: Form)
    requires !Free(s, f)
    ensures Replace(f, s, g) == f
    decreases f, 1
  {
    match f
    case AssignmentList(pairs) => ReplacePairsNotFree(pairs, s, g);
    case CodeBlock(forms) => ReplaceAllNotFree(forms, s, g);
    case FunctionLit(params, body) => if s !in params { ReplaceNotFree(body, s, g); }
    case MacroLit(params, body) => if s !in params { ReplaceNotFree(body, s, g); }
    case Call(callable, args) => ReplaceNotFree(callable, s, g); ReplaceAllNotFree(args, s, g);
    case ArrayLit(items) => ReplaceAllNotFree(items, s, g);
    case Literal(_) =>
  }

  lemma {:induction false} ReplaceAllNotFree(forms: seq<Form>, s: Symbol, g: Form)
    requires !FreeInAny(s, forms)
    ensures ReplaceAll(forms, s, g) == forms
    decreases forms, 0
  {
    if forms != [] {
      ReplaceNotFree(forms[0], s, g);
      ReplaceAllNotFree(forms[1..], s, g);
    }
  }

  lemma {:induction false} ReplacePairsNotFree(pairs: seq<Pair>, s: Symbol, g: Form)
    requires !FreeInPairs(s, pairs)
    ensures ReplacePairs(pairs, s, g) == pairs
    decreases pairs, 0
  {
    if pairs != [] {
      ReplacePairNotFree(pairs[0], s, g);
      ReplacePairsNotFree(pairs[1..], s, g);
    }
  }

  lemma {:induction false} ReplacePairNotFree(p: Pair, s: Symbol, g: Form)
    requires !FreeInPair(s, p)
    ensures ReplacePair(p, s, g) == p
    decreases p, 0
  {
    ReplaceNotFree(p.rhs, s, g);
  }

  /** When the replacement has no free `s` of its own, no free `s` is left after the
      replacement: every free occurrence was reached. */
  lemma {:induction false} ReplaceRemovesFree(f: Form, s: Symbol, g: Form)
    requires !Free(s, g)
    ensures !Free(s, Replace(f, s, g))
    decreases f, 1
  {
    match f
    case AssignmentList(pairs) => ReplacePairsRemoveFree(pairs, s, g);
    case CodeBlock(forms) => ReplaceAllRemovesFree(forms, s, g);
    case FunctionLit(params, body) => if s !in params { ReplaceRemovesFree(body, s, g); }
    case MacroLit(params, body) => if s !in params { ReplaceRemovesFree(body, s, g); }
    case Call(callable, args) => ReplaceRemovesFree(callable, s, g); ReplaceAllRemovesFree(args, s, g);
    case ArrayLit(items) => ReplaceAllRemovesFree(items, s, g);
    case Literal(_) =>
  }

  lemma {:induction false} ReplaceAllRemovesFree(forms: seq<Form>, s: Symbol, g: Form)
    requires !Free(s, g)
    ensures !FreeInAny(s, ReplaceAll(forms, s, g))
    decreases forms, 0
  {
    if forms != [] {
      ReplaceRemovesFree(forms[0], s, g);
      ReplaceAllRemovesFree(forms[1..], s, g);
      assert ReplaceAll(forms, s, g)[1..] == ReplaceAll(forms[1..], s, g);
    }
  }

  lemma {:induction false} ReplacePairsRemoveFree(pairs: seq<Pair>, s: Symbol, g: Form)
    requires !Free(s, g)
    ensures !FreeInPairs(s, ReplacePairs(pairs, s, g))
    decreases pairs, 0
  {
    if pairs != [] {
      ReplacePairRemovesFree(pairs[0], s, g);
      ReplacePairsRemoveFree(pairs[1..], s, g);
      assert ReplacePairs(pairs, s, g)[1..] == ReplacePairs(pairs[1..], s, g);
    }
  }

  lemma {:induction false} ReplacePairRemovesFree(p: Pair, s: Symbol, g: Form)
    requires !Free(s, g)
    ensures !FreeInPair(s, ReplacePair(p, s, g))
    decreases p, 0
  {
    ReplaceRemovesFree(p.rhs, s, g);
  }
}

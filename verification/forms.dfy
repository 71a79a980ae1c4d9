/** Forms of the newest core draft, as the build step produces them and the runner consumes
    them, and the runtime values they evaluate to. A form is an expression and the text of
    the source span it came from. A `Capture` form holds a value fixed when a function or
    macro literal was evaluated. */
module Forms {
  import opened Wrappers
  import opened Symbols
  import opened Floats

  datatype Form = Form(expr: Expr, span: string)

  datatype Expr =
    | NilLit
    | IntegerLit(i: int)
    | FloatLit(f: Float)
    | StringLit(s: string)
    | BoolLit(b: bool)
    | SymbolRef(sym: Symbol)
    | AtomLit(atom: string)
    | AssignmentList(pairs: seq<Binding>)
    | Scope(forms: seq<Form>)
    | FunctionLit(params: seq<Symbol>, body: Form)
    | MacroLit(captures: Option<seq<Symbol>>, params: seq<Symbol>, body: Form)
    | Call(callable: Form, args: seq<Form>)
    | ArrayLit(items: seq<Form>)
    | Capture(value: Value)

  /** One pair of an assignment list: the symbol and the form of its value. */
  datatype Binding = Binding(target: Symbol, rhs: Form)

  /** The literal expressions: the ones that evaluate to a constant. */
  predicate IsLiteral(e: Expr)
  {
    e.NilLit? || e.IntegerLit? || e.FloatLit? || e.StringLit? || e.BoolLit? || e.AtomLit?
  }

  datatype Value =
    | Nil
    | Integer(i: int)
    | FloatVal(f: Float)
    | Str(s: string)
    | Bool(b: bool)
    | Atom(atom: string)
    | Array(items: seq<Value>)
    | Function(fun: FunctionValue)
    | Macro(mac: MacroValue)

  /** A function value: its parameters, the arguments already supplied by partial
      application, the number still missing, and its body. */
  datatype FunctionValue = FunctionValue(arity: nat, params: seq<Symbol>, partials: seq<Value>, body: Form)

  /** A macro value: like a function, but its arguments are forms, not values. */
  datatype MacroValue = MacroValue(arity: nat, params: Option<seq<Symbol>>, partials: seq<Form>, body: Form)

  /** The value of a literal expression. */
  function FromLiteral(e: Expr): (v: Value)
    requires IsLiteral(e)
    ensures e.NilLit? <==> v.Nil?
    ensures e.IntegerLit? ==> v == Integer(e.i)
    ensures e.FloatLit? ==> v == FloatVal(e.f)
    ensures e.StringLit? ==> v == Str(e.s)
    ensures e.BoolLit? ==> v == Bool(e.b)
    ensures e.AtomLit? ==> v == Atom(e.atom)
  {
    match e
    case NilLit => Nil
    case IntegerLit(i) => Integer(i)
    case FloatLit(f) => FloatVal(f)
    case StringLit(s) => Str(s)
    case BoolLit(b) => Bool(b)
    case AtomLit(a) => Atom(a)
  }
}

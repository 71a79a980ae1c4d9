/** Operations on the values of the earlier core draft: their text, truthiness, equality and
    ordering, the array view, and the construction of function values. */
module ClassicValues {
  import opened Wrappers
  import opened Text
  import opened Floats
  import opened FlatSymbols
  import opened RunErrors
  import opened ClassicForms

  /** The reason of the panic raised when a pending call is printed. */
  const LazyDisplay := "Lazy calls must be evaluated"

  /** The reason of the panic raised when a pending call is tested for truth. */
  const LazyTruth := "Lazy calls must be strict evaluated"

  /** Whether a pending call occurs in the value, at its top or inside an array. */
  predicate HasLazy(v: Value)
    decreases v, 1
  {
    match v
    case LazyCall(_) => true
    case Array(items) => AnyLazy(items)
    case _ => false
  }

  predicate AnyLazy(items: seq<Value>)
    decreases items, 0
  {
    items != [] && (HasLazy(items[0]) || AnyLazy(items[1..]))
  }

  /** The text of a value (its `Display`); printing a pending call is a panic, so there is
      no text when one occurs in the value. */
  function ValueText(v: Value): (r: Option<string>)
    ensures r.None? <==> HasLazy(v)
    ensures v.Str? ==> r == Some(v.s)
    ensures v.Integer? ==> r == Some(IntText(v.i))
    ensures v.Function? ==> r == Some("'func\\" + NatText(v.fun.arity))
    ensures v.Macro? ==> r == Some("'macro\\" + NatText(v.mac.arity))
    ensures v.Array? && r.Some? ==> |r.value| >= 3 && r.value[..2] == "[ " && r.value[|r.value| - 1] == ']'
    decreases v, 1
  {
    match v
    case Nil => Some("'nil")
    case NotANumber => Some("'nan")
    case Bool(b) => Some(if b then "true" else "false")
    case Char(c) => Some([c])
    case Integer(i) => Some(IntText(i))
    case FloatVal(f) => Some(FloatText(f))
    case Array(items) =>
      var t := ItemsText(items);
      if t.Some? then Some("[ " + t.value + "]") else None
    case Function(f) => Some("'func\\" + NatText(f.arity))
    case Macro(m) => Some("'macro\\" + NatText(m.arity))
    case Str(s) => Some(s)
    case LazyCall(_) => None
  }

  /** Each item's text followed by a space. */
  function ItemsText(items: seq<Value>): (r: Option<string>)
    ensures r.None? <==> AnyLazy(items)
    decreases items, 0
  {
    if items == [] then Some("")
    else
      var head := ValueText(items[0]);
      var rest := ItemsText(items[1..]);
      if head.Some? && rest.Some? then Some(head.value + " " + rest.value) else None
  }

  /** A value's text where the source formats it into a message: absent text is the panic
      of printing a pending call. */
  function Shown(v: Value): (r: RunResult<string>)
    ensures r.Ok? <==> !HasLazy(v)
    ensures r.Ok? ==> Some(r.value) == ValueText(v)
    ensures !r.Ok? ==> r == Panic(LazyDisplay)
  {
    var t := ValueText(v);
    if t.Some? then Ok(t.value) else Panic(LazyDisplay)
  }

  /** `is_lazy`. */
  predicate IsLazy(v: Value)
    ensures IsLazy(v) ==> HasLazy(v)
    ensures IsLazy(v) <==> AsBoolean(v).Panic?
  {
    v.LazyCall?
  }

  /** `to_array`: the items of an array; any other value is a panic whose reason names it. */
  function ToArray(v: Value): (r: RunResult<seq<Value>>)
    ensures r.Ok? <==> v.Array?
    ensures r.Ok? ==> r.value == v.items
    ensures !v.Array? ==> r.Panic?
    ensures !v.Array? && !HasLazy(v) ==> r.reason == "Can't turn a " + ValueText(v).value + " into an array like"
  {
    if v.Array? then Ok(v.items)
    else
      var t := Shown(v);
      if t.Ok? then Panic("Can't turn a " + t.value + " into an array like") else Panic(LazyDisplay)
  }

  /** `as_boolean`: the truth of a value; a pending call must be resolved first, and testing
      one is a panic. */
  function AsBoolean(v: Value): (r: RunResult<bool>)
    ensures r.Panic? <==> v.LazyCall?
    ensures !r.Err? && !r.OutOfFuel?
    ensures v.Nil? || v.NotANumber? || v.Function? || v.Macro? ==> r == Ok(false)
    ensures v.Bool? ==> r == Ok(v.b)
    ensures v.Integer? ==> r == Ok(v.i != 0)
    ensures v.Char? ==> r == Ok(v.c != '\0')
    ensures v.Str? ==> r == Ok(|v.s| != 0)
    ensures v.Array? ==> r == Ok(|v.items| != 0)
  {
    match v
    case Nil => Ok(false)
    case NotANumber => Ok(false)
    case Bool(b) => Ok(b)
    case Integer(i) => Ok(i != 0)
    case FloatVal(f) => Ok(!FloatEq(f, Finite(0.0)))
    case Char(c) => Ok(c != '\0')
    case Str(s) => Ok(|s| != 0)
    case Array(items) => Ok(|items| != 0)
    case Function(_) => Ok(false)
    case Macro(_) => Ok(false)
    case LazyCall(_) => Panic(LazyTruth)
  }

  /** Value equality (`PartialEq`): numbers compare across integers and floats, arrays item
      by item; functions, macros and pending calls equal nothing, not even themselves. */
  predicate ValueEq(a: Value, b: Value)
    ensures ValueEq(a, b) && (a.Array? || b.Array?) ==> a.Array? && b.Array? && |a.items| == |b.items|
    ensures a.Function? || a.Macro? || a.LazyCall? || b.Function? || b.Macro? || b.LazyCall? ==> !ValueEq(a, b)
    ensures a.Array? && b.Array? ==>
              (ValueEq(a, b) <==> |a.items| == |b.items| && forall i :: 0 <= i < |a.items| ==> ValueEq(a.items[i], b.items[i]))
    decreases a, 1
  {
    match (a, b)
    case (Nil, Nil) => true
    case (NotANumber, NotANumber) => true
    case (Bool(x), Bool(y)) => x == y
    case (Integer(x), Integer(y)) => x == y
    case (Integer(x), FloatVal(y)) => FloatEq(FromInt(x), y)
    case (FloatVal(x), FloatVal(y)) => FloatEq(x, y)
    case (FloatVal(x), Integer(y)) => FloatEq(x, FromInt(y))
    case (Char(x), Char(y)) => x == y
    case (Str(x), Str(y)) => x == y
    case (Array(xs), Array(ys)) => |xs| == |ys| && ItemsEq(xs, ys)
    case _ => false
  }

  /** Item-by-item equality of two arrays of the same length. */
  predicate ItemsEq(xs: seq<Value>, ys: seq<Value>)
    requires |xs| == |ys|
    ensures ItemsEq(xs, ys) <==> forall i :: 0 <= i < |xs| ==> ValueEq(xs[i], ys[i])
    decreases xs, 0
  {
    xs == [] || (ValueEq(xs[0], ys[0]) && ItemsEq(xs[1..], ys[1..]))
  }

  /** Lexicographic comparison of texts, character by character. */
  function TextCmp(a: string, b: string): (r: Ordering)
    ensures r == Equal <==> a == b
  {
    if a == [] && b == [] then Equal
    else if a == [] then Less
    else if b == [] then Greater
    else if a[0] < b[0] then Less
    else if a[0] > b[0] then Greater
    else
      var r := TextCmp(a[1..], b[1..]);
      assert r == Equal ==> a == [a[0]] + a[1..] && b == [b[0]] + b[1..];
      r
  }

  /** Value ordering (`PartialOrd`): defined for numbers (integers and floats mixed), for two
      characters and for two texts; none for any other pair. */
  function ValueCmp(a: Value, b: Value): (r: Option<Ordering>)
    ensures r.Some? ==> ((a.Integer? || a.FloatVal?) && (b.Integer? || b.FloatVal?))
                        || (a.Char? && b.Char?) || (a.Str? && b.Str?)
    ensures a.Integer? && b.Integer? ==> r.Some?
    ensures a.Char? && b.Char? ==> r.Some?
    ensures a.Str? && b.Str? ==> r.Some?
  {
    match (a, b)
    case (Integer(x), Integer(y)) => Some(if x < y then Less else if x == y then Equal else Greater)
    case (Integer(x), FloatVal(y)) => FloatCmp(FromInt(x), y)
    case (FloatVal(x), FloatVal(y)) => FloatCmp(x, y)
    case (FloatVal(x), Integer(y)) => FloatCmp(x, FromInt(y))
    case (Char(x), Char(y)) => Some(if x < y then Less else if x == y then Equal else Greater)
    case (Str(x), Str(y)) => Some(TextCmp(x, y))
    case _ => None
  }

  /** Equality is symmetric. */
  lemma {:induction false} ValueEqSymmetric(a: Value, b: Value)
    ensures ValueEq(a, b) == ValueEq(b, a)
    decreases a, 1
  {
    if a.Array? && b.Array? && |a.items| == |b.items| {
      ItemsEqSymmetric(a.items, b.items);
    }
  }

  lemma {:induction false} ItemsEqSymmetric(xs: seq<Value>, ys: seq<Value>)
    requires |xs| == |ys|
    ensures ItemsEq(xs, ys) == ItemsEq(ys, xs)
    decreases xs, 0
  {
    if xs != [] {
      ValueEqSymmetric(xs[0], ys[0]);
      ItemsEqSymmetric(xs[1..], ys[1..]);
    }
  }

  /** The values equality treats as themselves: no function, macro, pending call or NaN
      anywhere inside. */
  predicate Plain(v: Value)
    decreases v, 1
  {
    match v
    case Function(_) => false
    case Macro(_) => false
    case LazyCall(_) => false
    case FloatVal(f) => f.Finite?
    case Array(items) => AllPlain(items)
    case _ => true
  }

  predicate AllPlain(items: seq<Value>)
    decreases items, 0
  {
    items == [] || (Plain(items[0]) && AllPlain(items[1..]))
  }

  /** A plain value equals itself, and a value that is not plain does not. */
  lemma {:induction false} ValueEqReflexive(v: Value)
    ensures ValueEq(v, v) <==> Plain(v)
    decreases v, 1
  {
    if v.Array? {
      ItemsEqReflexive(v.items);
    }
  }

  lemma {:induction false} ItemsEqReflexive(items: seq<Value>)
    ensures ItemsEq(items, items) <==> AllPlain(items)
    decreases items, 0
  {
    if items != [] {
      ValueEqReflexive(items[0]);
      ItemsEqReflexive(items[1..]);
    }
  }

  /** Swapping the operands of a text comparison reverses it. */
  lemma {:induction false} TextCmpReverse(a: string, b: string)
    ensures TextCmp(b, a) == TextCmp(a, b).Reverse()
  {
    if a != [] && b != [] && a[0] == b[0] {
      TextCmpReverse(a[1..], b[1..]);
    }
  }

  /** Swapping the operands of a comparison reverses it, and keeps it undefined when it is. */
  lemma ValueCmpReverse(a: Value, b: Value)
    ensures ValueCmp(b, a).None? <==> ValueCmp(a, b).None?
    ensures ValueCmp(a, b).Some? ==> ValueCmp(b, a).value == ValueCmp(a, b).value.Reverse()
  {
    if a.Str? && b.Str? {
      TextCmpReverse(a.s, b.s);
    }
  }

  /** Two values the ordering finds equal are equal. */
  lemma ValueCmpEqual(a: Value, b: Value)
    requires ValueCmp(a, b) == Some(Equal)
    ensures ValueEq(a, b)
  {
  }

  /** The literal `nil`, number, character, text or truth value as a value. */
  function LiteralValue(l: Literal): (v: Value)
    requires !l.SymbolLit?
    ensures l.NilLit? <==> v.Nil?
    ensures l.IntegerLit? ==> v == Integer(l.i)
    ensures l.FloatLit? ==> v == FloatVal(l.f)
    ensures l.CharLit? ==> v == Char(l.c)
    ensures l.StringLit? ==> v == Str(l.s)
    ensures l.BoolLit? ==> v == Bool(l.b)
  {
    match l
    case NilLit => Nil
    case IntegerLit(i) => Integer(i)
    case FloatLit(f) => FloatVal(f)
    case CharLit(c) => Char(c)
    case StringLit(s) => Str(s)
    case BoolLit(b) => Bool(b)
  }

  /** The count invariant of a function: the missing arguments and the supplied ones add up
      to the parameters. */
  predicate WellFormed(f: FunctionValue)
  {
    f.arity + |f.partials| == |f.params|
  }

  /** `Function::new`: a function defined by a body, nothing applied yet. */
  function NewFunction(params: seq<Symbol>, body: Form): (f: FunctionValue)
    ensures WellFormed(f) && f.arity == |params| && f.partials == []
    ensures f.params == params && f.body == Some(body) && f.native.None?
  {
    FunctionValue(|params|, params, [], Some(body), None)
  }

  /** `Function::native`: a function run by native code, nothing applied yet. */
  function NativeFunction(params: seq<Symbol>, code: Native): (f: FunctionValue)
    ensures WellFormed(f) && f.arity == |params| && f.partials == []
    ensures f.params == params && f.body.None? && f.native == Some(code)
  {
    FunctionValue(|params|, params, [], None, Some(code))
  }

  /** `Function::partial`: the arguments are appended to the supplied ones and the arity drops
      by their number; the arity is unsigned, so the source calls it with no more arguments
      than are missing. */
  function PartialFunction(f: FunctionValue, args: seq<Value>): (r: FunctionValue)
    requires |args| <= f.arity
    ensures r.arity == f.arity - |args| && r.partials == f.partials + args
    ensures r.params == f.params && r.body == f.body && r.native == f.native
    ensures WellFormed(f) ==> WellFormed(r)
  {
    f.(arity := f.arity - |args|, partials := f.partials + args)
  }

  /** Supplying arguments in two steps is supplying them all at once. */
  lemma PartialFunctionTwice(f: FunctionValue, a: seq<Value>, b: seq<Value>)
    requires |a| + |b| <= f.arity
    ensures PartialFunction(PartialFunction(f, a), b) == PartialFunction(f, a + b)
  {
    assert f.partials + a + b == f.partials + (a + b);
  }

  /** `Macro::defined`: its arity is its parameter count. */
  function DefinedMacro(params: seq<Symbol>, body: Form): (m: MacroValue)
    ensures m.arity == |params| && m.code == Defined(params, body)
  {
    MacroValue(|params|, Defined(params, body))
  }
}

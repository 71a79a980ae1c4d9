/** The value-level part of the standard library's native functions for the earlier core
    draft: the comparison and boolean operators, `nth` with its index wrapping, and the array
    builders. Each native reads its arguments back from the symbol table; that lookup is in
    `ClassicEval`, and what is done with the values found is here. */
module ClassicNatives {
  import opened Wrappers
  import opened Floats
  import opened RunErrors
  import opened ClassicForms
  import opened ClassicValues

  /** The relation a comparison native applies. */
  datatype Relation = EqRel | NeqRel | LtRel | GtRel | LeRel | GeRel

  /** Whether the relation holds: `==` and `!=` use value equality, the others the partial
      ordering, so that they are false whenever no ordering is defined. */
  predicate Holds(op: Relation, a: Value, b: Value)
    ensures !op.EqRel? && !op.NeqRel? && ValueCmp(a, b).None? ==> !Holds(op, a, b)
    ensures a.Function? || a.Macro? || a.LazyCall? ==> (Holds(op, a, b) <==> op.NeqRel?)
    ensures op.LeRel? || op.GeRel? ==> (Holds(op, a, b) <==> ValueCmp(a, b).Some? && ValueCmp(a, b) != Some(if op.LeRel? then Greater else Less))
  {
    match op
    case EqRel => ValueEq(a, b)
    case NeqRel => !ValueEq(a, b)
    case LtRel => ValueCmp(a, b) == Some(Less)
    case GtRel => ValueCmp(a, b) == Some(Greater)
    case LeRel => ValueCmp(a, b) == Some(Less) || ValueCmp(a, b) == Some(Equal)
    case GeRel => ValueCmp(a, b) == Some(Greater) || ValueCmp(a, b) == Some(Equal)
  }

  /** The pairs `generic_rel` accepts: two values of the same kind among truth values,
      numbers, characters, texts, arrays and nil, where integers and floats mix. */
  predicate Comparable(a: Value, b: Value)
    ensures ValueCmp(a, b).Some? ==> Comparable(a, b)
    ensures Comparable(a, b) ==> !a.Function? && !a.Macro? && !a.LazyCall? && !b.Function? && !b.Macro? && !b.LazyCall?
    ensures Comparable(a, b) && (a.Bool? || a.Array? || a.Nil?) ==> ValueCmp(a, b).None?
  {
    (a.Bool? && b.Bool?) || ((a.Integer? || a.FloatVal?) && (b.Integer? || b.FloatVal?))
    || (a.Char? && b.Char?) || (a.Str? && b.Str?) || (a.Array? && b.Array?) || (a.Nil? && b.Nil?)
  }

  /** `generic_rel` after its two lookups: a function operand is refused first, then a pair of
      kinds that cannot be compared, whose message shows both values. */
  function Compare(op: Relation, a: Value, b: Value): (r: RunResult<Value>)
    ensures r.Ok? <==> Comparable(a, b)
    ensures r.Ok? ==> r.value == Bool(Holds(op, a, b))
    ensures a.Function? ==> r == Err(FromString("Argument for `a` is a function which isn't comparable"))
    ensures !a.Function? && b.Function? ==> r == Err(FromString("Argument for `b` is a function which isn't comparable"))
    ensures !r.Ok? ==> r.Err? || r == Panic(LazyDisplay)
  {
    if a.Function? then Err(FromString("Argument for `a` is a function which isn't comparable"))
    else if b.Function? then Err(FromString("Argument for `b` is a function which isn't comparable"))
    else if Comparable(a, b) then Ok(Bool(Holds(op, a, b)))
    else
      match (Shown(a), Shown(b))
      case (Ok(ta), Ok(tb)) => Err(FromString("Trying to compare " + ta + " with " + tb + " which isn't possible"))
      case _ => Panic(LazyDisplay)
  }

  /** `generic_bool` after its two lookups: both operands must be truth values. */
  function BoolOp(conj: bool, a: Value, b: Value): (r: RunResult<Value>)
    ensures r.Ok? <==> a.Bool? && b.Bool?
    ensures r.Ok? ==> r.value == Bool(if conj then a.b && b.b else a.b || b.b)
    ensures !r.Ok? ==> r.Err? || r == Panic(LazyDisplay)
  {
    if a.Bool? && b.Bool? then Ok(Bool(if conj then a.b && b.b else a.b || b.b))
    else if a.Bool? then
      match Shown(b)
      case Ok(tb) => Err(FromString("Argument `b` should be a boolean value not " + tb))
      case _ => Panic(LazyDisplay)
    else if b.Bool? then
      match Shown(a)
      case Ok(ta) => Err(FromString("Argument `a` should be a boolean value not " + ta))
      case _ => Panic(LazyDisplay)
    else
      match (Shown(a), Shown(b))
      case (Ok(ta), Ok(tb)) => Err(FromString("Trying boolean operation between " + ta + " with " + tb + " which isn't possible"))
      case _ => Panic(LazyDisplay)
  }

  /** The negative branch of `nth`'s index: the length is added until the index is no longer
      negative. */
  function RaiseIndex(i: int, len: nat): (r: nat)
    requires 0 < len && i < len
    ensures r < len
    decreases if i < 0 then -i else 0
  {
    if i >= 0 then i else RaiseIndex(i + len, len)
  }

  /** The position `nth` reads: a non-negative index modulo the length, a negative one raised
      by the length until it is not negative. */
  function WrapIndex(i: int, len: nat): (r: nat)
    requires 0 < len
    ensures r < len
  {
    if i >= 0 then i % len else RaiseIndex(i, len)
  }

  /** A positive multiple of a positive number is at least that number. */
  lemma {:induction false} MultipleAtLeast(k: int, len: nat)
    requires k >= 1
    ensures k * len >= len
    decreases k
  {
    if k > 1 {
      MultipleAtLeast(k - 1, len);
      assert k * len == (k - 1) * len + len;
    }
  }

  /** The only multiple of a positive number strictly between its negation and itself is 0. */
  lemma OnlyZeroMultiple(k: int, len: int)
    requires 0 < len && -len < k * len < len
    ensures k == 0
  {
    if k >= 1 {
      MultipleAtLeast(k, len);
    } else if k <= -1 {
      assert false;
    }
  }

  /** Adding the modulus keeps the Euclidean remainder. */
  lemma ResidueShift(i: int, len: nat)
    requires 0 < len
    ensures (i + len) % len == i % len
  {
    var q, r := i / len, i % len;
    var q', r' := (i + len) / len, (i + len) % len;
    assert (q + 1 - q') * len == r' - r;
    OnlyZeroMultiple(q + 1 - q', len);
  }

  /** A number below the modulus is its own remainder. */
  lemma SmallResidue(i: int, len: int)
    requires 0 <= i < len
    ensures i % len == i
  {
    assert (i / len) * len == i - i % len;
    OnlyZeroMultiple(i / len, len);
  }

  /** Raising by the length keeps the residue. */
  lemma {:induction false} RaiseIndexResidue(i: int, len: nat)
    requires 0 < len && i < len
    ensures RaiseIndex(i, len) == i % len
    decreases if i < 0 then -i else 0
  {
    if i < 0 {
      assert RaiseIndex(i, len) == RaiseIndex(i + len, len);
      RaiseIndexResidue(i + len, len);
      ResidueShift(i, len);
    } else {
      SmallResidue(i, len);
    }
  }

  /** Both branches of `nth`'s wrapping are the Euclidean remainder: every index, negative
      ones included, lands on its residue modulo the length. */
  lemma WrapIndexIsResidue(i: int, len: nat)
    requires 0 < len
    ensures WrapIndex(i, len) == i % len
  {
    if i < 0 {
      RaiseIndexResidue(i, len);
    }
  }

  /** `nth` after its lookups: the index must be an integer; an empty array gives nil. */
  function NthOf(index: Value, items: seq<Value>): (r: RunResult<Value>)
    ensures r.Ok? <==> index.Integer?
    ensures index.Integer? && items == [] ==> r == Ok(Nil)
    ensures index.Integer? && items != [] ==> r == Ok(items[index.i % |items|])
    ensures !r.Ok? ==> r.Err? || r == Panic(LazyDisplay)
  {
    if !index.Integer? then
      match Shown(index)
      case Ok(t) => Err(FromString("Argument for `index` must be an integer not " + t))
      case _ => Panic(LazyDisplay)
    else if items == [] then Ok(Nil)
    else
      WrapIndexIsResidue(index.i, |items|);
      Ok(items[WrapIndex(index.i, |items|)])
  }

  /** The error of `map`, `reduce` and `scan` when `f` is not a function. */
  function NotAFunction(f: Value): (r: RunResult<Value>)
    requires !f.Function?
    ensures r.Err? || r == Panic(LazyDisplay)
    ensures !HasLazy(f) ==> r.Err? && r.error.Top? && r.error.src.None?
  {
    match Shown(f)
    case Ok(t) => Err(FromString("Argument for `f` should be a function not a " + t))
    case _ => Panic(LazyDisplay)
  }

  /** `==` and `!=` answer oppositely on every pair they accept. */
  lemma EqNeqComplementary(a: Value, b: Value)
    requires Comparable(a, b)
    ensures Compare(EqRel, a, b).Ok? && Compare(NeqRel, a, b).Ok?
    ensures Compare(NeqRel, a, b).value.b == !Compare(EqRel, a, b).value.b
  {
  }

  /** Two equal truth values are `==` but not `<=`: truth values have no ordering, so the
      ordering relations are false on them. */
  lemma TruthValuesUnordered(x: bool)
    ensures Compare(EqRel, Bool(x), Bool(x)) == Ok(Bool(true))
    ensures Compare(LeRel, Bool(x), Bool(x)) == Ok(Bool(false))
    ensures Compare(GeRel, Bool(x), Bool(x)) == Ok(Bool(false))
  {
  }

  /** On integers the ordering relations are the usual ones. */
  lemma IntegerRelations(x: int, y: int)
    ensures Compare(LtRel, Integer(x), Integer(y)) == Ok(Bool(x < y))
    ensures Compare(LeRel, Integer(x), Integer(y)) == Ok(Bool(x <= y))
    ensures Compare(GtRel, Integer(x), Integer(y)) == Ok(Bool(x > y))
    ensures Compare(GeRel, Integer(x), Integer(y)) == Ok(Bool(x >= y))
    ensures Compare(EqRel, Integer(x), Integer(y)) == Ok(Bool(x == y))
  {
  }

  /** `nth` counts back from the end for a negative index within the length. */
  lemma NthFromEnd(items: seq<Value>, k: int)
    requires 0 < k <= |items|
    ensures NthOf(Integer(-k), items) == Ok(items[|items| - k])
  {
    assert -k % |items| == |items| - k;
  }
}

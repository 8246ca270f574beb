/**
 * The primitives of the root environment: LispOperator (evaluator.py:18-45)
 * and the host operators truediv, lt, gt and eq (evaluator.py:72, 79-81).
 * Each takes the evaluated argument list.
 */
module Builtins {
  import opened Results
  import opened Syntax
  import opened Runtime

  type Outcome = Result<Value, EvalError>

  /** Python's a + b on the values the interpreter produces. */
  function AddPair(a: Value, b: Value): Outcome
  {
    if a.Num? && b.Num? then Ok(Num(a.n + b.n))
    else if a.Sym? && b.Sym? then Ok(Sym(a.s + b.s))
    else if a.Tuple? && b.Tuple? then Ok(Tuple(a.items + b.items))
    else if a.Tree? && b.Tree? && a.node.List? && b.node.List? then Ok(Tree(List(a.node.elems + b.node.elems)))
    else Err(TypeError)
  }

  /** Python's a * b on the values the interpreter produces. */
  function MulPair(a: Value, b: Value): Outcome
  {
    if a.Num? && b.Num? then Ok(Num(a.n * b.n)) else Err(TypeError)
  }

  /** reduce(lambda a, b: a + b, rest, acc) */
  function FoldAdd(acc: Value, rest: seq<Value>): Outcome
    decreases |rest|
  {
    if rest == [] then Ok(acc)
    else match AddPair(acc, rest[0])
      case Ok(v) => FoldAdd(v, rest[1..])
      case Err(e) => Err(e)
  }

  /** reduce(lambda a, b: a * b, rest, acc) */
  function FoldMul(acc: Value, rest: seq<Value>): Outcome
    decreases |rest|
  {
    if rest == [] then Ok(acc)
    else match MulPair(acc, rest[0])
      case Ok(v) => FoldMul(v, rest[1..])
      case Err(e) => Err(e)
  }

  /** add (evaluator.py:20-21); reduce of an empty list raises TypeError. */
  function AddAll(args: seq<Value>): Outcome
  {
    if args == [] then Err(TypeError) else FoldAdd(args[0], args[1..])
  }

  /** multiply (evaluator.py:28-29). */
  function MultiplyAll(args: seq<Value>): Outcome
  {
    if args == [] then Err(TypeError) else FoldMul(args[0], args[1..])
  }

  /** minus (evaluator.py:24-25): params[0] - params[1]; further arguments are ignored. */
  function Subtract(args: seq<Value>): Outcome
  {
    if |args| < 2 then Err(IndexError)
    else if args[0].Num? && args[1].Num? then Ok(Num(args[0].n - args[1].n))
    else Err(TypeError)
  }

  /** operator.truediv: exactly two numbers, the second non-zero. */
  function Divide2(args: seq<Value>): Outcome
  {
    if |args| != 2 then Err(TypeError)
    else if !(args[0].Num? && args[1].Num?) then Err(TypeError)
    else if args[1].n == 0.0 then Err(ZeroDivision)
    else Ok(Num(args[0].n / args[1].n))
  }

  /** car (evaluator.py:33-34): the first argument itself. */
  function First(args: seq<Value>): Outcome
  {
    if args == [] then Err(IndexError) else Ok(args[0])
  }

  /** cdr (evaluator.py:38-39): the tuple of the arguments after the first. */
  function Rest(args: seq<Value>): Outcome
  {
    if args == [] then Ok(Tuple([])) else Ok(Tuple(args[1..]))
  }

  /** cons (evaluator.py:42-45). */
  function Pair(args: seq<Value>): Outcome
  {
    if |args| != 2 then Err(ConsArity) else Ok(Tuple([args[0], args[1]]))
  }

  /** operator.lt and operator.gt on two numbers. */
  function Compare(args: seq<Value>, less: bool): Outcome
  {
    if |args| != 2 then Err(TypeError)
    else if !(args[0].Num? && args[1].Num?) then Err(TypeError)
    else if less then Ok(Bool(args[0].n < args[1].n))
    else Ok(Bool(args[0].n > args[1].n))
  }

  /** The number a bool stands for in Python arithmetic and comparison. */
  function BoolNum(b: bool): real { if b then 1.0 else 0.0 }

  /** Python's == on interpreter values. */
  predicate Same(a: Value, b: Value)
  {
    match a
    case Num(x) => (b.Num? && b.n == x) || (b.Bool? && BoolNum(b.b) == x)
    case Bool(x) => (b.Bool? && b.b == x) || (b.Num? && b.n == BoolNum(x))
    case Tuple(xs) =>
      b.Tuple? && |xs| == |b.items| && forall i :: 0 <= i < |xs| ==> Same(xs[i], b.items[i])
    case _ => a == b
  }

  /** operator.eq. */
  function Equals(args: seq<Value>): Outcome
  {
    if |args| != 2 then Err(TypeError) else Ok(Bool(Same(args[0], args[1])))
  }

  /** Calling a builtin on its evaluated arguments. */
  function Apply(op: Op, args: seq<Value>): Outcome
  {
    match op
    case Add => AddAll(args)
    case Minus => Subtract(args)
    case Multiply => MultiplyAll(args)
    case Divide => Divide2(args)
    case Car => First(args)
    case Cdr => Rest(args)
    case Cons => Pair(args)
    case Less => Compare(args, true)
    case Greater => Compare(args, false)
    case Equal => Equals(args)
  }

  // ---------------------------------------------------------------- properties

  predicate AllNum(args: seq<Value>) { forall i :: 0 <= i < |args| ==> args[i].Num? }

  /** The arithmetic sum of a list of numbers. */
  function Sum(args: seq<Value>): real
    requires AllNum(args)
  {
    if args == [] then 0.0 else args[0].n + Sum(args[1..])
  }

  /** The arithmetic product of a list of numbers. */
  function Product(args: seq<Value>): real
    requires AllNum(args)
  {
    if args == [] then 1.0 else args[0].n * Product(args[1..])
  }

  lemma {:induction false} FoldAddNums(x: real, rest: seq<Value>)
    requires AllNum(rest)
    ensures FoldAdd(Num(x), rest) == Ok(Num(x + Sum(rest)))
    decreases |rest|
  {
    if rest != [] {
      FoldAddNums(x + rest[0].n, rest[1..]);
    }
  }

  lemma {:induction false} FoldMulNums(x: real, rest: seq<Value>)
    requires AllNum(rest)
    ensures FoldMul(Num(x), rest) == Ok(Num(x * Product(rest)))
    decreases |rest|
  {
    if rest != [] {
      assert rest[0].Num?;
      var y := rest[0].n;
      assert MulPair(Num(x), rest[0]).value.n == x * y;
      assert FoldMul(Num(x), rest) == FoldMul(Num(x * y), rest[1..]);
      FoldMulNums(x * y, rest[1..]);
      assert (x * y) * Product(rest[1..]) == x * (y * Product(rest[1..]));
      assert Product(rest) == y * Product(rest[1..]);
      var r := FoldMul(Num(x), rest);
      assert r.Ok? && r.value.Num? && r.value.n == x * Product(rest);
      assert r == Ok(Num(r.value.n));
    }
  }

  /** + on one or more numbers is their sum; on no arguments it raises. */
  lemma AddIsSum(args: seq<Value>)
    requires AllNum(args)
    ensures args == [] ==> Apply(Add, args).Err?
    ensures args != [] ==> Apply(Add, args) == Ok(Num(Sum(args)))
  {
    if args != [] {
      FoldAddNums(args[0].n, args[1..]);
    }
  }

  /** * on one or more numbers is their product; on no arguments it raises. */
  lemma MultiplyIsProduct(args: seq<Value>)
    requires AllNum(args)
    ensures args == [] ==> Apply(Multiply, args).Err?
    ensures args != [] ==> Apply(Multiply, args) == Ok(Num(Product(args)))
  {
    if args != [] {
      FoldMulNums(args[0].n, args[1..]);
      assert Apply(Multiply, args).value.n == args[0].n * Product(args[1..]);
    }
  }

  /** - needs two arguments, subtracts the second from the first and ignores the rest. */
  lemma MinusFirstTwo(args: seq<Value>)
    ensures Apply(Minus, args).Ok? <==> |args| >= 2 && args[0].Num? && args[1].Num?
    ensures Apply(Minus, args).Ok? ==> Apply(Minus, args) == Ok(Num(args[0].n - args[1].n))
    ensures |args| >= 2 ==> Apply(Minus, args) == Apply(Minus, args[..2])
  {
  }

  /** / undoes multiplication by a non-zero number. */
  lemma DivideInvertsMultiply(a: real, b: real)
    requires b != 0.0
    ensures Apply(Divide, [Num(a * b), Num(b)]) == Ok(Num(a))
  {
    assert (a * b) / b == a;
  }

  /** cons succeeds exactly on two arguments, and returns the pair of them. */
  lemma ConsPairs(args: seq<Value>)
    ensures Apply(Cons, args).Ok? <==> |args| == 2
    ensures Apply(Cons, args).Err? ==> Apply(Cons, args).error == ConsArity
    ensures |args| == 2 ==> Apply(Cons, args).value.items == args
  {
  }

  /** car and cdr split a non-empty argument list into its first argument and the tuple of the others. */
  lemma CarCdrSplit(args: seq<Value>)
    requires args != []
    ensures Apply(Car, args).Ok? && Apply(Cdr, args).Ok? && Apply(Cdr, args).value.Tuple?
    ensures [Apply(Car, args).value] + Apply(Cdr, args).value.items == args
  {
  }

  /**
   * car and cdr take apart their argument list, not a pair: (car (cons 3 5))
   * is the pair itself and (cdr (cons 3 5)) is the empty tuple.
   */
  lemma CarCdrOfPair(a: Value, b: Value)
    ensures var p := Apply(Cons, [a, b]).value;
            Apply(Car, [p]) == Ok(Tuple([a, b])) && Apply(Cdr, [p]) == Ok(Tuple([]))
  {
    var p := Apply(Cons, [a, b]).value;
    assert [p][1..] == [];
  }

  /** > is < with its arguments swapped. */
  lemma GreaterIsSwappedLess(x: real, y: real)
    ensures Apply(Greater, [Num(x), Num(y)]) == Apply(Less, [Num(y), Num(x)])
  {
  }

  /** == is reflexive and symmetric on every value. */
  lemma {:induction false} SameReflexive(a: Value)
    ensures Same(a, a)
  {
    match a
    case Tuple(xs) =>
      forall i | 0 <= i < |xs| ensures Same(xs[i], xs[i]) {
        SameReflexive(xs[i]);
      }
    case _ =>
  }

  lemma {:induction false} SameSymmetric(a: Value, b: Value)
    requires Same(a, b)
    ensures Same(b, a)
  {
    match a
    case Tuple(xs) =>
      forall i | 0 <= i < |xs| ensures Same(b.items[i], xs[i]) {
        SameSymmetric(xs[i], b.items[i]);
      }
    case _ =>
  }
}

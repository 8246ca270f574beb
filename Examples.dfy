/**
 * What small programs mean under Semantics.Denote: arithmetic, conditionals,
 * quoting, pairs, define, display, let and closure calls, in any frame
 * where the builtin names of the root environment (evaluator.py:68-81) are
 * not shadowed.
 */
module Examples {
  import opened Results
  import opened Numbers
  import opened Syntax
  import opened Runtime
  import opened Builtins
  import opened Forms
  import opened Semantics

  /** The ten names init_top binds look up to their builtins from env. */
  ghost predicate Prelude(st: Store, env: Environment)
    requires env.Valid()
  {
    && LookupAt(st, env, "+") == Ok(Builtin(Add))
    && LookupAt(st, env, "-") == Ok(Builtin(Minus))
    && LookupAt(st, env, "*") == Ok(Builtin(Multiply))
    && LookupAt(st, env, "/") == Ok(Builtin(Divide))
    && LookupAt(st, env, "car") == Ok(Builtin(Car))
    && LookupAt(st, env, "cdr") == Ok(Builtin(Cdr))
    && LookupAt(st, env, "cons") == Ok(Builtin(Cons))
    && LookupAt(st, env, "<") == Ok(Builtin(Less))
    && LookupAt(st, env, ">") == Ok(Builtin(Greater))
    && LookupAt(st, env, "=") == Ok(Builtin(Equal))
  }

  /** The root frame has the prelude. */
  lemma RootPrelude(root: Environment)
    requires root.Valid() && root.parent == null
    ensures Prelude(map[root := TopBindings()], root)
  {
  }

  /** Binding a name other than the ten keeps the prelude. */
  lemma PreludeKept(st: Store, env: Environment, x: string, v: Value)
    requires env.Valid() && Prelude(st, env) && x !in ["+", "-", "*", "/", "car", "cdr", "cons", "<", ">", "="]
    ensures Prelude(Write(st, env, x, v), env)
  {
    forall name | name in ["+", "-", "*", "/", "car", "cdr", "cons", "<", ">", "="]
      ensures LookupAt(Write(st, env, x, v), env, name) == LookupAt(st, env, name)
    {
      LookupWrite(st, env, x, v, name);
    }
  }

  /** A let or call frame binding none of the ten keeps its parent's prelude. */
  lemma PreludeBelow(st: Store, f: Environment, m: map<string, Value>)
    requires f.Valid() && f.parent != null && Prelude(st, f.parent)
    requires forall name :: name in m ==> name !in ["+", "-", "*", "/", "car", "cdr", "cons", "<", ">", "="]
    ensures Prelude(st[f := m], f)
  {
    forall name | name in ["+", "-", "*", "/", "car", "cdr", "cons", "<", ">", "="]
      ensures LookupAt(st[f := m], f, name) == LookupAt(st, f.parent, name)
    {
      LookupBelow(st, f, m, name);
    }
  }

  /** The atoms spelling the numbers ns. */
  function Literals(ns: seq<nat>): (r: seq<SExpr>)
    ensures |r| == |ns|
  {
    if ns == [] then [] else [Atom(NatString(ns[0]))] + Literals(ns[1..])
  }

  function Values(ns: seq<nat>): (r: seq<Value>)
    ensures |r| == |ns|
  {
    if ns == [] then [] else [Num(ns[0] as real)] + Values(ns[1..])
  }

  /** Number literals evaluate to their numbers, with no output, no change to the store and no new frame. */
  lemma {:induction false} DenoteLiterals(ns: seq<nat>, env: Environment, st: Store, s: seq<Environment>, fuel: nat)
    requires env.Valid() && fuel > 0
    ensures DenoteAll(Literals(ns), env, st, s, fuel) == AllKnown(Ok(Values(ns)), [], st, s)
  {
    if ns != [] {
      NatStringIsNumber(ns[0]);
      assert Literals(ns)[0] == Atom(NatString(ns[0])) && Literals(ns)[1..] == Literals(ns[1..]);
      DenoteLiterals(ns[1..], env, st, s, fuel);
    }
  }

  /** (op n1 ... nk) applies the builtin named op to the numbers. */
  lemma CallOnLiterals(op: string, ns: seq<nat>, env: Environment, st: Store, s: seq<Environment>, fuel: nat)
    requires env.Valid() && fuel > 1 && op !in Keywords
    requires LookupAt(st, env, op).Ok? && LookupAt(st, env, op).value.Builtin?
    ensures Denote(List([Atom(op)] + Literals(ns)), env, st, s, fuel) ==
      Known(Apply(LookupAt(st, env, op).value.op, Values(ns)), [], st, s)
  {
    var es := [Atom(op)] + Literals(ns);
    assert es[1..] == Literals(ns);
    DenoteLiterals(ns, env, st, s, fuel - 1);
    ApplicationForm(es, env, st, s, fuel);
  }

  /** (+ 1 2 3) is 6. */
  lemma Sum123(env: Environment, st: Store, s: seq<Environment>, fuel: nat)
    requires env.Valid() && LookupAt(st, env, "+") == Ok(Builtin(Add)) && fuel > 1
    ensures Denote(List([Atom("+"), Atom("1"), Atom("2"), Atom("3")]), env, st, s, fuel) == Known(Ok(Num(6.0)), [], st, s)
  {
    CallOnLiterals("+", [1, 2, 3], env, st, s, fuel);
    assert Literals([1, 2, 3]) == [Atom("1"), Atom("2"), Atom("3")];
    assert Values([1, 2, 3]) == [Num(1.0), Num(2.0), Num(3.0)];
    assert Apply(Add, [Num(1.0), Num(2.0), Num(3.0)]) == FoldAdd(Num(3.0), [Num(3.0)]);
  }

  /** (- 10 4) is 6. */
  lemma Difference(env: Environment, st: Store, s: seq<Environment>, fuel: nat)
    requires env.Valid() && LookupAt(st, env, "-") == Ok(Builtin(Minus)) && fuel > 1
    ensures Denote(List([Atom("-"), Atom("10"), Atom("4")]), env, st, s, fuel) == Known(Ok(Num(6.0)), [], st, s)
  {
    CallOnLiterals("-", [10, 4], env, st, s, fuel);
    assert NatString(10) == "10" by {
      assert NatString(10) == NatString(1) + [('0' as int + 0) as char];
    }
    assert Literals([10, 4]) == [Atom("10"), Atom("4")];
  }

  /** (* 2 3 4) is 24. */
  lemma Product234(env: Environment, st: Store, s: seq<Environment>, fuel: nat)
    requires env.Valid() && LookupAt(st, env, "*") == Ok(Builtin(Multiply)) && fuel > 1
    ensures Denote(List([Atom("*"), Atom("2"), Atom("3"), Atom("4")]), env, st, s, fuel) == Known(Ok(Num(24.0)), [], st, s)
  {
    CallOnLiterals("*", [2, 3, 4], env, st, s, fuel);
    assert Literals([2, 3, 4]) == [Atom("2"), Atom("3"), Atom("4")];
    assert Values([2, 3, 4]) == [Num(2.0), Num(3.0), Num(4.0)];
    assert Apply(Multiply, [Num(2.0), Num(3.0), Num(4.0)]) == FoldMul(Num(6.0), [Num(4.0)]);
  }

  /** (/ 9 3) is 3. */
  lemma Quotient(env: Environment, st: Store, s: seq<Environment>, fuel: nat)
    requires env.Valid() && LookupAt(st, env, "/") == Ok(Builtin(Divide)) && fuel > 1
    ensures Denote(List([Atom("/"), Atom("9"), Atom("3")]), env, st, s, fuel) == Known(Ok(Num(3.0)), [], st, s)
  {
    CallOnLiterals("/", [9, 3], env, st, s, fuel);
    assert Literals([9, 3]) == [Atom("9"), Atom("3")];
    assert Values([9, 3]) == [Num(9.0), Num(3.0)];
    assert Apply(Divide, [Num(9.0), Num(3.0)]) == Ok(Num(3.0));
  }

  /** A number literal evaluates to its number. */
  lemma Literal(n: nat, env: Environment, st: Store, s: seq<Environment>, fuel: nat)
    requires env.Valid() && fuel > 0
    ensures Denote(Atom(NatString(n)), env, st, s, fuel) == Known(Ok(Num(n as real)), [], st, s)
  {
    NatStringIsNumber(n);
  }

  /** (> a b) on two number literals. */
  lemma Compared(a: nat, b: nat, env: Environment, st: Store, s: seq<Environment>, fuel: nat)
    requires env.Valid() && LookupAt(st, env, ">") == Ok(Builtin(Greater)) && fuel > 1
    ensures Denote(List([Atom(">"), Atom(NatString(a)), Atom(NatString(b))]), env, st, s, fuel) ==
      Known(Ok(Bool(a > b)), [], st, s)
  {
    CallOnLiterals(">", [a, b], env, st, s, fuel);
    assert Literals([a, b]) == [Atom(NatString(a)), Atom(NatString(b))];
  }

  /** (if (> 3 2) 1 2) is 1. */
  lemma IfThen(env: Environment, st: Store, s: seq<Environment>, fuel: nat)
    requires env.Valid() && LookupAt(st, env, ">") == Ok(Builtin(Greater)) && fuel > 2
    ensures Denote(List([Atom("if"), List([Atom(">"), Atom("3"), Atom("2")]), Atom("1"), Atom("2")]), env, st, s, fuel) ==
      Known(Ok(Num(1.0)), [], st, s)
  {
    Compared(3, 2, env, st, s, fuel - 1);
    Literal(1, env, st, s, fuel - 1);
    assert NatString(1) == "1" && NatString(2) == "2" && NatString(3) == "3";
    var none: Output := [];
    assert none + none == none;
  }

  /** (if (> 2 3) 1 2) is 2. */
  lemma IfElse(env: Environment, st: Store, s: seq<Environment>, fuel: nat)
    requires env.Valid() && LookupAt(st, env, ">") == Ok(Builtin(Greater)) && fuel > 2
    ensures Denote(List([Atom("if"), List([Atom(">"), Atom("2"), Atom("3")]), Atom("1"), Atom("2")]), env, st, s, fuel) ==
      Known(Ok(Num(2.0)), [], st, s)
  {
    Compared(2, 3, env, st, s, fuel - 1);
    Literal(2, env, st, s, fuel - 1);
    assert NatString(2) == "2" && NatString(3) == "3";
    var none: Output := [];
    assert none + none == none;
  }

  /** (if (> 2 3) 1) is None: a false test without an else-branch. */
  lemma IfWithoutElse(env: Environment, st: Store, s: seq<Environment>, fuel: nat)
    requires env.Valid() && LookupAt(st, env, ">") == Ok(Builtin(Greater)) && fuel > 2
    ensures Denote(List([Atom("if"), List([Atom(">"), Atom("2"), Atom("3")]), Atom("1")]), env, st, s, fuel) ==
      Known(Ok(None), [], st, s)
  {
    Compared(2, 3, env, st, s, fuel - 1);
    assert NatString(2) == "2" && NatString(3) == "3";
  }

  /** (quote abc) is the symbol abc, with no lookup: it holds in every frame. */
  lemma QuoteSymbol(env: Environment, st: Store, s: seq<Environment>, fuel: nat)
    requires env.Valid() && fuel > 0
    ensures Denote(List([Atom("quote"), Atom("abc")]), env, st, s, fuel) == Known(Ok(Sym("abc")), [], st, s)
  {
    assert !IsNumber("abc") by {
      assert !IsDigit('a');
      assert IntPart("abc") == "abc";
    }
  }

  /** One node that means a value: the run of it means the one-element list. */
  lemma Single(x: SExpr, env: Environment, st: Store, s: seq<Environment>, fuel: nat)
    requires env.Valid() && Denote(x, env, st, s, fuel).Known? && Denote(x, env, st, s, fuel).r.Ok?
    ensures var d := Denote(x, env, st, s, fuel);
            DenoteAll([x], env, st, s, fuel) == AllKnown(Ok([d.r.value]), d.out, d.st, d.rest)
  {
    var d := Denote(x, env, st, s, fuel);
    assert [x][0] == x && [x][1..] == [];
    assert DenoteAll([], env, d.st, d.rest, fuel) == AllKnown(Ok([]), [], d.st, d.rest);
    assert [d.r.value] + [] == [d.r.value] && d.out + [] == d.out;
  }

  /** Two nodes that mean values, with no output and no effect: the run means the pair of them. */
  lemma Both(x: SExpr, y: SExpr, vx: Value, vy: Value, env: Environment, st: Store, s: seq<Environment>, fuel: nat)
    requires env.Valid()
    requires Denote(x, env, st, s, fuel) == Known(Ok(vx), [], st, s)
    requires Denote(y, env, st, s, fuel) == Known(Ok(vy), [], st, s)
    ensures DenoteAll([x, y], env, st, s, fuel) == AllKnown(Ok([vx, vy]), [], st, s)
  {
    Single(y, env, st, s, fuel);
    assert [x, y][0] == x && [x, y][1..] == [y];
    var none: Output := [];
    assert none + none == none && [vx] + [vy] == [vx, vy];
  }

  /** (cons 3 5) is the pair of 3 and 5. */
  lemma ConsLiterals(env: Environment, st: Store, s: seq<Environment>, fuel: nat)
    requires env.Valid() && LookupAt(st, env, "cons") == Ok(Builtin(Cons)) && fuel > 1
    ensures DenoteAll([List([Atom("cons"), Atom("3"), Atom("5")])], env, st, s, fuel) ==
      AllKnown(Ok([Tuple([Num(3.0), Num(5.0)])]), [], st, s)
  {
    CallOnLiterals("cons", [3, 5], env, st, s, fuel);
    assert Literals([3, 5]) == [Atom("3"), Atom("5")];
    Single(List([Atom("cons"), Atom("3"), Atom("5")]), env, st, s, fuel);
  }

  /** (car (cons 3 5)) is the pair itself: car returns its first argument. */
  lemma CarOfCons(env: Environment, st: Store, s: seq<Environment>, fuel: nat)
    requires env.Valid() && LookupAt(st, env, "cons") == Ok(Builtin(Cons)) && LookupAt(st, env, "car") == Ok(Builtin(Car)) && fuel > 2
    ensures Denote(List([Atom("car"), List([Atom("cons"), Atom("3"), Atom("5")])]), env, st, s, fuel) ==
      Known(Ok(Tuple([Num(3.0), Num(5.0)])), [], st, s)
  {
    var es := [Atom("car"), List([Atom("cons"), Atom("3"), Atom("5")])];
    ConsLiterals(env, st, s, fuel - 1);
    assert es[1..] == [es[1]];
    ApplicationForm(es, env, st, s, fuel);
  }

  /** (cdr (cons 3 5)) is the empty tuple: cdr returns the arguments after the first. */
  lemma CdrOfCons(env: Environment, st: Store, s: seq<Environment>, fuel: nat)
    requires env.Valid() && LookupAt(st, env, "cons") == Ok(Builtin(Cons)) && LookupAt(st, env, "cdr") == Ok(Builtin(Cdr)) && fuel > 2
    ensures Denote(List([Atom("cdr"), List([Atom("cons"), Atom("3"), Atom("5")])]), env, st, s, fuel) ==
      Known(Ok(Tuple([])), [], st, s)
  {
    var es := [Atom("cdr"), List([Atom("cons"), Atom("3"), Atom("5")])];
    ConsLiterals(env, st, s, fuel - 1);
    assert es[1..] == [es[1]];
    ApplicationForm(es, env, st, s, fuel);
    assert [Tuple([Num(3.0), Num(5.0)])][1..] == [];
  }

  /** (define x 5) binds x to 5 in the frame and gives None. */
  lemma DefineFive(env: Environment, st: Store, s: seq<Environment>, fuel: nat)
    requires env.Valid() && fuel > 1
    ensures Denote(List([Atom("define"), Atom("x"), Atom("5")]), env, st, s, fuel) ==
      Known(Ok(None), [], Write(st, env, "x", Num(5.0)), s)
  {
    Literal(5, env, st, s, fuel - 1);
    assert NatString(5) == "5";
  }

  /** A name that is not a number looks itself up. */
  lemma Variable(x: string, env: Environment, st: Store, s: seq<Environment>, fuel: nat)
    requires env.Valid() && fuel > 0 && !IsNumber(x)
    ensures Denote(Atom(x), env, st, s, fuel) == Known(LookupAt(st, env, x), [], st, s)
  {
  }

  /** The arguments x and 10 once x is 5. */
  lemma XAndTen(env: Environment, st: Store, s: seq<Environment>, fuel: nat)
    requires env.Valid() && LookupAt(st, env, "x") == Ok(Num(5.0)) && fuel > 0
    ensures DenoteAll([Atom("x"), Atom("10")], env, st, s, fuel) == AllKnown(Ok([Num(5.0), Num(10.0)]), [], st, s)
  {
    assert !IsNumber("x") by {
      assert !IsDigit('x');
      assert IntPart("x") == "x";
    }
    Variable("x", env, st, s, fuel);
    Literal(10, env, st, s, fuel);
    assert NatString(10) == "10" by {
      assert NatString(10) == NatString(1) + [('0' as int + 0) as char];
    }
    Both(Atom("x"), Atom("10"), Num(5.0), Num(10.0), env, st, s, fuel);
  }

  /** (+ x 10) once x is 5. */
  lemma AddTen(env: Environment, st: Store, s: seq<Environment>, fuel: nat)
    requires env.Valid() && LookupAt(st, env, "+") == Ok(Builtin(Add)) && LookupAt(st, env, "x") == Ok(Num(5.0)) && fuel > 1
    ensures Denote(List([Atom("+"), Atom("x"), Atom("10")]), env, st, s, fuel) == Known(Ok(Num(15.0)), [], st, s)
  {
    var es := [Atom("+"), Atom("x"), Atom("10")];
    XAndTen(env, st, s, fuel - 1);
    assert es[1..] == [Atom("x"), Atom("10")];
    assert Apply(Add, [Num(5.0), Num(10.0)]) == Ok(Num(15.0));
    ApplicationForm(es, env, st, s, fuel);
  }

  /**
   * (begin (define x 5) (+ x 10)) is 15 and leaves x bound to 5: a define
   * is seen by the expressions after it.
   */
  lemma DefineThenUse(env: Environment, st: Store, s: seq<Environment>, fuel: nat)
    requires env.Valid() && LookupAt(st, env, "+") == Ok(Builtin(Add)) && fuel > 2
    ensures Denote(List([Atom("begin"), List([Atom("define"), Atom("x"), Atom("5")]), List([Atom("+"), Atom("x"), Atom("10")])]),
                   env, st, s, fuel) == Known(Ok(Num(15.0)), [], Write(st, env, "x", Num(5.0)), s)
  {
    var def := List([Atom("define"), Atom("x"), Atom("5")]);
    var use := List([Atom("+"), Atom("x"), Atom("10")]);
    var es := [Atom("begin"), def, use];
    var st1 := Write(st, env, "x", Num(5.0));
    DefineFive(env, st, s, fuel - 1);
    Single(def, env, st, s, fuel - 1);
    assert Between(es, 1) == [def];
    LookupWrite(st, env, "x", Num(5.0), "x");
    LookupWrite(st, env, "x", Num(5.0), "+");
    AddTen(env, st1, s, fuel - 1);
    var none: Output := [];
    assert none + none == none;
  }

  /** (display 1 2) records one output line holding 1 and 2, and is None. */
  lemma DisplayOneTwo(env: Environment, st: Store, s: seq<Environment>, fuel: nat)
    requires env.Valid() && fuel > 1
    ensures Denote(List([Atom("display"), Atom("1"), Atom("2")]), env, st, s, fuel) ==
      Known(Ok(None), [[Num(1.0), Num(2.0)]], st, s)
  {
    var es := [Atom("display"), Atom("1"), Atom("2")];
    Literal(1, env, st, s, fuel - 1);
    Literal(2, env, st, s, fuel - 1);
    assert NatString(1) == "1" && NatString(2) == "2";
    Both(Atom("1"), Atom("2"), Num(1.0), Num(2.0), env, st, s, fuel - 1);
    assert es[1..] == [Atom("1"), Atom("2")];
    var none: Output := [];
    assert none + [[Num(1.0), Num(2.0)]] == [[Num(1.0), Num(2.0)]];
  }

  /** (begin (display 1 2) 3) records one output line holding 1 and 2, and is 3. */
  lemma DisplayThenValue(env: Environment, st: Store, s: seq<Environment>, fuel: nat)
    requires env.Valid() && fuel > 2
    ensures Denote(List([Atom("begin"), List([Atom("display"), Atom("1"), Atom("2")]), Atom("3")]), env, st, s, fuel) ==
      Known(Ok(Num(3.0)), [[Num(1.0), Num(2.0)]], st, s)
  {
    var show := List([Atom("display"), Atom("1"), Atom("2")]);
    var es := [Atom("begin"), show, Atom("3")];
    DisplayOneTwo(env, st, s, fuel - 1);
    Single(show, env, st, s, fuel - 1);
    assert Between(es, 1) == [show];
    Literal(3, env, st, s, fuel - 1);
    assert NatString(3) == "3";
    var line: Output := [[Num(1.0), Num(2.0)]];
    assert line + [] == line;
  }

  /** The binding list ((x 2)) binds x to 2 in the let frame child and changes nothing else. */
  lemma LetXTwo(env: Environment, child: Environment, st: Store, s: seq<Environment>, fuel: nat)
    requires env.Valid() && fuel > 0
    ensures DenoteBindings(Items(List([List([Atom("x"), Atom("2")])])), env, child, st, s, fuel) ==
      Known(Ok(None), [], Write(st, child, "x", Num(2.0)), s)
  {
    var b := List([Atom("x"), Atom("2")]);
    Literal(2, env, st, s, fuel);
    assert NatString(2) == "2";
    assert DenoteBinding(b, env, child, st, s, fuel) == Known(Ok(None), [], Write(st, child, "x", Num(2.0)), s);
    assert [b][1..] == [];
    var none: Output := [];
    assert none + none == none;
  }

  /** The arguments x and 3 once x is 2. */
  lemma XAndThree(env: Environment, st: Store, s: seq<Environment>, fuel: nat)
    requires env.Valid() && LookupAt(st, env, "x") == Ok(Num(2.0)) && fuel > 0
    ensures DenoteAll([Atom("x"), Atom("3")], env, st, s, fuel) == AllKnown(Ok([Num(2.0), Num(3.0)]), [], st, s)
  {
    assert !IsNumber("x") by {
      assert !IsDigit('x');
      assert IntPart("x") == "x";
    }
    Variable("x", env, st, s, fuel);
    Literal(3, env, st, s, fuel);
    assert NatString(3) == "3";
    Both(Atom("x"), Atom("3"), Num(2.0), Num(3.0), env, st, s, fuel);
  }

  /** (* x 3) once x is 2. */
  lemma XTimesThree(env: Environment, st: Store, s: seq<Environment>, fuel: nat)
    requires env.Valid() && LookupAt(st, env, "*") == Ok(Builtin(Multiply)) && LookupAt(st, env, "x") == Ok(Num(2.0)) && fuel > 1
    ensures Denote(List([Atom("*"), Atom("x"), Atom("3")]), env, st, s, fuel) == Known(Ok(Num(6.0)), [], st, s)
  {
    var es := [Atom("*"), Atom("x"), Atom("3")];
    XAndThree(env, st, s, fuel - 1);
    assert es[1..] == [Atom("x"), Atom("3")];
    assert Apply(Multiply, [Num(2.0), Num(3.0)]) == Ok(Num(6.0));
    ApplicationForm(es, env, st, s, fuel);
  }

  /**
   * (let ((x 2)) (* x 3)) is 6: it takes the next frame of the supply, binds
   * x to 2 there and leaves every frame that existed as it was.
   */
  lemma LetProduct(env: Environment, st: Store, s: seq<Environment>, fuel: nat)
    requires env.Valid() && Fits(s, st, env) && LookupAt(st, env, "*") == Ok(Builtin(Multiply)) && fuel > 2
    ensures Denote(List([Atom("let"), List([List([Atom("x"), Atom("2")])]), List([Atom("*"), Atom("x"), Atom("3")])]),
                   env, st, s, fuel) == Known(Ok(Num(6.0)), [], st[s[0] := map["x" := Num(2.0)]], s[1..])
  {
    var binds := List([List([Atom("x"), Atom("2")])]);
    var body := List([Atom("*"), Atom("x"), Atom("3")]);
    var es := [Atom("let"), binds, body];
    var child := s[0];
    var st1 := st[child := map["x" := Num(2.0)]];
    LetXTwo(env, child, st[child := map[]], s[1..], fuel - 1);
    assert Write(st[child := map[]], child, "x", Num(2.0)) == st1;
    LookupBelow(st, child, map["x" := Num(2.0)], "x");
    LookupBelow(st, child, map["x" := Num(2.0)], "*");
    XTimesThree(child, st1, s[1..], fuel - 1);
    assert Between(es[1..], 1) == [] && es[1..][|es[1..]| - 1] == body;
    var none: Output := [];
    assert none + none == none;
    assert DenoteBegin(es[1..], child, st1, s[1..], fuel - 1) == Known(Ok(Num(6.0)), [], st1, s[1..]);
    assert DenoteLet(es, env, st, s, fuel - 1) == Known(Ok(Num(6.0)), [], st1, s[1..]);
  }

  /**
   * (let ((a 1) (b a)) b) where a is unbound outside fails with a not
   * defined, after binding a in the let frame: b's expression is evaluated
   * in the outer frame, which does not see the let's own a (evaluator.py:163).
   */
  lemma LetSeesNoSibling(env: Environment, st: Store, s: seq<Environment>, fuel: nat)
    requires env.Valid() && Fits(s, st, env) && LookupAt(st, env, "a") == Err(Undefined("a")) && fuel > 1
    ensures Denote(List([Atom("let"), List([List([Atom("a"), Atom("1")]), List([Atom("b"), Atom("a")])]), Atom("b")]), env, st, s, fuel) ==
      Known(Err(Undefined("a")), [], st[s[0] := map["a" := Num(1.0)]], s[1..])
  {
    var first := List([Atom("a"), Atom("1")]);
    var second := List([Atom("b"), Atom("a")]);
    var binds := [first, second];
    var child := s[0];
    var st0 := st[child := map[]];
    var st1 := st[child := map["a" := Num(1.0)]];
    Literal(1, env, st0, s[1..], fuel - 1);
    assert NatString(1) == "1";
    assert Write(st0, child, "a", Num(1.0)) == st1;
    assert DenoteBinding(first, env, child, st0, s[1..], fuel - 1) == Known(Ok(None), [], st1, s[1..]);
    assert !IsNumber("a") by {
      assert !IsDigit('a');
      assert IntPart("a") == "a";
    }
    Variable("a", env, st1, s[1..], fuel - 1);
    assert child != env && child !in env.ancestors;
    LookupOther(st, child, map["a" := Num(1.0)], env, "a");
    assert DenoteBinding(second, env, child, st1, s[1..], fuel - 1) == Known(Err(Undefined("a")), [], st1, s[1..]);
    assert binds[1..] == [second] && binds[1..][1..] == [];
    var none: Output := [];
    assert none + none == none;
    assert DenoteBindings([second], env, child, st1, s[1..], fuel - 1) == Known(Err(Undefined("a")), [], st1, s[1..]);
    assert Items(List(binds)) == binds;
    assert DenoteBindings(binds, env, child, st0, s[1..], fuel - 1) == Known(Err(Undefined("a")), [], st1, s[1..]);
  }

  /**
   * Calling (lambda (x) (+ x 10)) on 5 (evaluator.py:116-120) is 15: the
   * call takes the next frame of the supply, under the captured frame, and
   * binds x to 5 there.
   */
  lemma CallAddTen(captured: Environment, st: Store, s: seq<Environment>, fuel: nat)
    requires captured.Valid() && Fits(s, st, captured) && LookupAt(st, captured, "+") == Ok(Builtin(Add)) && fuel > 1
    ensures DenoteCall(List([Atom("x")]), List([Atom("+"), Atom("x"), Atom("10")]), captured, [Num(5.0)], st, s, fuel) ==
      Known(Ok(Num(15.0)), [], st[s[0] := map["x" := Num(5.0)]], s[1..])
  {
    var m := map["x" := Num(5.0)];
    assert BindFrom([Atom("x")], [Num(5.0)], 1, m) == Ok(m);
    LookupBelow(st, s[0], m, "x");
    LookupBelow(st, s[0], m, "+");
    AddTen(s[0], st[s[0] := m], s[1..], fuel);
  }

  /** A node with no output and no new frame, then a run with none: the run of both. */
  lemma Quiet(x: SExpr, xs: seq<SExpr>, v: Value, vs: seq<Value>, env: Environment, st: Store, st1: Store, st2: Store,
              s: seq<Environment>, fuel: nat)
    requires env.Valid()
    requires Denote(x, env, st, s, fuel) == Known(Ok(v), [], st1, s)
    requires DenoteAll(xs, env, st1, s, fuel) == AllKnown(Ok(vs), [], st2, s)
    ensures DenoteAll([x] + xs, env, st, s, fuel) == AllKnown(Ok([v] + vs), [], st2, s)
  {
    assert ([x] + xs)[0] == x && ([x] + xs)[1..] == xs;
    var none: Output := [];
    assert none + none == none;
  }

  /** The closure (define (f y) (+ x y)) makes over env. */
  function AddX(env: Environment): Value
  {
    Closure(List([Atom("y")]), List([Atom("+"), Atom("x"), Atom("y")]), env)
  }

  /** The arguments x and y once x is 7 and y is 10. */
  lemma XAndY(env: Environment, st: Store, s: seq<Environment>, fuel: nat)
    requires env.Valid() && LookupAt(st, env, "x") == Ok(Num(7.0)) && LookupAt(st, env, "y") == Ok(Num(10.0)) && fuel > 0
    ensures DenoteAll([Atom("x"), Atom("y")], env, st, s, fuel) == AllKnown(Ok([Num(7.0), Num(10.0)]), [], st, s)
  {
    assert !IsNumber("x") by {
      assert !IsDigit('x');
      assert IntPart("x") == "x";
    }
    assert !IsNumber("y") by {
      assert !IsDigit('y');
      assert IntPart("y") == "y";
    }
    Variable("x", env, st, s, fuel);
    Variable("y", env, st, s, fuel);
    Both(Atom("x"), Atom("y"), Num(7.0), Num(10.0), env, st, s, fuel);
  }

  /** (+ x y) once x is 7 and y is 10. */
  lemma XPlusY(env: Environment, st: Store, s: seq<Environment>, fuel: nat)
    requires env.Valid() && fuel > 1
    requires LookupAt(st, env, "+") == Ok(Builtin(Add)) && LookupAt(st, env, "x") == Ok(Num(7.0)) && LookupAt(st, env, "y") == Ok(Num(10.0))
    ensures Denote(List([Atom("+"), Atom("x"), Atom("y")]), env, st, s, fuel) == Known(Ok(Num(17.0)), [], st, s)
  {
    var es := [Atom("+"), Atom("x"), Atom("y")];
    XAndY(env, st, s, fuel - 1);
    assert es[1..] == [Atom("x"), Atom("y")];
    assert Apply(Add, [Num(7.0), Num(10.0)]) == Ok(Num(17.0));
    ApplicationForm(es, env, st, s, fuel);
  }

  /** Calling AddX(env) on 10 once x is 7 in env: the call frame binds y to 10 and sees x and + through env. */
  lemma CallAddX(env: Environment, st: Store, s: seq<Environment>, fuel: nat)
    requires env.Valid() && Fits(s, st, env) && fuel > 1
    requires LookupAt(st, env, "x") == Ok(Num(7.0)) && LookupAt(st, env, "+") == Ok(Builtin(Add))
    ensures DenoteCall(List([Atom("y")]), List([Atom("+"), Atom("x"), Atom("y")]), env, [Num(10.0)], st, s, fuel) ==
      Known(Ok(Num(17.0)), [], st[s[0] := map["y" := Num(10.0)]], s[1..])
  {
    var m := map["y" := Num(10.0)];
    LookupBelow(st, s[0], m, "x");
    LookupBelow(st, s[0], m, "y");
    LookupBelow(st, s[0], m, "+");
    XPlusY(s[0], st[s[0] := m], s[1..], fuel);
    assert BindFrom([Atom("y")], [Num(10.0)], 1, m) == Ok(m);
  }

  /** The argument list (10). */
  lemma Ten(env: Environment, st: Store, s: seq<Environment>, fuel: nat)
    requires env.Valid() && fuel > 0
    ensures DenoteAll([Atom("10")], env, st, s, fuel) == AllKnown(Ok([Num(10.0)]), [], st, s)
  {
    Literal(10, env, st, s, fuel);
    assert NatString(10) == "10" by {
      assert NatString(10) == NatString(1) + [('0' as int + 0) as char];
    }
    Single(Atom("10"), env, st, s, fuel);
  }

  /** (f 10) where f is AddX(env) and x is 7 in env is 17. */
  lemma ApplyAddX(env: Environment, st: Store, s: seq<Environment>, fuel: nat)
    requires env.Valid() && Fits(s, st, env) && fuel > 2
    requires LookupAt(st, env, "f") == Ok(AddX(env)) && LookupAt(st, env, "x") == Ok(Num(7.0))
    requires LookupAt(st, env, "+") == Ok(Builtin(Add))
    ensures Denote(List([Atom("f"), Atom("10")]), env, st, s, fuel) == Known(Ok(Num(17.0)), [], st[s[0] := map["y" := Num(10.0)]], s[1..])
  {
    var es := [Atom("f"), Atom("10")];
    var d := Known(Ok(Num(17.0)), [], st[s[0] := map["y" := Num(10.0)]], s[1..]);
    CallAddX(env, st, s, fuel - 1);
    Ten(env, st, s, fuel - 1);
    assert es[1..] == [Atom("10")];
    assert DenoteApply(es, env, st, s, fuel - 1) == After([], d);
    assert After([], d) == d;
    ApplicationForm(es, env, st, s, fuel);
  }

  /** (define (f y) (+ x y)) binds f to AddX(env) in env. */
  lemma DefineAddX(env: Environment, st: Store, s: seq<Environment>, fuel: nat)
    requires env.Valid() && fuel > 1
    ensures Denote(List([Atom("define"), List([Atom("f"), Atom("y")]), List([Atom("+"), Atom("x"), Atom("y")])]), env, st, s, fuel) ==
      Known(Ok(None), [], Write(st, env, "f", AddX(env)), s)
  {
    var es := [Atom("define"), List([Atom("f"), Atom("y")]), List([Atom("+"), Atom("x"), Atom("y")])];
    assert es[1].elems[1..] == [Atom("y")];
    assert FunctionDefinition(env, es) == Ok(("f", AddX(env)));
  }

  /** (define x 7) binds x to 7 in env. */
  lemma DefineSeven(env: Environment, st: Store, s: seq<Environment>, fuel: nat)
    requires env.Valid() && fuel > 1
    ensures Denote(List([Atom("define"), Atom("x"), Atom("7")]), env, st, s, fuel) == Known(Ok(None), [], Write(st, env, "x", Num(7.0)), s)
  {
    Literal(7, env, st, s, fuel - 1);
    assert NatString(7) == "7";
  }

  /** The store after x is 5, f is AddX(env), then x is 7 in env. */
  function Defined(st: Store, env: Environment): Store
  {
    Write(Write(Write(st, env, "x", Num(5.0)), env, "f", AddX(env)), env, "x", Num(7.0))
  }

  /** The three defines, in order. */
  lemma ThreeDefines(env: Environment, st: Store, s: seq<Environment>, fuel: nat)
    requires env.Valid() && fuel > 1
    ensures DenoteAll([List([Atom("define"), Atom("x"), Atom("5")]),
                       List([Atom("define"), List([Atom("f"), Atom("y")]), List([Atom("+"), Atom("x"), Atom("y")])]),
                       List([Atom("define"), Atom("x"), Atom("7")])], env, st, s, fuel) ==
      AllKnown(Ok([None, None, None]), [], Defined(st, env), s)
  {
    var d1 := List([Atom("define"), Atom("x"), Atom("5")]);
    var d2 := List([Atom("define"), List([Atom("f"), Atom("y")]), List([Atom("+"), Atom("x"), Atom("y")])]);
    var d3 := List([Atom("define"), Atom("x"), Atom("7")]);
    var st1 := Write(st, env, "x", Num(5.0));
    var st2 := Write(st1, env, "f", AddX(env));
    assert Write(st2, env, "x", Num(7.0)) == Defined(st, env);
    DefineFive(env, st, s, fuel);
    DefineAddX(env, st1, s, fuel);
    DefineSeven(env, st2, s, fuel);
    Single(d3, env, st2, s, fuel);
    Quiet(d2, [d3], None, [None], env, st1, st2, Defined(st, env), s, fuel);
    Quiet(d1, [d2] + [d3], None, [None] + [None], env, st, st1, Defined(st, env), s, fuel);
    assert [d1] + ([d2] + [d3]) == [d1, d2, d3];
    assert [None] + ([None] + [None]) == [None, None, None];
  }

  /** Where + was the builtin, after the three defines x is 7, f is AddX(env) and + is unchanged. */
  lemma DefinedLookups(st: Store, env: Environment)
    requires env.Valid() && LookupAt(st, env, "+") == Ok(Builtin(Add))
    ensures LookupAt(Defined(st, env), env, "x") == Ok(Num(7.0))
    ensures LookupAt(Defined(st, env), env, "f") == Ok(AddX(env))
    ensures LookupAt(Defined(st, env), env, "+") == Ok(Builtin(Add))
  {
    var st1 := Write(st, env, "x", Num(5.0));
    var st2 := Write(st1, env, "f", AddX(env));
    LookupWrite(st2, env, "x", Num(7.0), "x");
    LookupWrite(st2, env, "x", Num(7.0), "f");
    LookupWrite(st1, env, "f", AddX(env), "f");
    LookupWrite(st2, env, "x", Num(7.0), "+");
    LookupWrite(st1, env, "f", AddX(env), "+");
    LookupWrite(st, env, "x", Num(5.0), "+");
  }

  /**
   * (begin (define x 5) (define (f y) (+ x y)) (define x 7) (f 10)) is 17:
   * a closure holds its frame itself, not a copy of its bindings
   * (evaluator.py:115-121), so it sees a define made after it.
   */
  lemma LateDefineSeen(env: Environment, st: Store, s: seq<Environment>, fuel: nat)
    requires env.Valid() && Fits(s, st, env) && LookupAt(st, env, "+") == Ok(Builtin(Add)) && fuel > 3
    ensures Denote(List([Atom("begin"), List([Atom("define"), Atom("x"), Atom("5")]),
                         List([Atom("define"), List([Atom("f"), Atom("y")]), List([Atom("+"), Atom("x"), Atom("y")])]),
                         List([Atom("define"), Atom("x"), Atom("7")]), List([Atom("f"), Atom("10")])]), env, st, s, fuel) ==
      Known(Ok(Num(17.0)), [], Defined(st, env)[s[0] := map["y" := Num(10.0)]], s[1..])
  {
    var d1 := List([Atom("define"), Atom("x"), Atom("5")]);
    var d2 := List([Atom("define"), List([Atom("f"), Atom("y")]), List([Atom("+"), Atom("x"), Atom("y")])]);
    var d3 := List([Atom("define"), Atom("x"), Atom("7")]);
    var call := List([Atom("f"), Atom("10")]);
    var es := [Atom("begin"), d1, d2, d3, call];
    var d := Known(Ok(Num(17.0)), [], Defined(st, env)[s[0] := map["y" := Num(10.0)]], s[1..]);
    ThreeDefines(env, st, s, fuel - 1);
    assert Between(es, 1) == [d1, d2, d3] && es[|es| - 1] == call;
    DefinedLookups(st, env);
    assert s[0] != env;
    ApplyAddX(env, Defined(st, env), s, fuel - 1);
    assert DenoteBegin(es, env, st, s, fuel - 1) == After([], d);
    assert After([], d) == d;
  }
}

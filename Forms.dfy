/**
 * The parts of eval_lisp and make_lambda that only take nodes apart
 * (evaluator.py:115-172): indexing and iterating nodes as Python does, the
 * forms that evaluate nothing below them, and parameter binding.
 */
module Forms {
  import opened Results
  import opened Numbers
  import opened Syntax
  import opened Runtime
  import opened Builtins

  /** What display writes: one line per call, the values printed on it. */
  type Output = seq<seq<Value>>

  // ---------------------------------------------------------------- syntax access

  /** The keywords eval_lisp dispatches on; any other head is applied. */
  const Keywords: seq<string> := ["quote", "variable", "begin", "display", "if", "define", "let", "lambda"]

  predicate IsKeyword(x: SExpr) { x.Atom? && x.name in Keywords }

  /** A list node whose head is the atom k. */
  predicate IsForm(es: seq<SExpr>, k: string) { |es| > 0 && es[0] == Atom(k) }

  /** Using x as a dict key: a string is hashable, a list is not. */
  function Name(x: SExpr): (r: Result<string, EvalError>)
  {
    match x
    case Atom(s) => Ok(s)
    case List(_) => Err(Unhashable)
  }

  /** x[i] on a node that is a Python str or list. */
  function Index(x: SExpr, i: nat): (r: Result<SExpr, EvalError>)
  {
    match x
    case Atom(s) => if i < |s| then Ok(Atom([s[i]])) else Err(IndexError)
    case List(es) => if i < |es| then Ok(es[i]) else Err(IndexError)
  }

  /** What a for loop over x visits: the characters of a str, the elements of a list. */
  function Items(x: SExpr): (r: seq<SExpr>)
  {
    match x
    case Atom(s) => seq(|s|, i requires 0 <= i < |s| => Atom([s[i]]))
    case List(es) => es
  }

  /** es[lo:-1] for a non-empty list: the elements from lo up to, not including, the last. */
  function Between(es: seq<SExpr>, lo: nat): (r: seq<SExpr>)
  {
    if lo < |es| - 1 then es[lo..|es| - 1] else []
  }

  /** Whether the atom define occurs anywhere in x: only then can x change its frame. */
  predicate MayDefine(x: SExpr)
  {
    match x
    case Atom(s) => s == "define"
    case List(es) => exists i :: 0 <= i < |es| && MayDefine(es[i])
  }

  predicate NoneMayDefine(xs: seq<SExpr>) { forall i :: 0 <= i < |xs| ==> !MayDefine(xs[i]) }

  /** A define-free list has define-free elements, and so has any run of them. */
  lemma FreeElements(es: seq<SExpr>, lo: nat, hi: nat)
    requires !MayDefine(List(es)) && lo <= hi <= |es|
    ensures NoneMayDefine(es[lo..hi])
  {
    forall i | 0 <= i < hi - lo ensures !MayDefine(es[lo..hi][i]) {
      assert es[lo..hi][i] == es[lo + i];
    }
  }

  /** The parts a for loop or an index takes out of a define-free node are define-free. */
  lemma FreeParts(x: SExpr)
    requires !MayDefine(x)
    ensures NoneMayDefine(Items(x))
    ensures forall i: nat :: Index(x, i).Ok? ==> !MayDefine(Index(x, i).value)
  {
    if x.Atom? {
      forall i | 0 <= i < |Items(x)| ensures !MayDefine(Items(x)[i]) {
        assert |Items(x)[i].name| == 1;
      }
      forall i: nat | Index(x, i).Ok? ensures !MayDefine(Index(x, i).value) {
        assert |Index(x, i).value.name| == 1;
      }
    }
  }

  // ---------------------------------------------------------------- forms without sub-evaluation

  /** An atom (evaluator.py:124-128): a number literal converts, any other name is looked up. */
  function AtomValue(env: Environment, s: string): (r: Outcome)
    requires env.Valid()
    reads env, env.ancestors
  {
    if IsNumber(s) then Ok(Num(ToNum(s))) else env.Lookup(s)
  }

  /** The value of a quoted datum (evaluator.py:130-133): no lookup, but a number literal converts. */
  function QuoteValue(x: SExpr): (v: Value)
  {
    match x
    case Atom(s) => if IsNumber(s) then Num(ToNum(s)) else Sym(s)
    case List(_) => Tree(x)
  }

  /** (quote x) (evaluator.py:129-133). */
  function QuoteForm(es: seq<SExpr>): (r: Outcome)
  {
    if |es| < 2 then Err(IndexError) else Ok(QuoteValue(es[1]))
  }

  /** (variable x) (evaluator.py:134-135). */
  function VariableForm(env: Environment, es: seq<SExpr>): (r: Outcome)
    requires env.Valid()
    reads env, env.ancestors
  {
    if |es| < 2 then Err(IndexError)
    else match Name(es[1])
      case Err(e) => Err(e)
      case Ok(n) => env.Lookup(n)
  }

  /** (lambda params body) (evaluator.py:167-168): a closure over the current frame. */
  function LambdaForm(env: Environment, es: seq<SExpr>): (r: Outcome)
  {
    if |es| < 3 then Err(IndexError) else Ok(Closure(es[1], es[2], env))
  }

  /**
   * The binding (define (f p ...) body) makes (evaluator.py:153-155): the
   * name f and a closure over the current frame; node[1][0] and node[2] are
   * indexed before the name is hashed.
   */
  function FunctionDefinition(env: Environment, es: seq<SExpr>): (r: Result<(string, Value), EvalError>)
    requires |es| >= 2 && es[1].List?
  {
    if es[1].elems == [] || |es| < 3 then Err(IndexError)
    else match Name(es[1].elems[0])
      case Err(e) => Err(e)
      case Ok(f) => Ok((f, Closure(List(es[1].elems[1..]), es[2], env)))
  }

  // ---------------------------------------------------------------- parameter binding

  /**
   * The frame make_lambda's loop fills (evaluator.py:118-119), from parameter
   * i on: params[i] is read before the name is hashed, so a missing argument
   * is reported first.
   */
  function BindFrom(names: seq<SExpr>, args: seq<Value>, i: nat, m: map<string, Value>): (r: Result<map<string, Value>, EvalError>)
    requires i <= |names|
    decreases |names| - i
  {
    if i == |names| then Ok(m)
    else if i >= |args| then Err(IndexError)
    else match Name(names[i])
      case Err(e) => Err(e)
      case Ok(n) => BindFrom(names, args, i + 1, m[n := args[i]])
  }

  function BindParams(names: seq<SExpr>, args: seq<Value>): Result<map<string, Value>, EvalError>
  {
    BindFrom(names, args, 0, map[])
  }

  /** The parameter names from position i on. */
  function NamesFrom(names: seq<SExpr>, i: nat): set<string>
  {
    set j | i <= j < |names| && names[j].Atom? :: names[j].name
  }

  /** All parameters are names. */
  predicate AllNames(names: seq<SExpr>) { forall i :: 0 <= i < |names| ==> names[i].Atom? }

  /**
   * Binding succeeds exactly when there are enough arguments and every
   * parameter is a name; with all names, a shortfall is an IndexError.
   */
  lemma {:induction false} BindFromOk(names: seq<SExpr>, args: seq<Value>, i: nat, m: map<string, Value>)
    requires i <= |names|
    ensures BindFrom(names, args, i, m).Ok? <==>
      (i == |names| || |names| <= |args|) && forall j :: i <= j < |names| ==> names[j].Atom?
    ensures BindFrom(names, args, i, m).Err? && (forall j :: i <= j < |names| ==> names[j].Atom?) ==>
      BindFrom(names, args, i, m).error == IndexError
    decreases |names| - i
  {
    if i < |names| && i < |args| && names[i].Atom? {
      BindFromOk(names, args, i + 1, m[names[i].name := args[i]]);
    }
  }

  lemma BindParamsOk(names: seq<SExpr>, args: seq<Value>)
    ensures BindParams(names, args).Ok? <==> |names| <= |args| && AllNames(names)
    ensures |args| < |names| && AllNames(names) ==> BindParams(names, args) == Err(IndexError)
  {
    BindFromOk(names, args, 0, map[]);
  }

  /** Arguments beyond the parameters are never read. */
  lemma {:induction false} BindFromSurplus(names: seq<SExpr>, args: seq<Value>, i: nat, m: map<string, Value>)
    requires i <= |names| <= |args|
    ensures BindFrom(names, args, i, m) == BindFrom(names, args[..|names|], i, m)
    decreases |names| - i
  {
    if i < |names| && names[i].Atom? {
      BindFromSurplus(names, args, i + 1, m[names[i].name := args[i]]);
    }
  }

  lemma BindParamsSurplus(names: seq<SExpr>, args: seq<Value>)
    requires |names| <= |args|
    ensures BindParams(names, args) == BindParams(names, args[..|names|])
  {
    BindFromSurplus(names, args, 0, map[]);
  }

  /** The frame binds exactly the parameter names, on top of what it held. */
  lemma {:induction false} BindFromKeys(names: seq<SExpr>, args: seq<Value>, i: nat, m: map<string, Value>)
    requires i <= |names| && BindFrom(names, args, i, m).Ok?
    ensures BindFrom(names, args, i, m).value.Keys == m.Keys + NamesFrom(names, i)
    decreases |names| - i
  {
    if i < |names| {
      BindFromKeys(names, args, i + 1, m[names[i].name := args[i]]);
      assert NamesFrom(names, i) == {names[i].name} + NamesFrom(names, i + 1);
    } else {
      assert NamesFrom(names, i) == {};
    }
  }

  /** A name that is no parameter keeps what it held. */
  lemma {:induction false} BindFromKeeps(names: seq<SExpr>, args: seq<Value>, i: nat, m: map<string, Value>, k: string)
    requires i <= |names| && BindFrom(names, args, i, m).Ok?
    requires k in m && k !in NamesFrom(names, i)
    ensures k in BindFrom(names, args, i, m).value && BindFrom(names, args, i, m).value[k] == m[k]
    decreases |names| - i
  {
    if i < |names| {
      assert names[i].name in NamesFrom(names, i);
      assert NamesFrom(names, i + 1) <= NamesFrom(names, i);
      BindFromKeeps(names, args, i + 1, m[names[i].name := args[i]], k);
    }
  }

  /** Each parameter is bound to the argument at its last position: a later set overwrites an earlier one. */
  lemma {:induction false} BindFromValues(names: seq<SExpr>, args: seq<Value>, i: nat, m: map<string, Value>, j: nat)
    requires i <= j < |names| && BindFrom(names, args, i, m).Ok?
    requires forall l :: j < l < |names| ==> names[l] != names[j]
    ensures j < |args| && names[j].Atom?
    ensures var f := BindFrom(names, args, i, m).value; names[j].name in f && f[names[j].name] == args[j]
    decreases |names| - i
  {
    var m' := m[names[i].name := args[i]];
    if j == i {
      assert names[i].name !in NamesFrom(names, i + 1);
      BindFromKeeps(names, args, i + 1, m', names[i].name);
    } else {
      BindFromValues(names, args, i + 1, m', j);
    }
  }

  lemma BindParamsValues(names: seq<SExpr>, args: seq<Value>, j: nat)
    requires BindParams(names, args).Ok? && j < |names|
    requires forall l :: j < l < |names| ==> names[l] != names[j]
    ensures BindParams(names, args).value.Keys == NamesFrom(names, 0)
    ensures j < |args| && names[j].Atom?
    ensures BindParams(names, args).value[names[j].name] == args[j]
  {
    BindFromKeys(names, args, 0, map[]);
    BindFromValues(names, args, 0, map[], j);
  }
}

/**
 * eval_lisp and make_lambda (evaluator.py:115-172): a recursive dispatch on
 * the head keyword of a list node, over the environment chain of Runtime.
 */
module Evaluator {
  import opened Results
  import opened Numbers
  import opened Syntax
  import opened Runtime
  import opened Builtins
  import opened Lexer
  import opened Forms
  import opened Semantics

  // ---------------------------------------------------------------- well-formed heaps

  /** Every closure inside v captures a frame of U. */
  ghost predicate ValueIn(v: Value, U: set<Environment>)
  {
    match v
    case Closure(_, _, e) => e in U
    case Tuple(items) => forall i :: 0 <= i < |items| ==> ValueIn(items[i], U)
    case _ => true
  }

  ghost predicate AllIn(vs: seq<Value>, U: set<Environment>) { forall i :: 0 <= i < |vs| ==> ValueIn(vs[i], U) }

  /**
   * U is a set of well-formed frames closed under parents and under the
   * frames captured by the closures they hold.
   */
  ghost predicate Closed(U: set<Environment>)
    reads U
  {
    forall e :: e in U ==> e.Valid() && e.ancestors <= U && forall k :: k in e.vars ==> ValueIn(e.vars[k], U)
  }

  lemma {:induction false} ValueInMono(v: Value, U: set<Environment>, U2: set<Environment>)
    requires ValueIn(v, U) && U <= U2
    ensures ValueIn(v, U2)
  {
    match v
    case Tuple(items) =>
      forall i | 0 <= i < |items| ensures ValueIn(items[i], U2) {
        ValueInMono(items[i], U, U2);
      }
    case _ =>
  }

  lemma AllInMono(vs: seq<Value>, U: set<Environment>, U2: set<Environment>)
    requires AllIn(vs, U) && U <= U2
    ensures AllIn(vs, U2)
  {
    forall i | 0 <= i < |vs| ensures ValueIn(vs[i], U2) {
      ValueInMono(vs[i], U, U2);
    }
  }

  /** A list over U, grown by a value over a larger U2, is over U2. */
  lemma AllInPush(vs: seq<Value>, v: Value, U: set<Environment>, U2: set<Environment>)
    requires AllIn(vs, U) && U <= U2 && ValueIn(v, U2)
    ensures AllIn(vs + [v], U2)
  {
    AllInMono(vs, U, U2);
    assert forall i :: 0 <= i < |vs| ==> (vs + [v])[i] == vs[i];
  }

  /** A new empty frame whose ancestors are in a closed U keeps U closed. */
  lemma AddFrame(U: set<Environment>, e: Environment)
    requires Closed(U) && e.Valid() && e.ancestors <= U && e.vars == map[]
    ensures Closed(U + {e})
  {
    forall f, k | f in U && k in f.vars ensures ValueIn(f.vars[k], U + {e}) {
      ValueInMono(f.vars[k], U, U + {e});
    }
  }

  /** What a lookup in a closed U returns captures only frames of U. */
  lemma {:induction false} LookupWithin(env: Environment, name: string, U: set<Environment>)
    requires Closed(U) && env in U
    ensures env.Lookup(name).Ok? ==> ValueIn(env.Lookup(name).value, U)
    decreases env.depth
  {
    if name !in env.vars && env.parent != null {
      LookupWithin(env.parent, name, U);
    }
  }

  lemma {:induction false} FoldAddIn(acc: Value, rest: seq<Value>, U: set<Environment>)
    requires ValueIn(acc, U) && AllIn(rest, U)
    ensures FoldAdd(acc, rest).Ok? ==> ValueIn(FoldAdd(acc, rest).value, U)
    decreases |rest|
  {
    if rest != [] {
      var s := AddPair(acc, rest[0]);
      if s.Ok? {
        if acc.Tuple? && rest[0].Tuple? {
          assert forall i :: 0 <= i < |s.value.items| ==>
            s.value.items[i] == if i < |acc.items| then acc.items[i] else rest[0].items[i - |acc.items|];
        }
        FoldAddIn(s.value, rest[1..], U);
      }
    }
  }

  /** A builtin returns only what it was given, or values with no closure in them. */
  lemma ApplyIn(op: Op, args: seq<Value>, U: set<Environment>)
    requires AllIn(args, U)
    ensures Apply(op, args).Ok? ==> ValueIn(Apply(op, args).value, U)
  {
    match op
    case Add =>
      if args != [] { FoldAddIn(args[0], args[1..], U); }
    case Multiply =>
      if args != [] { FoldMulNum(args[0], args[1..]); }
    case Cdr =>
      if args != [] { assert forall i :: 0 <= i < |args[1..]| ==> args[1..][i] == args[i + 1]; }
    case _ =>
  }

  /** A product is a number, or the lone argument itself. */
  lemma {:induction false} FoldMulNum(acc: Value, rest: seq<Value>)
    ensures FoldMul(acc, rest).Ok? ==> FoldMul(acc, rest).value == acc || FoldMul(acc, rest).value.Num?
    decreases |rest|
  {
    if rest != [] {
      var s := MulPair(acc, rest[0]);
      if s.Ok? { FoldMulNum(s.value, rest[1..]); }
    }
  }


  // ---------------------------------------------------------------- the heap as a store

  /** The bindings of every frame of U, as Semantics reads them. */
  ghost function Snap(U: set<Environment>): Store
    reads U
  {
    map e | e in U :: e.vars
  }

  /** A frame outside U joins the store with its bindings. */
  lemma SnapAdd(U: set<Environment>, e: Environment)
    requires e !in U
    ensures Snap(U + {e}) == Snap(U)[e := e.vars]
  {
  }

  /** In a closed U, lookup on the heap (evaluator.py:56-63) is LookupAt on its store. */
  lemma {:induction false} LookupSnap(env: Environment, name: string, U: set<Environment>)
    requires Closed(U) && env in U
    ensures LookupAt(Snap(U), env, name) == env.Lookup(name)
    decreases env.depth
  {
    assert Vars(Snap(U), env) == env.vars;
    if name !in env.vars && env.parent != null {
      LookupSnap(env.parent, name, U);
    }
  }

  /** set on a frame of a closed U, with a value over U (evaluator.py:65-66): Write on the store. */
  method Bind(env: Environment, name: string, v: Value, ghost U: set<Environment>)
    requires Closed(U) && env in U && ValueIn(v, U)
    modifies env`vars
    ensures Closed(U)
    ensures env.vars == old(env.vars)[name := v]
    ensures Snap(U) == Write(old(Snap(U)), env, name, v)
  {
    env.Set(name, v);
  }

  // ---------------------------------------------------------------- eval_lisp

  /**
   * eval_lisp(node, env) (evaluator.py:123-172) with fuel bounding the depth
   * of nested evaluations. The outcome, the output and every frame of the
   * heap afterwards are those Denote gives on the frames of U, with the new
   * frames the evaluation created, in order, as its supply. Of the frames
   * that existed only env can change.
   */
  method Eval(node: SExpr, env: Environment, fuel: nat, ghost U: set<Environment>)
    returns (r: Outcome, out: Output, ghost U2: set<Environment>, ghost trace: seq<Environment>)
    requires Closed(U) && env in U
    modifies env
    ensures U <= U2 && Closed(U2) && (r.Ok? ==> ValueIn(r.value, U2))
    ensures Denote(node, env, old(Snap(U)), trace, fuel) == Known(r, out, Snap(U2), [])
    decreases fuel, 0
  {
    if fuel == 0 {
      return Err(OutOfFuel), [], U, [];
    }
    match node
    case Atom(s) =>
      if !IsNumber(s) {
        LookupWithin(env, s, U);
        LookupSnap(env, s, U);
      }
      return AtomValue(env, s), [], U, [];
    case List(es) =>
      if es == [] {
        return Err(IndexError), [], U, [];
      }
      var head := es[0];
      if head == Atom("quote") {
        return QuoteForm(es), [], U, [];
      } else if head == Atom("variable") {
        if |es| >= 2 && es[1].Atom? {
          LookupWithin(env, es[1].name, U);
          LookupSnap(env, es[1].name, U);
        }
        return VariableForm(env, es), [], U, [];
      } else if head == Atom("begin") {
        r, out, U2, trace := EvalBegin(es, env, fuel - 1, U);
      } else if head == Atom("display") {
        r, out, U2, trace := EvalDisplay(es, env, fuel - 1, U);
      } else if head == Atom("if") {
        r, out, U2, trace := EvalIf(es, env, fuel - 1, U);
      } else if head == Atom("define") {
        r, out, U2, trace := EvalDefine(es, env, fuel - 1, U);
      } else if head == Atom("let") {
        r, out, U2, trace := EvalLet(es, env, fuel - 1, U);
      } else if head == Atom("lambda") {
        return LambdaForm(env, es), [], U, [];
      } else {
        r, out, U2, trace := EvalApply(es, env, fuel - 1, U);
      }
  }

  /** Evaluates nodes left to right in env, stopping at the first error. */
  method EvalAll(nodes: seq<SExpr>, env: Environment, fuel: nat, ghost U: set<Environment>)
    returns (r: Result<seq<Value>, EvalError>, out: Output, ghost U2: set<Environment>, ghost trace: seq<Environment>)
    requires Closed(U) && env in U
    modifies env
    ensures U <= U2 && Closed(U2)
    ensures r.Ok? ==> |r.value| == |nodes| && AllIn(r.value, U2)
    ensures DenoteAll(nodes, env, old(Snap(U)), trace, fuel) == AllKnown(r, out, Snap(U2), [])
    decreases fuel, 1
  {
    ghost var st0 := Snap(U);
    assert nodes[..0] == [];
    var vals: seq<Value> := [];
    out, U2, trace := [], U, [];
    var i := 0;
    while i < |nodes|
      invariant 0 <= i <= |nodes|
      invariant U <= U2 && Closed(U2)
      invariant |vals| == i && AllIn(vals, U2)
      invariant DenoteAll(nodes[..i], env, st0, trace, fuel) == AllKnown(Ok(vals), out, Snap(U2), [])
    {
      ghost var st := Snap(U2);
      var v, o, U3, t := Eval(nodes[i], env, fuel, U2);
      AllStep(nodes, i, env, st0, trace, t, fuel);
      trace := trace + t;
      out := out + o;
      if v.Err? {
        return Err(v.error), out, U3, trace;
      }
      AllInPush(vals, v.value, U2, U3);
      vals := vals + [v.value];
      U2 := U3;
      i := i + 1;
    }
    assert nodes[..i] == nodes;
    return Ok(vals), out, U2, trace;
  }

  /** begin (evaluator.py:136-139): node[1:-1] for effect, then the value of node[-1]. */
  method EvalBegin(es: seq<SExpr>, env: Environment, fuel: nat, ghost U: set<Environment>)
    returns (r: Outcome, out: Output, ghost U2: set<Environment>, ghost trace: seq<Environment>)
    requires |es| > 0 && Closed(U) && env in U
    modifies env
    ensures U <= U2 && Closed(U2) && (r.Ok? ==> ValueIn(r.value, U2))
    ensures DenoteBegin(es, env, old(Snap(U)), trace, fuel) == Known(r, out, Snap(U2), [])
    decreases fuel, 2
  {
    ghost var st0 := Snap(U);
    var effects, o1, U3, t1 := EvalAll(Between(es, 1), env, fuel, U);
    if effects.Err? {
      return Err(effects.error), o1, U3, t1;
    }
    var o2;
    ghost var t2;
    r, o2, U2, t2 := Eval(es[|es| - 1], env, fuel, U3);
    AllGrows(Between(es, 1), env, st0, t1, t2, fuel);
    assert [] + t2 == t2;
    return r, o1 + o2, U2, t1 + t2;
  }

  /** display (evaluator.py:140-143): one output line holding the argument values, then None. */
  method EvalDisplay(es: seq<SExpr>, env: Environment, fuel: nat, ghost U: set<Environment>)
    returns (r: Outcome, out: Output, ghost U2: set<Environment>, ghost trace: seq<Environment>)
    requires |es| > 0 && Closed(U) && env in U
    modifies env
    ensures U <= U2 && Closed(U2) && (r.Ok? ==> ValueIn(r.value, U2))
    ensures DenoteDisplay(es, env, old(Snap(U)), trace, fuel) == Known(r, out, Snap(U2), [])
    decreases fuel, 2
  {
    var args, o, U3, t := EvalAll(es[1..], env, fuel, U);
    if args.Err? {
      return Err(args.error), o, U3, t;
    }
    return Ok(None), o + [args.value], U3, t;
  }

  /** if (evaluator.py:144-151): a false test without an else-branch gives None. */
  method EvalIf(es: seq<SExpr>, env: Environment, fuel: nat, ghost U: set<Environment>)
    returns (r: Outcome, out: Output, ghost U2: set<Environment>, ghost trace: seq<Environment>)
    requires |es| > 0 && Closed(U) && env in U
    modifies env
    ensures U <= U2 && Closed(U2) && (r.Ok? ==> ValueIn(r.value, U2))
    ensures DenoteIf(es, env, old(Snap(U)), trace, fuel) == Known(r, out, Snap(U2), [])
    decreases fuel, 2
  {
    if |es| < 2 {
      return Err(IndexError), [], U, [];
    }
    ghost var st0 := Snap(U);
    var test, o1, U3, t1 := Eval(es[1], env, fuel, U);
    if test.Err? {
      return test, o1, U3, t1;
    }
    var truthy := Truthy(test.value);
    if truthy && |es| < 3 {
      return Err(IndexError), o1, U3, t1;
    }
    if !truthy && |es| != 4 {
      return Ok(None), o1, U3, t1;
    }
    var branch := if truthy then es[2] else es[3];
    var o2;
    ghost var t2;
    r, o2, U2, t2 := Eval(branch, env, fuel, U3);
    DenoteGrows(es[1], env, st0, t1, t2, fuel);
    assert [] + t2 == t2;
    return r, o1 + o2, U2, t1 + t2;
  }

  /** define (evaluator.py:152-159): binds in env's own frame and returns None. */
  method EvalDefine(es: seq<SExpr>, env: Environment, fuel: nat, ghost U: set<Environment>)
    returns (r: Outcome, out: Output, ghost U2: set<Environment>, ghost trace: seq<Environment>)
    requires |es| > 0 && Closed(U) && env in U
    modifies env
    ensures U <= U2 && Closed(U2) && (r.Ok? ==> ValueIn(r.value, U2))
    ensures DenoteDefine(es, env, old(Snap(U)), trace, fuel) == Known(r, out, Snap(U2), [])
    decreases fuel, 2
  {
    if |es| < 2 {
      return Err(IndexError), [], U, [];
    }
    if es[1].List? {
      var d := FunctionDefinition(env, es);
      if d.Err? {
        return Err(d.error), [], U, [];
      }
      Bind(env, d.value.0, d.value.1, U);
      return Ok(None), [], U, [];
    }
    if |es| < 3 {
      return Err(IndexError), [], U, [];
    }
    var v, o, U3, t := Eval(es[2], env, fuel, U);
    if v.Err? {
      return v, o, U3, t;
    }
    Bind(env, es[1].name, v.value, U3);
    return Ok(None), o, U3, t;
  }

  /**
   * new_env.set(b[0], eval_lisp(b[1], env)) (evaluator.py:163): b[1] is
   * evaluated in env and its value bound under b[0] in frame.
   */
  method LetBinding(b: SExpr, env: Environment, frame: Environment, fuel: nat, ghost U: set<Environment>)
    returns (r: Outcome, out: Output, ghost U2: set<Environment>, ghost trace: seq<Environment>)
    requires Closed(U) && env in U && frame in U
    modifies env, frame
    ensures U <= U2 && Closed(U2)
    ensures DenoteBinding(b, env, frame, old(Snap(U)), trace, fuel) == Known(r, out, Snap(U2), [])
    decreases fuel, 1
  {
    var key := Index(b, 0);
    if key.Err? {
      return Err(key.error), [], U, [];
    }
    var expr := Index(b, 1);
    if expr.Err? {
      return Err(expr.error), [], U, [];
    }
    var v, o, U3, t := Eval(expr.value, env, fuel, U);
    if v.Err? {
      return v, o, U3, t;
    }
    var name := Name(key.value);
    if name.Err? {
      return Err(name.error), o, U3, t;
    }
    Bind(frame, name.value, v.value, U3);
    return Ok(None), o, U3, t;
  }

  /** The loop over the binding nodes of a let (evaluator.py:162-163), up to the first error. */
  method LetBindings(binds: seq<SExpr>, env: Environment, frame: Environment, fuel: nat, ghost U: set<Environment>)
    returns (r: Outcome, out: Output, ghost U2: set<Environment>, ghost trace: seq<Environment>)
    requires Closed(U) && env in U && frame in U
    modifies env, frame
    ensures U <= U2 && Closed(U2)
    ensures DenoteBindings(binds, env, frame, old(Snap(U)), trace, fuel) == Known(r, out, Snap(U2), [])
    decreases fuel, 2
  {
    ghost var st0 := Snap(U);
    assert binds[..0] == [];
    out, U2, trace := [], U, [];
    var i := 0;
    while i < |binds|
      invariant 0 <= i <= |binds|
      invariant U <= U2 && Closed(U2)
      invariant DenoteBindings(binds[..i], env, frame, st0, trace, fuel) == Known(Ok(None), out, Snap(U2), [])
    {
      var bound, o, U3, t := LetBinding(binds[i], env, frame, fuel, U2);
      BindingsStep(binds, i, env, frame, st0, trace, t, fuel);
      trace := trace + t;
      out := out + o;
      if bound.Err? {
        return bound, out, U3, trace;
      }
      U2 := U3;
      i := i + 1;
    }
    assert binds[..i] == binds;
    return Ok(None), out, U2, trace;
  }

  /**
   * let (evaluator.py:160-166): a fresh frame under env, filled from the
   * binding nodes, each evaluated in env; node[2:-1] and node[-1] then run in
   * the new frame, as the elements of a begin whose head is node[1] would.
   */
  method EvalLet(es: seq<SExpr>, env: Environment, fuel: nat, ghost U: set<Environment>)
    returns (r: Outcome, out: Output, ghost U2: set<Environment>, ghost trace: seq<Environment>)
    requires |es| > 0 && Closed(U) && env in U
    modifies env
    ensures U <= U2 && Closed(U2) && (r.Ok? ==> ValueIn(r.value, U2))
    ensures DenoteLet(es, env, old(Snap(U)), trace, fuel) == Known(r, out, Snap(U2), [])
    decreases fuel, 3
  {
    if |es| < 2 {
      return Err(IndexError), [], U, [];
    }
    ghost var st0 := Snap(U);
    var frame := new Environment(env);
    AddFrame(U, frame);
    SnapAdd(U, frame);
    var bound, o1, U3, t1 := LetBindings(Items(es[1]), env, frame, fuel, U + {frame});
    if bound.Err? {
      return bound, o1, U3, [frame] + t1;
    }
    var o2;
    ghost var t2;
    r, o2, U2, t2 := EvalBegin(es[1..], frame, fuel, U3);
    BindingsGrows(Items(es[1]), env, frame, st0[frame := map[]], t1, t2, fuel);
    assert [] + t2 == t2;
    trace := [frame] + (t1 + t2);
    assert trace[0] == frame && trace[1..] == t1 + t2;
    out := o1 + o2;
  }

  /**
   * Application (evaluator.py:169-172): the arguments are evaluated first,
   * then the head is looked up by name, not evaluated, and called.
   */
  method EvalApply(es: seq<SExpr>, env: Environment, fuel: nat, ghost U: set<Environment>)
    returns (r: Outcome, out: Output, ghost U2: set<Environment>, ghost trace: seq<Environment>)
    requires |es| > 0 && Closed(U) && env in U
    modifies env
    ensures U <= U2 && Closed(U2) && (r.Ok? ==> ValueIn(r.value, U2))
    ensures DenoteApply(es, env, old(Snap(U)), trace, fuel) == Known(r, out, Snap(U2), [])
    decreases fuel, 3
  {
    ghost var st0 := Snap(U);
    var args, o, U3, t1 := EvalAll(es[1..], env, fuel, U);
    if args.Err? {
      return Err(args.error), o, U3, t1;
    }
    var name := Name(es[0]);
    if name.Err? {
      return Err(name.error), o, U3, t1;
    }
    var f := env.Lookup(name.value);
    LookupSnap(env, name.value, U3);
    if f.Err? {
      return Err(f.error), o, U3, t1;
    }
    LookupWithin(env, name.value, U3);
    match f.value
    case Builtin(op) =>
      ApplyIn(op, args.value, U3);
      return Apply(op, args.value), o, U3, t1;
    case Closure(params, body, captured) =>
      var o2;
    ghost var t2;
      r, o2, U2, t2 := CallClosure(params, body, captured, args.value, fuel, U3);
      AllGrows(es[1..], env, st0, t1, t2, fuel);
      assert [] + t2 == t2;
      return r, o + o2, U2, t1 + t2;
    case _ =>
      return Err(NotCallable), o, U3, t1;
  }

  /**
   * new_func (evaluator.py:116-119), up to the body: a fresh frame under the
   * captured one, binding param_names[i] to params[i].
   */
  method NewCallFrame(params: SExpr, captured: Environment, args: seq<Value>, ghost U: set<Environment>)
    returns (frame: Environment, r: Result<map<string, Value>, EvalError>)
    requires Closed(U) && captured in U && AllIn(args, U)
    ensures fresh(frame) && frame.parent == captured && frame.Valid() && Closed(U + {frame})
    ensures r == BindParams(Items(params), args)
    ensures r.Ok? ==> frame.vars == r.value
  {
    frame := new Environment(captured);
    AddFrame(U, frame);
    AllInMono(args, U, U + {frame});
    var names := Items(params);
    var i := 0;
    while i < |names|
      invariant 0 <= i <= |names|
      invariant BindFrom(names, args, 0, map[]) == BindFrom(names, args, i, frame.vars)
      invariant Closed(U + {frame})
    {
      if i >= |args| {
        return frame, Err(IndexError);
      }
      var name := Name(names[i]);
      if name.Err? {
        return frame, Err(name.error);
      }
      Bind(frame, name.value, args[i], U + {frame});
      i := i + 1;
    }
    return frame, Ok(frame.vars);
  }

  /**
   * Calling a closure (evaluator.py:116-120): the body runs in a fresh frame
   * under the captured one. The method modifies no frame that existed
   * before the call.
   */
  method CallClosure(params: SExpr, body: SExpr, captured: Environment, args: seq<Value>, fuel: nat, ghost U: set<Environment>)
    returns (r: Outcome, out: Output, ghost U2: set<Environment>, ghost trace: seq<Environment>)
    requires Closed(U) && captured in U && AllIn(args, U)
    ensures U <= U2 && Closed(U2) && (r.Ok? ==> ValueIn(r.value, U2))
    ensures DenoteCall(params, body, captured, args, old(Snap(U)), trace, fuel) == Known(r, out, Snap(U2), [])
    decreases fuel, 2
  {
    ghost var st0 := Snap(U);
    var frame, bound := NewCallFrame(params, captured, args, U);
    assert [frame][1..] == [];
    if bound.Err? {
      return Err(bound.error), [], U, [frame];
    }
    SnapAdd(U, frame);
    ghost var t;
    r, out, U2, t := Eval(body, frame, fuel, U + {frame});
    trace := [frame] + t;
    assert trace[0] == frame && trace[1..] == t;
  }

  // ---------------------------------------------------------------- the pipeline

  datatype RunError = ParseFailed(syntax: ParseError) | EvalFailed(failure: EvalError)

  /**
   * The script's pipeline (evaluator.py:185-192) on code already read:
   * preprocess, tokenize, stack the tokens with the first on top, parse one
   * expression and evaluate it in a fresh root environment holding the
   * builtins. Tokens after the first expression are ignored.
   */
  method Run(code: string, fuel: nat) returns (r: Result<Value, RunError>, out: Output, ghost root: Environment?,
                                               ghost trace: seq<Environment>)
    ensures ParseExpr(Reverse(Lex(code))).Err? ==>
      r == Err(ParseFailed(ParseExpr(Reverse(Lex(code))).error)) && out == []
    ensures r.Err? && r.error.ParseFailed? ==> ParseExpr(Reverse(Lex(code))).Err?
    ensures Lex(code) == [] ==> r == Err(ParseFailed(PopFromEmpty))
    ensures ParseExpr(Reverse(Lex(code))).Ok? ==>
      && root != null && root.parent == null && root.Valid()
      && var d := Denote(ParseExpr(Reverse(Lex(code))).value.0, root, map[root := TopBindings()], trace, fuel);
         d.Known? && d.rest == [] && out == d.out && r == (if d.r.Ok? then Ok(d.r.value) else Err(EvalFailed(d.r.error)))
  {
    var padded := Preprocess(code);
    var stack := new TokenStack(Tokenize(padded));
    var tree := stack.Parse();
    if tree.Err? {
      return Err(ParseFailed(tree.error)), [], null, [];
    }
    var top := new Environment(null);
    root := top;
    assert forall k :: k in top.vars ==> top.vars[k].Builtin?;
    assert Snap({top}) == map[top := TopBindings()];
    var v, o;
    ghost var U;
    v, o, U, trace := Eval(tree.value, top, fuel, {top});
    out := o;
    r := if v.Ok? then Ok(v.value) else Err(EvalFailed(v.error));
  }
}

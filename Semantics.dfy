/**
 * A reference reading of eval_lisp and make_lambda (evaluator.py:115-172)
 * as a function over a store: the bindings of every frame, addressed by the
 * frame. Environment(parent) (evaluator.py:117, 161) takes its frame from a
 * supply of fresh frames, in the order the interpreter creates them, so
 * let and closure calls are followed like every other form. Denote is stuck
 * only when the supply holds no fitting frame.
 */
module Semantics {
  import opened Results
  import opened Numbers
  import opened Syntax
  import opened Runtime
  import opened Builtins
  import opened Forms

  /** What each frame's var_dict holds. */
  type Store = map<Environment, map<string, Value>>

  /** The bindings of frame e in st; a frame st does not hold binds nothing. */
  function Vars(st: Store, e: Environment): map<string, Value>
  {
    if e in st then st[e] else map[]
  }

  /** set (evaluator.py:65-66): name bound to v in e's own bindings, every other frame as it was. */
  function Write(st: Store, e: Environment, name: string, v: Value): Store
  {
    st[e := Vars(st, e)[name := v]]
  }

  /** lookup (evaluator.py:56-63) over st: the frame itself, then its parent chain. */
  ghost function LookupAt(st: Store, env: Environment, name: string): (r: Outcome)
    requires env.Valid()
    decreases env.depth
  {
    if name in Vars(st, env) then Ok(Vars(st, env)[name])
    else if env.parent == null then Err(Undefined(name))
    else LookupAt(st, env.parent, name)
  }

  /** The next frame of the supply s can be a new Environment(parent): it is unused and well formed. */
  ghost predicate Fits(s: seq<Environment>, st: Store, parent: Environment)
  {
    |s| > 0 && s[0].parent == parent && s[0] !in st && s[0].Valid()
  }

  /** Outcome, display output, the store afterwards and the frames of the supply left unused. */
  datatype Meaning = Known(r: Outcome, out: Output, st: Store, rest: seq<Environment>) | Stuck

  /** The same for a left-to-right run of nodes. */
  datatype Meanings = AllKnown(rs: Result<seq<Value>, EvalError>, out: Output, st: Store, rest: seq<Environment>) | SomeStuck

  /** Output o comes first, then what d writes. */
  function After(o: Output, d: Meaning): Meaning
  {
    match d
    case Stuck => Stuck
    case Known(r, o2, st, s) => Known(r, o + o2, st, s)
  }

  /** eval_lisp(node, env) (evaluator.py:123-172), with fuel bounding the depth of nested evaluations. */
  ghost function Denote(node: SExpr, env: Environment, st: Store, s: seq<Environment>, fuel: nat): Meaning
    requires env.Valid()
    decreases fuel, 0
  {
    if fuel == 0 then Known(Err(OutOfFuel), [], st, s)
    else match node
      case Atom(x) => Known(if IsNumber(x) then Ok(Num(ToNum(x))) else LookupAt(st, env, x), [], st, s)
      case List(es) =>
        if es == [] then Known(Err(IndexError), [], st, s)
        else if es[0] == Atom("quote") then Known(QuoteForm(es), [], st, s)
        else if es[0] == Atom("variable") then
          Known(if |es| < 2 then Err(IndexError)
                else match Name(es[1]) case Err(e) => Err(e) case Ok(n) => LookupAt(st, env, n), [], st, s)
        else if es[0] == Atom("begin") then DenoteBegin(es, env, st, s, fuel - 1)
        else if es[0] == Atom("display") then DenoteDisplay(es, env, st, s, fuel - 1)
        else if es[0] == Atom("if") then DenoteIf(es, env, st, s, fuel - 1)
        else if es[0] == Atom("define") then DenoteDefine(es, env, st, s, fuel - 1)
        else if es[0] == Atom("let") then DenoteLet(es, env, st, s, fuel - 1)
        else if es[0] == Atom("lambda") then Known(LambdaForm(env, es), [], st, s)
        else DenoteApply(es, env, st, s, fuel - 1)
  }

  /** The nodes left to right, each seeing the store the previous ones left, up to the first error. */
  ghost function DenoteAll(nodes: seq<SExpr>, env: Environment, st: Store, s: seq<Environment>, fuel: nat): Meanings
    requires env.Valid()
    decreases fuel, 1, |nodes|
  {
    if nodes == [] then AllKnown(Ok([]), [], st, s)
    else match Denote(nodes[0], env, st, s, fuel)
      case Stuck => SomeStuck
      case Known(r, o, st1, s1) =>
        if r.Err? then AllKnown(Err(r.error), o, st1, s1)
        else match DenoteAll(nodes[1..], env, st1, s1, fuel)
          case SomeStuck => SomeStuck
          case AllKnown(rs, o2, st2, s2) => AllKnown(if rs.Ok? then Ok([r.value] + rs.value) else rs, o + o2, st2, s2)
  }

  /** (begin e1 ... en) (evaluator.py:136-139): e1 .. e(n-1) for effect, then en. */
  ghost function DenoteBegin(es: seq<SExpr>, env: Environment, st: Store, s: seq<Environment>, fuel: nat): Meaning
    requires |es| > 0 && env.Valid()
    decreases fuel, 2
  {
    match DenoteAll(Between(es, 1), env, st, s, fuel)
    case SomeStuck => Stuck
    case AllKnown(rs, o, st1, s1) =>
      if rs.Err? then Known(Err(rs.error), o, st1, s1)
      else After(o, Denote(es[|es| - 1], env, st1, s1, fuel))
  }

  /** (display e1 ... en) (evaluator.py:140-143): one more output line holding the values, then None. */
  ghost function DenoteDisplay(es: seq<SExpr>, env: Environment, st: Store, s: seq<Environment>, fuel: nat): Meaning
    requires |es| > 0 && env.Valid()
    decreases fuel, 2
  {
    match DenoteAll(es[1..], env, st, s, fuel)
    case SomeStuck => Stuck
    case AllKnown(rs, o, st1, s1) =>
      if rs.Err? then Known(Err(rs.error), o, st1, s1) else Known(Ok(None), o + [rs.value], st1, s1)
  }

  /** (if c t [f]) (evaluator.py:144-151): t when c is truthy, else f when present, else None. */
  ghost function DenoteIf(es: seq<SExpr>, env: Environment, st: Store, s: seq<Environment>, fuel: nat): Meaning
    requires |es| > 0 && env.Valid()
    decreases fuel, 2
  {
    if |es| < 2 then Known(Err(IndexError), [], st, s)
    else match Denote(es[1], env, st, s, fuel)
      case Stuck => Stuck
      case Known(t, o, st1, s1) =>
        if t.Err? then Known(t, o, st1, s1)
        else if Truthy(t.value) then
          if |es| < 3 then Known(Err(IndexError), o, st1, s1) else After(o, Denote(es[2], env, st1, s1, fuel))
        else if |es| == 4 then After(o, Denote(es[3], env, st1, s1, fuel))
        else Known(Ok(None), o, st1, s1)
  }

  /** (define name e) and (define (f p ...) body) (evaluator.py:152-159): bind in env's own frame, give None. */
  ghost function DenoteDefine(es: seq<SExpr>, env: Environment, st: Store, s: seq<Environment>, fuel: nat): Meaning
    requires |es| > 0 && env.Valid()
    decreases fuel, 2
  {
    if |es| < 2 then Known(Err(IndexError), [], st, s)
    else if es[1].List? then
      match FunctionDefinition(env, es)
      case Err(e) => Known(Err(e), [], st, s)
      case Ok(d) => Known(Ok(None), [], Write(st, env, d.0, d.1), s)
    else if |es| < 3 then Known(Err(IndexError), [], st, s)
    else match Denote(es[2], env, st, s, fuel)
      case Stuck => Stuck
      case Known(v, o, st1, s1) => if v.Err? then Known(v, o, st1, s1) else Known(Ok(None), o, Write(st1, env, es[1].name, v.value), s1)
  }

  /**
   * (let ((n1 e1) ...) body ...) (evaluator.py:160-166): a new frame under
   * env takes the next frame of the supply; each binding node is evaluated
   * in env and bound in the new frame; node[2:-1] and node[-1] then run in
   * the new frame, as the elements of a begin whose head is node[1] would.
   */
  ghost function DenoteLet(es: seq<SExpr>, env: Environment, st: Store, s: seq<Environment>, fuel: nat): Meaning
    requires |es| > 0 && env.Valid()
    decreases fuel, 3
  {
    if |es| < 2 then Known(Err(IndexError), [], st, s)
    else if !Fits(s, st, env) then Stuck
    else match DenoteBindings(Items(es[1]), env, s[0], st[s[0] := map[]], s[1..], fuel)
      case Stuck => Stuck
      case Known(r, o, st1, s1) =>
        if r.Err? then Known(r, o, st1, s1)
        else After(o, DenoteBegin(es[1..], s[0], st1, s1, fuel))
  }

  /**
   * The loop over the binding nodes of a let (evaluator.py:162-163), up to
   * the first error; success is Ok(None). Every binding expression is
   * evaluated in env, never in child, so no binding sees another.
   */
  ghost function DenoteBindings(binds: seq<SExpr>, env: Environment, child: Environment, st: Store, s: seq<Environment>, fuel: nat): Meaning
    requires env.Valid()
    decreases fuel, 2, |binds|
  {
    if binds == [] then Known(Ok(None), [], st, s)
    else match DenoteBinding(binds[0], env, child, st, s, fuel)
      case Stuck => Stuck
      case Known(r, o, st1, s1) =>
        if r.Err? then Known(r, o, st1, s1)
        else After(o, DenoteBindings(binds[1..], env, child, st1, s1, fuel))
  }

  /**
   * new_env.set(b[0], eval_lisp(b[1], env)) (evaluator.py:163): b[0] and b[1]
   * are indexed, b[1] is evaluated in env, then b[0] is hashed and bound in child.
   */
  ghost function DenoteBinding(b: SExpr, env: Environment, child: Environment, st: Store, s: seq<Environment>, fuel: nat): Meaning
    requires env.Valid()
    decreases fuel, 1
  {
    match Index(b, 0)
    case Err(e) => Known(Err(e), [], st, s)
    case Ok(key) =>
      match Index(b, 1)
      case Err(e) => Known(Err(e), [], st, s)
      case Ok(x) =>
        match Denote(x, env, st, s, fuel)
        case Stuck => Stuck
        case Known(v, o, st1, s1) =>
          if v.Err? then Known(v, o, st1, s1)
          else match Name(key)
            case Err(e) => Known(Err(e), o, st1, s1)
            case Ok(n) => Known(Ok(None), o, Write(st1, child, n, v.value), s1)
  }

  /** (f a ...) (evaluator.py:169-172): the arguments, then f looked up by name and called. */
  ghost function DenoteApply(es: seq<SExpr>, env: Environment, st: Store, s: seq<Environment>, fuel: nat): Meaning
    requires |es| > 0 && env.Valid()
    decreases fuel, 3
  {
    match DenoteAll(es[1..], env, st, s, fuel)
    case SomeStuck => Stuck
    case AllKnown(rs, o, st1, s1) =>
      if rs.Err? then Known(Err(rs.error), o, st1, s1)
      else match Name(es[0])
        case Err(e) => Known(Err(e), o, st1, s1)
        case Ok(n) =>
          match LookupAt(st1, env, n)
          case Err(e) => Known(Err(e), o, st1, s1)
          case Ok(f) =>
            match f
            case Builtin(op) => Known(Apply(op, rs.value), o, st1, s1)
            case Closure(p, b, c) => After(o, DenoteCall(p, b, c, rs.value, st1, s1, fuel))
            case _ => Known(Err(NotCallable), o, st1, s1)
  }

  /**
   * new_func(*args) (evaluator.py:116-120): a new frame under the captured
   * one takes the next frame of the supply, param_names[i] is bound to
   * args[i] there, and the body runs in it.
   */
  ghost function DenoteCall(params: SExpr, body: SExpr, captured: Environment, args: seq<Value>, st: Store,
                            s: seq<Environment>, fuel: nat): Meaning
    decreases fuel, 2
  {
    if !Fits(s, st, captured) then Stuck
    else match BindParams(Items(params), args)
      case Err(e) => Known(Err(e), [], st, s[1..])
      case Ok(m) => Denote(body, s[0], st[s[0] := m], s[1..], fuel)
  }

  // ---------------------------------------------------------------- lookup and set

  /** Rebinding a frame outside e's chain does not change what e looks up. */
  lemma {:induction false} LookupOther(st: Store, f: Environment, m: map<string, Value>, e: Environment, name: string)
    requires e.Valid() && f != e && f !in e.ancestors
    ensures LookupAt(st[f := m], e, name) == LookupAt(st, e, name)
    decreases e.depth
  {
    if e.parent != null {
      LookupOther(st, f, m, e.parent, name);
    }
  }

  /**
   * After set(x, v) in env (evaluator.py:65-66) x looks up to v there and
   * every other name looks up as before: the binding shadows the parents'.
   */
  lemma LookupWrite(st: Store, env: Environment, x: string, v: Value, name: string)
    requires env.Valid()
    ensures LookupAt(Write(st, env, x, v), env, name) == if name == x then Ok(v) else LookupAt(st, env, name)
  {
    if name != x && name !in Vars(st, env) && env.parent != null {
      LookupOther(st, env, Vars(st, env)[x := v], env.parent, name);
    }
  }

  /** A frame put in the store under its parent binds m, and looks every other name up in the parent. */
  lemma LookupBelow(st: Store, f: Environment, m: map<string, Value>, name: string)
    requires f.Valid() && f.parent != null
    ensures LookupAt(st[f := m], f, name) == if name in m then Ok(m[name]) else LookupAt(st, f.parent, name)
  {
    if name !in m {
      LookupOther(st, f, m, f.parent, name);
    }
  }

  /** A list whose head is not one of the keywords is an application (evaluator.py:169-172). */
  lemma ApplicationForm(es: seq<SExpr>, env: Environment, st: Store, s: seq<Environment>, fuel: nat)
    requires env.Valid() && fuel > 0 && es != [] && !IsKeyword(es[0])
    ensures Denote(List(es), env, st, s, fuel) == DenoteApply(es, env, st, s, fuel - 1)
  {
    assert es[0] != Atom("quote") && es[0] != Atom("variable") && es[0] != Atom("begin") && es[0] != Atom("display");
    assert es[0] != Atom("if") && es[0] != Atom("define") && es[0] != Atom("let") && es[0] != Atom("lambda");
  }

  // ---------------------------------------------------------------- frames

  /**
   * A known meaning keeps every frame of st but env and other as it was and
   * adds frames without removing any; env gains bindings and loses none,
   * and code without define leaves it as it was.
   */
  ghost predicate KeepsBut(d: Meaning, st: Store, env: Environment, other: Environment, free: bool)
  {
    d.Known? ==>
      && st.Keys <= d.st.Keys
      && (forall e :: e in st && e != env && e != other ==> d.st[e] == st[e])
      && Vars(st, env).Keys <= Vars(d.st, env).Keys
      && (free ==> Vars(d.st, env) == Vars(st, env))
  }

  ghost predicate Keeps(d: Meaning, st: Store, env: Environment, free: bool)
  {
    KeepsBut(d, st, env, env, free)
  }

  ghost predicate KeepsAll(d: Meanings, st: Store, env: Environment, free: bool)
  {
    d.AllKnown? ==> Keeps(Known(Ok(None), d.out, d.st, d.rest), st, env, free)
  }

  /**
   * define writes only the frame it is evaluated in (evaluator.py:65-66,
   * 152-159): every other frame that existed is left as it was, whatever
   * let frames and call frames the node creates.
   */
  lemma {:induction false} DenoteFrame(node: SExpr, env: Environment, st: Store, s: seq<Environment>, fuel: nat)
    requires env.Valid() && env in st
    ensures Keeps(Denote(node, env, st, s, fuel), st, env, !MayDefine(node))
    decreases fuel, 0
  {
    if fuel > 0 && node.List? && node.elems != [] {
      var es := node.elems;
      if !MayDefine(node) {
        FreeElements(es, 1, |es|);
      }
      if es[0] == Atom("begin") {
        BeginFrame(es, env, st, s, fuel - 1);
      } else if es[0] == Atom("display") {
        DisplayFrame(es, env, st, s, fuel - 1);
      } else if es[0] == Atom("if") {
        IfFrame(es, env, st, s, fuel - 1);
      } else if es[0] == Atom("define") {
        assert MayDefine(es[0]);
        DefineFrame(es, env, st, s, fuel - 1);
      } else if es[0] == Atom("let") {
        if !MayDefine(node) && |es| >= 2 {
          assert es[1..][0] == es[1];
        }
        LetFrame(es, env, st, s, fuel - 1);
      } else if !IsKeyword(es[0]) {
        ApplicationForm(es, env, st, s, fuel);
        ApplyFrame(es, env, st, s, fuel - 1);
      }
    }
  }

  lemma {:induction false} AllFrame(nodes: seq<SExpr>, env: Environment, st: Store, s: seq<Environment>, fuel: nat)
    requires env.Valid() && env in st
    ensures KeepsAll(DenoteAll(nodes, env, st, s, fuel), st, env, NoneMayDefine(nodes))
    decreases fuel, 1, |nodes|
  {
    if nodes != [] {
      DenoteFrame(nodes[0], env, st, s, fuel);
      var d := Denote(nodes[0], env, st, s, fuel);
      if d.Known? && d.r.Ok? {
        AllFrame(nodes[1..], env, d.st, d.rest, fuel);
        if NoneMayDefine(nodes) {
          assert NoneMayDefine(nodes[1..]) by {
            forall i | 0 <= i < |nodes[1..]| ensures !MayDefine(nodes[1..][i]) {
              assert nodes[1..][i] == nodes[i + 1];
            }
          }
        }
      }
    }
  }

  lemma {:induction false} BeginFrame(es: seq<SExpr>, env: Environment, st: Store, s: seq<Environment>, fuel: nat)
    requires |es| > 0 && env.Valid() && env in st
    ensures Keeps(DenoteBegin(es, env, st, s, fuel), st, env, !MayDefine(List(es)))
    decreases fuel, 2
  {
    var free := !MayDefine(List(es));
    if free && 1 < |es| - 1 {
      FreeElements(es, 1, |es| - 1);
    }
    AllFrame(Between(es, 1), env, st, s, fuel);
    var d := DenoteAll(Between(es, 1), env, st, s, fuel);
    if d.AllKnown? && d.rs.Ok? {
      DenoteFrame(es[|es| - 1], env, d.st, d.rest, fuel);
    }
  }

  lemma {:induction false} DisplayFrame(es: seq<SExpr>, env: Environment, st: Store, s: seq<Environment>, fuel: nat)
    requires |es| > 0 && env.Valid() && env in st
    ensures Keeps(DenoteDisplay(es, env, st, s, fuel), st, env, NoneMayDefine(es[1..]))
    decreases fuel, 2
  {
    AllFrame(es[1..], env, st, s, fuel);
  }

  lemma {:induction false} IfFrame(es: seq<SExpr>, env: Environment, st: Store, s: seq<Environment>, fuel: nat)
    requires |es| > 0 && env.Valid() && env in st
    ensures Keeps(DenoteIf(es, env, st, s, fuel), st, env, NoneMayDefine(es[1..]))
    decreases fuel, 2
  {
    if |es| >= 2 {
      var free := NoneMayDefine(es[1..]);
      if free {
        assert !MayDefine(es[1..][0]);
      }
      DenoteFrame(es[1], env, st, s, fuel);
      var t := Denote(es[1], env, st, s, fuel);
      if t.Known? && t.r.Ok? {
        if Truthy(t.r.value) && |es| >= 3 {
          if free {
            assert !MayDefine(es[1..][1]);
          }
          DenoteFrame(es[2], env, t.st, t.rest, fuel);
        } else if !Truthy(t.r.value) && |es| == 4 {
          if free {
            assert !MayDefine(es[1..][2]);
          }
          DenoteFrame(es[3], env, t.st, t.rest, fuel);
        }
      }
    }
  }

  lemma {:induction false} DefineFrame(es: seq<SExpr>, env: Environment, st: Store, s: seq<Environment>, fuel: nat)
    requires |es| > 0 && env.Valid() && env in st
    ensures Keeps(DenoteDefine(es, env, st, s, fuel), st, env, false)
    decreases fuel, 2
  {
    if |es| >= 3 && es[1].Atom? {
      DenoteFrame(es[2], env, st, s, fuel);
    }
  }

  /** A let changes env only through define inside its binding list: its body writes the new frame. */
  lemma {:induction false} LetFrame(es: seq<SExpr>, env: Environment, st: Store, s: seq<Environment>, fuel: nat)
    requires |es| > 0 && env.Valid() && env in st
    ensures Keeps(DenoteLet(es, env, st, s, fuel), st, env, |es| < 2 || !MayDefine(es[1]))
    decreases fuel, 3
  {
    if |es| >= 2 && Fits(s, st, env) {
      var child := s[0];
      var st0 := st[child := map[]];
      if !MayDefine(es[1]) {
        FreeParts(es[1]);
      }
      BindingsFrame(Items(es[1]), env, child, st0, s[1..], fuel);
      var d := DenoteBindings(Items(es[1]), env, child, st0, s[1..], fuel);
      if d.Known? && d.r.Ok? {
        BeginFrame(es[1..], child, d.st, d.rest, fuel);
      }
    }
  }

  lemma {:induction false} BindingsFrame(binds: seq<SExpr>, env: Environment, child: Environment, st: Store, s: seq<Environment>, fuel: nat)
    requires env.Valid() && env in st && child in st && child != env
    ensures KeepsBut(DenoteBindings(binds, env, child, st, s, fuel), st, env, child, NoneMayDefine(binds))
    decreases fuel, 2, |binds|
  {
    if binds != [] {
      BindingFrame(binds[0], env, child, st, s, fuel);
      var d := DenoteBinding(binds[0], env, child, st, s, fuel);
      if d.Known? && d.r.Ok? {
        BindingsFrame(binds[1..], env, child, d.st, d.rest, fuel);
        if NoneMayDefine(binds) {
          assert !MayDefine(binds[0]);
          assert NoneMayDefine(binds[1..]) by {
            forall i | 0 <= i < |binds[1..]| ensures !MayDefine(binds[1..][i]) {
              assert binds[1..][i] == binds[i + 1];
            }
          }
        }
      }
    }
  }

  lemma {:induction false} BindingFrame(b: SExpr, env: Environment, child: Environment, st: Store, s: seq<Environment>, fuel: nat)
    requires env.Valid() && env in st && child in st && child != env
    ensures KeepsBut(DenoteBinding(b, env, child, st, s, fuel), st, env, child, !MayDefine(b))
    decreases fuel, 1
  {
    var key := Index(b, 0);
    var x := Index(b, 1);
    if key.Ok? && x.Ok? {
      if !MayDefine(b) {
        FreeParts(b);
      }
      DenoteFrame(x.value, env, st, s, fuel);
    }
  }

  lemma {:induction false} ApplyFrame(es: seq<SExpr>, env: Environment, st: Store, s: seq<Environment>, fuel: nat)
    requires |es| > 0 && env.Valid() && env in st
    ensures Keeps(DenoteApply(es, env, st, s, fuel), st, env, NoneMayDefine(es[1..]))
    decreases fuel, 3
  {
    AllFrame(es[1..], env, st, s, fuel);
    var d := DenoteAll(es[1..], env, st, s, fuel);
    if d.AllKnown? && d.rs.Ok? && Name(es[0]).Ok? {
      var f := LookupAt(d.st, env, Name(es[0]).value);
      if f.Ok? && f.value.Closure? {
        CallFrame(f.value.params, f.value.body, f.value.env, d.rs.value, d.st, d.rest, fuel);
      }
    }
  }

  /** A closure call writes only frames it creates: every frame that existed is left as it was. */
  lemma {:induction false} CallFrame(params: SExpr, body: SExpr, captured: Environment, args: seq<Value>, st: Store,
                                     s: seq<Environment>, fuel: nat)
    ensures var d := DenoteCall(params, body, captured, args, st, s, fuel);
            d.Known? ==> st.Keys <= d.st.Keys && forall e :: e in st ==> d.st[e] == st[e]
    decreases fuel, 2
  {
    if Fits(s, st, captured) && BindParams(Items(params), args).Ok? {
      DenoteFrame(body, s[0], st[s[0] := BindParams(Items(params), args).value], s[1..], fuel);
    }
  }

  /**
   * The frame of a call (evaluator.py:117-119) binds the parameters and
   * keeps them; a body without define leaves it holding exactly them.
   */
  lemma CallParams(params: SExpr, body: SExpr, captured: Environment, args: seq<Value>, st: Store,
                   s: seq<Environment>, fuel: nat)
    requires Fits(s, st, captured) && BindParams(Items(params), args).Ok?
    ensures var d := DenoteCall(params, body, captured, args, st, s, fuel);
            var m := BindParams(Items(params), args).value;
            d.Known? ==> m.Keys <= Vars(d.st, s[0]).Keys && (!MayDefine(body) ==> Vars(d.st, s[0]) == m)
  {
    DenoteFrame(body, s[0], st[s[0] := BindParams(Items(params), args).value], s[1..], fuel);
  }

  /**
   * The frame of a let (evaluator.py:161-166) keeps every name its binding
   * nodes bound; a body without define leaves it as the bindings made it.
   */
  lemma LetBody(es: seq<SExpr>, env: Environment, st: Store, s: seq<Environment>, fuel: nat)
    requires |es| >= 2 && env.Valid() && env in st && Fits(s, st, env)
    ensures var b := DenoteBindings(Items(es[1]), env, s[0], st[s[0] := map[]], s[1..], fuel);
            var d := DenoteLet(es, env, st, s, fuel);
            b.Known? && b.r.Ok? && d.Known? ==>
              Vars(b.st, s[0]).Keys <= Vars(d.st, s[0]).Keys && (!MayDefine(List(es[1..])) ==> Vars(d.st, s[0]) == Vars(b.st, s[0]))
  {
    var b := DenoteBindings(Items(es[1]), env, s[0], st[s[0] := map[]], s[1..], fuel);
    if b.Known? && b.r.Ok? {
      BindingsFrame(Items(es[1]), env, s[0], st[s[0] := map[]], s[1..], fuel);
      BeginFrame(es[1..], s[0], b.st, b.rest, fuel);
    }
  }

  // ---------------------------------------------------------------- the supply

  /** d with the frames t after those it leaves unused. */
  function Grow(d: Meaning, t: seq<Environment>): Meaning
  {
    match d
    case Stuck => Stuck
    case Known(r, o, st, s) => Known(r, o, st, s + t)
  }

  function GrowAll(d: Meanings, t: seq<Environment>): Meanings
  {
    match d
    case SomeStuck => SomeStuck
    case AllKnown(rs, o, st, s) => AllKnown(rs, o, st, s + t)
  }

  /** Evaluation takes frames from the front of the supply: frames after those it uses are never read. */
  lemma {:induction false} DenoteGrows(node: SExpr, env: Environment, st: Store, s: seq<Environment>, t: seq<Environment>, fuel: nat)
    requires env.Valid()
    ensures Denote(node, env, st, s, fuel).Known? ==> Denote(node, env, st, s + t, fuel) == Grow(Denote(node, env, st, s, fuel), t)
    decreases fuel, 0
  {
    if fuel > 0 && node.List? && node.elems != [] {
      var es := node.elems;
      if es[0] == Atom("begin") {
        BeginGrows(es, env, st, s, t, fuel - 1);
      } else if es[0] == Atom("display") {
        DisplayGrows(es, env, st, s, t, fuel - 1);
      } else if es[0] == Atom("if") {
        IfGrows(es, env, st, s, t, fuel - 1);
      } else if es[0] == Atom("define") {
        DefineGrows(es, env, st, s, t, fuel - 1);
      } else if es[0] == Atom("let") {
        LetGrows(es, env, st, s, t, fuel - 1);
      } else if !IsKeyword(es[0]) {
        ApplicationForm(es, env, st, s, fuel);
        ApplicationForm(es, env, st, s + t, fuel);
        ApplyGrows(es, env, st, s, t, fuel - 1);
      }
    }
  }

  lemma {:induction false} AllGrows(nodes: seq<SExpr>, env: Environment, st: Store, s: seq<Environment>, t: seq<Environment>, fuel: nat)
    requires env.Valid()
    ensures DenoteAll(nodes, env, st, s, fuel).AllKnown? ==>
      DenoteAll(nodes, env, st, s + t, fuel) == GrowAll(DenoteAll(nodes, env, st, s, fuel), t)
    decreases fuel, 1, |nodes|
  {
    if nodes != [] {
      DenoteGrows(nodes[0], env, st, s, t, fuel);
      var d := Denote(nodes[0], env, st, s, fuel);
      if d.Known? && d.r.Ok? {
        AllGrows(nodes[1..], env, d.st, d.rest, t, fuel);
      }
    }
  }

  lemma {:induction false} BeginGrows(es: seq<SExpr>, env: Environment, st: Store, s: seq<Environment>, t: seq<Environment>, fuel: nat)
    requires |es| > 0 && env.Valid()
    ensures DenoteBegin(es, env, st, s, fuel).Known? ==> DenoteBegin(es, env, st, s + t, fuel) == Grow(DenoteBegin(es, env, st, s, fuel), t)
    decreases fuel, 2
  {
    AllGrows(Between(es, 1), env, st, s, t, fuel);
    var d := DenoteAll(Between(es, 1), env, st, s, fuel);
    if d.AllKnown? && d.rs.Ok? {
      DenoteGrows(es[|es| - 1], env, d.st, d.rest, t, fuel);
    }
  }

  lemma {:induction false} DisplayGrows(es: seq<SExpr>, env: Environment, st: Store, s: seq<Environment>, t: seq<Environment>, fuel: nat)
    requires |es| > 0 && env.Valid()
    ensures DenoteDisplay(es, env, st, s, fuel).Known? ==> DenoteDisplay(es, env, st, s + t, fuel) == Grow(DenoteDisplay(es, env, st, s, fuel), t)
    decreases fuel, 2
  {
    AllGrows(es[1..], env, st, s, t, fuel);
  }

  lemma {:induction false} IfGrows(es: seq<SExpr>, env: Environment, st: Store, s: seq<Environment>, t: seq<Environment>, fuel: nat)
    requires |es| > 0 && env.Valid()
    ensures DenoteIf(es, env, st, s, fuel).Known? ==> DenoteIf(es, env, st, s + t, fuel) == Grow(DenoteIf(es, env, st, s, fuel), t)
    decreases fuel, 2
  {
    if |es| >= 2 {
      DenoteGrows(es[1], env, st, s, t, fuel);
      var c := Denote(es[1], env, st, s, fuel);
      if c.Known? && c.r.Ok? {
        if Truthy(c.r.value) && |es| >= 3 {
          DenoteGrows(es[2], env, c.st, c.rest, t, fuel);
        } else if !Truthy(c.r.value) && |es| == 4 {
          DenoteGrows(es[3], env, c.st, c.rest, t, fuel);
        }
      }
    }
  }

  lemma {:induction false} DefineGrows(es: seq<SExpr>, env: Environment, st: Store, s: seq<Environment>, t: seq<Environment>, fuel: nat)
    requires |es| > 0 && env.Valid()
    ensures DenoteDefine(es, env, st, s, fuel).Known? ==> DenoteDefine(es, env, st, s + t, fuel) == Grow(DenoteDefine(es, env, st, s, fuel), t)
    decreases fuel, 2
  {
    if |es| >= 3 && es[1].Atom? {
      DenoteGrows(es[2], env, st, s, t, fuel);
    }
  }

  lemma {:induction false} LetGrows(es: seq<SExpr>, env: Environment, st: Store, s: seq<Environment>, t: seq<Environment>, fuel: nat)
    requires |es| > 0 && env.Valid()
    ensures DenoteLet(es, env, st, s, fuel).Known? ==> DenoteLet(es, env, st, s + t, fuel) == Grow(DenoteLet(es, env, st, s, fuel), t)
    decreases fuel, 3
  {
    if |es| >= 2 && Fits(s, st, env) {
      assert (s + t)[0] == s[0] && (s + t)[1..] == s[1..] + t;
      var st0 := st[s[0] := map[]];
      BindingsGrows(Items(es[1]), env, s[0], st0, s[1..], t, fuel);
      var d := DenoteBindings(Items(es[1]), env, s[0], st0, s[1..], fuel);
      if d.Known? && d.r.Ok? {
        BeginGrows(es[1..], s[0], d.st, d.rest, t, fuel);
      }
    }
  }

  lemma {:induction false} BindingsGrows(binds: seq<SExpr>, env: Environment, child: Environment, st: Store, s: seq<Environment>,
                                         t: seq<Environment>, fuel: nat)
    requires env.Valid()
    ensures DenoteBindings(binds, env, child, st, s, fuel).Known? ==>
      DenoteBindings(binds, env, child, st, s + t, fuel) == Grow(DenoteBindings(binds, env, child, st, s, fuel), t)
    decreases fuel, 2, |binds|
  {
    if binds != [] {
      BindingGrows(binds[0], env, child, st, s, t, fuel);
      var d := DenoteBinding(binds[0], env, child, st, s, fuel);
      if d.Known? && d.r.Ok? {
        BindingsGrows(binds[1..], env, child, d.st, d.rest, t, fuel);
      }
    }
  }

  lemma {:induction false} BindingGrows(b: SExpr, env: Environment, child: Environment, st: Store, s: seq<Environment>,
                                        t: seq<Environment>, fuel: nat)
    requires env.Valid()
    ensures DenoteBinding(b, env, child, st, s, fuel).Known? ==>
      DenoteBinding(b, env, child, st, s + t, fuel) == Grow(DenoteBinding(b, env, child, st, s, fuel), t)
    decreases fuel, 1
  {
    if Index(b, 0).Ok? && Index(b, 1).Ok? {
      DenoteGrows(Index(b, 1).value, env, st, s, t, fuel);
    }
  }

  lemma {:induction false} ApplyGrows(es: seq<SExpr>, env: Environment, st: Store, s: seq<Environment>, t: seq<Environment>, fuel: nat)
    requires |es| > 0 && env.Valid()
    ensures DenoteApply(es, env, st, s, fuel).Known? ==> DenoteApply(es, env, st, s + t, fuel) == Grow(DenoteApply(es, env, st, s, fuel), t)
    decreases fuel, 3
  {
    AllGrows(es[1..], env, st, s, t, fuel);
    var d := DenoteAll(es[1..], env, st, s, fuel);
    if d.AllKnown? && d.rs.Ok? && Name(es[0]).Ok? {
      var f := LookupAt(d.st, env, Name(es[0]).value);
      if f.Ok? && f.value.Closure? {
        CallGrows(f.value.params, f.value.body, f.value.env, d.rs.value, d.st, d.rest, t, fuel);
      }
    }
  }

  lemma {:induction false} CallGrows(params: SExpr, body: SExpr, captured: Environment, args: seq<Value>, st: Store,
                                     s: seq<Environment>, t: seq<Environment>, fuel: nat)
    ensures DenoteCall(params, body, captured, args, st, s, fuel).Known? ==>
      DenoteCall(params, body, captured, args, st, s + t, fuel) == Grow(DenoteCall(params, body, captured, args, st, s, fuel), t)
    decreases fuel, 2
  {
    if Fits(s, st, captured) {
      assert (s + t)[0] == s[0] && (s + t)[1..] == s[1..] + t;
      if BindParams(Items(params), args).Ok? {
        DenoteGrows(body, s[0], st[s[0] := BindParams(Items(params), args).value], s[1..], t, fuel);
      }
    }
  }

  // ---------------------------------------------------------------- runs, one node at a time

  /** The meaning of a run of nodes once vals and out come from the nodes before it. */
  function Resume(vals: seq<Value>, out: Output, d: Meanings): Meanings
  {
    match d
    case SomeStuck => SomeStuck
    case AllKnown(rs, o, st, s) => AllKnown(if rs.Ok? then Ok(vals + rs.value) else rs, out + o, st, s)
  }

  /** A run that used up its supply s, followed by more nodes on the supply t. */
  lemma {:induction false} AllAppend(xs: seq<SExpr>, ys: seq<SExpr>, env: Environment, st: Store, s: seq<Environment>,
                                     t: seq<Environment>, fuel: nat)
    requires env.Valid()
    requires var d := DenoteAll(xs, env, st, s, fuel); d.AllKnown? && d.rs.Ok? && d.rest == []
    ensures var d := DenoteAll(xs, env, st, s, fuel);
            DenoteAll(xs + ys, env, st, s + t, fuel) == Resume(d.rs.value, d.out, DenoteAll(ys, env, d.st, t, fuel))
    decreases |xs|
  {
    var d := DenoteAll(xs, env, st, s, fuel);
    if xs == [] {
      assert xs + ys == ys && s + t == t;
      var e := DenoteAll(ys, env, st, t, fuel);
      if e.AllKnown? {
        if e.rs.Ok? {
          assert [] + e.rs.value == e.rs.value;
        }
        assert [] + e.out == e.out;
      }
    } else {
      var h := Denote(xs[0], env, st, s, fuel);
      DenoteGrows(xs[0], env, st, s, t, fuel);
      assert (xs + ys)[0] == xs[0] && (xs + ys)[1..] == xs[1..] + ys;
      AllAppend(xs[1..], ys, env, h.st, h.rest, t, fuel);
      var e := DenoteAll(ys, env, d.st, t, fuel);
      var tail := DenoteAll(xs[1..], env, h.st, h.rest, fuel);
      if e.AllKnown? {
        if e.rs.Ok? {
          assert [h.r.value] + (tail.rs.value + e.rs.value) == ([h.r.value] + tail.rs.value) + e.rs.value;
        }
        assert h.out + (tail.out + e.out) == (h.out + tail.out) + e.out;
      }
    }
  }

  /**
   * One node further along a run (evaluator.py:137-138, 141, 171): the
   * nodes before i gave vals and out and used up s; node i on the supply t
   * either stops the run with its error or extends it by its value.
   */
  lemma AllStep(nodes: seq<SExpr>, i: nat, env: Environment, st: Store, s: seq<Environment>, t: seq<Environment>, fuel: nat)
    requires env.Valid() && i < |nodes|
    requires var d := DenoteAll(nodes[..i], env, st, s, fuel); d.AllKnown? && d.rs.Ok? && d.rest == []
    ensures var d := DenoteAll(nodes[..i], env, st, s, fuel);
            var n := Denote(nodes[i], env, d.st, t, fuel);
            n.Known? && n.rest == [] ==>
              && (n.r.Err? ==> DenoteAll(nodes, env, st, s + t, fuel) == AllKnown(Err(n.r.error), d.out + n.out, n.st, []))
              && (n.r.Ok? ==> DenoteAll(nodes[..i + 1], env, st, s + t, fuel) ==
                                AllKnown(Ok(d.rs.value + [n.r.value]), d.out + n.out, n.st, []))
  {
    var d := DenoteAll(nodes[..i], env, st, s, fuel);
    var n := Denote(nodes[i], env, d.st, t, fuel);
    if n.Known? && n.rest == [] {
      assert nodes[i..][0] == nodes[i];
      assert nodes[..i] + nodes[i..] == nodes;
      AllAppend(nodes[..i], nodes[i..], env, st, s, t, fuel);
      assert nodes[..i + 1] == nodes[..i] + [nodes[i]];
      AllAppend(nodes[..i], [nodes[i]], env, st, s, t, fuel);
      assert [nodes[i]][1..] == [];
      if n.r.Ok? {
        assert [n.r.value] + [] == [n.r.value] && n.out + [] == n.out;
      }
    }
  }

  /** A run of binding nodes that used up its supply s, followed by more on the supply t. */
  lemma {:induction false} BindingsAppend(xs: seq<SExpr>, ys: seq<SExpr>, env: Environment, child: Environment, st: Store,
                                          s: seq<Environment>, t: seq<Environment>, fuel: nat)
    requires env.Valid()
    requires var d := DenoteBindings(xs, env, child, st, s, fuel); d.Known? && d.r.Ok? && d.rest == []
    ensures var d := DenoteBindings(xs, env, child, st, s, fuel);
            DenoteBindings(xs + ys, env, child, st, s + t, fuel) == After(d.out, DenoteBindings(ys, env, child, d.st, t, fuel))
    decreases |xs|
  {
    var d := DenoteBindings(xs, env, child, st, s, fuel);
    if xs == [] {
      assert xs + ys == ys && s + t == t;
      var e := DenoteBindings(ys, env, child, st, t, fuel);
      if e.Known? {
        assert [] + e.out == e.out;
      }
    } else {
      var h := DenoteBinding(xs[0], env, child, st, s, fuel);
      BindingGrows(xs[0], env, child, st, s, t, fuel);
      assert (xs + ys)[0] == xs[0] && (xs + ys)[1..] == xs[1..] + ys;
      BindingsAppend(xs[1..], ys, env, child, h.st, h.rest, t, fuel);
      var e := DenoteBindings(ys, env, child, d.st, t, fuel);
      var tail := DenoteBindings(xs[1..], env, child, h.st, h.rest, fuel);
      if e.Known? {
        assert h.out + (tail.out + e.out) == (h.out + tail.out) + e.out;
      }
    }
  }

  /** One binding node further along the loop of a let (evaluator.py:162-163). */
  lemma BindingsStep(binds: seq<SExpr>, i: nat, env: Environment, child: Environment, st: Store, s: seq<Environment>,
                     t: seq<Environment>, fuel: nat)
    requires env.Valid() && i < |binds|
    requires var d := DenoteBindings(binds[..i], env, child, st, s, fuel); d.Known? && d.r.Ok? && d.rest == []
    ensures var d := DenoteBindings(binds[..i], env, child, st, s, fuel);
            var n := DenoteBinding(binds[i], env, child, d.st, t, fuel);
            n.Known? && n.rest == [] ==>
              && (n.r.Err? ==> DenoteBindings(binds, env, child, st, s + t, fuel) == Known(n.r, d.out + n.out, n.st, []))
              && (n.r.Ok? ==> DenoteBindings(binds[..i + 1], env, child, st, s + t, fuel) == Known(Ok(None), d.out + n.out, n.st, []))
  {
    var d := DenoteBindings(binds[..i], env, child, st, s, fuel);
    var n := DenoteBinding(binds[i], env, child, d.st, t, fuel);
    if n.Known? && n.rest == [] {
      assert binds[i..][0] == binds[i];
      assert binds[..i] + binds[i..] == binds;
      BindingsAppend(binds[..i], binds[i..], env, child, st, s, t, fuel);
      assert binds[..i + 1] == binds[..i] + [binds[i]];
      BindingsAppend(binds[..i], [binds[i]], env, child, st, s, t, fuel);
      assert [binds[i]][1..] == [];
      if n.r.Ok? {
        assert n.out + [] == n.out;
      }
    }
  }
}

/**
 * Runtime values and the environment chain (evaluator.py:48-81).
 */
module Runtime {
  import opened Results
  import opened Syntax

  /** The ten primitives init_top installs in the root environment. */
  datatype Op = Add | Minus | Multiply | Divide | Car | Cdr | Cons | Less | Greater | Equal

  /**
   * What eval_lisp can return. Python tuples (from cons and cdr) are Tuple;
   * a quoted list is the parse tree itself; comparisons give Python bools.
   */
  datatype Value =
    | None
    | Num(n: real)
    | Bool(b: bool)
    | Sym(s: string)
    | Tree(node: SExpr)
    | Tuple(items: seq<Value>)
    | Closure(params: SExpr, body: SExpr, env: Environment)
    | Builtin(op: Op)

  /** The exceptions evaluation can raise, and running out of fuel. */
  datatype EvalError =
    | Undefined(name: string)   // "variable not defined: name"
    | IndexError                // a missing part of a form, a missing argument
    | Unhashable                // a list used as a variable name
    | TypeError                 // wrong operand types or argument count of a host operator
    | ConsArity                 // "cons: arity mismatch"
    | ZeroDivision
    | NotCallable               // applying a value that is not a function
    | OutOfFuel

  /**
   * Python truthiness as `if` tests it: None, False, zero and empty strings,
   * tuples and lists are false; everything else is true.
   */
  predicate Truthy(v: Value)
  {
    match v
    case None => false
    case Num(n) => n != 0.0
    case Bool(b) => b
    case Sym(s) => s != ""
    case Tree(node) => !(node.List? && node.elems == [])
    case Tuple(items) => items != []
    case Closure(_, _, _) => true
    case Builtin(_) => true
  }

  /** m with the ten builtins bound, in the order init_top binds them. */
  function WithBuiltins(m: map<string, Value>): map<string, Value>
  {
    m["+" := Builtin(Add)]["-" := Builtin(Minus)]["*" := Builtin(Multiply)]["/" := Builtin(Divide)]
     ["car" := Builtin(Car)]["cdr" := Builtin(Cdr)]["cons" := Builtin(Cons)]
     ["<" := Builtin(Less)][">" := Builtin(Greater)]["=" := Builtin(Equal)]
  }

  /** The bindings of the root environment. */
  function TopBindings(): map<string, Value> { WithBuiltins(map[]) }

  /** One frame of the environment chain: its own bindings and its parent. */
  class Environment {
    var vars: map<string, Value>
    const parent: Environment?
    /** How many frames lie above this one. */
    ghost const depth: nat
    /** The frames strictly above this one. */
    ghost const ancestors: set<Environment>

    /** The parent chain is finite and acyclic and ancestors lists it. */
    ghost predicate Valid()
      decreases depth
    {
      if parent == null then ancestors == {}
      else
        && parent.depth < depth
        && this != parent
        && this !in parent.ancestors
        && ancestors == {parent} + parent.ancestors
        && parent.Valid()
    }

    /** Environment(parent) (evaluator.py:49-54): an empty frame, or the root with the builtins. */
    constructor (parent: Environment?)
      requires parent != null ==> parent.Valid()
      ensures Valid() && this.parent == parent
      ensures parent == null ==> vars == TopBindings()
      ensures parent != null ==> vars == map[]
    {
      this.parent := parent;
      vars := map[];
      depth := if parent == null then 0 else parent.depth + 1;
      ancestors := if parent == null then {} else {parent} + parent.ancestors;
      new;
      if parent == null {
        InitTop();
      }
    }

    /** init_top (evaluator.py:68-81): binds the ten builtins in this frame. */
    method InitTop()
      modifies this`vars
      ensures vars == WithBuiltins(old(vars))
    {
      vars := vars["+" := Builtin(Add)];
      vars := vars["-" := Builtin(Minus)];
      vars := vars["*" := Builtin(Multiply)];
      vars := vars["/" := Builtin(Divide)];
      vars := vars["car" := Builtin(Car)];
      vars := vars["cdr" := Builtin(Cdr)];
      vars := vars["cons" := Builtin(Cons)];
      vars := vars["<" := Builtin(Less)];
      vars := vars[">" := Builtin(Greater)];
      vars := vars["=" := Builtin(Equal)];
    }

    /** This frame followed by its ancestors, innermost first. */
    ghost function Chain(): (c: seq<Environment>)
      requires Valid()
      ensures |c| > 0 && c[0] == this
      ensures forall i :: 0 <= i < |c| ==> c[i].Valid() && (i > 0 ==> c[i] in ancestors)
      decreases depth
    {
      [this] + (if parent == null then [] else parent.Chain())
    }

    /** lookup (evaluator.py:56-63). */
    function Lookup(name: string): (r: Result<Value, EvalError>)
      requires Valid()
      reads this, ancestors
      ensures r.Err? ==> r.error == Undefined(name)
      decreases depth
    {
      if name in vars then Ok(vars[name])
      else if parent == null then Err(Undefined(name))
      else parent.Lookup(name)
    }

    /** Every name the chain binds, with the value of its innermost binding. */
    ghost function Bindings(): (b: map<string, Value>)
      requires Valid()
      reads this, ancestors
      decreases depth
    {
      (if parent == null then map[] else parent.Bindings()) + vars
    }

    /** lookup finds exactly the names of Bindings(), with their values there. */
    lemma {:induction false} LookupBindings(name: string)
      requires Valid()
      ensures Lookup(name).Ok? <==> name in Bindings()
      ensures Lookup(name).Ok? ==> Lookup(name).value == Bindings()[name]
      decreases depth
    {
      if name !in vars && parent != null {
        parent.LookupBindings(name);
      }
    }

    /**
     * A successful lookup returns the binding of the innermost frame of the
     * chain that binds the name.
     */
    lemma {:induction false} LookupFound(name: string) returns (i: nat)
      requires Valid() && Lookup(name).Ok?
      ensures i < |Chain()| && name in Chain()[i].vars && Lookup(name).value == Chain()[i].vars[name]
      ensures forall j :: 0 <= j < i ==> name !in Chain()[j].vars
      decreases depth
    {
      if name in vars {
        i := 0;
      } else {
        var k := parent.LookupFound(name);
        i := k + 1;
        assert Chain()[1..] == parent.Chain();
      }
    }

    /** A lookup fails only when no frame of the chain binds the name. */
    lemma {:induction false} LookupMissing(name: string)
      requires Valid() && Lookup(name).Err?
      ensures forall j :: 0 <= j < |Chain()| ==> name !in Chain()[j].vars
      decreases depth
    {
      if parent != null {
        parent.LookupMissing(name);
        assert Chain()[1..] == parent.Chain();
      }
    }

    /**
     * set (evaluator.py:65-66): writes this frame's own dict only. The name
     * now looks up to value, other names look up as before, and every
     * ancestor frame is untouched, so the binding shadows theirs.
     */
    method Set(name: string, value: Value)
      requires Valid()
      modifies this`vars
      ensures vars == old(vars)[name := value]
      ensures Lookup(name) == Ok(value)
      ensures forall n :: n != name ==> Lookup(n) == old(Lookup(n))
      ensures parent != null ==> forall n :: parent.Lookup(n) == old(parent.Lookup(n))
    {
      vars := vars[name := value];
    }
  }
}

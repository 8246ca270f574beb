# PyTinyLisp in Dafny

A model of the interpreter in `pytinylisp/evaluator.py`: the lexer
(`preprocess`, `tokenize`), the destructive stack parser (`parse`), the
environment chain (`Environment`), the primitives (`LispOperator` and the
host operators `/ < > =`), and the evaluator (`eval_lisp`, `make_lambda`),
with proofs of what each part promises.

Modules, in dependency order:

- `Results`: the `Result` type used for every failure the program can raise.
- `Numbers`: the numeric literals `float()` accepts (decimal ones only), and
  their values as exact reals.
- `Lexer`: `Preprocess` is a method with the source's loop over the five
  structural characters. It is proved equal to `Pad`, a function that pads
  each of them with spaces. `Tokenize` is `str.split()`. The lemmas state
  three things: tokens are non-empty and whitespace-free; a token holding a
  structural character is that character alone; the tokens concatenate back
  to the code with whitespace removed.
- `Syntax`: `SExpr` (an atom is a Python str, a list a Python list). The
  parser is specified by the functions `ParseExpr` and `ParseSeq` on a token
  stack whose top is the end of the sequence. `TokenStack` is a class whose
  `Parse` method pops its `items` field in place, as `parse` pops
  `token_stack`, and is proved to agree with `ParseExpr`.
- `Runtime`: the values `eval_lisp` can return and the errors it can raise.
  `Environment` is a class with a `vars` map it updates and a constant
  `parent`, so frames are shared by reference exactly as closures share
  them. Ghost `depth` and `ancestors` keep the parent chain finite and
  acyclic.
- `Reading`: the front end as the script composes it. The text of a tree,
  preprocessed, tokenized, reversed onto a stack and parsed, gives the tree
  back.
- `Builtins`: the ten primitives on the list of evaluated arguments.
- `Forms`: what `eval_lisp` does with a node without evaluating
  sub-expressions: Python indexing and iteration on a node, the forms
  `quote`, `variable` and `lambda`, the closure `define` builds, and the
  parameter binding of a closure call.
- `Semantics`: `Denote`, a reference reading of `eval_lisp` as a function
  over a store, the bindings of every frame addressed by the frame. Each
  `Environment(parent)` that `let` or a closure call creates takes the next
  frame of a supply, in the order the interpreter creates them. With it,
  `Denote` follows every form: `define` through the store, `display`
  through the output, and `let` and closure calls through the frames they
  take. It is stuck only when the supply holds no unused frame under the
  right parent. It is proved to write no existing frame except the current
  one. Bindings are never removed, and code without `define` leaves the
  current frame as it was.
- `Evaluator`:
  - `Eval` and the methods for each form, recursive as `eval_lisp` is.
    Each returns, as a ghost, the frames it created, in order. It is proved
    to give exactly what `Denote` gives on the heap's frames with that
    supply: the same outcome, the same output, and the same bindings in
    every frame afterwards.
  - The pipeline `Run`, whose value and output are those `Denote` gives
    the parsed tree in a fresh root frame.
  - Only the current frame is writable: `Eval` has the frame `modifies env`.
    `let` and calls write only frames they allocate themselves, and
    `CallClosure` has no `modifies` clause at all.
  - A ghost set of frames, kept closed under parents and captured frames,
    carries the well-formedness of every frame a closure can reach.
- `Examples`: what `Denote`, and so `Eval`, gives for small programs in any
  frame where the builtin names are not shadowed:
  - arithmetic, comparison and `if`;
  - `quote`, and `cons` with `car` and `cdr`;
  - `define` followed by a use, and `display`;
  - a whole `let`;
  - a closure call that sees a `define` made after the closure.

Inputs outside the interpreter are parameters. `Run` takes the program text
instead of reading `code.rkt`. `display` appends its values to an output
sequence instead of printing. Evaluation takes a fuel argument that bounds
the depth of nested evaluations, in place of Python's recursion limit.

Behaviour of the code worth noting:

- `car` returns its first argument and `cdr` the tuple of the remaining
  arguments, so `(cdr (cons 3 5))` is the empty tuple
  (`Builtins.CarCdrOfPair`).
- `-` reads only its first two arguments. Fewer than two is an
  `IndexError`; extra arguments are ignored.
- An application looks its head up by name after evaluating the arguments.
  It does not evaluate the head.
- A closure call ignores surplus arguments and raises `IndexError` on a
  shortfall.
- `(begin)` evaluates its last element, which is the atom `begin` itself.
- `(let b)` evaluates its binding list `b` as the body.
- `let` binds in parallel: every binding expression is evaluated in the
  enclosing frame, so one binding cannot see another
  (`Examples.LetSeesNoSibling`).
- A closure holds its defining frame itself, so it sees bindings made in
  that frame after the closure was made (`Examples.LateDefineSeen`).

## Model

| member | source | states |
|---|---|---|
| Numbers.DigitsOfNatString | pytinylisp/evaluator.py:125-126 | reading back the decimal spelling of a natural number gives that number |
| Numbers.NatStringIsNumber | pytinylisp/evaluator.py:106-111 | an unsigned decimal spelling is a numeric literal and converts to its value |
| Numbers.SignedNatIsNumber | pytinylisp/evaluator.py:106-111 | a signed decimal spelling is a numeric literal and converts to plus or minus its value |
| Numbers.NumberCharacters | pytinylisp/evaluator.py:106-111 | a numeric literal is non-empty and holds only digits, '.', '+' and '-', so it is never a structural token |
| Lexer.ReplaceConcat | pytinylisp/evaluator.py:10 | str.replace of one character distributes over concatenation |
| Lexer.ReplaceStep | pytinylisp/evaluator.py:9-10 | one more replace pass pads one more structural character and leaves the earlier padding intact |
| Lexer.Preprocess | pytinylisp/evaluator.py:7-11 | the loop's result is the code with each of ( ) ' [ ] surrounded by spaces |
| Lexer.TokensWellFormed | pytinylisp/evaluator.py:14-15 | every token split() yields is non-empty and whitespace-free |
| Lexer.TokensConcat | pytinylisp/evaluator.py:14-15 | the tokens concatenate to the input with its whitespace removed |
| Lexer.TokenizeWord | pytinylisp/evaluator.py:14-15 | non-empty whitespace-free text is exactly one token |
| Lexer.TokenizeAtSpace | pytinylisp/evaluator.py:14-15 | splitting text at a whitespace character tokenizes the two sides separately |
| Lexer.PadSeparated | pytinylisp/evaluator.py:7-11 | after preprocessing, every character next to a structural character is whitespace, and the text neither starts nor ends with a structural character |
| Lexer.LoneSpecial | pytinylisp/evaluator.py:7-15 | a whitespace-free piece of separated text that holds a structural character is that character alone |
| Lexer.PadKeepsText | pytinylisp/evaluator.py:7-11 | preprocessing only inserts whitespace: removing whitespace gives the same text before and after |
| Lexer.LexTokens | pytinylisp/evaluator.py:7-15 | every token of tokenize(preprocess(code)) is non-empty and whitespace-free, and one that holds a structural character is exactly that character |
| Lexer.LexConcat | pytinylisp/evaluator.py:7-15 | the tokens of tokenize(preprocess(code)) concatenate back to the code with whitespace removed |
| Syntax.ParseExpr | pytinylisp/evaluator.py:83-102 | a successful parse pops at least one token and only from the top: what remains is a strictly shorter prefix of the stack |
| Syntax.ParseSeq | pytinylisp/evaluator.py:85-95 | reading the elements of a list up to its closer also leaves a strictly shorter prefix of the stack |
| Syntax.ParseExprFrame | pytinylisp/evaluator.py:83-102 | tokens below one expression are never read: the same expression is parsed with the same tokens consumed, and the stack below is left as it was |
| Syntax.ParseSeqFrame | pytinylisp/evaluator.py:85-95 | the same holds for the elements of a list |
| Syntax.ParseSeqConsumesCloser | pytinylisp/evaluator.py:87-95 | the last token a list consumes is its closer |
| Syntax.ParseSeqNeedsCloser | pytinylisp/evaluator.py:87-95 | a list whose closer is not on the stack fails to parse |
| Syntax.ParsePrint | pytinylisp/evaluator.py:83-102 | parsing the tokens of a printed expression returns the expression and leaves exactly the stack below |
| Syntax.ParsePrintAll | pytinylisp/evaluator.py:85-95 | the elements of a printed list followed by its closer parse back to the elements, closer consumed |
| Syntax.ParseQuoted | pytinylisp/evaluator.py:96-99 | ' followed by an expression X parses to the list (quote X) |
| Syntax.ParseBracketed | pytinylisp/evaluator.py:85-89 | [ followed by printed expressions and ] parses to the list of those expressions |
| Syntax.TokenStack.constructor | pytinylisp/evaluator.py:187 | the stack holds the tokens reversed, so the first token is on top |
| Syntax.TokenStack.Parse | pytinylisp/evaluator.py:83-102 | popping in place returns ParseExpr's tree and leaves ParseExpr's remaining stack, or fails with ParseExpr's error |
| Reading.PadConcat | pytinylisp/evaluator.py:7-11 | preprocessing distributes over concatenation |
| Reading.PadWord | pytinylisp/evaluator.py:7-11 | text without structural characters is left unchanged by preprocessing |
| Reading.LexToken | pytinylisp/evaluator.py:7-15 | a word, or a structural character, lexes to exactly itself |
| Reading.LexUnwords | pytinylisp/evaluator.py:7-15 | lexing a sequence of such tokens, each followed by a space, gives the sequence back |
| Reading.ReadText | pytinylisp/evaluator.py:185-189 | the text of a tree whose atoms are words lexes to the tree's printed tokens, and reversing them onto a stack and parsing gives the tree back with the stack empty |
| Runtime.Environment.constructor | pytinylisp/evaluator.py:49-54 | a new frame is well-formed under its parent, empty, or the root with the ten builtins |
| Runtime.Environment.InitTop | pytinylisp/evaluator.py:68-81 | binds the ten builtins, in order, over what the frame held |
| Runtime.Environment.Lookup | pytinylisp/evaluator.py:56-63 | the only failure of a lookup is variable-not-defined for that name |
| Runtime.Environment.LookupFound | pytinylisp/evaluator.py:56-63 | a successful lookup returns the binding of the innermost frame of the chain that binds the name, and no frame nearer binds it |
| Runtime.Environment.LookupMissing | pytinylisp/evaluator.py:56-63 | a lookup fails only when no frame of the chain binds the name |
| Runtime.Environment.Set | pytinylisp/evaluator.py:65-66 | only this frame's map changes, at that name; the name now looks up to the value, other names look up as before, and lookups in the parent chain are unchanged |
| Builtins.AddIsSum | pytinylisp/evaluator.py:20-21 | + on one or more numbers is their sum; on no arguments it raises |
| Builtins.MultiplyIsProduct | pytinylisp/evaluator.py:28-29 | * on one or more numbers is their product; on no arguments it raises |
| Builtins.MinusFirstTwo | pytinylisp/evaluator.py:24-25 | - succeeds exactly on two or more arguments whose first two are numbers, returns the first minus the second and ignores the rest |
| Builtins.DivideInvertsMultiply | pytinylisp/evaluator.py:72 | / by a non-zero number undoes multiplication by it |
| Builtins.ConsPairs | pytinylisp/evaluator.py:42-45 | cons succeeds exactly on two arguments and returns the pair of them; otherwise it raises the arity error |
| Builtins.CarCdrSplit | pytinylisp/evaluator.py:33-39 | on a non-empty argument list car is the first argument and cdr the tuple of the others, and together they rebuild the list |
| Builtins.CarCdrOfPair | pytinylisp/evaluator.py:33-45 | car of (cons a b) is the pair itself and cdr of it is the empty tuple |
| Builtins.GreaterIsSwappedLess | pytinylisp/evaluator.py:79-80 | > is < with its arguments swapped |
| Builtins.SameReflexive | pytinylisp/evaluator.py:81 | = holds between every value and itself |
| Builtins.SameSymmetric | pytinylisp/evaluator.py:81 | = is symmetric |
| Forms.BindParamsOk | pytinylisp/evaluator.py:118-119 | binding parameters succeeds exactly when there are at least as many arguments as parameters and every parameter is a name; with names only, a shortfall is an IndexError |
| Forms.BindParamsSurplus | pytinylisp/evaluator.py:118-119 | arguments beyond the parameters are never read |
| Forms.BindParamsValues | pytinylisp/evaluator.py:118-119 | the new frame binds exactly the parameter names, each to the argument at the name's last position |
| Forms.FreeParts | pytinylisp/evaluator.py:162-163 | the binding nodes a let iterates, and their parts, hold no define when the binding list holds none |
| Runtime.Environment.LookupBindings | pytinylisp/evaluator.py:56-63 | a lookup succeeds exactly on the names the chain binds, innermost frame first, and returns that binding |
| Semantics.LookupOther | pytinylisp/evaluator.py:56-63 | rebinding a frame that is neither the frame nor one of its ancestors does not change what the frame looks up |
| Semantics.LookupWrite | pytinylisp/evaluator.py:56-66 | after set(x, v) on a frame, x looks up to v there, shadowing any parent binding, and every other name looks up as before |
| Semantics.LookupBelow | pytinylisp/evaluator.py:49-63 | a new frame under a parent looks up its own bindings first and every other name in the parent |
| Semantics.ApplicationForm | pytinylisp/evaluator.py:169-172 | a list whose head is none of the eight keywords is an application |
| Semantics.DenoteFrame | pytinylisp/evaluator.py:123-172 | evaluating a node leaves every existing frame other than the current one as it was, whatever let and call frames it creates; it never removes a binding from the current frame, and a node without define leaves that frame exactly as it was |
| Semantics.AllFrame | pytinylisp/evaluator.py:141 | the same for a left-to-right run of nodes |
| Semantics.BeginFrame | pytinylisp/evaluator.py:136-139 | the same for begin |
| Semantics.DisplayFrame | pytinylisp/evaluator.py:140-143 | the same for display |
| Semantics.IfFrame | pytinylisp/evaluator.py:144-151 | the same for if |
| Semantics.DefineFrame | pytinylisp/evaluator.py:152-159 | define writes only the current frame and only adds or rebinds names there |
| Semantics.LetFrame | pytinylisp/evaluator.py:160-166 | let writes no existing frame but the current one, and that one only through define in its binding expressions: the body writes the new frame |
| Semantics.BindingsFrame | pytinylisp/evaluator.py:162-163 | the binding loop writes only the let frame and the outer frame, the outer one only through define in the binding expressions |
| Semantics.BindingFrame | pytinylisp/evaluator.py:163 | the same for one binding node |
| Semantics.ApplyFrame | pytinylisp/evaluator.py:169-172 | a call writes no existing frame but the caller's, and that one only through its argument expressions |
| Semantics.CallFrame | pytinylisp/evaluator.py:115-121 | a closure call writes no frame that existed before it |
| Semantics.CallParams | pytinylisp/evaluator.py:116-120 | after a call the call frame still binds every parameter, and a body without define leaves it holding exactly the parameter bindings |
| Semantics.LetBody | pytinylisp/evaluator.py:161-166 | after a let its frame still binds every name the binding nodes bound, and a body without define leaves it exactly as the bindings made it |
| Semantics.DenoteGrows | pytinylisp/evaluator.py:115-172 | evaluation takes new frames from the front of the supply, so frames after those it uses are never read and are left over |
| Semantics.AllStep | pytinylisp/evaluator.py:136-143 | one more node of a run either ends the run with its error or adds its value, output, store and frames to the run's |
| Semantics.BindingsStep | pytinylisp/evaluator.py:162-163 | one more binding node either ends the loop with its error or adds its output, store and frames to the loop's |
| Evaluator.LookupWithin | pytinylisp/evaluator.py:56-63 | a lookup in a closed set of frames returns a value whose closures capture frames of that set |
| Evaluator.LookupSnap | pytinylisp/evaluator.py:56-63 | lookup on the heap is the store lookup on the bindings of the heap's frames |
| Evaluator.ApplyIn | pytinylisp/evaluator.py:18-45 | a builtin returns only values built from its arguments or values without closures |
| Evaluator.Bind | pytinylisp/evaluator.py:65-66 | set changes the heap's store exactly as Write does: the frame's map gains the binding and no other frame changes |
| Evaluator.Eval | pytinylisp/evaluator.py:123-172 | eval gives exactly the outcome, the output and the bindings of every frame afterwards that Denote gives, with the frames eval created as the supply; of the frames that existed only the current one is modified |
| Evaluator.EvalAll | pytinylisp/evaluator.py:141 | evaluates a list of nodes left to right into as many values, stopping at the first error, exactly as DenoteAll does |
| Evaluator.EvalBegin | pytinylisp/evaluator.py:136-139 | begin evaluates the elements between the head and the last for effect and gives the last one's value, exactly as DenoteBegin does |
| Evaluator.EvalDisplay | pytinylisp/evaluator.py:140-143 | display returns None and records one output line holding the argument values, exactly as DenoteDisplay does |
| Evaluator.EvalIf | pytinylisp/evaluator.py:144-151 | if evaluates the test, then the second element when it is truthy, the fourth when it is not and the list has four elements, and otherwise gives None, exactly as DenoteIf does |
| Evaluator.EvalDefine | pytinylisp/evaluator.py:152-159 | define returns None; the function form binds the closure over the current frame under its name, reporting node[1][0] and node[2] before an unhashable name; the variable form binds its name to the value; exactly as DenoteDefine does |
| Evaluator.LetBinding | pytinylisp/evaluator.py:163 | one binding node evaluates b[1] in the outer frame and binds the value under b[0] in the let frame, raising for a missing b[0] or b[1], an error of b[1] or an unhashable name in that order, exactly as DenoteBinding does |
| Evaluator.LetBindings | pytinylisp/evaluator.py:162-163 | the loop binds each name in the let frame and evaluates every expression in the outer frame, stopping at the first error, exactly as DenoteBindings does |
| Evaluator.EvalLet | pytinylisp/evaluator.py:160-166 | without a binding list let is an IndexError; otherwise it creates a new frame under the current one, fills it from the binding nodes and runs the body there, exactly as DenoteLet does |
| Evaluator.EvalApply | pytinylisp/evaluator.py:169-172 | a call evaluates the arguments, then looks the head up by name and applies a builtin or calls a closure, raising for a value that is not callable, exactly as DenoteApply does |
| Evaluator.NewCallFrame | pytinylisp/evaluator.py:116-119 | a call frame is a fresh child of the captured frame; binding gives BindParams' result, and on success the frame holds exactly the parameter bindings |
| Evaluator.CallClosure | pytinylisp/evaluator.py:115-121 | a closure call modifies no frame that existed before it, and gives exactly what DenoteCall gives: a failed binding is its error, otherwise the body's meaning in the new frame |
| Evaluator.Run | pytinylisp/evaluator.py:185-191 | a program whose tokens do not parse fails with the parser's error and no output; empty code fails at the first pop; otherwise the value and output are those Denote gives the parsed tree in a fresh root frame holding the builtins |
| Examples.RootPrelude | pytinylisp/evaluator.py:68-81 | the root frame binds the ten builtin names |
| Examples.PreludeKept | pytinylisp/evaluator.py:65-66 | binding another name keeps the ten builtins visible |
| Examples.PreludeBelow | pytinylisp/evaluator.py:49-63 | a let or call frame binding none of the ten names sees the builtins of its parent |
| Examples.DenoteLiterals | pytinylisp/evaluator.py:124-126 | number literals evaluate to their numbers, with no output and no change to the frame |
| Examples.CallOnLiterals | pytinylisp/evaluator.py:169-172 | a builtin name applied to number literals applies that builtin to the numbers |
| Examples.Sum123 | pytinylisp/evaluator.py:20-21 | (+ 1 2 3) is 6 |
| Examples.Difference | pytinylisp/evaluator.py:24-25 | (- 10 4) is 6 |
| Examples.Product234 | pytinylisp/evaluator.py:28-29 | (* 2 3 4) is 24 |
| Examples.Quotient | pytinylisp/evaluator.py:72 | (/ 9 3) is 3 |
| Examples.Literal | pytinylisp/evaluator.py:124-126 | a number literal evaluates to its number |
| Examples.Variable | pytinylisp/evaluator.py:127-128 | a name that is not a number evaluates to its binding |
| Examples.Compared | pytinylisp/evaluator.py:80 | (> a b) on number literals is whether a > b |
| Examples.IfThen | pytinylisp/evaluator.py:144-146 | (if (> 3 2) 1 2) is 1 |
| Examples.IfElse | pytinylisp/evaluator.py:147-149 | (if (> 2 3) 1 2) is 2 |
| Examples.IfWithoutElse | pytinylisp/evaluator.py:150-151 | (if (> 2 3) 1) is None |
| Examples.QuoteSymbol | pytinylisp/evaluator.py:129-133 | (quote abc) is the symbol abc in every frame |
| Examples.ConsLiterals | pytinylisp/evaluator.py:42-45 | (cons 3 5) is the pair of 3 and 5 |
| Examples.CarOfCons | pytinylisp/evaluator.py:33-34 | (car (cons 3 5)) is the pair itself |
| Examples.CdrOfCons | pytinylisp/evaluator.py:37-45 | (cdr (cons 3 5)) is the empty tuple |
| Examples.DefineFive | pytinylisp/evaluator.py:156-159 | (define x 5) binds x to 5 and is None |
| Examples.XAndTen | pytinylisp/evaluator.py:171 | the arguments x and 10 evaluate to 5 and 10 once x is 5 |
| Examples.AddTen | pytinylisp/evaluator.py:169-172 | (+ x 10) is 15 once x is 5 |
| Examples.DefineThenUse | pytinylisp/evaluator.py:136-139 | (begin (define x 5) (+ x 10)) is 15 and leaves x bound to 5 |
| Examples.DisplayOneTwo | pytinylisp/evaluator.py:140-143 | (display 1 2) records one output line holding 1 and 2, and is None |
| Examples.LetXTwo | pytinylisp/evaluator.py:161-163 | the binding list ((x 2)) binds x to 2 in the let frame and changes nothing else |
| Examples.XAndThree | pytinylisp/evaluator.py:171 | the arguments x and 3 evaluate to 2 and 3 once x is 2 |
| Examples.XTimesThree | pytinylisp/evaluator.py:169-172 | (* x 3) is 6 once x is 2 |
| Examples.LetProduct | pytinylisp/evaluator.py:160-166 | (let ((x 2)) (* x 3)) is 6; it takes one new frame under the current one, binding x to 2, and leaves every existing frame as it was |
| Examples.LetSeesNoSibling | pytinylisp/evaluator.py:160-166 | (let ((a 1) (b a)) b), with a unbound outside, fails with a not defined after binding a in the let frame: the second binding does not see the first |
| Examples.CallAddTen | pytinylisp/evaluator.py:116-120 | calling (lambda (x) (+ x 10)) on 5 is 15, with one new frame under the captured one binding x to 5 |
| Examples.XAndY | pytinylisp/evaluator.py:171 | the arguments x and y evaluate to 7 and 10 once x is 7 and y is 10 |
| Examples.XPlusY | pytinylisp/evaluator.py:169-172 | (+ x y) is 17 once x is 7 and y is 10 |
| Examples.CallAddX | pytinylisp/evaluator.py:116-120 | calling the closure of (define (f y) (+ x y)) on 10 binds y to 10 in a new frame and reads x and + through the captured frame |
| Examples.Ten | pytinylisp/evaluator.py:171 | the argument list (10) evaluates to the number 10 |
| Examples.ApplyAddX | pytinylisp/evaluator.py:169-172 | (f 10) is 17 when f names that closure and x is 7 in its frame |
| Examples.DefineAddX | pytinylisp/evaluator.py:153-155 | (define (f y) (+ x y)) binds f to a closure over the current frame |
| Examples.DefineSeven | pytinylisp/evaluator.py:156-159 | (define x 7) binds x to 7 and is None |
| Examples.ThreeDefines | pytinylisp/evaluator.py:137-138 | the three defines run in order, each seeing the store the previous left |
| Examples.DefinedLookups | pytinylisp/evaluator.py:56-66 | after them x is 7, f is the closure and + is still the builtin |
| Examples.LateDefineSeen | pytinylisp/evaluator.py:115-121 | (begin (define x 5) (define (f y) (+ x y)) (define x 7) (f 10)) is 17: the closure sees the later define through its captured frame |
| Examples.DisplayThenValue | pytinylisp/evaluator.py:136-143 | (begin (display 1 2) 3) records one output line holding 1 and 2, and is 3 |

## Left out

- Reading `code.rkt` and printing the final value (evaluator.py:181-182, 192) are I/O. `Run` takes the text and returns the value.
- `print` in `display` is modelled as appending the printed values to an output sequence. The text `print` renders is not modelled.
- Python's `float()` grammar is only partly modelled. `IsNumber` accepts plain decimal literals with an optional sign. It does not accept exponents, `inf`, `nan`, underscores or surrounding whitespace.
- Floating point is not modelled: numbers are exact reals, so there is no rounding, no overflow and no negative zero.
- Bool takes part in arithmetic in Python. In the model `+ - * / < >` on a Bool raise `TypeError`. `=` compares a Bool as 1 or 0, as Python does.
- `<` and `>` on strings, tuples and lists raise `TypeError` in the model. Python compares those lexicographically.
- `+` on a string and a list, and the other mixed host types, raise `TypeError`. In Python they also raise, but not always with the same message.
- Closures are compared structurally (same parameters, body and captured frame). Python compares function objects by identity.
- Recursion depth: Python's recursion limit becomes the fuel bound on nesting depth, and exhaustion is `OutOfFuel`.
- Exceptions are collapsed to the `EvalError` kinds. The message texts are not modelled, except the name in variable-not-defined.
- Semantics.Denote: a new frame's identity is taken from a supply given as a parameter rather than allocated, and a reading whose supply runs short is `Stuck`. The evaluator's methods return the frames they allocate, and `Denote` is never stuck on that supply.

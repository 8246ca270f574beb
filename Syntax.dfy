/**
 * Expression trees and the parser (evaluator.py:83-102). The parser consumes
 * a token stack destructively from its end: the Python list whose last
 * element is the next token. Here a stack is a seq<string> with its top at
 * the end.
 */
module Syntax {
  import opened Results

  /** A parse tree node: a token string, or a Python list of nodes. */
  datatype SExpr = Atom(name: string) | List(elems: seq<SExpr>)

  /** The two ways the parser raises IndexError on an exhausted stack. */
  datatype ParseError =
    | PopFromEmpty   // token_stack.pop() on an empty list
    | PeekAtEmpty    // token_stack[-1] on an empty list, before a closer was seen

  function Top(st: seq<string>): string
    requires |st| > 0
  {
    st[|st| - 1]
  }

  function Pop(st: seq<string>): seq<string>
    requires |st| > 0
  {
    st[..|st| - 1]
  }

  /**
   * parse: the expression at the top of st and the stack left below it. A
   * successful parse only ever removes tokens from the top.
   */
  function ParseExpr(st: seq<string>): (r: Result<(SExpr, seq<string>), ParseError>)
    ensures r.Ok? ==> |r.value.1| < |st| && r.value.1 == st[..|r.value.1|]
    decreases |st|, 0
  {
    if |st| == 0 then Err(PopFromEmpty)
    else
      var token := Top(st);
      if token == "[" || token == "(" then
        match ParseSeq(Pop(st), if token == "[" then "]" else ")")
        case Ok((elems, rest)) => Ok((List(elems), rest))
        case Err(e) => Err(e)
      else if token == "'" then
        match ParseExpr(Pop(st))
        case Ok((x, rest)) => Ok((List([Atom("quote"), x]), rest))
        case Err(e) => Err(e)
      else
        Ok((Atom(token), Pop(st)))
  }

  /**
   * The loop of parse for an opened sequence: parse expressions until closer
   * is on top, then pop the closer.
   */
  function ParseSeq(st: seq<string>, closer: string): (r: Result<(seq<SExpr>, seq<string>), ParseError>)
    ensures r.Ok? ==> |r.value.1| < |st| && r.value.1 == st[..|r.value.1|]
    decreases |st|, 1
  {
    if |st| == 0 then Err(PeekAtEmpty)
    else if Top(st) == closer then Ok(([], Pop(st)))
    else
      match ParseExpr(st)
      case Err(e) => Err(e)
      case Ok((x, rest)) =>
        match ParseSeq(rest, closer)
        case Ok((xs, rest')) => Ok(([x] + xs, rest'))
        case Err(e) => Err(e)
  }

  /** elems ++ the sequence that r parsed, or r's error. */
  function Prepend(elems: seq<SExpr>, r: Result<(seq<SExpr>, seq<string>), ParseError>): Result<(seq<SExpr>, seq<string>), ParseError>
  {
    match r
    case Ok((xs, rest)) => Ok((elems + xs, rest))
    case Err(e) => Err(e)
  }

  lemma PrependNothing(r: Result<(seq<SExpr>, seq<string>), ParseError>)
    ensures Prepend([], r) == r
  {
    if r.Ok? {
      assert [] + r.value.0 == r.value.0;
    }
  }

  lemma PrependOne(elems: seq<SExpr>, x: SExpr, r: Result<(seq<SExpr>, seq<string>), ParseError>)
    ensures Prepend(elems, Prepend([x], r)) == Prepend(elems + [x], r)
  {
    if r.Ok? {
      assert elems + ([x] + r.value.0) == (elems + [x]) + r.value.0;
    }
  }

  function Reverse<T>(s: seq<T>): (r: seq<T>)
    ensures |r| == |s|
  {
    if s == [] then [] else Reverse(s[1..]) + [s[0]]
  }

  lemma {:induction false} ReverseConcat<T>(a: seq<T>, b: seq<T>)
    ensures Reverse(a + b) == Reverse(b) + Reverse(a)
  {
    if a == [] {
      assert a + b == b;
    } else {
      assert (a + b)[1..] == a[1..] + b;
      ReverseConcat(a[1..], b);
    }
  }

  // ---------------------------------------------------------------- properties

  /**
   * Parsing looks only at the tokens it pops: putting more tokens under the
   * stack leaves the result alone and those tokens untouched.
   */
  lemma {:induction false} ParseExprFrame(base: seq<string>, st: seq<string>)
    requires ParseExpr(st).Ok?
    ensures ParseExpr(base + st) == Ok((ParseExpr(st).value.0, base + ParseExpr(st).value.1))
    decreases |st|, 0
  {
    var token := Top(st);
    assert Top(base + st) == token;
    assert Pop(base + st) == base + Pop(st);
    if token == "[" || token == "(" {
      ParseSeqFrame(base, Pop(st), if token == "[" then "]" else ")");
    } else if token == "'" {
      ParseExprFrame(base, Pop(st));
    }
  }

  lemma {:induction false} ParseSeqFrame(base: seq<string>, st: seq<string>, closer: string)
    requires ParseSeq(st, closer).Ok?
    ensures ParseSeq(base + st, closer) == Ok((ParseSeq(st, closer).value.0, base + ParseSeq(st, closer).value.1))
    decreases |st|, 1
  {
    assert Top(base + st) == Top(st);
    assert Pop(base + st) == base + Pop(st);
    if Top(st) != closer {
      var rest := ParseExpr(st).value.1;
      ParseExprFrame(base, st);
      ParseSeqFrame(base, rest, closer);
    }
  }

  /**
   * A parsed sequence ends at its closer: the closer is the token sitting
   * just above the stack that remains.
   */
  lemma {:induction false} ParseSeqConsumesCloser(st: seq<string>, closer: string)
    requires ParseSeq(st, closer).Ok?
    ensures var rest := ParseSeq(st, closer).value.1; |rest| < |st| && st[|rest|] == closer
    decreases |st|
  {
    if Top(st) != closer {
      var rest := ParseExpr(st).value.1;
      ParseSeqConsumesCloser(rest, closer);
      var rest' := ParseSeq(rest, closer).value.1;
      assert st[|rest'|] == rest[|rest'|];
    }
  }

  /** An opened sequence fails when the stack runs out before its closer. */
  lemma ParseSeqNeedsCloser(st: seq<string>, closer: string)
    requires closer !in st
    ensures ParseSeq(st, closer).Err?
  {
    if ParseSeq(st, closer).Ok? {
      ParseSeqConsumesCloser(st, closer);
    }
  }

  /** The tokens that print an expression, with ( ) around every list. */
  function Print(e: SExpr): seq<string>
  {
    match e
    case Atom(a) => [a]
    case List(xs) => ["("] + PrintAll(xs) + [")"]
  }

  function PrintAll(xs: seq<SExpr>): seq<string>
  {
    if xs == [] then [] else Print(xs[0]) + PrintAll(xs[1..])
  }

  predicate IsStructural(t: string) { t == "(" || t == ")" || t == "[" || t == "]" || t == "'" }

  /** Every atom of e is an ordinary token. */
  predicate Plain(e: SExpr)
  {
    match e
    case Atom(a) => !IsStructural(a)
    case List(xs) => forall i :: 0 <= i < |xs| ==> Plain(xs[i])
  }

  lemma PrintStartsPlainOrOpen(e: SExpr)
    requires Plain(e)
    ensures |Print(e)| > 0 && (Print(e)[0] == "(" || !IsStructural(Print(e)[0]))
  {
  }

  /**
   * One parse, one expression: a stack holding the tokens of e on top of base
   * parses to e and leaves exactly base.
   */
  lemma {:induction false} ParsePrint(e: SExpr, base: seq<string>)
    requires Plain(e)
    ensures ParseExpr(base + Reverse(Print(e))) == Ok((e, base))
    decreases e, 1
  {
    match e
    case Atom(a) =>
      assert Reverse([a]) == [a];
      assert Pop(base + [a]) == base;
    case List(xs) =>
      var inner := PrintAll(xs) + [")"];
      ReverseConcat(["("], inner);
      assert Reverse(["("]) == ["("];
      assert ["("] + PrintAll(xs) + [")"] == ["("] + inner;
      var st := base + (Reverse(inner) + ["("]);
      assert st == (base + Reverse(inner)) + ["("];
      assert Pop(st) == base + Reverse(inner);
      ParsePrintAll(xs, ")", base);
  }

  /** The elements of a sequence, printed and followed by its closer, parse back. */
  lemma {:induction false} ParsePrintAll(xs: seq<SExpr>, closer: string, base: seq<string>)
    requires forall i :: 0 <= i < |xs| ==> Plain(xs[i])
    requires closer == ")" || closer == "]"
    ensures ParseSeq(base + Reverse(PrintAll(xs) + [closer]), closer) == Ok((xs, base))
    decreases xs, 0
  {
    if xs == [] {
      assert PrintAll(xs) + [closer] == [closer];
      assert Reverse([closer]) == [closer];
      assert Pop(base + [closer]) == base;
    } else {
      var x := xs[0];
      assert Plain(x);
      var below := base + Reverse(PrintAll(xs[1..]) + [closer]);
      var st := below + Reverse(Print(x));
      StackOfFirst(x, xs, closer, base);
      PrintStartsPlainOrOpen(x);
      assert Top(st) == Print(x)[0] by {
        ReverseLast(Print(x));
      }
      ParsePrint(x, below);
      ParsePrintAll(xs[1..], closer, base);
      assert [x] + xs[1..] == xs;
    }
  }

  /** The printed elements stack up as the first element's tokens on top of the others'. */
  lemma StackOfFirst(x: SExpr, xs: seq<SExpr>, closer: string, base: seq<string>)
    requires xs != [] && x == xs[0]
    ensures base + Reverse(PrintAll(xs) + [closer]) ==
      (base + Reverse(PrintAll(xs[1..]) + [closer])) + Reverse(Print(x))
  {
    ReverseConcat(Print(x), PrintAll(xs[1..]) + [closer]);
    assert PrintAll(xs) + [closer] == Print(x) + (PrintAll(xs[1..]) + [closer]);
  }

  lemma ReverseLast<T>(s: seq<T>)
    requires |s| > 0
    ensures Reverse(s)[|s| - 1] == s[0]
  {
  }

  /** ' X parses to (quote X). */
  lemma ParseQuoted(e: SExpr, base: seq<string>)
    requires Plain(e)
    ensures ParseExpr(base + Reverse(["'"] + Print(e))) == Ok((List([Atom("quote"), e]), base))
  {
    ReverseConcat(["'"], Print(e));
    assert Reverse(["'"]) == ["'"];
    var st := base + (Reverse(Print(e)) + ["'"]);
    assert st == (base + Reverse(Print(e))) + ["'"];
    assert Pop(st) == base + Reverse(Print(e));
    ParsePrint(e, base);
  }

  /** [ x1 ... xn ] parses to the same list as ( x1 ... xn ). */
  lemma ParseBracketed(xs: seq<SExpr>, base: seq<string>)
    requires forall i :: 0 <= i < |xs| ==> Plain(xs[i])
    ensures ParseExpr(base + Reverse(["["] + PrintAll(xs) + ["]"])) == Ok((List(xs), base))
  {
    var inner := PrintAll(xs) + ["]"];
    ReverseConcat(["["], inner);
    assert Reverse(["["]) == ["["];
    assert ["["] + PrintAll(xs) + ["]"] == ["["] + inner;
    var st := base + (Reverse(inner) + ["["]);
    assert st == (base + Reverse(inner)) + ["["];
    assert Pop(st) == base + Reverse(inner);
    ParsePrintAll(xs, "]", base);
  }

  /** A token stack that the parser pops, as `token_stack` in the script. */
  class TokenStack {
    var items: seq<string>

    /** list(reversed(tokens)) (evaluator.py:187): the first token ends up on top. */
    constructor (tokens: seq<string>)
      ensures items == Reverse(tokens)
    {
      items := Reverse(tokens);
    }

    /**
     * parse(token_stack): pops exactly the tokens of one expression and
     * returns it, or fails as ParseExpr does.
     */
    method Parse() returns (r: Result<SExpr, ParseError>)
      modifies this
      decreases |items|
      ensures ParseExpr(old(items)).Ok? ==>
        r == Ok(ParseExpr(old(items)).value.0) && items == ParseExpr(old(items)).value.1
      ensures ParseExpr(old(items)).Err? ==> r == Err(ParseExpr(old(items)).error)
    {
      if |items| == 0 {
        return Err(PopFromEmpty);
      }
      var token := items[|items| - 1];
      items := items[..|items| - 1];
      if token == "[" || token == "(" {
        var closer := if token == "[" then "]" else ")";
        var node: seq<SExpr> := [];
        ghost var start := items;
        PrependNothing(ParseSeq(start, closer));
        while |items| > 0 && items[|items| - 1] != closer
          invariant |items| <= |start|
          invariant ParseSeq(start, closer) == Prepend(node, ParseSeq(items, closer))
          decreases |items|
        {
          ghost var before := items;
          var sub := Parse();
          if sub.Err? {
            return Err(sub.error);
          }
          assert ParseSeq(before, closer) == Prepend([sub.value], ParseSeq(items, closer));
          PrependOne(node, sub.value, ParseSeq(items, closer));
          node := node + [sub.value];
        }
        if |items| == 0 {
          return Err(PeekAtEmpty);
        }
        assert ParseSeq(items, closer) == Ok(([], Pop(items)));
        assert node + [] == node;
        items := items[..|items| - 1];
        r := Ok(List(node));
      } else if token == "'" {
        var sub := Parse();
        if sub.Err? {
          return sub;
        }
        r := Ok(List([Atom("quote"), sub.value]));
      } else {
        r := Ok(Atom(token));
      }
    }
  }
}

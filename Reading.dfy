/**
 * The front end as the script composes it (evaluator.py:185-189): the text
 * of a tree, preprocessed, tokenized, reversed onto a stack and parsed,
 * gives the tree back.
 */
module Reading {
  import opened Results
  import opened Lexer
  import opened Syntax

  /** An atom that reads back as one token: non-empty, no whitespace, no structural character. */
  predicate Word(a: string) { |a| > 0 && SpaceFree(a) && !HasSpecial(a) }

  /** Every atom of e is a word. */
  predicate Readable(e: SExpr)
  {
    match e
    case Atom(a) => Word(a)
    case List(xs) => forall i :: 0 <= i < |xs| ==> Readable(xs[i])
  }

  /** A token the lexer returns unchanged: a word or a structural character. */
  predicate Lexable(t: string) { Word(t) || (|t| == 1 && IsSpecial(t[0])) }

  /** The tokens, each followed by a space. */
  function Unwords(ts: seq<string>): string
  {
    if ts == [] then [] else ts[0] + " " + Unwords(ts[1..])
  }

  /** The source text of e. */
  function Text(e: SExpr): string { Unwords(Print(e)) }

  lemma {:induction false} PadWithConcat(a: string, b: string, cs: seq<char>)
    ensures PadWith(a + b, cs) == PadWith(a, cs) + PadWith(b, cs)
  {
    if a == [] {
      assert a + b == b;
    } else {
      assert (a + b)[0] == a[0] && (a + b)[1..] == a[1..] + b;
      PadWithConcat(a[1..], b, cs);
    }
  }

  /** preprocess distributes over concatenation. */
  lemma PadConcat(a: string, b: string)
    ensures Pad(a + b) == Pad(a) + Pad(b)
  {
    PadWithConcat(a, b, Specials);
  }

  /** Text without structural characters is left as it is. */
  lemma {:induction false} PadWord(a: string)
    requires !HasSpecial(a)
    ensures Pad(a) == a
  {
    if a != [] {
      assert !IsSpecial(a[0]);
      assert !HasSpecial(a[1..]) by {
        forall i | 0 <= i < |a[1..]| ensures !IsSpecial(a[1..][i]) {
          assert a[1..][i] == a[i + 1];
        }
      }
      PadWord(a[1..]);
    }
  }

  /** Each token the lexer can return comes back alone from its own text. */
  lemma LexToken(t: string)
    requires Lexable(t)
    ensures Tokenize(Pad(t)) == [t]
  {
    if Word(t) {
      PadWord(t);
      TokenizeWord(t);
    } else {
      var c := t[0];
      assert t == [c];
      assert Pad(t) == [' ', c, ' '] by {
        assert PadWith(t, Specials) == Block(c, Specials) + PadWith([], Specials);
      }
      assert IsSpace(' ');
      assert [' ', c, ' '] == [] + [' '] + [c, ' '];
      TokenizeAtSpace([], ' ', [c, ' ']);
      assert [c, ' '] == [c] + [' '] + [];
      TokenizeAtSpace([c], ' ', []);
      TokenizeWord([c]);
    }
  }

  /** Lexing lexable tokens, each followed by a space, gives the tokens back. */
  lemma {:induction false} LexUnwords(ts: seq<string>)
    requires forall i :: 0 <= i < |ts| ==> Lexable(ts[i])
    ensures Lex(Unwords(ts)) == ts
  {
    if ts != [] {
      var rest := Unwords(ts[1..]);
      PadConcat(ts[0] + " ", rest);
      PadConcat(ts[0], " ");
      assert Pad(" ") == " " by {
        assert PadWith(" ", Specials) == Block(' ', Specials) + PadWith([], Specials);
      }
      assert Pad(Unwords(ts)) == Pad(ts[0]) + [' '] + Pad(rest);
      TokenizeAtSpace(Pad(ts[0]), ' ', Pad(rest));
      LexToken(ts[0]);
      LexUnwords(ts[1..]);
      assert ts == [ts[0]] + ts[1..];
    }
  }

  lemma {:induction false} PrintLexable(e: SExpr)
    requires Readable(e)
    ensures forall i :: 0 <= i < |Print(e)| ==> Lexable(Print(e)[i])
    decreases e, 1
  {
    match e
    case Atom(a) =>
    case List(xs) =>
      PrintAllLexable(xs);
      assert IsSpecial('(') && IsSpecial(')');
      assert "(" == ['('] && ")" == [')'];
  }

  lemma {:induction false} PrintAllLexable(xs: seq<SExpr>)
    requires forall i :: 0 <= i < |xs| ==> Readable(xs[i])
    ensures forall i :: 0 <= i < |PrintAll(xs)| ==> Lexable(PrintAll(xs)[i])
    decreases xs, 2
  {
    if xs != [] {
      PrintLexable(xs[0]);
      PrintAllLexable(xs[1..]);
    }
  }

  lemma {:induction false} ReadableIsPlain(e: SExpr)
    requires Readable(e)
    ensures Plain(e)
  {
    match e
    case Atom(a) =>
      if IsStructural(a) {
        assert IsSpecial(a[0]);
      }
    case List(xs) =>
      forall i | 0 <= i < |xs| ensures Plain(xs[i]) {
        ReadableIsPlain(xs[i]);
      }
  }

  /**
   * Reading the text of a tree: preprocess, tokenize, reverse onto a stack
   * and parse gives the tree back with the stack empty.
   */
  lemma ReadText(e: SExpr)
    requires Readable(e)
    ensures Lex(Text(e)) == Print(e)
    ensures ParseExpr(Reverse(Lex(Text(e)))) == Ok((e, []))
  {
    PrintLexable(e);
    LexUnwords(Print(e));
    ReadableIsPlain(e);
    ParsePrint(e, []);
    assert [] + Reverse(Print(e)) == Reverse(Print(e));
  }
}

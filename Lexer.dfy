/**
 * The lexer: preprocess puts a space on each side of every structural
 * character, tokenize splits the result on runs of whitespace
 * (evaluator.py:7-15).
 */
module Lexer {

  /** The characters preprocess pads, in the order it treats them. */
  const Specials: seq<char> := ['(', ')', '\'', '[', ']']

  predicate IsSpecial(c: char) { c in Specials }

  /**
   * Python's str.isspace on one character: exactly the characters that
   * str.split() without an argument splits on.
   */
  predicate IsSpace(c: char)
  {
    var n := c as int;
    (9 <= n <= 13) || (28 <= n <= 32) || n == 0x85 || n == 0xA0 || n == 0x1680
    || (0x2000 <= n <= 0x200A) || n == 0x2028 || n == 0x2029 || n == 0x202F
    || n == 0x205F || n == 0x3000
  }

  predicate SpaceFree(s: string) { forall i :: 0 <= i < |s| ==> !IsSpace(s[i]) }

  predicate HasSpecial(s: string) { exists i :: 0 <= i < |s| && IsSpecial(s[i]) }

  // ---------------------------------------------------------------- preprocess

  /** s.replace(c, " c "): every occurrence of c gets a space on each side. */
  function ReplaceChar(s: string, c: char): string
  {
    if s == [] then [] else (if s[0] == c then [' ', c, ' '] else [s[0]]) + ReplaceChar(s[1..], c)
  }

  /** What one character becomes once every character of cs has been padded. */
  function Block(x: char, cs: seq<char>): string
  {
    if x in cs then [' ', x, ' '] else [x]
  }

  /** s with every character of cs padded by a space on each side. */
  function PadWith(s: string, cs: seq<char>): string
  {
    if s == [] then [] else Block(s[0], cs) + PadWith(s[1..], cs)
  }

  /** The text preprocess produces. */
  function Pad(s: string): string { PadWith(s, Specials) }

  lemma {:induction false} ReplaceConcat(a: string, b: string, c: char)
    ensures ReplaceChar(a + b, c) == ReplaceChar(a, c) + ReplaceChar(b, c)
  {
    if a != [] {
      assert (a + b)[0] == a[0];
      assert (a + b)[1..] == a[1..] + b;
      ReplaceConcat(a[1..], b, c);
      var h := if a[0] == c then [' ', c, ' '] else [a[0]];
      assert ReplaceChar(a + b, c) == h + ReplaceChar(a[1..] + b, c);
    } else {
      assert a + b == b;
    }
  }

  lemma ReplaceSingle(x: char, c: char)
    ensures ReplaceChar([x], c) == if x == c then [' ', c, ' '] else [x]
  {
    assert [x][1..] == [];
  }

  lemma {:induction false} PadWithNothing(s: string)
    ensures PadWith(s, []) == s
  {
    if s != [] { PadWithNothing(s[1..]); }
  }

  /**
   * Replacing a further character c (not a space, not yet padded) in padded text
   * pads c as well: the spaces that earlier replacements inserted are left alone.
   */
  lemma {:induction false} ReplaceStep(s: string, cs: seq<char>, c: char)
    requires c != ' ' && c !in cs
    ensures ReplaceChar(PadWith(s, cs), c) == PadWith(s, cs + [c])
  {
    if s != [] {
      var x := s[0];
      ReplaceConcat(Block(x, cs), PadWith(s[1..], cs), c);
      ReplaceStep(s[1..], cs, c);
      if x in cs {
        assert [' ', x, ' '] == [' '] + [x] + [' '];
        ReplaceConcat([' '] + [x], [' '], c);
        ReplaceConcat([' '], [x], c);
        ReplaceSingle(' ', c);
        ReplaceSingle(x, c);
      } else {
        ReplaceSingle(x, c);
      }
    }
  }

  /**
   * preprocess (evaluator.py:7-11): one replace per structural character, in
   * order; the result pads every structural character of the input.
   */
  method Preprocess(code: string) returns (r: string)
    ensures r == Pad(code)
  {
    r := code;
    PadWithNothing(code);
    for i := 0 to |Specials|
      invariant r == PadWith(code, Specials[..i])
    {
      ReplaceStep(code, Specials[..i], Specials[i]);
      assert Specials[..i] + [Specials[i]] == Specials[..i + 1];
      r := ReplaceChar(r, Specials[i]);
    }
    assert Specials[..|Specials|] == Specials;
  }

  // ---------------------------------------------------------------- tokenize

  /**
   * str.split() on s, where word holds the characters of the token being read.
   */
  function Split(s: string, word: string): seq<string>
  {
    if s == [] then (if word == [] then [] else [word])
    else if IsSpace(s[0]) then (if word == [] then [] else [word]) + Split(s[1..], [])
    else Split(s[1..], word + [s[0]])
  }

  /** tokenize (evaluator.py:14-15). */
  function Tokenize(s: string): seq<string> { Split(s, []) }

  /** tokenize(preprocess(code)), the lexer as the script uses it. */
  function Lex(code: string): seq<string> { Tokenize(Pad(code)) }

  function Concat(ts: seq<string>): string
  {
    if ts == [] then [] else ts[0] + Concat(ts[1..])
  }

  function RemoveSpaces(s: string): string
  {
    if s == [] then [] else (if IsSpace(s[0]) then [] else [s[0]]) + RemoveSpaces(s[1..])
  }

  lemma {:induction false} SplitTokensWellFormed(s: string, word: string)
    requires SpaceFree(word)
    ensures forall t :: t in Split(s, word) ==> |t| > 0 && SpaceFree(t)
  {
    if s != [] {
      if IsSpace(s[0]) {
        SplitTokensWellFormed(s[1..], []);
      } else {
        SplitTokensWellFormed(s[1..], word + [s[0]]);
      }
    }
  }

  /** Every token is non-empty and holds no whitespace. */
  lemma TokensWellFormed(s: string)
    ensures forall t :: t in Tokenize(s) ==> |t| > 0 && SpaceFree(t)
  {
    SplitTokensWellFormed(s, []);
  }

  lemma {:induction false} SplitConcat(s: string, word: string)
    ensures Concat(Split(s, word)) == word + RemoveSpaces(s)
  {
    if s != [] {
      if IsSpace(s[0]) {
        SplitConcat(s[1..], []);
        if word != [] {
          var ts := [word] + Split(s[1..], []);
          assert ts[1..] == Split(s[1..], []);
          assert Concat(ts) == word + Concat(Split(s[1..], []));
        }
        assert RemoveSpaces(s) == [] + RemoveSpaces(s[1..]);
        assert [] + RemoveSpaces(s[1..]) == RemoveSpaces(s[1..]);
        assert word == [] ==> Split(s, word) == Split(s[1..], []);
      } else {
        SplitConcat(s[1..], word + [s[0]]);
      }
    } else if word != [] {
      assert [word][1..] == [];
    }
  }

  /** The tokens, put back together, are the input with its whitespace removed. */
  lemma TokensConcat(s: string)
    ensures Concat(Tokenize(s)) == RemoveSpaces(s)
  {
    SplitConcat(s, []);
  }

  lemma {:induction false} SplitWord(w: string, word: string)
    requires SpaceFree(w) && |word + w| > 0
    ensures Split(w, word) == [word + w]
  {
    if w != [] {
      assert !IsSpace(w[0]);
      assert word + w == (word + [w[0]]) + w[1..];
      SplitWord(w[1..], word + [w[0]]);
    } else {
      assert word + w == word;
    }
  }

  /** A non-empty text without whitespace is one token. */
  lemma TokenizeWord(w: string)
    requires |w| > 0 && SpaceFree(w)
    ensures Tokenize(w) == [w]
  {
    SplitWord(w, []);
    assert [] + w == w;
  }

  lemma {:induction false} SplitAtSpace(a: string, c: char, b: string, word: string)
    requires IsSpace(c)
    ensures Split(a + [c] + b, word) == Split(a, word) + Tokenize(b)
  {
    if a == [] {
      assert a + [c] + b == [c] + b;
      assert ([c] + b)[1..] == b;
    } else {
      assert (a + [c] + b)[0] == a[0];
      assert (a + [c] + b)[1..] == a[1..] + [c] + b;
      if IsSpace(a[0]) {
        SplitAtSpace(a[1..], c, b, []);
      } else {
        SplitAtSpace(a[1..], c, b, word + [a[0]]);
      }
    }
  }

  /**
   * A whitespace character splits the token list: with TokenizeWord this
   * determines tokenize completely.
   */
  lemma TokenizeAtSpace(a: string, c: char, b: string)
    requires IsSpace(c)
    ensures Tokenize(a + [c] + b) == Tokenize(a) + Tokenize(b)
  {
    SplitAtSpace(a, c, b, []);
  }

  // ---------------------------------------------------------------- lexer

  /**
   * Each structural character has whitespace (or an end of the text) on each
   * side: of two neighbouring characters, a structural one makes the other
   * whitespace.
   */
  ghost predicate Separated(s: string)
  {
    forall i :: 0 <= i < |s| - 1 ==>
      (IsSpecial(s[i]) ==> IsSpace(s[i + 1])) && (IsSpecial(s[i + 1]) ==> IsSpace(s[i]))
  }

  lemma SeparatedSuffix(s: string, k: nat)
    requires Separated(s) && k <= |s|
    ensures Separated(s[k..])
  {
    var t := s[k..];
    forall i | 0 <= i < |t| - 1
      ensures (IsSpecial(t[i]) ==> IsSpace(t[i + 1])) && (IsSpecial(t[i + 1]) ==> IsSpace(t[i]))
    {
      assert t[i] == s[k + i] && t[i + 1] == s[k + i + 1];
    }
  }

  lemma SeparatedConcat(a: string, b: string)
    requires Separated(a) && Separated(b)
    requires |a| > 0 && |b| > 0 ==>
      (IsSpecial(a[|a| - 1]) ==> IsSpace(b[0])) && (IsSpecial(b[0]) ==> IsSpace(a[|a| - 1]))
    ensures Separated(a + b)
  {
    var s := a + b;
    forall i | 0 <= i < |s| - 1
      ensures (IsSpecial(s[i]) ==> IsSpace(s[i + 1])) && (IsSpecial(s[i + 1]) ==> IsSpace(s[i]))
    {
      if i + 1 < |a| {
        assert s[i] == a[i] && s[i + 1] == a[i + 1];
      } else if i + 1 == |a| {
        assert s[i] == a[|a| - 1] && s[i + 1] == b[0];
      } else {
        assert s[i] == b[i - |a|] && s[i + 1] == b[i - |a| + 1];
      }
    }
  }

  lemma {:induction false} PadSeparated(s: string)
    ensures Separated(Pad(s))
    ensures |Pad(s)| > 0 ==> !IsSpecial(Pad(s)[0]) && !IsSpecial(Pad(s)[|Pad(s)| - 1])
  {
    if s != [] {
      var blk := Block(s[0], Specials);
      var rest := Pad(s[1..]);
      PadSeparated(s[1..]);
      SeparatedConcat(blk, rest);
      assert (blk + rest)[0] == blk[0];
      if rest == [] {
        assert blk + rest == blk;
      } else {
        assert (blk + rest)[|blk + rest| - 1] == rest[|rest| - 1];
      }
    }
  }

  /** A space-free stretch closed by whitespace that holds a structural character is that character alone. */
  lemma LoneSpecial(x: string, y: string)
    requires SpaceFree(x) && Separated(x + y)
    ensures HasSpecial(x) ==> |x| == 1
  {
    var z := x + y;
    forall j | 0 <= j < |x| && |x| >= 2
      ensures !IsSpecial(x[j])
    {
      if j < |x| - 1 {
        assert z[j] == x[j] && z[j + 1] == x[j + 1];
      } else {
        assert z[j - 1] == x[j - 1] && z[j] == x[j];
      }
    }
  }

  lemma {:induction false} SplitSpecialAlone(s: string, word: string)
    requires SpaceFree(word) && Separated(word + s)
    ensures forall t :: t in Split(s, word) && HasSpecial(t) ==> |t| == 1
  {
    if s == [] {
      assert word + s == word;
      LoneSpecial(word, []);
    } else if IsSpace(s[0]) {
      LoneSpecial(word, s);
      SeparatedSuffix(word + s, |word| + 1);
      assert (word + s)[|word| + 1..] == [] + s[1..];
      SplitSpecialAlone(s[1..], []);
    } else {
      assert (word + [s[0]]) + s[1..] == word + s;
      SplitSpecialAlone(s[1..], word + [s[0]]);
    }
  }

  /**
   * Every token of tokenize(preprocess(code)) is non-empty and free of
   * whitespace, and a token holding a structural character is exactly that
   * character.
   */
  lemma LexTokens(code: string)
    ensures forall t :: t in Lex(code) ==> |t| > 0 && SpaceFree(t)
    ensures forall t :: t in Lex(code) && HasSpecial(t) ==> |t| == 1 && IsSpecial(t[0])
  {
    TokensWellFormed(Pad(code));
    PadSeparated(code);
    assert [] + Pad(code) == Pad(code);
    SplitSpecialAlone(Pad(code), []);
  }

  lemma {:induction false} RemoveSpacesConcat(a: string, b: string)
    ensures RemoveSpaces(a + b) == RemoveSpaces(a) + RemoveSpaces(b)
  {
    if a != [] {
      assert (a + b)[0] == a[0];
      assert (a + b)[1..] == a[1..] + b;
      RemoveSpacesConcat(a[1..], b);
      var h := if IsSpace(a[0]) then [] else [a[0]];
      assert RemoveSpaces(a + b) == h + RemoveSpaces(a[1..] + b);
    } else {
      assert a + b == b;
    }
  }

  lemma {:induction false} PadKeepsText(s: string)
    ensures RemoveSpaces(Pad(s)) == RemoveSpaces(s)
  {
    if s != [] {
      var x := s[0];
      RemoveSpacesConcat(Block(x, Specials), Pad(s[1..]));
      PadKeepsText(s[1..]);
      if IsSpecial(x) {
        assert [' ', x, ' '] == [' '] + [x] + [' '];
        RemoveSpacesConcat([' '] + [x], [' ']);
        RemoveSpacesConcat([' '], [x]);
        assert RemoveSpaces([x]) == [x] by { assert [x][1..] == []; }
        assert RemoveSpaces([' ']) == [] by { assert [' '][1..] == []; }
      }
      RemoveSpacesConcat([x], s[1..]);
      assert s == [x] + s[1..];
    }
  }

  /** The tokens of code concatenate back to code with its whitespace removed. */
  lemma LexConcat(code: string)
    ensures Concat(Lex(code)) == RemoveSpaces(code)
  {
    TokensConcat(Pad(code));
    PadKeepsText(code);
  }
}

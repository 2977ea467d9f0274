/**
 * What `compile_expr` makes of a few short sources: precedence and
 * associativity of the ladder, the error messages, and how a character
 * the lexer does not know ends the input.
 */
module CompileFacts {
  import opened Wrappers
  import opened Ast
  import opened Lexical
  import opened Grammar
  import opened Evaluator
  import opened RoundTrip

  // ---------------------------------------------------------------------
  // Climbing the ladder
  // ---------------------------------------------------------------------

  /**
   * A level above `k0` adds nothing to an operand that level `k0` has read
   * when the token after it is an operator of none of the levels between.
   */
  lemma {:induction false} LevelPasses(ts: seq<Token>, k0: nat, k: nat, i: nat, x: Expr, j: nat)
    requires k0 <= k <= MaxLevel && At(ts, i)
    requires PLevel(ts, k0, i) == Parsed(x, j)
    requires forall n :: k0 < n <= k ==> BinOpOf(n, ts[j]).None?
    ensures PLevel(ts, k, i) == Parsed(x, j)
    decreases k
  {
    if k > k0 {
      LevelPasses(ts, k0, k - 1, i, x, j);
      assert BinOpOf(k, ts[j]).None?;
    }
  }

  /** A failure at level `k0` is the failure of every level above it. */
  lemma {:induction false} LevelFailsUp(ts: seq<Token>, k0: nat, k: nat, i: nat, m: string)
    requires k0 <= k <= MaxLevel && At(ts, i)
    requires PLevel(ts, k0, i) == Failed(m)
    ensures PLevel(ts, k, i) == Failed(m)
    decreases k
  {
    if k > k0 {
      LevelFailsUp(ts, k0, k - 1, i, m);
    }
  }

  // ---------------------------------------------------------------------
  // Lexing
  // ---------------------------------------------------------------------

  /** A lone digit after white space from `i`, followed by neither a digit nor `.`, is that number. */
  lemma LexDigit(src: string, i: nat, p: nat)
    requires i <= p < |src| && SpaceEnd(src, i) == p && IsDigit(src[p])
    requires p + 1 < |src| ==> !IsDigit(src[p + 1]) && src[p + 1] != '.'
    ensures Lex(src, i) == Lexed(Number(DigitValue(src[p]) as real), p + 1, None)
  {
    assert DigitEnd(src, p) == p + 1;
    assert DigitsValue(src, p, p + 1) == DigitValue(src[p]);
  }

  /** A single-character token after white space from `i`, one that no two-character operator starts with. */
  lemma LexPunct(src: string, i: nat, p: nat, t: Token)
    requires i <= p < |src| && SpaceEnd(src, i) == p && Punct(src[p]) == Some(t)
    requires src[p] !in {'<', '>', '!', '&', '|'}
    ensures Lex(src, i) == Lexed(t, p + 1, None)
  {
  }

  /**
   * A character that starts no token, after white space from `i`: it is
   * consumed and the lexer reports end of input.
   */
  lemma LexBad(src: string, i: nat, p: nat)
    requires i <= p < |src| && SpaceEnd(src, i) == p
    requires !IsDigit(src[p]) && !IsIdentStart(src[p]) && Punct(src[p]).None?
    requires src[p] !in {'<', '>', '!', '&', '|', '='}
    ensures Lex(src, i) == Lexed(Eof, p + 1, Some(src[p]))
  {
    assert MultiCharOperator(src, p).None?;
  }

  /** The digit `v` and then a one-character operator at `p`, `p + 1`. */
  lemma DigitThenPunct(src: string, p: nat, d: char, c: char, v: real, t: Token)
    requires p + 1 < |src| && src[p] == d && src[p + 1] == c
    requires IsDigit(d) && DigitValue(d) as real == v && Punct(c) == Some(t)
    requires c !in {'<', '>', '!', '&', '|', '.'} && !IsDigit(c)
    ensures Lex(src, p) == Lexed(Number(v), p + 1, None)
    ensures Lex(src, p + 1) == Lexed(t, p + 2, None)
  {
    LexDigit(src, p, p);
    LexPunct(src, p + 1, p + 1, t);
  }

  /** The digit `v` ends the source. */
  lemma LastDigit(src: string, p: nat, v: real)
    requires p + 1 == |src| && IsDigit(src[p]) && DigitValue(src[p]) as real == v
    ensures Lex(src, p) == Lexed(Number(v), p + 1, None) && Lex(src, p + 1).tok == Eof
  {
    LexDigit(src, p, p);
    LexAtEnd(src);
  }

  /** At the end of the source the lexer reports end of input. */
  lemma LexAtEnd(src: string)
    ensures Lex(src, |src|).tok == Eof
  {
  }

  /** The stream at `p`: the token read there, then the stream where it ends. */
  lemma TokensScan(src: string, p: nat, t: Token, q: nat)
    requires p <= |src| && Lex(src, p) == Lexed(t, q, None) && t != Eof
    ensures Tokens(Scan(src, p)) == [t] + Tokens(Scan(src, q))
  {
    TokensCons(Lex(src, p), Scan(src, q));
  }

  /** The stream at `p` when the lexer finds nothing more there. */
  lemma TokensEnd(src: string, p: nat)
    requires p <= |src| && Lex(src, p).tok == Eof
    ensures Tokens(Scan(src, p)) == [Eof]
  {
  }

  /** Five one-character tokens in a row, then the end of input. */
  lemma TokensOfFive(src: string, t0: Token, t1: Token, t2: Token, t3: Token, t4: Token)
    requires |src| == 5 && t0 != Eof && t1 != Eof && t2 != Eof && t3 != Eof && t4 != Eof
    requires Lex(src, 0) == Lexed(t0, 1, None) && Lex(src, 1) == Lexed(t1, 2, None)
    requires Lex(src, 2) == Lexed(t2, 3, None) && Lex(src, 3) == Lexed(t3, 4, None)
    requires Lex(src, 4) == Lexed(t4, 5, None) && Lex(src, 5).tok == Eof
    ensures Tokens(Scan(src, 0)) == [t0, t1, t2, t3, t4, Eof]
  {
    var l5 := Lex(src, 5);
    assert Scan(src, 5) == [l5];
    ScanStepLexed(src, 4, t4, 5);
    ScanStepLexed(src, 3, t3, 4);
    ScanStepLexed(src, 2, t2, 3);
    ScanStepLexed(src, 1, t1, 2);
    ScanStepLexed(src, 0, t0, 1);
    FiveLexed(Scan(src, 0), Lexed(t0, 1, None), Lexed(t1, 2, None), Lexed(t2, 3, None), Lexed(t3, 4, None), Lexed(t4, 5, None), l5);
  }

  /** A stream put together one item at a time from six items. */
  lemma FiveLexed(s: seq<Lexed>, l0: Lexed, l1: Lexed, l2: Lexed, l3: Lexed, l4: Lexed, l5: Lexed)
    requires s == [l0] + ([l1] + ([l2] + ([l3] + ([l4] + [l5]))))
    ensures Tokens(s) == [l0.tok, l1.tok, l2.tok, l3.tok, l4.tok, l5.tok]
  {
    assert s == [l0, l1, l2, l3, l4, l5];
  }

  /** Three one-character tokens from `p`: the stream there starts with them. */
  lemma ScanRun(src: string, p: nat, t0: Token, t1: Token, t2: Token)
    requires p + 3 <= |src| && t0 != Eof && t1 != Eof && t2 != Eof
    requires Lex(src, p) == Lexed(t0, p + 1, None) && Lex(src, p + 1) == Lexed(t1, p + 2, None)
    requires Lex(src, p + 2) == Lexed(t2, p + 3, None)
    ensures Scan(src, p) == [Lexed(t0, p + 1, None), Lexed(t1, p + 2, None), Lexed(t2, p + 3, None)] + Scan(src, p + 3)
  {
    var rest := Scan(src, p + 3);
    ScanStepLexed(src, p + 2, t2, p + 3);
    ScanStepLexed(src, p + 1, t1, p + 2);
    ScanStepLexed(src, p, t0, p + 1);
    Cons3(Lexed(t0, p + 1, None), Lexed(t1, p + 2, None), Lexed(t2, p + 3, None), rest);
  }

  /** Three elements put in front one by one. */
  lemma Cons3<T>(a: T, b: T, c: T, rest: seq<T>)
    ensures [a] + ([b] + ([c] + rest)) == [a, b, c] + rest
  {
  }

  /** Seven one-character tokens in a row, then the end of input. */
  lemma TokensOfSeven(src: string, t0: Token, t1: Token, t2: Token, t3: Token, t4: Token, t5: Token, t6: Token)
    requires |src| == 7 && t0 != Eof && t1 != Eof && t2 != Eof && t3 != Eof && t4 != Eof && t5 != Eof && t6 != Eof
    requires Lex(src, 0) == Lexed(t0, 1, None) && Lex(src, 1) == Lexed(t1, 2, None)
    requires Lex(src, 2) == Lexed(t2, 3, None) && Lex(src, 3) == Lexed(t3, 4, None)
    requires Lex(src, 4) == Lexed(t4, 5, None) && Lex(src, 5) == Lexed(t5, 6, None)
    requires Lex(src, 6) == Lexed(t6, 7, None) && Lex(src, 7).tok == Eof
    ensures Tokens(Scan(src, 0)) == [t0, t1, t2, t3, t4, t5, t6, Eof]
  {
    var l7 := Lex(src, 7);
    assert Scan(src, 7) == [l7];
    ScanStepLexed(src, 6, t6, 7);
    ScanRun(src, 3, t3, t4, t5);
    ScanRun(src, 0, t0, t1, t2);
    var ls := [Lexed(t0, 1, None), Lexed(t1, 2, None), Lexed(t2, 3, None), Lexed(t3, 4, None),
               Lexed(t4, 5, None), Lexed(t5, 6, None), Lexed(t6, 7, None), l7];
    SevenLexed(Scan(src, 0), ls, Lexed(t0, 1, None), Lexed(t1, 2, None), Lexed(t2, 3, None), Lexed(t3, 4, None),
               Lexed(t4, 5, None), Lexed(t5, 6, None), Lexed(t6, 7, None), l7);
  }

  /** A stream put together from two runs of three, one more item and the end is those eight items. */
  lemma SevenLexed(s: seq<Lexed>, ls: seq<Lexed>, l0: Lexed, l1: Lexed, l2: Lexed, l3: Lexed, l4: Lexed, l5: Lexed, l6: Lexed, l7: Lexed)
    requires s == [l0, l1, l2] + ([l3, l4, l5] + ([l6] + [l7]))
    requires ls == [l0, l1, l2, l3, l4, l5, l6, l7]
    ensures s == ls && Tokens(s) == [l0.tok, l1.tok, l2.tok, l3.tok, l4.tok, l5.tok, l6.tok, l7.tok]
  {
    assert s == ls;
  }

  /** What the lexer reads in `1 $`. */
  lemma LexesOfTrailingDollar(src: string)
    requires |src| == 3 && src[0] == '1' && src[1] == ' ' && src[2] == '$'
    ensures Lex(src, 0) == Lexed(Number(1.0), 1, None)
    ensures Lex(src, 1) == Lexed(Eof, 3, Some('$'))
  {
    LexDigit(src, 0, 0);
    assert SpaceEnd(src, 1) == 2;
    LexBad(src, 1, 2);
  }

  /** The tokens of `1 $`: the `$` ends the input. */
  lemma TokensOfTrailingDollar(src: string)
    requires |src| == 3 && src[0] == '1' && src[1] == ' ' && src[2] == '$'
    ensures Tokens(Scan(src, 0)) == [Number(1.0), Eof]
  {
    LexesOfTrailingDollar(src);
    TokensScan(src, 0, Number(1.0), 1);
    TokensEnd(src, 1);
  }

  /** What the lexer reads in `1 + $`. */
  lemma LexesOfDanglingPlus(src: string)
    requires |src| == 5 && src[0] == '1' && src[1] == ' ' && src[2] == '+' && src[3] == ' ' && src[4] == '$'
    ensures Lex(src, 0) == Lexed(Number(1.0), 1, None)
    ensures Lex(src, 1) == Lexed(Plus, 3, None)
    ensures Lex(src, 3) == Lexed(Eof, 5, Some('$'))
  {
    LexDigit(src, 0, 0);
    assert SpaceEnd(src, 1) == 2;
    LexPunct(src, 1, 2, Plus);
    assert SpaceEnd(src, 3) == 4;
    LexBad(src, 3, 4);
  }

  /** The tokens of `1 + $`. */
  lemma TokensOfDanglingPlus(src: string)
    requires |src| == 5 && src[0] == '1' && src[1] == ' ' && src[2] == '+' && src[3] == ' ' && src[4] == '$'
    ensures Tokens(Scan(src, 0)) == [Number(1.0), Plus, Eof]
  {
    LexesOfDanglingPlus(src);
    TokensEnd(src, 3);
    TokensScan(src, 1, Plus, 3);
    TokensScan(src, 0, Number(1.0), 1);
  }

  /** What the lexer reads in `1 2`. */
  lemma LexesOfTwoNumbers(src: string)
    requires |src| == 3 && src[0] == '1' && src[1] == ' ' && src[2] == '2'
    ensures Lex(src, 0) == Lexed(Number(1.0), 1, None)
    ensures Lex(src, 1) == Lexed(Number(2.0), 3, None)
    ensures Lex(src, 3).tok == Eof
  {
    LexDigit(src, 0, 0);
    assert SpaceEnd(src, 1) == 2;
    LexDigit(src, 1, 2);
  }

  /** The tokens of `1 2`. */
  lemma TokensOfTwoNumbers(src: string)
    requires |src| == 3 && src[0] == '1' && src[1] == ' ' && src[2] == '2'
    ensures Tokens(Scan(src, 0)) == [Number(1.0), Number(2.0), Eof]
  {
    LexesOfTwoNumbers(src);
    TokensEnd(src, 3);
    TokensScan(src, 1, Number(2.0), 3);
    TokensScan(src, 0, Number(1.0), 1);
  }

  /** What the lexer reads in `1+2*3`. */
  lemma LexesOfSum(src: string)
    requires |src| == 5 && src[0] == '1' && src[1] == '+' && src[2] == '2' && src[3] == '*' && src[4] == '3'
    ensures Lex(src, 0) == Lexed(Number(1.0), 1, None) && Lex(src, 1) == Lexed(Plus, 2, None)
    ensures Lex(src, 2) == Lexed(Number(2.0), 3, None) && Lex(src, 3) == Lexed(Star, 4, None)
    ensures Lex(src, 4) == Lexed(Number(3.0), 5, None) && Lex(src, 5).tok == Eof
  {
    LexesOfSumHead(src);
    LastDigit(src, 4, 3.0);
  }

  /** What the lexer reads in the `1+2*` that opens `1+2*3`. */
  lemma LexesOfSumHead(src: string)
    requires |src| == 5 && src[0] == '1' && src[1] == '+' && src[2] == '2' && src[3] == '*'
    ensures Lex(src, 0) == Lexed(Number(1.0), 1, None) && Lex(src, 1) == Lexed(Plus, 2, None)
    ensures Lex(src, 2) == Lexed(Number(2.0), 3, None) && Lex(src, 3) == Lexed(Star, 4, None)
  {
    DigitThenPunct(src, 0, '1', '+', 1.0, Plus);
    DigitThenPunct(src, 2, '2', '*', 2.0, Star);
  }

  /** The tokens of `1+2*3`. */
  lemma TokensOfSum(src: string)
    requires |src| == 5 && src[0] == '1' && src[1] == '+' && src[2] == '2' && src[3] == '*' && src[4] == '3'
    ensures Tokens(Scan(src, 0)) == [Number(1.0), Plus, Number(2.0), Star, Number(3.0), Eof]
  {
    LexesOfSum(src);
    TokensOfFive(src, Number(1.0), Plus, Number(2.0), Star, Number(3.0));
  }

  /** What the lexer reads in `0?2:3`. */
  lemma LexesOfChoice(src: string)
    requires |src| == 5 && src[0] == '0' && src[1] == '?' && src[2] == '2' && src[3] == ':' && src[4] == '3'
    ensures Lex(src, 0) == Lexed(Number(0.0), 1, None) && Lex(src, 1) == Lexed(Question, 2, None)
    ensures Lex(src, 2) == Lexed(Number(2.0), 3, None) && Lex(src, 3) == Lexed(Colon, 4, None)
    ensures Lex(src, 4) == Lexed(Number(3.0), 5, None) && Lex(src, 5).tok == Eof
  {
    DigitThenPunct(src, 0, '0', '?', 0.0, Question);
    DigitThenPunct(src, 2, '2', ':', 2.0, Colon);
    LastDigit(src, 4, 3.0);
  }

  /** The tokens of `0?2:3`. */
  lemma TokensOfChoice(src: string)
    requires |src| == 5 && src[0] == '0' && src[1] == '?' && src[2] == '2' && src[3] == ':' && src[4] == '3'
    ensures Tokens(Scan(src, 0)) == [Number(0.0), Question, Number(2.0), Colon, Number(3.0), Eof]
  {
    LexesOfChoice(src);
    TokensOfFive(src, Number(0.0), Question, Number(2.0), Colon, Number(3.0));
  }

  /** What the lexer reads in the first half of `(1+2)*3`. */
  lemma LexesOfParensHead(src: string)
    requires |src| == 7 && src[0] == '(' && src[1] == '1' && src[2] == '+' && src[3] == '2' && src[4] == ')'
    ensures Lex(src, 0) == Lexed(LParen, 1, None) && Lex(src, 1) == Lexed(Number(1.0), 2, None)
    ensures Lex(src, 2) == Lexed(Plus, 3, None) && Lex(src, 3) == Lexed(Number(2.0), 4, None)
  {
    LexPunct(src, 0, 0, LParen);
    LexDigit(src, 1, 1);
    LexPunct(src, 2, 2, Plus);
    LexDigit(src, 3, 3);
  }

  /** What the lexer reads in the second half of `(1+2)*3`. */
  lemma LexesOfParensTail(src: string)
    requires |src| == 7 && src[4] == ')' && src[5] == '*' && src[6] == '3'
    ensures Lex(src, 4) == Lexed(RParen, 5, None) && Lex(src, 5) == Lexed(Star, 6, None)
    ensures Lex(src, 6) == Lexed(Number(3.0), 7, None) && Lex(src, 7).tok == Eof
  {
    LexPunct(src, 4, 4, RParen);
    LexPunct(src, 5, 5, Star);
    LexDigit(src, 6, 6);
  }

  /** The tokens of `(1+2)*3`. */
  lemma TokensOfParens(src: string)
    requires |src| == 7 && src[0] == '(' && src[1] == '1' && src[2] == '+' && src[3] == '2'
    requires src[4] == ')' && src[5] == '*' && src[6] == '3'
    ensures Tokens(Scan(src, 0)) == [LParen, Number(1.0), Plus, Number(2.0), RParen, Star, Number(3.0), Eof]
  {
    LexesOfParensHead(src);
    LexesOfParensTail(src);
    TokensOfSeven(src, LParen, Number(1.0), Plus, Number(2.0), RParen, Star, Number(3.0));
  }

  /** What the lexer reads in `8-4-2`. */
  lemma LexesOfDifference(src: string)
    requires |src| == 5 && src[0] == '8' && src[1] == '-' && src[2] == '4' && src[3] == '-' && src[4] == '2'
    ensures Lex(src, 0) == Lexed(Number(8.0), 1, None) && Lex(src, 1) == Lexed(Minus, 2, None)
    ensures Lex(src, 2) == Lexed(Number(4.0), 3, None) && Lex(src, 3) == Lexed(Minus, 4, None)
    ensures Lex(src, 4) == Lexed(Number(2.0), 5, None) && Lex(src, 5).tok == Eof
  {
    DigitThenPunct(src, 0, '8', '-', 8.0, Minus);
    DigitThenPunct(src, 2, '4', '-', 4.0, Minus);
    LastDigit(src, 4, 2.0);
  }

  /** The tokens of `8-4-2`. */
  lemma TokensOfDifference(src: string)
    requires |src| == 5 && src[0] == '8' && src[1] == '-' && src[2] == '4' && src[3] == '-' && src[4] == '2'
    ensures Tokens(Scan(src, 0)) == [Number(8.0), Minus, Number(4.0), Minus, Number(2.0), Eof]
  {
    LexesOfDifference(src);
    TokensOfFive(src, Number(8.0), Minus, Number(4.0), Minus, Number(2.0));
  }

  /** The tokens of `x`. */
  lemma TokensOfUnknownName(src: string)
    requires |src| == 1 && src[0] == 'x'
    ensures Tokens(Scan(src, 0)) == [Ident("x"), Eof]
  {
    LexesOfUnknownName(src);
    TokensScan(src, 0, Ident("x"), 1);
    TokensEnd(src, 1);
  }

  /** What the lexer reads in `x`. */
  lemma LexesOfUnknownName(src: string)
    requires |src| == 1 && src[0] == 'x'
    ensures Lex(src, 0) == Lexed(Ident("x"), 1, None) && Lex(src, 1).tok == Eof
  {
    assert SpaceEnd(src, 0) == 0;
    assert IdentEnd(src, 0) == 1;
    assert src[0..1] == "x";
    LexAtEnd(src);
  }

  // ---------------------------------------------------------------------
  // Parsing
  // ---------------------------------------------------------------------

  /** A number is a complete operand at the lowest level. */
  lemma NumberOperand(ts: seq<Token>, i: nat, v: real)
    requires At(ts, i) && ts[i] == Number(v)
    ensures PLevel(ts, 0, i) == Parsed(Num(v), i + 1)
  {
    assert PUnary(ts, i) == PPrimary(ts, i);
  }

  /** A name that is no variable and not followed by `(`: "Unknown identifier". */
  lemma UnknownOperand(ts: seq<Token>, i: nat, name: string)
    requires At(ts, i) && ts[i] == Ident(name) && ts[i + 1] != LParen && VarOf(name).None?
    ensures PLevel(ts, 0, i) == Failed(UnknownIdentifier(name))
  {
    assert PUnary(ts, i) == PPrimary(ts, i);
  }

  /** End of input where an operand should start: "Expected expression". */
  lemma MissingOperand(ts: seq<Token>, i: nat)
    requires At(ts, i) && ts[i] == Eof
    ensures PLevel(ts, 0, i) == Failed(ExpectedExpression)
  {
    assert PUnary(ts, i) == PPrimary(ts, i);
  }

  /** Level `k` reads an operand one level down, then runs its loop. */
  lemma LevelStart(ts: seq<Token>, k: nat, i: nat, x: Expr, j: nat)
    requires 1 <= k <= MaxLevel && At(ts, i) && PLevel(ts, k - 1, i) == Parsed(x, j)
    ensures PLevel(ts, k, i) == PLevelRest(ts, k, x, j)
  {
  }

  /** One round of level `k`'s loop: an operator of the level and the next operand. */
  lemma LevelRound(ts: seq<Token>, k: nat, x: Expr, j: nat, op: BinOp, y: Expr, l: nat)
    requires 1 <= k <= MaxLevel && At(ts, j) && BinOpOf(k, ts[j]) == Some(op)
    requires At(ts, j + 1) && PLevel(ts, k - 1, j + 1) == Parsed(y, l)
    ensures PLevelRest(ts, k, x, j) == PLevelRest(ts, k, Binary(op, x, y), l)
  {
  }

  /** Level `k`'s loop stops at a token that is not one of its operators. */
  lemma LevelStop(ts: seq<Token>, k: nat, x: Expr, j: nat)
    requires 1 <= k <= MaxLevel && At(ts, j) && BinOpOf(k, ts[j]).None?
    ensures PLevelRest(ts, k, x, j) == Parsed(x, j)
  {
  }

  /** `cond ? yes : no`. */
  lemma CondChoice(ts: seq<Token>, i: nat, c: Expr, j: nat, y: Expr, k: nat, n: Expr, l: nat)
    requires At(ts, i) && PLevel(ts, MaxLevel, i) == Parsed(c, j) && ts[j] == Question
    requires At(ts, j + 1) && PExpr(ts, j + 1) == Parsed(y, k) && ts[k] == Colon
    requires At(ts, k + 1) && PCond(ts, k + 1) == Parsed(n, l)
    ensures PExpr(ts, i) == Parsed(Ternary(c, y, n), l)
  {
  }

  /** An expression without `?` is its top binary level. */
  lemma CondPlain(ts: seq<Token>, i: nat, c: Expr, j: nat)
    requires At(ts, i) && PLevel(ts, MaxLevel, i) == Parsed(c, j) && ts[j] != Question
    ensures PExpr(ts, i) == Parsed(c, j) && PCond(ts, i) == Parsed(c, j)
  {
  }

  /** A lone number is a complete expression. */
  lemma ParseSingleNumber(ts: seq<Token>)
    requires ts == [Number(1.0), Eof]
    ensures PExpr(ts, 0) == Parsed(Num(1.0), 1)
  {
    NumberOperand(ts, 0, 1.0);
    LevelPasses(ts, 0, MaxLevel, 0, Num(1.0), 1);
    CondPlain(ts, 0, Num(1.0), 1);
  }

  /** Two numbers in a row: the expression ends after the first. */
  lemma ParseTwoNumbers(ts: seq<Token>)
    requires ts == [Number(1.0), Number(2.0), Eof]
    ensures PExpr(ts, 0) == Parsed(Num(1.0), 1)
  {
    NumberOperand(ts, 0, 1.0);
    LevelPasses(ts, 0, MaxLevel, 0, Num(1.0), 1);
    CondPlain(ts, 0, Num(1.0), 1);
  }

  /** A lone name that is no variable fails as an unknown identifier. */
  lemma ParseUnknownName(ts: seq<Token>)
    requires ts == [Ident("x"), Eof]
    ensures PExpr(ts, 0) == Failed(UnknownIdentifier("x"))
  {
    assert VarOf("x").None?;
    UnknownOperand(ts, 0, "x");
    LevelFailsUp(ts, 0, MaxLevel, 0, UnknownIdentifier("x"));
  }

  /** The parse of `1 + $`'s tokens. */
  lemma ParseDanglingPlus(ts: seq<Token>)
    requires ts == [Number(1.0), Plus, Eof]
    ensures PExpr(ts, 0) == Failed(ExpectedExpression)
  {
    NumberOperand(ts, 0, 1.0);
    LevelPasses(ts, 0, 1, 0, Num(1.0), 1);
    LevelStart(ts, 2, 0, Num(1.0), 1);
    MissingOperand(ts, 2);
    LevelFailsUp(ts, 0, 1, 2, ExpectedExpression);
    assert PLevel(ts, 2, 0) == Failed(ExpectedExpression);
    LevelFailsUp(ts, 2, MaxLevel, 0, ExpectedExpression);
  }

  /** The tokens of `1+2*3` read as `1+(2*3)`. */
  lemma ParseSum(ts: seq<Token>)
    requires ts == [Number(1.0), Plus, Number(2.0), Star, Number(3.0), Eof]
    ensures PExpr(ts, 0) == Parsed(Binary(Add, Num(1.0), Binary(Mul, Num(2.0), Num(3.0))), 5)
  {
    var prod := Binary(Mul, Num(2.0), Num(3.0));
    var sum := Binary(Add, Num(1.0), prod);
    NumberOperand(ts, 0, 1.0);
    LevelStart(ts, 1, 0, Num(1.0), 1);
    LevelStop(ts, 1, Num(1.0), 1);
    NumberOperand(ts, 2, 2.0);
    LevelStart(ts, 1, 2, Num(2.0), 3);
    NumberOperand(ts, 4, 3.0);
    LevelRound(ts, 1, Num(2.0), 3, Mul, Num(3.0), 5);
    LevelStop(ts, 1, prod, 5);
    LevelStart(ts, 2, 0, Num(1.0), 1);
    LevelRound(ts, 2, Num(1.0), 1, Add, prod, 5);
    LevelStop(ts, 2, sum, 5);
    LevelPasses(ts, 2, MaxLevel, 0, sum, 5);
    CondPlain(ts, 0, sum, 5);
  }

  /** The tokens of `0?2:3` read as a choice. */
  lemma ParseChoice(ts: seq<Token>)
    requires ts == [Number(0.0), Question, Number(2.0), Colon, Number(3.0), Eof]
    ensures PExpr(ts, 0) == Parsed(Ternary(Num(0.0), Num(2.0), Num(3.0)), 5)
  {
    NumberOperand(ts, 0, 0.0);
    LevelPasses(ts, 0, MaxLevel, 0, Num(0.0), 1);
    NumberOperand(ts, 2, 2.0);
    LevelPasses(ts, 0, MaxLevel, 2, Num(2.0), 3);
    CondPlain(ts, 2, Num(2.0), 3);
    NumberOperand(ts, 4, 3.0);
    LevelPasses(ts, 0, MaxLevel, 4, Num(3.0), 5);
    CondPlain(ts, 4, Num(3.0), 5);
    CondChoice(ts, 0, Num(0.0), 1, Num(2.0), 3, Num(3.0), 5);
  }

  /** A parenthesised expression is a complete operand at the lowest level. */
  lemma ParenOperand(ts: seq<Token>, i: nat, x: Expr, j: nat)
    requires At(ts, i) && ts[i] == LParen && At(ts, i + 1) && PExpr(ts, i + 1) == Parsed(x, j) && ts[j] == RParen
    ensures PLevel(ts, 0, i) == Parsed(x, j + 1)
  {
    assert PUnary(ts, i) == PPrimary(ts, i);
  }

  /** The tokens of `(1+2)*3` read as `(1+2)*3`: the parentheses override precedence. */
  lemma ParseParens(ts: seq<Token>)
    requires ts == [LParen, Number(1.0), Plus, Number(2.0), RParen, Star, Number(3.0), Eof]
    ensures PExpr(ts, 0) == Parsed(Binary(Mul, Binary(Add, Num(1.0), Num(2.0)), Num(3.0)), 7)
  {
    var sum := Binary(Add, Num(1.0), Num(2.0));
    var prod := Binary(Mul, sum, Num(3.0));
    ParenthesisedSum(ts);
    ParenOperand(ts, 0, sum, 4);
    LevelStart(ts, 1, 0, sum, 5);
    NumberOperand(ts, 6, 3.0);
    LevelRound(ts, 1, sum, 5, Mul, Num(3.0), 7);
    LevelStop(ts, 1, prod, 7);
    LevelPasses(ts, 1, MaxLevel, 0, prod, 7);
    CondPlain(ts, 0, prod, 7);
  }

  /** In the tokens of `(1+2)*3`, the part inside the parentheses is the sum `1+2`. */
  lemma ParenthesisedSum(ts: seq<Token>)
    requires ts == [LParen, Number(1.0), Plus, Number(2.0), RParen, Star, Number(3.0), Eof]
    ensures PExpr(ts, 1) == Parsed(Binary(Add, Num(1.0), Num(2.0)), 4)
  {
    var sum := Binary(Add, Num(1.0), Num(2.0));
    NumberOperand(ts, 1, 1.0);
    LevelStart(ts, 1, 1, Num(1.0), 2);
    LevelStop(ts, 1, Num(1.0), 2);
    NumberOperand(ts, 3, 2.0);
    LevelStart(ts, 1, 3, Num(2.0), 4);
    LevelStop(ts, 1, Num(2.0), 4);
    LevelStart(ts, 2, 1, Num(1.0), 2);
    LevelRound(ts, 2, Num(1.0), 2, Add, Num(2.0), 4);
    LevelStop(ts, 2, sum, 4);
    LevelPasses(ts, 2, MaxLevel, 1, sum, 4);
    CondPlain(ts, 1, sum, 4);
  }

  /** The tokens of `8-4-2` read as `(8-4)-2`: a binary level folds to the left. */
  lemma ParseDifference(ts: seq<Token>)
    requires ts == [Number(8.0), Minus, Number(4.0), Minus, Number(2.0), Eof]
    ensures PExpr(ts, 0) == Parsed(Binary(Sub, Binary(Sub, Num(8.0), Num(4.0)), Num(2.0)), 5)
  {
    var first := Binary(Sub, Num(8.0), Num(4.0));
    var second := Binary(Sub, first, Num(2.0));
    NumberOperand(ts, 0, 8.0);
    LevelStart(ts, 1, 0, Num(8.0), 1);
    LevelStop(ts, 1, Num(8.0), 1);
    NumberOperand(ts, 2, 4.0);
    LevelStart(ts, 1, 2, Num(4.0), 3);
    LevelStop(ts, 1, Num(4.0), 3);
    NumberOperand(ts, 4, 2.0);
    LevelStart(ts, 1, 4, Num(2.0), 5);
    LevelStop(ts, 1, Num(2.0), 5);
    LevelStart(ts, 2, 0, Num(8.0), 1);
    LevelRound(ts, 2, Num(8.0), 1, Sub, Num(4.0), 3);
    LevelRound(ts, 2, first, 3, Sub, Num(2.0), 5);
    LevelStop(ts, 2, second, 5);
    LevelPasses(ts, 2, MaxLevel, 0, second, 5);
    CondPlain(ts, 0, second, 5);
  }

  /** The tokens of `1?2:0?3:4` read as `1?2:(0?3:4)`: the choice groups to the right. */
  lemma ParseNestedChoice(ts: seq<Token>)
    requires ts == [Number(1.0), Question, Number(2.0), Colon, Number(0.0), Question, Number(3.0), Colon, Number(4.0), Eof]
    ensures PExpr(ts, 0) == Parsed(Ternary(Num(1.0), Num(2.0), Ternary(Num(0.0), Num(3.0), Num(4.0))), 9)
  {
    var inner := Ternary(Num(0.0), Num(3.0), Num(4.0));
    NumberAlone(ts, 0, 1.0);
    NumberAlone(ts, 2, 2.0);
    InnerChoice(ts);
    CondChoice(ts, 0, Num(1.0), 1, Num(2.0), 3, inner, 9);
  }

  /** In the tokens of `1?2:0?3:4`, the part after the first `:` is the choice `0?3:4`. */
  lemma InnerChoice(ts: seq<Token>)
    requires ts == [Number(1.0), Question, Number(2.0), Colon, Number(0.0), Question, Number(3.0), Colon, Number(4.0), Eof]
    ensures PCond(ts, 4) == Parsed(Ternary(Num(0.0), Num(3.0), Num(4.0)), 9)
  {
    NumberAlone(ts, 4, 0.0);
    NumberAlone(ts, 6, 3.0);
    NumberAlone(ts, 8, 4.0);
    CondChoice(ts, 4, Num(0.0), 5, Num(3.0), 7, Num(4.0), 9);
    assert PCond(ts, 4) == PExpr(ts, 4);
  }

  /**
   * A number followed by `?` or by a token that ends expressions is what
   * the top binary level reads; before a closer it is the whole expression.
   */
  lemma NumberAlone(ts: seq<Token>, i: nat, v: real)
    requires At(ts, i) && ts[i] == Number(v) && At(ts, i + 1) && (IsCloser(ts[i + 1]) || ts[i + 1] == Question)
    ensures PLevel(ts, MaxLevel, i) == Parsed(Num(v), i + 1)
    ensures IsCloser(ts[i + 1]) ==> PExpr(ts, i) == Parsed(Num(v), i + 1) && PCond(ts, i) == Parsed(Num(v), i + 1)
  {
    NumberOperand(ts, i, v);
    NoLevelReads(ts[i + 1], MaxLevel);
    LevelPasses(ts, 0, MaxLevel, i, Num(v), i + 1);
    if IsCloser(ts[i + 1]) {
      CondPlain(ts, i, Num(v), i + 1);
    }
  }

  // ---------------------------------------------------------------------
  // Compiling
  // ---------------------------------------------------------------------

  /** A source whose tokens parse completely compiles to what they parse to. */
  lemma CompileParsed(src: string, ts: seq<Token>, e: Expr, j: nat)
    requires Tokens(Scan(src, 0)) == ts && PExpr(ts, 0) == Parsed(e, j) && j < |ts| && ts[j] == Eof
    ensures Compile(src) == Ok(e)
  {
  }

  /** A source whose tokens parse with tokens left over is rejected as trailing tokens. */
  lemma CompileTrailing(src: string, ts: seq<Token>, e: Expr, j: nat)
    requires Tokens(Scan(src, 0)) == ts && PExpr(ts, 0) == Parsed(e, j) && j < |ts| && ts[j] != Eof
    ensures Compile(src) == Err(TrailingTokens)
  {
  }

  /** A source whose tokens fail to parse is rejected with the parser's message. */
  lemma CompileFailed(src: string, ts: seq<Token>, m: string)
    requires Tokens(Scan(src, 0)) == ts && PExpr(ts, 0) == Failed(m) && m != ""
    ensures Compile(src) == Err(m)
  {
  }

  /**
   * `1 $` compiles to the number 1: the unknown character is lexed as end
   * of input, so the trailing-token check never sees it.
   */
  lemma TrailingBadCharacterAccepted(src: string)
    requires src == "1 $"
    ensures Compile(src) == Ok(Num(1.0))
  {
    var ts := [Number(1.0), Eof];
    TokensOfTrailingDollar(src);
    ParseSingleNumber(ts);
    CompileParsed(src, ts, Num(1.0), 1);
  }

  /** `1 + $`: the operand after `+` is missing, so "Expected expression". */
  lemma BadCharacterInsideRejected(src: string)
    requires src == "1 + $"
    ensures Compile(src) == Err(ExpectedExpression)
  {
    var ts := [Number(1.0), Plus, Eof];
    TokensOfDanglingPlus(src);
    ParseDanglingPlus(ts);
    CompileFailed(src, ts, ExpectedExpression);
  }


  /** `1+2*3` compiles to `1+(2*3)`: the product binds tighter than the sum. */
  lemma ProductBindsTighter(src: string)
    requires src == "1+2*3"
    ensures Compile(src) == Ok(Binary(Add, Num(1.0), Binary(Mul, Num(2.0), Num(3.0))))
  {
    var ts := [Number(1.0), Plus, Number(2.0), Star, Number(3.0), Eof];
    TokensOfSum(src);
    ParseSum(ts);
    CompileParsed(src, ts, Binary(Add, Num(1.0), Binary(Mul, Num(2.0), Num(3.0))), 5);
  }

  /** What `1+2*3` compiles to evaluates to 7, whatever the time and controls. */
  lemma SumValue(ctx: Context, m: Libm)
    ensures Eval(Binary(Add, Num(1.0), Binary(Mul, Num(2.0), Num(3.0))), ctx, m) == 7.0
  {
    assert Eval(Binary(Mul, Num(2.0), Num(3.0)), ctx, m) == 6.0;
  }

  /** `0?2:3` compiles to a choice between 2 and 3. */
  lemma ChoiceCompiles(src: string)
    requires src == "0?2:3"
    ensures Compile(src) == Ok(Ternary(Num(0.0), Num(2.0), Num(3.0)))
  {
    var ts := [Number(0.0), Question, Number(2.0), Colon, Number(3.0), Eof];
    TokensOfChoice(src);
    ParseChoice(ts);
    CompileParsed(src, ts, Ternary(Num(0.0), Num(2.0), Num(3.0)), 5);
  }

  /** What `0?2:3` compiles to picks its last operand: 3. */
  lemma ChoiceValue(ctx: Context, m: Libm)
    ensures Eval(Ternary(Num(0.0), Num(2.0), Num(3.0)), ctx, m) == 3.0
  {
    assert Eval(Num(0.0), ctx, m) == 0.0;
  }

  /** `(1+2)*3` compiles to the product of the parenthesised sum and 3. */
  lemma ParenthesesGroup(src: string)
    requires src == "(1+2)*3"
    ensures Compile(src) == Ok(Binary(Mul, Binary(Add, Num(1.0), Num(2.0)), Num(3.0)))
  {
    var ts := [LParen, Number(1.0), Plus, Number(2.0), RParen, Star, Number(3.0), Eof];
    TokensOfParens(src);
    ParseParens(ts);
    CompileParsed(src, ts, Binary(Mul, Binary(Add, Num(1.0), Num(2.0)), Num(3.0)), 7);
  }

  /** What `(1+2)*3` compiles to evaluates to 9. */
  lemma ParensValue(ctx: Context, m: Libm)
    ensures Eval(Binary(Mul, Binary(Add, Num(1.0), Num(2.0)), Num(3.0)), ctx, m) == 9.0
  {
    assert Eval(Binary(Add, Num(1.0), Num(2.0)), ctx, m) == 3.0;
  }

  /** `8-4-2` compiles to `(8-4)-2`: subtraction groups to the left. */
  lemma SubtractionGroupsLeft(src: string)
    requires src == "8-4-2"
    ensures Compile(src) == Ok(Binary(Sub, Binary(Sub, Num(8.0), Num(4.0)), Num(2.0)))
  {
    var ts := [Number(8.0), Minus, Number(4.0), Minus, Number(2.0), Eof];
    TokensOfDifference(src);
    ParseDifference(ts);
    CompileParsed(src, ts, Binary(Sub, Binary(Sub, Num(8.0), Num(4.0)), Num(2.0)), 5);
  }

  /** What `8-4-2` compiles to evaluates to 2, not to the 6 of `8-(4-2)`. */
  lemma DifferenceValue(ctx: Context, m: Libm)
    ensures Eval(Binary(Sub, Binary(Sub, Num(8.0), Num(4.0)), Num(2.0)), ctx, m) == 2.0
  {
    assert Eval(Binary(Sub, Num(8.0), Num(4.0)), ctx, m) == 4.0;
  }

  /** `1 2`: a complete expression followed by more tokens. */
  lemma TrailingTokensRejected(src: string)
    requires src == "1 2"
    ensures Compile(src) == Err(TrailingTokens)
  {
    var ts := [Number(1.0), Number(2.0), Eof];
    TokensOfTwoNumbers(src);
    ParseTwoNumbers(ts);
    CompileTrailing(src, ts, Num(1.0), 1);
  }

  /** `x`: a name that is neither a variable nor followed by `(`. */
  lemma UnknownNameRejected(src: string)
    requires src == "x"
    ensures Compile(src) == Err(UnknownIdentifier("x"))
  {
    var ts := [Ident("x"), Eof];
    TokensOfUnknownName(src);
    ParseUnknownName(ts);
    CompileFailed(src, ts, UnknownIdentifier("x"));
  }
}

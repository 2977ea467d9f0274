/**
 * The front end against its inverses.  `Spell` undoes the lexer: the
 * text of a token stream lexes back to the same stream.  `Tokenize`
 * undoes the parser: the tokens of a tree parse back to the same tree.
 * Together: every printable tree, printed and compiled, comes back
 * unchanged.
 */
module RoundTrip {
  import opened Wrappers
  import opened Ast
  import opened Lexical
  import opened Grammar
  import opened Printer

  // ---------------------------------------------------------------------
  // The lexer reads spelled tokens back
  // ---------------------------------------------------------------------

  lemma StartsAtConcat(src: string, i: nat, a: string, b: string)
    requires StartsAt(src, i, a + b)
    ensures StartsAt(src, i, a) && StartsAt(src, i + |a|, b)
  {
    var w := src[i..i + |a| + |b|];
    assert w == a + b;
    assert src[i..i + |a|] == w[..|a|];
    assert src[i + |a|..i + |a| + |b|] == w[|a|..];
  }

  /** One token's text, followed by a blank or the end, lexes back to the token. */
  lemma LexText(src: string, i: nat, t: Token)
    requires Spellable(t) && StartsAt(src, i, Text(t))
    requires var j := i + |Text(t)|; j < |src| ==> src[j] == ' '
    ensures Lex(src, i) == Lexed(t, i + |Text(t)|, None)
  {
    if t.Number? {
      LexNatString(src, i, t.value.Floor);
    } else if t.Ident? {
      LexName(src, i, t.name);
    } else {
      LexSpelling(src, i, t);
    }
  }

  /** Text written at `pos` as a word, a blank and the rest. */
  lemma SplitAtBlank(src: string, pos: nat, w: string, rest: string, q: nat)
    requires StartsAt(src, pos, w + " " + rest) && q == pos + |w|
    ensures StartsAt(src, pos, w) && q < |src| && src[q] == ' ' && StartsAt(src, q + 1, rest)
    ensures q + 1 + |rest| == pos + |w + " " + rest|
  {
    StartsAtConcat(src, pos, w + " ", rest);
    StartsAtConcat(src, pos, w, " ");
    assert src[q] == src[q..q + 1][0];
  }

  /** The text of two or more tokens: the first token, a blank, the rest. */
  lemma SpellCons(ts: seq<Token>)
    requires |ts| >= 2 && AllSpellable(ts)
    ensures Spellable(ts[0]) && AllSpellable(ts[1..])
    ensures Spell(ts) == Text(ts[0]) + " " + Spell(ts[1..])
  {
  }

  /** A sequence is its head followed by its tail. */
  lemma HeadTail(ts: seq<Token>, t: Token)
    requires |ts| >= 1
    ensures [ts[0]] + (ts[1..] + [t]) == ts + [t]
  {
    assert [ts[0]] + ts[1..] == ts;
  }

  /**
   * What the lexer yields after a token that ends at `q` when `ts` follows,
   * each token after one blank: each token with the position just past
   * its text, then the end of input.
   */
  function After(ts: seq<Token>, q: nat): (ls: seq<Lexed>)
    requires AllSpellable(ts)
    decreases |ts|
  {
    if ts == [] then [Lexed(Eof, q, None)]
    else
      var e := q + 1 + |Text(ts[0])|;
      [Lexed(ts[0], e, None)] + After(ts[1..], e)
  }

  /** `After` one token at a time. */
  lemma AfterCons(ts: seq<Token>, q: nat, e: nat)
    requires ts != [] && AllSpellable(ts) && e == q + 1 + |Text(ts[0])|
    ensures AllSpellable(ts[1..])
    ensures After(ts, q) == [Lexed(ts[0], e, None)] + After(ts[1..], e)
  {
  }

  /** The kinds of the expected stream are the tokens and the end of input. */
  lemma {:induction false} TokensAfter(ts: seq<Token>, q: nat)
    requires AllSpellable(ts)
    ensures Tokens(After(ts, q)) == ts + [Eof]
    decreases |ts|
  {
    if ts != [] {
      var e := q + 1 + |Text(ts[0])|;
      AfterCons(ts, q, e);
      TokensAfter(ts[1..], e);
      TokensCons(Lexed(ts[0], e, None), After(ts[1..], e));
      HeadTail(ts, Eof);
    }
  }

  lemma TokensCons(l: Lexed, ls: seq<Lexed>)
    ensures Tokens([l] + ls) == [l.tok] + Tokens(ls)
  {
    assert ([l] + ls)[1..] == ls;
  }

  /** The stream at `pos`: the token read there, then the stream where it ends. */
  lemma ScanStepLexed(src: string, pos: nat, t: Token, q: nat)
    requires pos <= |src| && Lex(src, pos) == Lexed(t, q, None) && t != Eof
    ensures Scan(src, pos) == [Lexed(t, q, None)] + Scan(src, q)
  {
  }

  /** A blank changes nothing about the stream that follows. */
  lemma ScanBlank(src: string, q: nat)
    requires q < |src| && src[q] == ' '
    ensures Scan(src, q) == Scan(src, q + 1)
  {
    assert SpaceEnd(src, q) == SpaceEnd(src, q + 1);
    assert Lex(src, q) == Lex(src, q + 1);
  }

  /** `ts` written after position `q`, each token after one blank, up to the end of `src`. */
  predicate Trails(src: string, q: nat, ts: seq<Token>) {
    q <= |src| &&
    if ts == [] then q == |src| else q < |src| && src[q] == ' ' && Spelt(src, q + 1, ts)
  }

  /** Tokens written after a blank each lex back, with the positions `After` gives. */
  lemma {:induction false} ScanAfter(src: string, q: nat, ts: seq<Token>)
    requires Trails(src, q, ts)
    ensures Scan(src, q) == After(ts, q)
    decreases |ts|, 1
  {
    if ts == [] {
      assert Scan(src, q) == [Lexed(Eof, q, None)];
    } else {
      ScanAfterCons(src, q, ts, q + 1 + |Text(ts[0])|);
    }
  }

  lemma {:induction false} ScanAfterCons(src: string, q: nat, ts: seq<Token>, e: nat)
    requires ts != [] && Trails(src, q, ts) && e == q + 1 + |Text(ts[0])|
    ensures Scan(src, q) == After(ts, q)
    decreases |ts|, 0
  {
    ScanFirst(src, q, ts, e);
    ScanAfter(src, e, ts[1..]);
    AfterCons(ts, q, e);
  }

  /** The first token after the blank at `q`, and what trails it. */
  lemma ScanFirst(src: string, q: nat, ts: seq<Token>, e: nat)
    requires ts != [] && Trails(src, q, ts) && e == q + 1 + |Text(ts[0])|
    ensures Trails(src, e, ts[1..])
    ensures Scan(src, q) == [Lexed(ts[0], e, None)] + Scan(src, e)
  {
    ScanBlank(src, q);
    ScanLead(src, q + 1, ts, e);
  }

  /** The first token of spelt text, and what trails it. */
  lemma ScanLead(src: string, p: nat, ts: seq<Token>, e: nat)
    requires ts != [] && Spelt(src, p, ts) && e == p + |Text(ts[0])|
    ensures Trails(src, e, ts[1..])
    ensures Scan(src, p) == [Lexed(ts[0], e, None)] + Scan(src, e)
  {
    if |ts| >= 2 {
      SpellSplit(src, p, ts, e);
    }
    LexText(src, p, ts[0]);
    ScanStepLexed(src, p, ts[0], e);
  }

  /** `ts` spelt at `pos` up to the end of `src`. */
  predicate Spelt(src: string, pos: nat, ts: seq<Token>) {
    AllSpellable(ts) && StartsAt(src, pos, Spell(ts)) && pos + |Spell(ts)| == |src|
  }

  /** Where the first token's text, the blank and the others' text sit. */
  lemma SpellSplit(src: string, pos: nat, ts: seq<Token>, q: nat)
    requires |ts| >= 2 && Spelt(src, pos, ts)
    requires q == pos + |Text(ts[0])|
    ensures Spellable(ts[0]) && StartsAt(src, pos, Text(ts[0])) && q < |src| && src[q] == ' '
    ensures Spelt(src, q + 1, ts[1..])
  {
    SpellCons(ts);
    SplitAtBlank(src, pos, Text(ts[0]), Spell(ts[1..]), q);
  }

  /** Spelt tokens lex back to themselves, followed by the end of input. */
  lemma ScanSpell(ts: seq<Token>)
    requires ts != [] && AllSpellable(ts)
    ensures Tokens(Scan(Spell(ts), 0)) == ts + [Eof]
  {
    var src := Spell(ts);
    assert src[0..|src|] == src;
    var q := |Text(ts[0])|;
    ScanLead(src, 0, ts, q);
    ScanAfter(src, q, ts[1..]);
    TokensAfter(ts[1..], q);
    TokensCons(Lexed(ts[0], q, None), After(ts[1..], q));
    HeadTail(ts, Eof);
  }

  /** Printed text lexes to the printed tokens. */
  lemma ScanPrint(e: Expr)
    requires Printable(e)
    ensures Tokens(Scan(Print(e), 0)) == Tokenize(e) + [Eof]
  {
    TokenizeSpellable(e);
    ScanSpell(Tokenize(e));
  }

  // ---------------------------------------------------------------------
  // The precedence ladder hands an operand up
  // ---------------------------------------------------------------------

  /** The stream `ts` holds `p` from index `i` on. */
  predicate Has(ts: seq<Token>, i: nat, p: seq<Token>) {
    i + |p| <= |ts| && forall k {:trigger Matches(ts, i, p, k)} :: 0 <= k < |p| ==> Matches(ts, i, p, k)
  }

  /**
   * Token `k` of `p` sits at `i + k` in `ts`.  `Has` quantifies over this
   * term alone, so a stream's tokens are looked up only where a proof asks.
   */
  predicate Matches(ts: seq<Token>, i: nat, p: seq<Token>, k: nat) {
    i + k < |ts| && k < |p| && ts[i + k] == p[k]
  }

  /** A stream holding `t` holds every part `p` of `t` at the matching offset. */
  lemma HasTrans(ts: seq<Token>, i: nat, t: seq<Token>, a: nat, p: seq<Token>)
    requires Has(ts, i, t) && Has(t, a, p)
    ensures Has(ts, i + a, p)
  {
    var b := i + a;
    forall k | 0 <= k < |p|
      ensures Matches(ts, b, p, k)
    {
      assert Matches(t, a, p, k) && Matches(ts, i, t, a + k);
    }
  }

  lemma HasAt(ts: seq<Token>, i: nat, t: seq<Token>, k: nat)
    requires Has(ts, i, t) && k < |t|
    ensures ts[i + k] == t[k]
  {
    assert Matches(ts, i, t, k);
  }

  /** A stream holding `a`, `sep`, `b` holds each of them in turn. */
  lemma HasSplit(ts: seq<Token>, i: nat, t: seq<Token>, a: seq<Token>, sep: Token, b: seq<Token>)
    requires Has(ts, i, t) && |t| == |a| + 1 + |b|
    requires Has(t, 0, a) && t[|a|] == sep && Has(t, |a| + 1, b)
    ensures Has(ts, i, a) && ts[i + |a|] == sep && Has(ts, i + |a| + 1, b)
  {
    HasTrans(ts, i, t, 0, a);
    HasTrans(ts, i, t, |a| + 1, b);
    HasAt(ts, i, t, |a|);
  }

  /** A stream holding `p + [b] + q` holds `p`, `b` and `q` in turn. */
  lemma HasJoin(ts: seq<Token>, i: nat, p: seq<Token>, b: Token, q: seq<Token>)
    requires Has(ts, i, p + [b] + q)
    ensures Has(ts, i, p) && ts[i + |p|] == b && Has(ts, i + |p| + 1, q)
  {
    Join(p, b, q);
    HasSplit(ts, i, p + [b] + q, p, b, q);
  }

  // Where the parts of a sequence built by concatenation sit.

  lemma HasLeft(p: seq<Token>, q: seq<Token>)
    ensures Has(p + q, 0, p)
  {
    forall k | 0 <= k < |p|
      ensures Matches(p + q, 0, p, k)
    {
      assert (p + q)[0 + k] == p[k];
    }
  }

  lemma HasRight(p: seq<Token>, q: seq<Token>)
    ensures Has(p + q, |p|, q)
  {
    forall k | 0 <= k < |q|
      ensures Matches(p + q, |p|, q, k)
    {
      assert (p + q)[|p| + k] == q[k];
    }
  }

  /** `[a, b] + p + [c]`: the shape of a printed unary node and of a call. */
  lemma Frame1(a: Token, b: Token, p: seq<Token>, c: Token)
    ensures var t := [a, b] + p + [c];
      && |t| == |p| + 3 && t[0] == a && t[1] == b && Has(t, 2, p) && t[2 + |p|] == c
  {
    var u := [a, b] + p;
    HasLeft(u, [c]);
    HasRight([a, b], p);
    HasTrans(u + [c], 0, u, 2, p);
  }

  /** `[a] + p + [b] + q + [c]`: the shape of a printed binary node. */
  lemma Frame2(a: Token, p: seq<Token>, b: Token, q: seq<Token>, c: Token)
    ensures var t := [a] + p + [b] + q + [c]; var j := 1 + |p|;
      && |t| == j + |q| + 2 && t[0] == a && Has(t, 1, p)
      && t[j] == b && Has(t, j + 1, q) && t[j + 1 + |q|] == c
  {
    var u := [a] + p + [b];
    var v := u + q;
    HasLeft(v, [c]);
    HasRight(u, q);
    HasTrans(v + [c], 0, v, |u|, q);
    HasLeft(u, q);
    HasTrans(v + [c], 0, v, 0, u);
    HasRight([a], p);
    HasLeft([a] + p, [b]);
    HasTrans(v + [c], 0, u, 0, [a] + p);
    HasTrans(v + [c], 0, [a] + p, 1, p);
    HasAt(v + [c], 0, u, |u| - 1);
  }

  /** `[a] + p + [b] + q + [c] + r + [d]`: the shape of a printed conditional. */
  lemma Frame3(a: Token, p: seq<Token>, b: Token, q: seq<Token>, c: Token, r: seq<Token>, d: Token)
    ensures var t := [a] + p + [b] + q + [c] + r + [d];
      var j := 1 + |p|; var k := j + 1 + |q|;
      && |t| == k + |r| + 2 && t[0] == a && Has(t, 1, p) && t[j] == b
      && Has(t, j + 1, q) && t[k] == c && Has(t, k + 1, r) && t[k + 1 + |r|] == d
  {
    var u := [a] + p + [b] + q + [c];
    var v := u + r;
    var t := v + [d];
    Frame2(a, p, b, q, c);
    HasLeft(v, [d]);
    HasLeft(u, r);
    HasTrans(t, 0, v, 0, u);
    HasTrans(t, 0, u, 1, p);
    HasTrans(t, 0, u, 2 + |p|, q);
    HasAt(t, 0, u, 0);
    HasAt(t, 0, u, 1 + |p|);
    HasAt(t, 0, u, |u| - 1);
    HasRight(u, r);
    HasTrans(t, 0, v, |u|, r);
  }

  /** `p + [b] + q`: the shape of a printed argument list of two or more. */
  lemma Join(p: seq<Token>, b: Token, q: seq<Token>)
    ensures var t := p + [b] + q;
      && |t| == |p| + 1 + |q| && Has(t, 0, p) && t[|p|] == b && Has(t, |p| + 1, q)
  {
    var u := p + [b];
    HasLeft(u, q);
    HasRight(u, q);
    HasLeft(p, [b]);
    HasTrans(u + q, 0, u, 0, p);
  }

  // The same, in a stream that holds such a sequence.

  lemma Frame1At(ts: seq<Token>, i: nat, a: Token, b: Token, p: seq<Token>, c: Token, jp: nat)
    requires Has(ts, i, [a, b] + p + [c]) && jp == i + 2 + |p|
    ensures ts[i] == a && ts[i + 1] == b && Has(ts, i + 2, p) && ts[jp] == c
  {
    var t := [a, b] + p + [c];
    Frame1(a, b, p, c);
    HasTrans(ts, i, t, 2, p);
    HasAt(ts, i, t, 0);
    HasAt(ts, i, t, 1);
    HasAt(ts, i, t, 2 + |p|);
  }

  lemma Frame2At(ts: seq<Token>, i: nat, a: Token, p: seq<Token>, b: Token, q: seq<Token>, c: Token, jp: nat, jq: nat)
    requires Has(ts, i, [a] + p + [b] + q + [c]) && jp == i + 1 + |p| && jq == jp + 1 + |q|
    ensures ts[i] == a && Has(ts, i + 1, p) && ts[jp] == b && Has(ts, jp + 1, q) && ts[jq] == c
  {
    var t := [a] + p + [b] + q + [c];
    var j := 1 + |p|;
    Frame2(a, p, b, q, c);
    HasTrans(ts, i, t, 1, p);
    HasTrans(ts, i, t, j + 1, q);
    HasAt(ts, i, t, 0);
    HasAt(ts, i, t, j);
    HasAt(ts, i, t, j + 1 + |q|);
  }

  lemma Frame3At(ts: seq<Token>, i: nat, a: Token, p: seq<Token>, b: Token, q: seq<Token>, c: Token, r: seq<Token>, d: Token,
                 jp: nat, jq: nat, jr: nat)
    requires Has(ts, i, [a] + p + [b] + q + [c] + r + [d])
    requires jp == i + 1 + |p| && jq == jp + 1 + |q| && jr == jq + 1 + |r|
    ensures ts[i] == a && Has(ts, i + 1, p) && ts[jp] == b && Has(ts, jp + 1, q)
    ensures ts[jq] == c && Has(ts, jq + 1, r) && ts[jr] == d
  {
    var t := [a] + p + [b] + q + [c] + r + [d];
    var j := 1 + |p|;
    var k := j + 1 + |q|;
    Frame3(a, p, b, q, c, r, d);
    HasTrans(ts, i, t, 1, p);
    HasTrans(ts, i, t, j + 1, q);
    HasTrans(ts, i, t, k + 1, r);
    HasAt(ts, i, t, 0);
    HasAt(ts, i, t, j);
    HasAt(ts, i, t, k);
    HasAt(ts, i, t, k + 1 + |r|);
  }

  // Where the parts of each printed form sit in a stream that holds it.

  /** `ts` holds the printed tokens of `e` from `i` on, and `j` is the index just after them. */
  predicate Holds(ts: seq<Token>, i: nat, e: Expr, j: nat) {
    && Printable(e) && Stream(ts) && Has(ts, i, Tokenize(e))
    && j == i + |Tokenize(e)| && j < |ts|
  }

  /** `ts` holds the printed tokens of a non-empty argument list from `i` on, up to `j`. */
  predicate HoldsArgs(ts: seq<Token>, i: nat, args: seq<Expr>, j: nat) {
    && |args| > 0 && (forall m :: 0 <= m < |args| ==> Printable(args[m]))
    && Stream(ts) && Has(ts, i, TokenizeArgs(args))
    && j == i + |TokenizeArgs(args)| && j < |ts|
  }

  /** A printed tree starts with an opening token and ends inside the stream. */
  lemma HoldsBounds(ts: seq<Token>, i: nat, e: Expr, j: nat)
    requires Holds(ts, i, e, j)
    ensures At(ts, i) && At(ts, j) && i < j && Opens(ts[i])
  {
    HasAt(ts, i, Tokenize(e), 0);
  }

  lemma HoldsArgsBounds(ts: seq<Token>, i: nat, args: seq<Expr>, j: nat)
    requires HoldsArgs(ts, i, args, j)
    ensures At(ts, i) && At(ts, j) && i < j && Opens(ts[i])
  {
    HasAt(ts, i, TokenizeArgs(args), 0);
  }

  lemma UnaryLayout(ts: seq<Token>, i: nat, op: UnOp, x: Expr, j: nat)
    requires Holds(ts, i, Unary(op, x), j)
    ensures ts[i] == LParen && ts[i + 1] == UnToken(op)
    ensures Holds(ts, i + 2, x, j - 1) && ts[j - 1] == RParen
  {
    assert Tokenize(Unary(op, x)) == [LParen, UnToken(op)] + Tokenize(x) + [RParen];
    Frame1At(ts, i, LParen, UnToken(op), Tokenize(x), RParen, j - 1);
  }

  lemma BinaryLayout(ts: seq<Token>, i: nat, op: BinOp, l: Expr, r: Expr, jl: nat, j: nat)
    requires Holds(ts, i, Binary(op, l, r), j) && jl == i + 1 + |Tokenize(l)|
    ensures ts[i] == LParen && Holds(ts, i + 1, l, jl) && ts[jl] == BinToken(op)
    ensures Holds(ts, jl + 1, r, j - 1) && ts[j - 1] == RParen
  {
    var p, q := Tokenize(l), Tokenize(r);
    assert Tokenize(Binary(op, l, r)) == [LParen] + p + [BinToken(op)] + q + [RParen];
    Frame2At(ts, i, LParen, p, BinToken(op), q, RParen, jl, j - 1);
  }

  lemma TernaryLayout(ts: seq<Token>, i: nat, c: Expr, y: Expr, n: Expr, jc: nat, jy: nat, j: nat)
    requires Holds(ts, i, Ternary(c, y, n), j)
    requires jc == i + 1 + |Tokenize(c)| && jy == jc + 1 + |Tokenize(y)|
    ensures ts[i] == LParen && Holds(ts, i + 1, c, jc) && ts[jc] == Question
    ensures Holds(ts, jc + 1, y, jy) && ts[jy] == Colon
    ensures Holds(ts, jy + 1, n, j - 1) && ts[j - 1] == RParen
  {
    var p, q, r := Tokenize(c), Tokenize(y), Tokenize(n);
    assert Tokenize(Ternary(c, y, n)) == [LParen] + p + [Question] + q + [Colon] + r + [RParen];
    Frame3At(ts, i, LParen, p, Question, q, Colon, r, RParen, jc, jy, j - 1);
  }

  lemma CallLayout(ts: seq<Token>, i: nat, name: string, args: seq<Expr>, j: nat)
    requires Holds(ts, i, Call(name, args), j)
    ensures ts[i] == Ident(name) && ts[i + 1] == LParen && ts[j - 1] == RParen
    ensures args == [] ==> j == i + 3
    ensures args != [] ==> HoldsArgs(ts, i + 2, args, j - 1)
  {
    assert Tokenize(Call(name, args)) == [Ident(name), LParen] + TokenizeArgs(args) + [RParen];
    Frame1At(ts, i, Ident(name), LParen, TokenizeArgs(args), RParen, j - 1);
  }

  /** The first argument, `,`, and the others. */
  lemma ArgsShape(args: seq<Expr>)
    requires |args| >= 2 && forall m :: 0 <= m < |args| ==> Printable(args[m])
    ensures TokenizeArgs(args) == Tokenize(args[0]) + [Comma] + TokenizeArgs(args[1..])
  {
  }

  /** A stream holding two or more printed arguments holds the first, `,`, and the others. */
  lemma ArgsSplit(ts: seq<Token>, i: nat, args: seq<Expr>, ja: nat, j: nat)
    requires HoldsArgs(ts, i, args, j) && |args| >= 2 && ja == i + |Tokenize(args[0])|
    ensures Holds(ts, i, args[0], ja) && ts[ja] == Comma && HoldsArgs(ts, ja + 1, args[1..], j)
  {
    ArgsShape(args);
    HasJoin(ts, i, Tokenize(args[0]), Comma, TokenizeArgs(args[1..]));
  }

  /** A stream holding one printed argument holds that tree. */
  lemma ArgsSingle(ts: seq<Token>, i: nat, args: seq<Expr>, j: nat)
    requires HoldsArgs(ts, i, args, j) && |args| == 1
    ensures Holds(ts, i, args[0], j)
  {
    assert TokenizeArgs(args) == Tokenize(args[0]);
  }

  // ---------------------------------------------------------------------
  // The grammar folds parsed parts into one node
  // ---------------------------------------------------------------------

  /** No operator of the levels `k0 + 1 .. k` is the token `t`. */
  predicate Stops(k0: nat, k: nat, t: Token) {
    forall l :: k0 < l <= k ==> BinOpOf(l, t).None?
  }

  /** The tokens that end every expression: end of input, `)`, `,` and `:`. */
  predicate IsCloser(t: Token) {
    t == Eof || t == RParen || t == Comma || t == Colon
  }

  /** No level reads a closing token or `?` as its operator. */
  lemma NoLevelReads(t: Token, k: nat)
    requires IsCloser(t) || t == Question
    ensures Stops(0, k, t)
  {
  }

  /**
   * When level `k0` parses `e` and the next token belongs to none of the
   * levels above it up to `k`, level `k` parses the same `e`: each loop
   * above finds no operator of its own and returns its operand.
   */
  lemma {:induction false} LevelsAbove(ts: seq<Token>, k0: nat, k: nat, i: nat, e: Expr, j: nat)
    requires k0 <= k <= MaxLevel && At(ts, i) && At(ts, j)
    requires PLevel(ts, k0, i) == Parsed(e, j)
    requires Stops(k0, k, ts[j])
    ensures PLevel(ts, k, i) == Parsed(e, j)
    decreases k
  {
    if k > k0 {
      LevelsAbove(ts, k0, k - 1, i, e, j);
      assert BinOpOf(k, ts[j]).None?;
    }
  }

  /** An operand followed by a closing token is a whole expression. */
  lemma OperandIsExpr(ts: seq<Token>, i: nat, e: Expr, j: nat)
    requires At(ts, i) && At(ts, j)
    requires PUnary(ts, i) == Parsed(e, j) && IsCloser(ts[j])
    ensures PExpr(ts, i) == Parsed(e, j)
  {
    NoLevelReads(ts[j], MaxLevel);
    LevelsAbove(ts, 0, MaxLevel, i, e, j);
  }

  /** A parenthesised expression is a primary. */
  lemma Parenthesised(ts: seq<Token>, i: nat, e: Expr, j: nat)
    requires At(ts, i) && ts[i] == LParen && At(ts, j) && ts[j] == RParen
    requires PExpr(ts, i + 1) == Parsed(e, j)
    ensures PPrimary(ts, i) == Parsed(e, j + 1)
  {
  }

  /** A primary followed by no operator of the levels up to `k` is parsed by level `k`. */
  lemma PrimaryAtLevel(ts: seq<Token>, i: nat, e: Expr, k: nat, j: nat)
    requires k <= MaxLevel && At(ts, i) && At(ts, j) && Opens(ts[i])
    requires PPrimary(ts, i) == Parsed(e, j) && Stops(0, k, ts[j])
    ensures PLevel(ts, k, i) == Parsed(e, j)
  {
    assert PLevel(ts, 0, i) == Parsed(e, j);
    LevelsAbove(ts, 0, k, i, e, j);
  }

  /** A primary followed by a closing token is a whole expression. */
  lemma PrimaryIsExpr(ts: seq<Token>, i: nat, e: Expr, j: nat)
    requires At(ts, i) && At(ts, j) && Opens(ts[i])
    requires PPrimary(ts, i) == Parsed(e, j) && IsCloser(ts[j])
    ensures PExpr(ts, i) == Parsed(e, j)
  {
    NoLevelReads(ts[j], MaxLevel);
    PrimaryAtLevel(ts, i, e, MaxLevel, j);
  }

  /** `( tok x )`, where `tok` is the prefix operator `op` and `x` a primary, is a primary. */
  lemma UnaryFolds(ts: seq<Token>, i: nat, tok: Token, op: UnOp, x: Expr, jx: nat)
    requires UnOpOf(tok) == Some(op)
    requires At(ts, i + 2) && At(ts, jx)
    requires ts[i] == LParen && ts[i + 1] == tok && Opens(ts[i + 2]) && ts[jx] == RParen
    requires PPrimary(ts, i + 2) == Parsed(x, jx)
    ensures PPrimary(ts, i) == Parsed(Unary(op, x), jx + 1)
  {
    assert PUnary(ts, i + 2) == Parsed(x, jx);
    assert PUnary(ts, i + 1) == Parsed(Unary(op, x), jx);
    OperandIsExpr(ts, i + 1, Unary(op, x), jx);
    Parenthesised(ts, i, Unary(op, x), jx);
  }

  /**
   * Two operands one level below `k`, joined by an operator `tok` of level
   * `k` and followed by `)`: level `k` folds them into one node, which the
   * looser levels and the conditional pass on.
   */
  lemma LevelFolds(ts: seq<Token>, k: nat, tok: Token, op: BinOp, l: Expr, r: Expr, i: nat, jl: nat, jr: nat)
    requires 1 <= k <= MaxLevel && BinOpOf(k, tok) == Some(op)
    requires At(ts, i) && At(ts, jl) && At(ts, jl + 1) && At(ts, jr)
    requires ts[jl] == tok && ts[jr] == RParen
    requires PLevel(ts, k - 1, i) == Parsed(l, jl)
    requires PLevel(ts, k - 1, jl + 1) == Parsed(r, jr)
    ensures PExpr(ts, i) == Parsed(Binary(op, l, r), jr)
  {
    assert PLevelRest(ts, k, Binary(op, l, r), jr) == Parsed(Binary(op, l, r), jr);
    assert PLevel(ts, k, i) == Parsed(Binary(op, l, r), jr);
    NoLevelReads(RParen, MaxLevel);
    LevelsAbove(ts, k, MaxLevel, i, Binary(op, l, r), jr);
  }

  /** `( l tok r )` with both operands parsed one level below `tok`'s level `k` is a primary. */
  lemma BinaryFolds(ts: seq<Token>, i: nat, k: nat, tok: Token, op: BinOp, l: Expr, r: Expr, jl: nat, jr: nat)
    requires 1 <= k <= MaxLevel && BinOpOf(k, tok) == Some(op)
    requires At(ts, i + 1) && At(ts, jl) && At(ts, jl + 1) && At(ts, jr)
    requires ts[i] == LParen && ts[jl] == tok && ts[jr] == RParen
    requires PLevel(ts, k - 1, i + 1) == Parsed(l, jl)
    requires PLevel(ts, k - 1, jl + 1) == Parsed(r, jr)
    ensures PPrimary(ts, i) == Parsed(Binary(op, l, r), jr + 1)
  {
    LevelFolds(ts, k, tok, op, l, r, i + 1, jl, jr);
    Parenthesised(ts, i, Binary(op, l, r), jr);
  }

  /** A condition, `?`, an expression, `:` and an expression followed by `)` make a conditional. */
  lemma CondFolds(ts: seq<Token>, i: nat, c: Expr, y: Expr, n: Expr, jc: nat, jy: nat, jn: nat)
    requires At(ts, i) && At(ts, jc) && At(ts, jc + 1) && At(ts, jy) && At(ts, jy + 1) && At(ts, jn)
    requires PLevel(ts, MaxLevel, i) == Parsed(c, jc) && ts[jc] == Question
    requires PExpr(ts, jc + 1) == Parsed(y, jy) && ts[jy] == Colon
    requires PExpr(ts, jy + 1) == Parsed(n, jn)
    ensures PExpr(ts, i) == Parsed(Ternary(c, y, n), jn)
  {
    assert PCond(ts, jy + 1) == Parsed(n, jn);
  }

  /** `( c ? y : n )` with its three parts parsed is a primary. */
  lemma TernaryFolds(ts: seq<Token>, i: nat, c: Expr, y: Expr, n: Expr, jc: nat, jy: nat, jn: nat)
    requires At(ts, i + 1) && At(ts, jc) && At(ts, jc + 1) && At(ts, jy) && At(ts, jy + 1) && At(ts, jn)
    requires ts[i] == LParen && ts[jc] == Question && ts[jy] == Colon && ts[jn] == RParen
    requires PLevel(ts, MaxLevel, i + 1) == Parsed(c, jc)
    requires PExpr(ts, jc + 1) == Parsed(y, jy)
    requires PExpr(ts, jy + 1) == Parsed(n, jn)
    ensures PPrimary(ts, i) == Parsed(Ternary(c, y, n), jn + 1)
  {
    CondFolds(ts, i + 1, c, y, n, jc, jy, jn);
    Parenthesised(ts, i, Ternary(c, y, n), jn);
  }

  /** `name ( args )` with a non-empty argument list parsed up to `)` is a primary. */
  lemma CallFolds(ts: seq<Token>, i: nat, name: string, args: seq<Expr>, j: nat)
    requires At(ts, i + 2) && Opens(ts[i + 2])
    requires ts[i] == Ident(name) && ts[i + 1] == LParen
    requires PArgs(ts, i + 2, []) == ArgsParsed(args, j)
    ensures PPrimary(ts, i) == Parsed(Call(name, args), j)
  {
  }

  // ---------------------------------------------------------------------
  // The parser reads printed tokens back
  // ---------------------------------------------------------------------

  /** A printed tree followed by a closing token parses back as an expression. */
  lemma {:induction false} ExprPrinted(ts: seq<Token>, i: nat, e: Expr, j: nat)
    requires Holds(ts, i, e, j) && IsCloser(ts[j])
    ensures PExpr(ts, i) == Parsed(e, j)
    decreases e, 4
  {
    HoldsBounds(ts, i, e, j);
    PrimaryPrinted(ts, i, e, j);
    PrimaryIsExpr(ts, i, e, j);
  }

  /**
   * A printed tree followed by a token `next` that is no operator of the
   * levels up to `k` parses back at level `k`.
   */
  lemma {:induction false} OperandPrinted(ts: seq<Token>, i: nat, e: Expr, k: nat, j: nat, next: Token)
    requires Holds(ts, i, e, j) && ts[j] == next && next != LParen
    requires k <= MaxLevel && Stops(0, k, next)
    ensures PLevel(ts, k, i) == Parsed(e, j)
    decreases e, 4
  {
    HoldsBounds(ts, i, e, j);
    PrimaryPrinted(ts, i, e, j);
    PrimaryAtLevel(ts, i, e, k, j);
  }

  /** A printed tree followed by any token but `(` parses back as a primary. */
  lemma {:induction false} PrimaryPrinted(ts: seq<Token>, i: nat, e: Expr, j: nat)
    requires Holds(ts, i, e, j) && ts[j] != LParen
    ensures PPrimary(ts, i) == Parsed(e, j)
    decreases e, 3
  {
    match e
    case Num(v) =>
      HasAt(ts, i, Tokenize(e), 0);
    case Var(id) =>
      HasAt(ts, i, Tokenize(e), 0);
      VarNameReads(id);
    case Unary(op, x) => UnaryPrinted(ts, i, op, x, j);
    case Binary(op, l, r) => BinaryPrinted(ts, i, op, l, r, j);
    case Ternary(c, y, n) => TernaryPrinted(ts, i, c, y, n, j);
    case Call(name, args) => CallPrinted(ts, i, name, args, j);
  }

  lemma {:induction false} UnaryPrinted(ts: seq<Token>, i: nat, op: UnOp, x: Expr, j: nat)
    requires Holds(ts, i, Unary(op, x), j)
    ensures PPrimary(ts, i) == Parsed(Unary(op, x), j)
    decreases Unary(op, x), 2
  {
    UnaryLayout(ts, i, op, x, j);
    UnTokenReads(op);
    UnaryParts(ts, i, UnToken(op), op, x, j - 1);
  }

  /** `( tok x )` laid out token by token, where `tok` is the prefix operator `op`. */
  lemma {:induction false} UnaryParts(ts: seq<Token>, i: nat, tok: Token, op: UnOp, x: Expr, jx: nat)
    requires UnOpOf(tok) == Some(op) && Holds(ts, i + 2, x, jx)
    requires ts[i] == LParen && ts[i + 1] == tok && ts[jx] == RParen
    ensures PPrimary(ts, i) == Parsed(Unary(op, x), jx + 1)
    decreases Unary(op, x), 1
  {
    HoldsBounds(ts, i + 2, x, jx);
    PrimaryPrinted(ts, i + 2, x, jx);
    UnaryFolds(ts, i, tok, op, x, jx);
  }

  /** An operator's token belongs to none of the tighter levels. */
  lemma TighterLevelsStop(op: BinOp)
    ensures Stops(0, Level(op) - 1, BinToken(op))
  {
    forall m | 0 < m <= Level(op) - 1
      ensures BinOpOf(m, BinToken(op)).None?
    {
      OnlyAtLevel(op, m);
    }
  }

  lemma {:induction false} BinaryPrinted(ts: seq<Token>, i: nat, op: BinOp, l: Expr, r: Expr, j: nat)
    requires Holds(ts, i, Binary(op, l, r), j)
    ensures PPrimary(ts, i) == Parsed(Binary(op, l, r), j)
    decreases Binary(op, l, r), 2
  {
    var jl := i + 1 + |Tokenize(l)|;
    BinaryLayout(ts, i, op, l, r, jl, j);
    BinTokenReads(op);
    TighterLevelsStop(op);
    BinaryParts(ts, i, Level(op), BinToken(op), op, l, r, jl, j - 1);
  }

  /**
   * `( l tok r )` laid out token by token, where `tok` is an operator of
   * level `k` and of no tighter level.
   */
  lemma {:induction false} BinaryParts(ts: seq<Token>, i: nat, k: nat, tok: Token, op: BinOp, l: Expr, r: Expr, jl: nat, jr: nat)
    requires 1 <= k <= MaxLevel && BinOpOf(k, tok) == Some(op) && tok != LParen && Stops(0, k - 1, tok)
    requires Holds(ts, i + 1, l, jl) && Holds(ts, jl + 1, r, jr)
    requires ts[i] == LParen && ts[jl] == tok && ts[jr] == RParen
    ensures PPrimary(ts, i) == Parsed(Binary(op, l, r), jr + 1)
    decreases Binary(op, l, r), 1
  {
    HoldsBounds(ts, i + 1, l, jl);
    HoldsBounds(ts, jl + 1, r, jr);
    BinaryLeft(ts, i, k, tok, op, l, r, jl);
    BinaryRight(ts, k, op, l, r, jl, jr);
    BinaryFolds(ts, i, k, tok, op, l, r, jl, jr);
  }

  /** The left operand of `( l tok r )` parses back one level below `k`. */
  lemma {:induction false} BinaryLeft(ts: seq<Token>, i: nat, k: nat, tok: Token, op: BinOp, l: Expr, r: Expr, jl: nat)
    requires 1 <= k <= MaxLevel && tok != LParen && Stops(0, k - 1, tok)
    requires Holds(ts, i + 1, l, jl) && ts[jl] == tok
    ensures PLevel(ts, k - 1, i + 1) == Parsed(l, jl)
    decreases Binary(op, l, r), 0
  {
    OperandPrinted(ts, i + 1, l, k - 1, jl, tok);
  }

  /** The right operand of `( l tok r )`, closed by `)`, parses back one level below `k`. */
  lemma {:induction false} BinaryRight(ts: seq<Token>, k: nat, op: BinOp, l: Expr, r: Expr, jl: nat, jr: nat)
    requires 1 <= k <= MaxLevel
    requires Holds(ts, jl + 1, r, jr) && ts[jr] == RParen
    ensures PLevel(ts, k - 1, jl + 1) == Parsed(r, jr)
    decreases Binary(op, l, r), 0
  {
    NoLevelReads(RParen, k - 1);
    OperandPrinted(ts, jl + 1, r, k - 1, jr, RParen);
  }

  lemma {:induction false} TernaryPrinted(ts: seq<Token>, i: nat, c: Expr, y: Expr, n: Expr, j: nat)
    requires Holds(ts, i, Ternary(c, y, n), j)
    ensures PPrimary(ts, i) == Parsed(Ternary(c, y, n), j)
    decreases Ternary(c, y, n), 2
  {
    var jc := i + 1 + |Tokenize(c)|;
    var jy := jc + 1 + |Tokenize(y)|;
    TernaryLayout(ts, i, c, y, n, jc, jy, j);
    TernaryParts(ts, i, c, y, n, jc, jy, j - 1);
  }

  /** `( c ? y : n )` laid out token by token parses back as a primary. */
  lemma {:induction false} TernaryParts(ts: seq<Token>, i: nat, c: Expr, y: Expr, n: Expr, jc: nat, jy: nat, jn: nat)
    requires Holds(ts, i + 1, c, jc) && Holds(ts, jc + 1, y, jy) && Holds(ts, jy + 1, n, jn)
    requires ts[i] == LParen && ts[jc] == Question && ts[jy] == Colon && ts[jn] == RParen
    ensures PPrimary(ts, i) == Parsed(Ternary(c, y, n), jn + 1)
    decreases Ternary(c, y, n), 1
  {
    HoldsBounds(ts, i + 1, c, jc);
    HoldsBounds(ts, jc + 1, y, jy);
    HoldsBounds(ts, jy + 1, n, jn);
    TernaryOperands(ts, i, c, y, n, jc, jy, jn);
    TernaryFolds(ts, i, c, y, n, jc, jy, jn);
  }

  /** The condition of `( c ? y : n )` parses up to `?`, the branches up to `:` and `)`. */
  lemma {:induction false} TernaryOperands(ts: seq<Token>, i: nat, c: Expr, y: Expr, n: Expr, jc: nat, jy: nat, jn: nat)
    requires Holds(ts, i + 1, c, jc) && Holds(ts, jc + 1, y, jy) && Holds(ts, jy + 1, n, jn)
    requires ts[jc] == Question && ts[jy] == Colon && ts[jn] == RParen
    ensures PLevel(ts, MaxLevel, i + 1) == Parsed(c, jc)
    ensures PExpr(ts, jc + 1) == Parsed(y, jy)
    ensures PExpr(ts, jy + 1) == Parsed(n, jn)
    decreases Ternary(c, y, n), 0
  {
    NoLevelReads(Question, MaxLevel);
    OperandPrinted(ts, i + 1, c, MaxLevel, jc, Question);
    ExprPrinted(ts, jc + 1, y, jy);
    ExprPrinted(ts, jy + 1, n, jn);
  }

  lemma {:induction false} CallPrinted(ts: seq<Token>, i: nat, name: string, args: seq<Expr>, j: nat)
    requires Holds(ts, i, Call(name, args), j)
    ensures PPrimary(ts, i) == Parsed(Call(name, args), j)
    decreases Call(name, args), 2
  {
    CallLayout(ts, i, name, args, j);
    if args != [] {
      HoldsArgsBounds(ts, i + 2, args, j - 1);
      ArgsPrinted(ts, i + 2, args, [], j - 1);
      assert [] + args == args;
      CallFolds(ts, i, name, args, j);
    }
  }

  /** Printed arguments followed by `)` parse back, appended to those already read. */
  lemma {:induction false} ArgsPrinted(ts: seq<Token>, i: nat, args: seq<Expr>, acc: seq<Expr>, j: nat)
    requires HoldsArgs(ts, i, args, j) && ts[j] == RParen
    ensures PArgs(ts, i, acc) == ArgsParsed(acc + args, j + 1)
    decreases args, 1
  {
    if |args| == 1 {
      ArgsSingle(ts, i, args, j);
      LastArgPrinted(ts, i, args[0], acc, j);
      assert args == [args[0]];
    } else {
      ArgsMore(ts, i, args, acc, j);
    }
  }

  /** The last argument, followed by `)`. */
  lemma {:induction false} LastArgPrinted(ts: seq<Token>, i: nat, a: Expr, acc: seq<Expr>, j: nat)
    requires Holds(ts, i, a, j) && ts[j] == RParen
    ensures PArgs(ts, i, acc) == ArgsParsed(acc + [a], j + 1)
    decreases a, 5
  {
    ExprPrinted(ts, i, a, j);
  }

  /** Two or more printed arguments: the first up to `,`, then the others. */
  lemma {:induction false} ArgsMore(ts: seq<Token>, i: nat, args: seq<Expr>, acc: seq<Expr>, j: nat)
    requires HoldsArgs(ts, i, args, j) && |args| >= 2 && ts[j] == RParen
    ensures PArgs(ts, i, acc) == ArgsParsed(acc + args, j + 1)
    decreases args, 0
  {
    var a, more := args[0], args[1..];
    var ja := i + |Tokenize(a)|;
    ArgsSplit(ts, i, args, ja, j);
    ExprPrinted(ts, i, a, ja);
    ArgsRest(ts, i, a, more, acc, ja, j);
    assert acc + [a] + more == acc + args;
  }

  /** One argument and `,`, then the rest of a printed list up to `)`. */
  lemma {:induction false} ArgsRest(ts: seq<Token>, i: nat, a: Expr, more: seq<Expr>, acc: seq<Expr>, ja: nat, j: nat)
    requires At(ts, i) && PExpr(ts, i) == Parsed(a, ja) && ts[ja] == Comma
    requires HoldsArgs(ts, ja + 1, more, j) && ts[j] == RParen
    ensures PArgs(ts, i, acc) == ArgsParsed(acc + [a] + more, j + 1)
    decreases more, 2
  {
    ArgsPrinted(ts, ja + 1, more, acc + [a], j);
  }

  /** The tokens of a tree, followed by the end of input, parse back to the tree. */
  lemma ParseTokenize(e: Expr)
    requires Printable(e)
    ensures var ts := Tokenize(e) + [Eof]; PExpr(ts, 0) == Parsed(e, |ts| - 1)
  {
    var ts := Tokenize(e) + [Eof];
    HasLeft(Tokenize(e), [Eof]);
    ExprPrinted(ts, 0, e, |ts| - 1);
  }

  /** Printing a tree and compiling the text gives the tree back. */
  lemma CompilePrint(e: Expr)
    requires Printable(e)
    ensures Compile(Print(e)) == Ok(e)
  {
    ScanPrint(e);
    ParseTokenize(e);
  }
}

/**
 * Precedence and associativity for every operand, not just for sample
 * sources.  The operands are printed trees, so each is an atom to the
 * parser (a number, a name, a call or a parenthesised form) and the
 * shape of the result is decided by the operators between them alone:
 *
 * - two operators of one level group to the left;
 * - an operator of a tighter level groups first, on either side;
 * - `?:` groups to the right.
 */
module Precedence {
  import opened Wrappers
  import opened Ast
  import opened Lexical
  import opened Grammar
  import opened Printer
  import opened RoundTrip

  /** The text of a binary operator, e.g. `>>>`. */
  function OpText(op: BinOp): (s: string)
    ensures 1 <= |s| <= 3
  {
    BinTokenReads(op);
    Spelling(BinToken(op))
  }

  /** An operator's token is spelt as its text. */
  lemma {:induction false} OpTextIsText(op: BinOp)
    ensures Spellable(BinToken(op)) && Text(BinToken(op)) == OpText(op)
  {
    BinTokenReads(op);
  }

  // ---------------------------------------------------------------------
  // From text to tokens
  // ---------------------------------------------------------------------

  /** Spelling two token runs one after the other puts one blank between them. */
  lemma {:induction false} SpellJoin(a: seq<Token>, b: seq<Token>)
    requires a != [] && b != [] && AllSpellable(a) && AllSpellable(b)
    ensures AllSpellable(a + b)
    ensures Spell(a + b) == Spell(a) + " " + Spell(b)
    decreases |a|
  {
    SpellableConcat(a, b);
    var ab := a + b;
    assert ab[0] == a[0];
    if |a| == 1 {
      assert ab[1..] == b;
    } else {
      SpellCons(a);
      assert ab[1..] == a[1..] + b;
      SpellJoin(a[1..], b);
    }
  }

  /** `p t q` spelt: the three texts with a blank between each. */
  lemma {:induction false} SpellAround(p: seq<Token>, t: Token, q: seq<Token>)
    requires p != [] && q != [] && AllSpellable(p) && Spellable(t) && AllSpellable(q)
    ensures AllSpellable(p + [t] + q)
    ensures Spell(p + [t] + q) == Spell(p) + " " + Text(t) + " " + Spell(q)
  {
    SpellJoin(p, [t]);
    SpellJoin(p + [t], q);
  }

  /** Spelling `p t q` when the text of `p` is already known: `t` with a blank on each side. */
  lemma {:induction false} SpellNext(p: seq<Token>, t: Token, q: seq<Token>, pre: string, sep: string)
    requires p != [] && q != [] && AllSpellable(p) && Spellable(t) && AllSpellable(q)
    requires Spell(p) == pre && sep == " " + Text(t) + " "
    ensures AllSpellable(p + [t] + q)
    ensures Spell(p + [t] + q) == pre + sep + Spell(q)
  {
    SpellAround(p, t, q);
    Glue(pre, Text(t), Spell(q));
  }

  lemma {:induction false} Glue(a: string, b: string, c: string)
    ensures a + " " + b + " " + c == a + (" " + b + " ") + c
  {
  }

  /** A printed tree's tokens can all be spelt. */
  lemma {:induction false} Printed(e: Expr)
    requires Printable(e)
    ensures Tokenize(e) != [] && AllSpellable(Tokenize(e)) && Spell(Tokenize(e)) == Print(e)
  {
    TokenizeSpellable(e);
  }

  /** Spelt tokens whose parse takes the whole stream compile to that parse. */
  lemma {:induction false} CompileTokens(ts: seq<Token>, e: Expr)
    requires ts != [] && AllSpellable(ts)
    requires PExpr(ts + [Eof], 0) == Parsed(e, |ts|)
    ensures Compile(Spell(ts)) == Ok(e)
  {
    ScanSpell(ts);
  }

  // ---------------------------------------------------------------------
  // Where the operands sit in the stream
  // ---------------------------------------------------------------------

  /** The stream `x t1 y t2 z` followed by the end of input, part by part. */
  lemma {:induction false} Layout(s: seq<Token>, x: seq<Token>, t1: Token, y: seq<Token>, t2: Token, z: seq<Token>, jx: nat, jy: nat, jz: nat)
    requires s == x + [t1] + y + [t2] + z + [Eof]
    requires jx == |x| && jy == jx + 1 + |y| && jz == jy + 1 + |z|
    ensures && |s| == jz + 1 && Stream(s) && Has(s, 0, x) && s[jx] == t1 && Has(s, jx + 1, y)
      && s[jy] == t2 && Has(s, jy + 1, z) && s[jz] == Eof
  {
    var p := x + [t1] + y;
    var ts := p + [t2] + z;
    HasLeft(ts, [Eof]);
    HasJoin(s, 0, p, t2, z);
    HasJoin(s, 0, x, t1, y);
  }

  /** The stream `c1 ? y1 : c2 ? y2 : z` followed by the end of input, part by part. */
  lemma {:induction false} ChoiceLayout(s: seq<Token>, c1: seq<Token>, y1: seq<Token>, c2: seq<Token>, y2: seq<Token>, z: seq<Token>,
                     j1: nat, j2: nat, j3: nat, j4: nat, j5: nat)
    requires s == c1 + [Question] + y1 + [Colon] + c2 + [Question] + y2 + [Colon] + z + [Eof]
    requires j1 == |c1| && j2 == j1 + 1 + |y1| && j3 == j2 + 1 + |c2| && j4 == j3 + 1 + |y2| && j5 == j4 + 1 + |z|
    ensures && |s| == j5 + 1 && Stream(s)
      && Has(s, 0, c1) && s[j1] == Question && Has(s, j1 + 1, y1) && s[j2] == Colon
      && Has(s, j2 + 1, c2) && s[j3] == Question && Has(s, j3 + 1, y2) && s[j4] == Colon
      && Has(s, j4 + 1, z) && s[j5] == Eof
  {
    var p := c1 + [Question] + y1;
    var q := p + [Colon] + c2;
    var r := q + [Question] + y2;
    var ts := r + [Colon] + z;
    HasLeft(ts, [Eof]);
    HasJoin(s, 0, r, Colon, z);
    HasJoin(s, 0, q, Question, y2);
    HasJoin(s, 0, p, Colon, c2);
    HasJoin(s, 0, c1, Question, y1);
  }

  /** A stream that holds a printed tree's tokens, before its end, holds the tree. */
  lemma {:induction false} Part(s: seq<Token>, i: nat, e: Expr, j: nat)
    requires Printable(e) && Stream(s) && Has(s, i, Tokenize(e)) && j == i + |Tokenize(e)| && j < |s|
    ensures Holds(s, i, e, j)
  {
  }

  // ---------------------------------------------------------------------
  // One step of a binary level's loop
  // ---------------------------------------------------------------------

  /** An operator's token is an operator at its own level and at no tighter one. */
  lemma {:induction false} OperatorToken(op: BinOp)
    ensures BinOpOf(Level(op), BinToken(op)) == Some(op) && BinToken(op) != LParen
    ensures Stops(0, Level(op) - 1, BinToken(op))
  {
    BinTokenReads(op);
    TighterLevelsStop(op);
  }

  /**
   * When the loop of level `k` meets its operator `op` and the level below
   * parses the right operand `r`, the loop goes on with `left op r`.
   */
  lemma {:induction false} LoopFolds(ts: seq<Token>, k: nat, op: BinOp, left: Expr, r: Expr, i: nat, j: nat)
    requires 1 <= k <= MaxLevel && At(ts, i) && BinOpOf(k, ts[i]) == Some(op)
    requires At(ts, i + 1) && PLevel(ts, k - 1, i + 1) == Parsed(r, j)
    ensures PLevelRest(ts, k, left, i) == PLevelRest(ts, k, Binary(op, left, r), j)
  {
  }

  /** The loop of level `k` stops at a token that is not one of its operators. */
  lemma {:induction false} LoopStops(ts: seq<Token>, k: nat, left: Expr, i: nat)
    requires 1 <= k <= MaxLevel && At(ts, i) && BinOpOf(k, ts[i]).None?
    ensures PLevelRest(ts, k, left, i) == Parsed(left, i)
  {
  }

  /** Level `k` is its operand followed by its loop. */
  lemma {:induction false} LevelUnfolds(ts: seq<Token>, k: nat, i: nat, left: Expr, j: nat)
    requires 1 <= k <= MaxLevel && At(ts, i) && PLevel(ts, k - 1, i) == Parsed(left, j)
    ensures PLevel(ts, k, i) == PLevelRest(ts, k, left, j)
  {
  }

  /** A printed operand followed by a token no tighter level reads is parsed by the level below `k`. */
  lemma {:induction false} Operand(ts: seq<Token>, k: nat, i: nat, e: Expr, j: nat)
    requires 1 <= k <= MaxLevel && Holds(ts, i, e, j)
    requires ts[j] != LParen && Stops(0, k - 1, ts[j])
    ensures At(ts, i) && At(ts, j) && PLevel(ts, k - 1, i) == Parsed(e, j)
  {
    HoldsBounds(ts, i, e, j);
    OperandPrinted(ts, i, e, k - 1, j, ts[j]);
  }

  /** What level `k` parses up to the end of input is the whole expression. */
  lemma {:induction false} WholeExpr(ts: seq<Token>, k: nat, i: nat, e: Expr, j: nat)
    requires k <= MaxLevel && At(ts, i) && At(ts, j) && ts[j] == Eof
    requires PLevel(ts, k, i) == Parsed(e, j)
    ensures PExpr(ts, i) == Parsed(e, j)
  {
    NoLevelReads(Eof, MaxLevel);
    LevelsAbove(ts, k, MaxLevel, i, e, j);
  }

  /**
   * `e1 op e2` at level `k` up to the end of input: level `k` parses
   * `Binary(op, e1, e2)`.
   */
  lemma {:induction false} LastOperation(ts: seq<Token>, k: nat, op: BinOp, e1: Expr, e2: Expr, i: nat, j1: nat, j2: nat)
    requires Level(op) == k
    requires Holds(ts, i, e1, j1) && ts[j1] == BinToken(op) && Holds(ts, j1 + 1, e2, j2) && ts[j2] == Eof
    ensures PLevel(ts, k, i) == Parsed(Binary(op, e1, e2), j2)
  {
    OperatorToken(op);
    NoLevelReads(Eof, k - 1);
    Operand(ts, k, i, e1, j1);
    Operand(ts, k, j1 + 1, e2, j2);
    LevelUnfolds(ts, k, i, e1, j1);
    LoopFolds(ts, k, op, e1, e2, j1, j2);
    LoopStops(ts, k, Binary(op, e1, e2), j2);
  }

  // ---------------------------------------------------------------------
  // The parses of `x o1 y o2 z`
  // ---------------------------------------------------------------------

  /** `x o1 y o2 z` with both operators at one level parses as `(x o1 y) o2 z`. */
  lemma {:induction false} ParseSameLevel(ts: seq<Token>, o1: BinOp, o2: BinOp, x: Expr, y: Expr, z: Expr, jx: nat, jy: nat, jz: nat)
    requires Level(o1) == Level(o2)
    requires Holds(ts, 0, x, jx) && ts[jx] == BinToken(o1) && Holds(ts, jx + 1, y, jy)
    requires ts[jy] == BinToken(o2) && Holds(ts, jy + 1, z, jz) && ts[jz] == Eof
    ensures PExpr(ts, 0) == Parsed(Binary(o2, Binary(o1, x, y), z), jz)
  {
    var k := Level(o1);
    SameLevelPrefix(ts, o1, o2, x, y, jx, jy);
    OperatorToken(o2);
    NoLevelReads(Eof, k - 1);
    Operand(ts, k, jy + 1, z, jz);
    LoopFolds(ts, k, o2, Binary(o1, x, y), z, jy, jz);
    LoopStops(ts, k, Binary(o2, Binary(o1, x, y), z), jz);
    WholeExpr(ts, k, 0, Binary(o2, Binary(o1, x, y), z), jz);
  }

  /** In `x o1 y o2 ...` with both operators at one level, that level's loop reaches `o2` holding `x o1 y`. */
  lemma {:induction false} SameLevelPrefix(ts: seq<Token>, o1: BinOp, o2: BinOp, x: Expr, y: Expr, jx: nat, jy: nat)
    requires Level(o1) == Level(o2)
    requires Holds(ts, 0, x, jx) && ts[jx] == BinToken(o1) && Holds(ts, jx + 1, y, jy) && ts[jy] == BinToken(o2)
    ensures At(ts, 0) && At(ts, jy)
    ensures PLevel(ts, Level(o1), 0) == PLevelRest(ts, Level(o1), Binary(o1, x, y), jy)
  {
    var k := Level(o1);
    OperatorToken(o1);
    OperatorToken(o2);
    Operand(ts, k, 0, x, jx);
    Operand(ts, k, jx + 1, y, jy);
    LevelUnfolds(ts, k, 0, x, jx);
    LoopFolds(ts, k, o1, x, y, jx, jy);
  }

  /** `x lo y hi z` with `hi` tighter than `lo` parses as `x lo (y hi z)`. */
  lemma {:induction false} ParseTighterRight(ts: seq<Token>, lo: BinOp, hi: BinOp, x: Expr, y: Expr, z: Expr, jx: nat, jy: nat, jz: nat)
    requires Level(hi) < Level(lo)
    requires Holds(ts, 0, x, jx) && ts[jx] == BinToken(lo) && Holds(ts, jx + 1, y, jy)
    requires ts[jy] == BinToken(hi) && Holds(ts, jy + 1, z, jz) && ts[jz] == Eof
    ensures PExpr(ts, 0) == Parsed(Binary(lo, x, Binary(hi, y, z)), jz)
  {
    var k := Level(lo);
    var right := Binary(hi, y, z);
    OperatorToken(lo);
    Operand(ts, k, 0, x, jx);
    TighterSuffix(ts, lo, hi, y, z, jx, jy, jz);
    LevelUnfolds(ts, k, 0, x, jx);
    LoopFolds(ts, k, lo, x, right, jx, jz);
    LoopStops(ts, k, Binary(lo, x, right), jz);
    WholeExpr(ts, k, 0, Binary(lo, x, right), jz);
  }

  /** In `... lo y hi z`, the levels below that of `lo` parse `y hi z` up to the end of input. */
  lemma {:induction false} TighterSuffix(ts: seq<Token>, lo: BinOp, hi: BinOp, y: Expr, z: Expr, jx: nat, jy: nat, jz: nat)
    requires Level(hi) < Level(lo)
    requires Holds(ts, jx + 1, y, jy) && ts[jy] == BinToken(hi) && Holds(ts, jy + 1, z, jz) && ts[jz] == Eof
    ensures At(ts, jx + 1) && At(ts, jz)
    ensures PLevel(ts, Level(lo) - 1, jx + 1) == Parsed(Binary(hi, y, z), jz)
  {
    HoldsBounds(ts, jx + 1, y, jy);
    HoldsBounds(ts, jy + 1, z, jz);
    LastOperation(ts, Level(hi), hi, y, z, jx + 1, jy, jz);
    NoLevelReads(Eof, MaxLevel);
    LevelsAbove(ts, Level(hi), Level(lo) - 1, jx + 1, Binary(hi, y, z), jz);
  }

  /** In `x hi y lo z`, the levels below that of `lo` parse `x hi y` and stop at `lo`. */
  lemma {:induction false} TighterPrefix(ts: seq<Token>, hi: BinOp, lo: BinOp, x: Expr, y: Expr, jx: nat, jy: nat)
    requires Level(hi) < Level(lo)
    requires Holds(ts, 0, x, jx) && ts[jx] == BinToken(hi) && Holds(ts, jx + 1, y, jy) && ts[jy] == BinToken(lo)
    ensures PLevel(ts, Level(lo) - 1, 0) == Parsed(Binary(hi, x, y), jy)
  {
    TighterLevel(ts, hi, lo, x, y, jx, jy);
    OperatorToken(lo);
    LevelsAbove(ts, Level(hi), Level(lo) - 1, 0, Binary(hi, x, y), jy);
  }

  /** In `x hi y lo ...`, the level of `hi` parses `x hi y` and stops at `lo`. */
  lemma {:induction false} TighterLevel(ts: seq<Token>, hi: BinOp, lo: BinOp, x: Expr, y: Expr, jx: nat, jy: nat)
    requires Level(hi) < Level(lo)
    requires Holds(ts, 0, x, jx) && ts[jx] == BinToken(hi) && Holds(ts, jx + 1, y, jy) && ts[jy] == BinToken(lo)
    ensures At(ts, 0) && At(ts, jy) && PLevel(ts, Level(hi), 0) == Parsed(Binary(hi, x, y), jy)
  {
    var k := Level(hi);
    OperatorToken(hi);
    OperatorToken(lo);
    OnlyAtLevel(lo, k);
    Operand(ts, k, 0, x, jx);
    Operand(ts, k, jx + 1, y, jy);
    LevelUnfolds(ts, k, 0, x, jx);
    LoopFolds(ts, k, hi, x, y, jx, jy);
    LoopStops(ts, k, Binary(hi, x, y), jy);
  }

  /** `x hi y lo z` with `hi` tighter than `lo` parses as `(x hi y) lo z`. */
  lemma {:induction false} ParseTighterLeft(ts: seq<Token>, hi: BinOp, lo: BinOp, x: Expr, y: Expr, z: Expr, jx: nat, jy: nat, jz: nat)
    requires Level(hi) < Level(lo)
    requires Holds(ts, 0, x, jx) && ts[jx] == BinToken(hi) && Holds(ts, jx + 1, y, jy)
    requires ts[jy] == BinToken(lo) && Holds(ts, jy + 1, z, jz) && ts[jz] == Eof
    ensures PExpr(ts, 0) == Parsed(Binary(lo, Binary(hi, x, y), z), jz)
  {
    var k := Level(lo);
    var left := Binary(hi, x, y);
    TighterPrefix(ts, hi, lo, x, y, jx, jy);
    OperatorToken(lo);
    NoLevelReads(Eof, k - 1);
    HoldsBounds(ts, 0, x, jx);
    Operand(ts, k, jy + 1, z, jz);
    LevelUnfolds(ts, k, 0, left, jy);
    LoopFolds(ts, k, lo, left, z, jy, jz);
    LoopStops(ts, k, Binary(lo, left, z), jz);
    WholeExpr(ts, k, 0, Binary(lo, left, z), jz);
  }

  /** `c ? y : n` where `c` and `y` are printed trees and `n` is parsed after the `:`. */
  lemma {:induction false} ChoiceFolds(ts: seq<Token>, i: nat, c: Expr, y: Expr, n: Expr, jc: nat, jy: nat, jn: nat)
    requires Holds(ts, i, c, jc) && ts[jc] == Question && Holds(ts, jc + 1, y, jy) && ts[jy] == Colon
    requires At(ts, jy + 1) && At(ts, jn) && PExpr(ts, jy + 1) == Parsed(n, jn)
    ensures PExpr(ts, i) == Parsed(Ternary(c, y, n), jn)
  {
    NoLevelReads(Question, MaxLevel);
    HoldsBounds(ts, i, c, jc);
    HoldsBounds(ts, jc + 1, y, jy);
    OperandPrinted(ts, i, c, MaxLevel, jc, Question);
    ExprPrinted(ts, jc + 1, y, jy);
    CondFolds(ts, i, c, y, n, jc, jy, jn);
  }

  /** `c ? y : n` laid out in the stream, where `c` and `y` are printed and `n` is parsed after the `:`. */
  lemma {:induction false} ChoiceAt(s: seq<Token>, i: nat, c: Expr, y: Expr, n: Expr, jc: nat, jy: nat, jn: nat)
    requires Printable(c) && Printable(y) && Stream(s)
    requires jc == i + |Tokenize(c)| && jy == jc + 1 + |Tokenize(y)| && jy < jn < |s|
    requires Has(s, i, Tokenize(c)) && s[jc] == Question && Has(s, jc + 1, Tokenize(y)) && s[jy] == Colon
    requires PExpr(s, jy + 1) == Parsed(n, jn)
    ensures PExpr(s, i) == Parsed(Ternary(c, y, n), jn)
  {
    Part(s, i, c, jc);
    Part(s, jc + 1, y, jy);
    ChoiceFolds(s, i, c, y, n, jc, jy, jn);
  }

  /** A printed tree laid out in the stream up to the end of input is the whole expression there. */
  lemma {:induction false} LastAt(s: seq<Token>, i: nat, e: Expr, j: nat)
    requires Printable(e) && Stream(s) && Has(s, i, Tokenize(e)) && j == i + |Tokenize(e)| && j < |s| && s[j] == Eof
    ensures PExpr(s, i) == Parsed(e, j)
  {
    Part(s, i, e, j);
    ExprPrinted(s, i, e, j);
  }

  // ---------------------------------------------------------------------
  // The same, from source text
  // ---------------------------------------------------------------------

  /** The tokens of `x o1 y o2 z` for printed operands. */
  function InfixTokens(x: Expr, o1: BinOp, y: Expr, o2: BinOp, z: Expr): seq<Token>
    requires Printable(x) && Printable(y) && Printable(z)
  {
    Tokenize(x) + [BinToken(o1)] + Tokenize(y) + [BinToken(o2)] + Tokenize(z)
  }

  /** Five runs spelt one after the other, with a blank between each. */
  lemma {:induction false} SpellFive(a: seq<Token>, t1: Token, b: seq<Token>, t2: Token, c: seq<Token>,
                  sa: string, s1: string, sb: string, s2: string, sc: string)
    requires a != [] && b != [] && c != [] && AllSpellable(a) && AllSpellable(b) && AllSpellable(c)
    requires Spellable(t1) && Spellable(t2)
    requires Spell(a) == sa && Text(t1) == s1 && Spell(b) == sb && Text(t2) == s2 && Spell(c) == sc
    ensures AllSpellable(a + [t1] + b + [t2] + c)
    ensures Spell(a + [t1] + b + [t2] + c) == sa + " " + s1 + " " + sb + " " + s2 + " " + sc
  {
    SpellNext(a, t1, b, sa, " " + s1 + " ");
    Glue(sa, s1, sb);
    SpellNext(a + [t1] + b, t2, c, sa + " " + s1 + " " + sb, " " + s2 + " ");
    Glue(sa + " " + s1 + " " + sb, s2, sc);
  }

  /** The source text `x o1 y o2 z` spells its tokens. */
  lemma {:induction false} InfixSpelling(x: Expr, o1: BinOp, y: Expr, o2: BinOp, z: Expr)
    requires Printable(x) && Printable(y) && Printable(z)
    ensures var ts := InfixTokens(x, o1, y, o2, z);
      && ts != [] && AllSpellable(ts)
      && Spell(ts) == Print(x) + " " + OpText(o1) + " " + Print(y) + " " + OpText(o2) + " " + Print(z)
  {
    Printed(x);
    Printed(y);
    Printed(z);
    OpTextIsText(o1);
    OpTextIsText(o2);
    SpellFive(Tokenize(x), BinToken(o1), Tokenize(y), BinToken(o2), Tokenize(z),
              Print(x), OpText(o1), Print(y), OpText(o2), Print(z));
  }

  /** The tokens of `x o1 y o2 z` sit in the stream as laid out. */
  lemma {:induction false} InfixHolds(s: seq<Token>, x: Expr, o1: BinOp, y: Expr, o2: BinOp, z: Expr, jx: nat, jy: nat, jz: nat)
    requires Printable(x) && Printable(y) && Printable(z) && s == InfixTokens(x, o1, y, o2, z) + [Eof]
    requires jx == |Tokenize(x)| && jy == jx + 1 + |Tokenize(y)| && jz == jy + 1 + |Tokenize(z)|
    ensures && |s| == jz + 1 && Holds(s, 0, x, jx) && s[jx] == BinToken(o1) && Holds(s, jx + 1, y, jy)
            && s[jy] == BinToken(o2) && Holds(s, jy + 1, z, jz) && s[jz] == Eof
  {
    Layout(s, Tokenize(x), BinToken(o1), Tokenize(y), BinToken(o2), Tokenize(z), jx, jy, jz);
    Part(s, 0, x, jx);
    Part(s, jx + 1, y, jy);
    Part(s, jy + 1, z, jz);
  }

  /** Two operators of one level group to the left: `x o1 y o2 z` is `(x o1 y) o2 z`. */
  lemma {:induction false} SameLevelGroupsLeft(x: Expr, o1: BinOp, y: Expr, o2: BinOp, z: Expr)
    requires Printable(x) && Printable(y) && Printable(z) && Level(o1) == Level(o2)
    ensures Compile(Print(x) + " " + OpText(o1) + " " + Print(y) + " " + OpText(o2) + " " + Print(z))
         == Ok(Binary(o2, Binary(o1, x, y), z))
  {
    var ts := InfixTokens(x, o1, y, o2, z);
    var jx := |Tokenize(x)|;
    var jy := jx + 1 + |Tokenize(y)|;
    InfixSpelling(x, o1, y, o2, z);
    InfixHolds(ts + [Eof], x, o1, y, o2, z, jx, jy, |ts|);
    ParseSameLevel(ts + [Eof], o1, o2, x, y, z, jx, jy, |ts|);
    CompileTokens(ts, Binary(o2, Binary(o1, x, y), z));
  }

  /** A tighter operator on the right groups first: `x lo y hi z` is `x lo (y hi z)`. */
  lemma {:induction false} TighterGroupsFirstOnRight(x: Expr, lo: BinOp, y: Expr, hi: BinOp, z: Expr)
    requires Printable(x) && Printable(y) && Printable(z) && Level(hi) < Level(lo)
    ensures Compile(Print(x) + " " + OpText(lo) + " " + Print(y) + " " + OpText(hi) + " " + Print(z))
         == Ok(Binary(lo, x, Binary(hi, y, z)))
  {
    var ts := InfixTokens(x, lo, y, hi, z);
    var jx := |Tokenize(x)|;
    var jy := jx + 1 + |Tokenize(y)|;
    InfixSpelling(x, lo, y, hi, z);
    InfixHolds(ts + [Eof], x, lo, y, hi, z, jx, jy, |ts|);
    ParseTighterRight(ts + [Eof], lo, hi, x, y, z, jx, jy, |ts|);
    CompileTokens(ts, Binary(lo, x, Binary(hi, y, z)));
  }

  /** A tighter operator on the left groups first: `x hi y lo z` is `(x hi y) lo z`. */
  lemma {:induction false} TighterGroupsFirstOnLeft(x: Expr, hi: BinOp, y: Expr, lo: BinOp, z: Expr)
    requires Printable(x) && Printable(y) && Printable(z) && Level(hi) < Level(lo)
    ensures Compile(Print(x) + " " + OpText(hi) + " " + Print(y) + " " + OpText(lo) + " " + Print(z))
         == Ok(Binary(lo, Binary(hi, x, y), z))
  {
    var ts := InfixTokens(x, hi, y, lo, z);
    var jx := |Tokenize(x)|;
    var jy := jx + 1 + |Tokenize(y)|;
    InfixSpelling(x, hi, y, lo, z);
    InfixHolds(ts + [Eof], x, hi, y, lo, z, jx, jy, |ts|);
    ParseTighterLeft(ts + [Eof], hi, lo, x, y, z, jx, jy, |ts|);
    CompileTokens(ts, Binary(lo, Binary(hi, x, y), z));
  }

  /** The tokens of `c1 ? y1 : c2 ? y2 : z` for printed operands. */
  function ChoiceTokens(c1: Expr, y1: Expr, c2: Expr, y2: Expr, z: Expr): seq<Token>
    requires Printable(c1) && Printable(y1) && Printable(c2) && Printable(y2) && Printable(z)
  {
    Tokenize(c1) + [Question] + Tokenize(y1) + [Colon] + Tokenize(c2) + [Question] + Tokenize(y2) + [Colon] + Tokenize(z)
  }

  /** The source text `c1 ? y1 : c2 ? y2 : z` spells its tokens. */
  lemma {:induction false} ChoiceSpelling(c1: Expr, y1: Expr, c2: Expr, y2: Expr, z: Expr)
    requires Printable(c1) && Printable(y1) && Printable(c2) && Printable(y2) && Printable(z)
    ensures var ts := ChoiceTokens(c1, y1, c2, y2, z);
      && ts != [] && AllSpellable(ts)
      && Spell(ts) == Print(c1) + " ? " + Print(y1) + " : " + Print(c2) + " ? " + Print(y2) + " : " + Print(z)
  {
    var tc1, ty1, tc2, ty2, tz := Tokenize(c1), Tokenize(y1), Tokenize(c2), Tokenize(y2), Tokenize(z);
    Printed(c1);
    Printed(y1);
    Printed(c2);
    Printed(y2);
    Printed(z);
    var p := tc1 + [Question] + ty1;
    var q := p + [Colon] + tc2;
    var r := q + [Question] + ty2;
    SpellNext(tc1, Question, ty1, Print(c1), " ? ");
    SpellNext(p, Colon, tc2, Print(c1) + " ? " + Print(y1), " : ");
    SpellNext(q, Question, ty2, Print(c1) + " ? " + Print(y1) + " : " + Print(c2), " ? ");
    SpellNext(r, Colon, tz, Print(c1) + " ? " + Print(y1) + " : " + Print(c2) + " ? " + Print(y2), " : ");
  }

  /** The token runs of `c1 ? y1 : c2 ? y2 : z` in the stream. */
  lemma {:induction false} ChoiceStream(c1: Expr, y1: Expr, c2: Expr, y2: Expr, z: Expr, j1: nat, j2: nat, j3: nat, j4: nat, j5: nat)
    requires Printable(c1) && Printable(y1) && Printable(c2) && Printable(y2) && Printable(z)
    requires j1 == |Tokenize(c1)| && j2 == j1 + 1 + |Tokenize(y1)| && j3 == j2 + 1 + |Tokenize(c2)|
    requires j4 == j3 + 1 + |Tokenize(y2)| && j5 == j4 + 1 + |Tokenize(z)|
    ensures var s := ChoiceTokens(c1, y1, c2, y2, z) + [Eof];
      && |s| == j5 + 1 && Stream(s)
      && Has(s, 0, Tokenize(c1)) && s[j1] == Question && Has(s, j1 + 1, Tokenize(y1)) && s[j2] == Colon
      && Has(s, j2 + 1, Tokenize(c2)) && s[j3] == Question && Has(s, j3 + 1, Tokenize(y2)) && s[j4] == Colon
      && Has(s, j4 + 1, Tokenize(z)) && s[j5] == Eof
  {
    ChoiceLayout(ChoiceTokens(c1, y1, c2, y2, z) + [Eof], Tokenize(c1), Tokenize(y1), Tokenize(c2), Tokenize(y2), Tokenize(z),
                 j1, j2, j3, j4, j5);
  }

  /** The inner `c2 ? y2 : z`, running up to the end of input, parses as one ternary. */
  lemma {:induction false} InnerChoice(s: seq<Token>, c: Expr, y: Expr, z: Expr, i: nat, jc: nat, jy: nat, jz: nat)
    requires Printable(c) && Printable(y) && Printable(z) && Stream(s)
    requires jc == i + |Tokenize(c)| && jy == jc + 1 + |Tokenize(y)| && jz == jy + 1 + |Tokenize(z)| && jz < |s|
    requires Has(s, i, Tokenize(c)) && s[jc] == Question && Has(s, jc + 1, Tokenize(y)) && s[jy] == Colon
    requires Has(s, jy + 1, Tokenize(z)) && s[jz] == Eof
    ensures PExpr(s, i) == Parsed(Ternary(c, y, z), jz)
  {
    LastAt(s, jy + 1, z, jz);
    ChoiceAt(s, i, c, y, z, jc, jy, jz);
  }

  /** A stream laid out as `c1 ? y1 : c2 ? y2 : z` parses as `c1 ? y1 : (c2 ? y2 : z)`. */
  lemma {:induction false} ChoiceStreamParses(s: seq<Token>, c1: Expr, y1: Expr, c2: Expr, y2: Expr, z: Expr,
                                              j1: nat, j2: nat, j3: nat, j4: nat, j5: nat)
    requires Printable(c1) && Printable(y1) && Printable(c2) && Printable(y2) && Printable(z)
    requires j1 == |Tokenize(c1)| && j2 == j1 + 1 + |Tokenize(y1)| && j3 == j2 + 1 + |Tokenize(c2)|
    requires j4 == j3 + 1 + |Tokenize(y2)| && j5 == j4 + 1 + |Tokenize(z)|
    requires |s| == j5 + 1 && Stream(s)
    requires Has(s, 0, Tokenize(c1)) && s[j1] == Question && Has(s, j1 + 1, Tokenize(y1)) && s[j2] == Colon
    requires Has(s, j2 + 1, Tokenize(c2)) && s[j3] == Question && Has(s, j3 + 1, Tokenize(y2)) && s[j4] == Colon
    requires Has(s, j4 + 1, Tokenize(z)) && s[j5] == Eof
    ensures PExpr(s, 0) == Parsed(Ternary(c1, y1, Ternary(c2, y2, z)), j5)
  {
    InnerChoice(s, c2, y2, z, j2 + 1, j3, j4, j5);
    ChoiceAt(s, 0, c1, y1, Ternary(c2, y2, z), j1, j2, j5);
  }

  /** The tokens of `c1 ? y1 : c2 ? y2 : z` parse, up to the end of input, as `c1 ? y1 : (c2 ? y2 : z)`. */
  lemma {:induction false} ChoiceParses(c1: Expr, y1: Expr, c2: Expr, y2: Expr, z: Expr)
    requires Printable(c1) && Printable(y1) && Printable(c2) && Printable(y2) && Printable(z)
    ensures var ts := ChoiceTokens(c1, y1, c2, y2, z);
      PExpr(ts + [Eof], 0) == Parsed(Ternary(c1, y1, Ternary(c2, y2, z)), |ts|)
  {
    var ts := ChoiceTokens(c1, y1, c2, y2, z);
    var j1 := |Tokenize(c1)|;
    var j2 := j1 + 1 + |Tokenize(y1)|;
    var j3 := j2 + 1 + |Tokenize(c2)|;
    var j4 := j3 + 1 + |Tokenize(y2)|;
    var j5 := j4 + 1 + |Tokenize(z)|;
    ChoiceStream(c1, y1, c2, y2, z, j1, j2, j3, j4, j5);
    ChoiceStreamParses(ts + [Eof], c1, y1, c2, y2, z, j1, j2, j3, j4, j5);
  }

  /** `?:` groups to the right: `c1 ? y1 : c2 ? y2 : z` is `c1 ? y1 : (c2 ? y2 : z)`. */
  lemma {:induction false} ChoiceGroupsRight(c1: Expr, y1: Expr, c2: Expr, y2: Expr, z: Expr)
    requires Printable(c1) && Printable(y1) && Printable(c2) && Printable(y2) && Printable(z)
    ensures Compile(Print(c1) + " ? " + Print(y1) + " : " + Print(c2) + " ? " + Print(y2) + " : " + Print(z))
         == Ok(Ternary(c1, y1, Ternary(c2, y2, z)))
  {
    ChoiceSpelling(c1, y1, c2, y2, z);
    ChoiceParses(c1, y1, c2, y2, z);
    CompileTokens(ChoiceTokens(c1, y1, c2, y2, z), Ternary(c1, y1, Ternary(c2, y2, z)));
  }
}

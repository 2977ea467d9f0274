/**
 * A printer for expression trees, the inverse the parser is checked
 * against.  Every compound node is printed inside parentheses and
 * numbers are printed as decimal naturals, so every printed tree reads
 * back as the same tree (see `RoundTrip.CompilePrint`).  Printing goes
 * through tokens: `Tokenize` is the inverse of the parser and `Spell` the
 * inverse of the lexer.
 */
module Printer {
  import opened Wrappers
  import opened Ast
  import opened Lexical
  import opened Grammar

  function VarName(id: VarId): string {
    match id
    case VarT => "t"
    case VarA => "a"
    case VarB => "b"
    case VarC => "c"
    case VarD => "d"
    case VarSh => "sh"
    case VarMask => "mask"
  }

  function UnToken(op: UnOp): Token {
    match op
    case Neg => Minus
    case BitNot => Tilde
    case LogNot => Bang
  }

  /** The precedence level of a binary operator, 1 (tightest) to 10. */
  function Level(op: BinOp): (k: nat)
    ensures 1 <= k <= MaxLevel
  {
    match op
    case Mul | Div | Mod => 1
    case Add | Sub => 2
    case Shl | Shr | UShr => 3
    case Lt | Gt | Le | Ge => 4
    case Eq | Ne => 5
    case BAnd => 6
    case BXor => 7
    case BOr => 8
    case LAnd => 9
    case LOr => 10
  }

  /** The token of a binary operator. */
  function BinToken(op: BinOp): Token {
    match op
    case Add => Plus
    case Sub => Minus
    case Mul => Star
    case Div => Slash
    case Mod => Percent
    case Lt => Less
    case Gt => Greater
    case Le => LessEq
    case Ge => GreaterEq
    case Eq => EqEq
    case Ne => BangEq
    case LAnd => AmpAmp
    case LOr => BarBar
    case BAnd => Amp
    case BOr => Bar
    case BXor => Caret
    case Shl => ShiftL
    case Shr => ShiftR
    case UShr => ShiftRU
  }

  /** A variable's name is an identifier that `parse_var_id` maps back to it. */
  lemma VarNameReads(id: VarId)
    ensures IsName(VarName(id)) && VarOf(VarName(id)) == Some(id)
  {
  }

  /** A prefix operator's token is spelt by the lexer and read back by `parse_unary`. */
  lemma UnTokenReads(op: UnOp)
    ensures IsFixed(UnToken(op)) && UnOpOf(UnToken(op)) == Some(op)
  {
  }

  /** A binary operator's token is spelt by the lexer and read back at the operator's level. */
  lemma BinTokenReads(op: BinOp)
    ensures IsFixed(BinToken(op)) && BinOpOf(Level(op), BinToken(op)) == Some(op)
  {
  }

  /** A real that is a natural number. */
  predicate IsNatural(v: real) {
    v >= 0.0 && v == v.Floor as real
  }

  /**
   * The trees the printer handles: numbers must be naturals (the lexer
   * reads no sign or exponent) and call names must be identifiers.
   */
  predicate Printable(e: Expr) {
    match e
    case Num(v) => IsNatural(v)
    case Var(_) => true
    case Unary(_, x) => Printable(x)
    case Binary(_, l, r) => Printable(l) && Printable(r)
    case Ternary(c, y, n) => Printable(c) && Printable(y) && Printable(n)
    case Call(name, args) => IsName(name) && forall k :: 0 <= k < |args| ==> Printable(args[k])
  }

  /** The tokens a printed tree starts with. */
  predicate Opens(t: Token) {
    t == LParen || t.Number? || t.Ident?
  }

  /** The tokens the printer writes: fixed tokens, naturals and well-formed names. */
  predicate Spellable(t: Token) {
    IsFixed(t) || (t.Number? && IsNatural(t.value)) || (t.Ident? && IsName(t.name))
  }

  predicate AllSpellable(ts: seq<Token>) {
    forall k :: 0 <= k < |ts| ==> Spellable(ts[k])
  }

  lemma SpellableConcat(a: seq<Token>, b: seq<Token>)
    requires AllSpellable(a) && AllSpellable(b)
    ensures AllSpellable(a + b)
  {
    forall k | 0 <= k < |a + b|
      ensures Spellable((a + b)[k])
    {
      if k < |a| {
        assert (a + b)[k] == a[k];
      } else {
        assert (a + b)[k] == b[k - |a|];
      }
    }
  }

  /**
   * The token stream of a printed tree.  Every compound node is enclosed
   * in parentheses, so no precedence or associativity is needed to read
   * it back.
   */
  function Tokenize(e: Expr): (ts: seq<Token>)
    requires Printable(e)
    ensures |ts| >= 1 && Opens(ts[0])
    decreases e, 1
  {
    match e
    case Num(v) => [Number(v)]
    case Var(id) => [Ident(VarName(id))]
    case Unary(op, x) => [LParen, UnToken(op)] + Tokenize(x) + [RParen]
    case Binary(op, l, r) => [LParen] + Tokenize(l) + [BinToken(op)] + Tokenize(r) + [RParen]
    case Ternary(c, y, n) => [LParen] + Tokenize(c) + [Question] + Tokenize(y) + [Colon] + Tokenize(n) + [RParen]
    case Call(name, args) => [Ident(name), LParen] + TokenizeArgs(args) + [RParen]
  }

  /** Arguments separated by commas. */
  function TokenizeArgs(args: seq<Expr>): (ts: seq<Token>)
    requires forall k :: 0 <= k < |args| ==> Printable(args[k])
    ensures args != [] ==> |ts| >= 1 && Opens(ts[0])
    decreases args, 0
  {
    if args == [] then []
    else if |args| == 1 then Tokenize(args[0])
    else Tokenize(args[0]) + [Comma] + TokenizeArgs(args[1..])
  }

  /** The printer writes only tokens that have a text. */
  lemma {:induction false} TokenizeSpellable(e: Expr)
    requires Printable(e)
    ensures AllSpellable(Tokenize(e))
    decreases e, 1
  {
    match e
    case Num(_) =>
    case Var(id) =>
      VarNameReads(id);
    case Unary(op, x) =>
      UnTokenReads(op);
      TokenizeSpellable(x);
      SpellableConcat([LParen, UnToken(op)], Tokenize(x));
      SpellableConcat([LParen, UnToken(op)] + Tokenize(x), [RParen]);
    case Binary(op, l, r) =>
      BinTokenReads(op);
      TokenizeSpellable(l);
      TokenizeSpellable(r);
      var a := [LParen] + Tokenize(l);
      SpellableConcat([LParen], Tokenize(l));
      SpellableConcat(a, [BinToken(op)]);
      SpellableConcat(a + [BinToken(op)], Tokenize(r));
      SpellableConcat(a + [BinToken(op)] + Tokenize(r), [RParen]);
    case Ternary(c, y, n) =>
      TokenizeSpellable(c);
      TokenizeSpellable(y);
      TokenizeSpellable(n);
      var a := [LParen] + Tokenize(c);
      var b := a + [Question] + Tokenize(y);
      var d := b + [Colon] + Tokenize(n);
      SpellableConcat([LParen], Tokenize(c));
      SpellableConcat(a, [Question]);
      SpellableConcat(a + [Question], Tokenize(y));
      SpellableConcat(b, [Colon]);
      SpellableConcat(b + [Colon], Tokenize(n));
      SpellableConcat(d, [RParen]);
    case Call(name, args) =>
      TokenizeArgsSpellable(args);
      SpellableConcat([Ident(name), LParen], TokenizeArgs(args));
      SpellableConcat([Ident(name), LParen] + TokenizeArgs(args), [RParen]);
  }

  lemma {:induction false} TokenizeArgsSpellable(args: seq<Expr>)
    requires forall k :: 0 <= k < |args| ==> Printable(args[k])
    ensures AllSpellable(TokenizeArgs(args))
    decreases args, 0
  {
    if |args| >= 1 {
      TokenizeSpellable(args[0]);
    }
    if |args| >= 2 {
      TokenizeArgsSpellable(args[1..]);
      SpellableConcat(Tokenize(args[0]), [Comma]);
      SpellableConcat(Tokenize(args[0]) + [Comma], TokenizeArgs(args[1..]));
    }
  }

  /** The text of one token. */
  function Text(t: Token): (s: string)
    requires Spellable(t)
    ensures |s| >= 1
  {
    if t.Number? then NatString(t.value.Floor)
    else if t.Ident? then t.name
    else Spelling(t)
  }

  /** A token stream as text, one blank between neighbouring tokens. */
  function Spell(ts: seq<Token>): string
    requires AllSpellable(ts)
  {
    if ts == [] then ""
    else if |ts| == 1 then Text(ts[0])
    else Text(ts[0]) + " " + Spell(ts[1..])
  }

  /** The source text of a tree, e.g. `(t * (t >> 8))`. */
  function Print(e: Expr): string
    requires Printable(e)
  {
    TokenizeSpellable(e);
    Spell(Tokenize(e))
  }

  /** A binary operator's token stands for no operator at any other level. */
  lemma OnlyAtLevel(op: BinOp, k: nat)
    requires k != Level(op)
    ensures BinOpOf(k, BinToken(op)).None?
  {
  }
}

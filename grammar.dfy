/**
 * The grammar the recursive-descent parser accepts, as pure functions
 * over the token stream and the index of the current token.  Each
 * function is the reference definition of one `parse_*` routine: the
 * class `Parsing.Parser` runs the same steps on the shared lexer object
 * and is proved to return what these functions return.
 *
 * Precedence, loosest first: `?:`, `||`, `&&`, `|`, `^`, `&`, equality,
 * relational, shift, additive, multiplicative, unary, primary.  The ten
 * binary levels share one definition, `PLevel`, indexed by `BinOpOf`.
 */
module Grammar {
  import opened Wrappers
  import opened Ast
  import opened Lexical

  /**
   * The tokens `lexer_next` yields one call after another from position
   * `pos`, up to and including the first `Eof`.  The parser reads them
   * lazily, one call per consumed token, which is the same sequence
   * (`ScanFollows`).
   */
  function Scan(src: string, pos: nat): (ls: seq<Lexed>)
    requires pos <= |src|
    ensures |ls| >= 1 && ls[|ls| - 1].tok == Eof
    decreases |src| - pos
  {
    var l := Lex(src, pos);
    if l.tok == Eof then [l] else [l] + Scan(src, l.pos)
  }

  /** Token `n + 1` of the stream `ls` is what the lexer reads after token `n`. */
  ghost predicate Step(src: string, ls: seq<Lexed>, n: nat) {
    n + 1 < |ls| && ls[n].pos <= |src| && ls[n + 1] == Lex(src, ls[n].pos)
  }

  /**
   * `ls` is read from `src` one token after another.  The quantifier
   * fires only on an explicit `Step` term, which keeps the lexer's
   * definition out of proofs that do not ask for it.
   */
  ghost predicate Follows(src: string, ls: seq<Lexed>) {
    forall n {:trigger Step(src, ls, n)} :: 0 <= n < |ls| - 1 ==> Step(src, ls, n)
  }

  /** The stream starts with the token at `pos`, and each token is read where the last one ended. */
  lemma {:induction false} ScanFollows(src: string, pos: nat)
    requires pos <= |src|
    ensures var ls := Scan(src, pos); ls[0] == Lex(src, pos) && ls[0].pos <= |src| && Follows(src, ls)
    decreases |src| - pos
  {
    var ls := Scan(src, pos);
    var l := Lex(src, pos);
    if l.tok != Eof {
      var rest := Scan(src, l.pos);
      ScanFollows(src, l.pos);
      assert ls == [l] + rest;
      forall n | 0 <= n < |ls| - 1
        ensures Step(src, ls, n)
      {
        if n > 0 {
          assert Step(src, rest, n - 1);
        }
      }
    }
  }

  /** The token kinds of a stream. */
  function Tokens(ls: seq<Lexed>): (ts: seq<Token>)
    ensures |ts| == |ls| && forall n :: 0 <= n < |ls| ==> ts[n] == ls[n].tok
  {
    if ls == [] then [] else [ls[0].tok] + Tokens(ls[1..])
  }

  /** A token stream as the parser sees it: it ends with `Eof`. */
  predicate Stream(ts: seq<Token>) {
    |ts| >= 1 && ts[|ts| - 1] == Eof
  }

  /** A position the parser can be at: a token of the stream. */
  predicate At(ts: seq<Token>, i: nat) {
    Stream(ts) && i < |ts|
  }

  /** `parse_var_id`: the seven variable names. */
  function VarOf(name: string): (r: Option<VarId>)
    ensures r.Some? <==> name in {"t", "a", "b", "c", "d", "sh", "mask"}
  {
    if name == "t" then Some(VarT)
    else if name == "a" then Some(VarA)
    else if name == "b" then Some(VarB)
    else if name == "c" then Some(VarC)
    else if name == "d" then Some(VarD)
    else if name == "sh" then Some(VarSh)
    else if name == "mask" then Some(VarMask)
    else None
  }

  /** The prefix operators of `parse_unary`. */
  function UnOpOf(t: Token): (r: Option<UnOp>)
    ensures r.Some? ==> t != Eof
  {
    match t
    case Minus => Some(Neg)
    case Tilde => Some(BitNot)
    case Bang => Some(LogNot)
    case _ => None
  }

  const MaxLevel: nat := 10

  /**
   * The operator token `t` stands for at binary level `k`: 1 is
   * `parse_mul`, 2 `parse_add`, 3 `parse_shift`, 4 `parse_rel`, 5
   * `parse_eq`, 6 `parse_band`, 7 `parse_bxor`, 8 `parse_bor`, 9
   * `parse_land` and 10 `parse_lor`.
   */
  function BinOpOf(k: nat, t: Token): (r: Option<BinOp>)
    ensures r.Some? ==> t != Eof && 1 <= k <= MaxLevel
  {
    match (k, t)
    case (1, Star) => Some(Mul)
    case (1, Slash) => Some(Div)
    case (1, Percent) => Some(Mod)
    case (2, Plus) => Some(Add)
    case (2, Minus) => Some(Sub)
    case (3, ShiftL) => Some(Shl)
    case (3, ShiftR) => Some(Shr)
    case (3, ShiftRU) => Some(UShr)
    case (4, Less) => Some(Lt)
    case (4, Greater) => Some(Gt)
    case (4, LessEq) => Some(Le)
    case (4, GreaterEq) => Some(Ge)
    case (5, EqEq) => Some(Eq)
    case (5, BangEq) => Some(Ne)
    case (6, Amp) => Some(BAnd)
    case (7, Caret) => Some(BXor)
    case (8, Bar) => Some(BOr)
    case (9, AmpAmp) => Some(LAnd)
    case (10, BarBar) => Some(LOr)
    case _ => None
  }

  const ExpectedExpression: string := "Expected expression"
  const ExpectedRParen: string := "Expected ')' "
  const ExpectedColon: string := "Expected ':' in ternary operator"
  const ExpectedArgSeparator: string := "Expected ',' or ')' in function args"
  const TrailingTokens: string := "Unexpected trailing tokens"
  const ParseError: string := "Parse error"

  function UnknownIdentifier(name: string): string {
    "Unknown identifier '" + name + "'"
  }

  /** The messages the parse functions write into the lexer's error buffer. */
  ghost predicate IsParserMessage(m: string) {
    || m == ExpectedExpression
    || m == ExpectedRParen
    || m == ExpectedColon
    || m == ExpectedArgSeparator
    || exists name :: m == UnknownIdentifier(name)
  }

  /** The outcome of a parse function: the tree and the position of the next token, or a message. */
  datatype PResult = Parsed(e: Expr, next: nat) | Failed(msg: string)

  datatype ArgsResult = ArgsParsed(args: seq<Expr>, next: nat) | ArgsFailed(msg: string)

  /**
   * What every parse function guarantees: on success it has consumed at
   * least one token (`strict`) or at least none and stopped inside the
   * stream, and on failure it has written one of the parser's messages.
   */
  ghost predicate Progress(ts: seq<Token>, i: nat, r: PResult, strict: bool) {
    match r
    case Parsed(_, j) => (if strict then i < j else i <= j) && j < |ts|
    case Failed(m) => IsParserMessage(m)
  }

  /** `parse_expr`. */
  function PExpr(ts: seq<Token>, i: nat): (r: PResult)
    requires At(ts, i)
    ensures Progress(ts, i, r, true)
    decreases |ts| - i, 25
  {
    PCond(ts, i)
  }

  /** `parse_cond`: `lor`, optionally followed by `? expr : cond` (right-associative). */
  function PCond(ts: seq<Token>, i: nat): (r: PResult)
    requires At(ts, i)
    ensures Progress(ts, i, r, true)
    decreases |ts| - i, 24
  {
    match PLevel(ts, MaxLevel, i)
    case Failed(m) => Failed(m)
    case Parsed(cond, j) =>
      if ts[j] != Question then Parsed(cond, j)
      else
        match PExpr(ts, j + 1)
        case Failed(m) => Failed(m)
        case Parsed(yes, k) =>
          if ts[k] != Colon then Failed(ExpectedColon)
          else
            match PCond(ts, k + 1)
            case Failed(m) => Failed(m)
            case Parsed(no, l) => Parsed(Ternary(cond, yes, no), l)
  }

  /** Binary level `k` (0 is `parse_unary`): an operand, then the level's loop. */
  function PLevel(ts: seq<Token>, k: nat, i: nat): (r: PResult)
    requires k <= MaxLevel && At(ts, i)
    ensures Progress(ts, i, r, true)
    decreases |ts| - i, 2 * k + 2
  {
    if k == 0 then PUnary(ts, i)
    else
      match PLevel(ts, k - 1, i)
      case Failed(m) => Failed(m)
      case Parsed(left, j) => PLevelRest(ts, k, left, j)
  }

  /**
   * The `while` loop of binary level `k`: as long as the current token is
   * one of the level's operators, consume it, parse the next operand one
   * level down and make the tree built so far its left child.
   */
  function PLevelRest(ts: seq<Token>, k: nat, left: Expr, i: nat): (r: PResult)
    requires 1 <= k <= MaxLevel && At(ts, i)
    ensures Progress(ts, i, r, false)
    decreases |ts| - i, 2 * k + 1
  {
    match BinOpOf(k, ts[i])
    case None => Parsed(left, i)
    case Some(op) =>
      match PLevel(ts, k - 1, i + 1)
      case Failed(m) => Failed(m)
      case Parsed(right, j) => PLevelRest(ts, k, Binary(op, left, right), j)
  }

  /** `parse_unary`: any number of `-`, `~`, `!` before a primary. */
  function PUnary(ts: seq<Token>, i: nat): (r: PResult)
    requires At(ts, i)
    ensures Progress(ts, i, r, true)
    decreases |ts| - i, 1
  {
    match UnOpOf(ts[i])
    case Some(op) =>
      (match PUnary(ts, i + 1)
       case Failed(m) => Failed(m)
       case Parsed(a, j) => Parsed(Unary(op, a), j))
    case None => PPrimary(ts, i)
  }

  /**
   * `parse_primary`: a number, a call `name(args)`, a variable, or a
   * parenthesised expression.
   */
  function PPrimary(ts: seq<Token>, i: nat): (r: PResult)
    requires At(ts, i)
    ensures Progress(ts, i, r, true)
    decreases |ts| - i, 0
  {
    match ts[i]
    case Number(v) => Parsed(Num(v), i + 1)
    case Ident(name) =>
      if ts[i + 1] == LParen then
        if ts[i + 2] == RParen then Parsed(Call(name, []), i + 3)
        else
          (match PArgs(ts, i + 2, [])
           case ArgsFailed(m) => Failed(m)
           case ArgsParsed(args, j) => Parsed(Call(name, args), j))
      else
        (match VarOf(name)
         case Some(id) => Parsed(Var(id), i + 1)
         case None => Failed(UnknownIdentifier(name)))
    case LParen =>
      (match PExpr(ts, i + 1)
       case Failed(m) => Failed(m)
       case Parsed(e, j) => if ts[j] == RParen then Parsed(e, j + 1) else Failed(ExpectedRParen))
    case _ => Failed(ExpectedExpression)
  }

  /**
   * The argument loop of `parse_primary`, after `name(` when the next
   * token is not `)`: an expression, then `)` to finish or `,` to go on.
   */
  function PArgs(ts: seq<Token>, i: nat, acc: seq<Expr>): (r: ArgsResult)
    requires At(ts, i)
    ensures r.ArgsParsed? ==> i < r.next < |ts| && |r.args| > |acc|
    ensures r.ArgsFailed? ==> IsParserMessage(r.msg)
    decreases |ts| - i, 30
  {
    match PExpr(ts, i)
    case Failed(m) => ArgsFailed(m)
    case Parsed(e, j) =>
      if ts[j] == RParen then ArgsParsed(acc + [e], j + 1)
      else if ts[j] == Comma then PArgs(ts, j + 1, acc + [e])
      else ArgsFailed(ExpectedArgSeparator)
  }

  /**
   * `compile_expr`: parse one expression from the first token and accept
   * it only if end of input follows.  A failed parse reports the last
   * message written, or "Parse error" if there is none.
   */
  function Compile(src: string): (r: Result<Expr, string>)
    ensures r.Err? ==> IsParserMessage(r.error) || r.error == TrailingTokens
  {
    var ts := Tokens(Scan(src, 0));
    match PExpr(ts, 0)
    case Failed(m) => Err(if m != "" then m else ParseError)
    case Parsed(e, j) => if ts[j] != Eof then Err(TrailingTokens) else Ok(e)
  }
}

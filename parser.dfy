/**
 * The recursive-descent parser as the source runs it: every routine
 * advances the one shared lexer object, the binary levels rebuild `left`
 * in a `while` loop, and a failure writes its message into the lexer's
 * error buffer and returns no tree.  Each method is proved to agree with
 * its reference function in `Grammar`.
 */
module Parsing {
  import opened Wrappers
  import opened Ast
  import opened Lexical
  import opened Grammar

  class Parser {
    const lx: Lexer
    /** The stream the lexer will yield, and the index of its current token. */
    ghost const stream: seq<Lexed>
    ghost const ts: seq<Token>
    ghost var at: nat

    /** The lexer holds token number `at` of the stream of its source. */
    ghost predicate Valid()
      reads this, lx
    {
      && lx.Valid()
      && Stream(ts) && |stream| == |ts|
      && (forall n :: 0 <= n < |ts| ==> ts[n] == stream[n].tok)
      && Follows(lx.src, stream)
      && at < |ts| && lx.tok == ts[at] && lx.pos == stream[at].pos
    }

    /** A parser over a lexer that has read its first token. */
    constructor (lx: Lexer)
      requires lx.Valid()
      requires var l := Lex(lx.src, 0); lx.tok == l.tok && lx.pos == l.pos
      ensures this.lx == lx && at == 0 && Valid()
      ensures ts == Tokens(Scan(lx.src, 0))
    {
      this.lx := lx;
      var ls := Scan(lx.src, 0);
      ScanFollows(lx.src, 0);
      stream := ls;
      ts := Tokens(ls);
      at := 0;
    }

    /**
     * The method's outcome `e` is the grammar's outcome `r`: the same tree
     * with the lexer at the same token, or no tree with the same message
     * in the error buffer.
     */
    ghost predicate Agrees(e: Option<Expr>, r: PResult)
      reads this, lx
    {
      match r
      case Parsed(x, j) => e == Some(x) && at == j
      case Failed(m) => e == None && lx.err == m
    }

    /** `lexer_next` on the shared lexer: move to the next token of the stream. */
    method Advance()
      requires Valid() && ts[at] != Eof
      modifies this, lx
      ensures Valid() && at == old(at) + 1
    {
      assert Step(lx.src, stream, at);
      lx.Next();
      at := at + 1;
    }

    /** `consume`: step past the current token if it is `t`. */
    method Consume(t: Token) returns (b: bool)
      requires Valid() && t != Eof
      modifies this, lx
      ensures Valid()
      ensures b == (ts[old(at)] == t)
      ensures at == if b then old(at) + 1 else old(at)
      ensures !b ==> lx.err == old(lx.err)
    {
      if lx.tok == t {
        Advance();
        return true;
      }
      return false;
    }

    /** `parse_expr`. */
    method ParseExpr() returns (e: Option<Expr>)
      requires Valid()
      modifies this, lx
      ensures Valid()
      ensures Agrees(e, PExpr(ts, old(at)))
      decreases |ts| - at, 25
    {
      e := ParseCond();
    }

    /** `parse_cond`. */
    method ParseCond() returns (e: Option<Expr>)
      requires Valid()
      modifies this, lx
      ensures Valid()
      ensures Agrees(e, PCond(ts, old(at)))
      decreases |ts| - at, 24
    {
      var cond := ParseLevel(MaxLevel);
      if cond.None? {
        return None;
      }
      var q := Consume(Question);
      if !q {
        return cond;
      }
      var yes := ParseExpr();
      if yes.None? {
        return None;
      }
      var colon := Consume(Colon);
      if !colon {
        lx.err := ExpectedColon;
        return None;
      }
      var no := ParseCond();
      if no.None? {
        return None;
      }
      return Some(Ternary(cond.value, yes.value, no.value));
    }

    /**
     * The ten binary levels `parse_mul` (k = 1) … `parse_lor` (k = 10):
     * parse an operand one level down, then fold every following operator
     * of this level and its right operand into the left operand.
     */
    method ParseLevel(k: nat) returns (e: Option<Expr>)
      requires 1 <= k <= MaxLevel && Valid()
      modifies this, lx
      ensures Valid()
      ensures Agrees(e, PLevel(ts, k, old(at)))
      decreases |ts| - at, 2 * k + 2
    {
      ghost var i0 := at;
      var l := ParseOperand(k);
      if l.None? {
        return None;
      }
      var left := l.value;
      while BinOpOf(k, lx.tok).Some?
        invariant Valid() && i0 < at
        invariant PLevel(ts, k, i0) == PLevelRest(ts, k, left, at)
        decreases |ts| - at
      {
        var op := BinOpOf(k, lx.tok).value;
        Advance();
        var r := ParseOperand(k);
        if r.None? {
          return None;
        }
        left := Binary(op, left, r.value);
      }
      return Some(left);
    }

    /** An operand of binary level `k`: `parse_unary` below `*`, else the next level down. */
    method ParseOperand(k: nat) returns (e: Option<Expr>)
      requires 1 <= k <= MaxLevel && Valid()
      modifies this, lx
      ensures Valid()
      ensures Agrees(e, PLevel(ts, k - 1, old(at)))
      decreases |ts| - at, 2 * k + 1
    {
      if k == 1 {
        e := ParseUnary();
      } else {
        e := ParseLevel(k - 1);
      }
    }

    /** `parse_unary`. */
    method ParseUnary() returns (e: Option<Expr>)
      requires Valid()
      modifies this, lx
      ensures Valid()
      ensures Agrees(e, PUnary(ts, old(at)))
      decreases |ts| - at, 2
    {
      var op := ConsumeUnaryOp();
      if op.Some? {
        var a := ParseUnary();
        if a.None? {
          return None;
        }
        return Some(Unary(op.value, a.value));
      }
      e := ParsePrimary();
    }

    /**
     * The three `consume` calls that open `parse_unary`, for `-`, `~` and
     * `!` in that order: the prefix operator read, if any.
     */
    method ConsumeUnaryOp() returns (op: Option<UnOp>)
      requires Valid()
      modifies this, lx
      ensures Valid()
      ensures op == UnOpOf(ts[old(at)])
      ensures at == if op.Some? then old(at) + 1 else old(at)
    {
      var neg := Consume(Minus);
      if neg {
        return Some(Neg);
      }
      var bnot := Consume(Tilde);
      if bnot {
        return Some(BitNot);
      }
      var lnot := Consume(Bang);
      if lnot {
        return Some(LogNot);
      }
      return None;
    }

    /**
     * The argument loop of `parse_primary`, after `name(` when the next
     * token is not `)`: parse an argument, then stop at `)` or go on after
     * `,`; any other token is an error.
     */
    method ParseArgs() returns (args: Option<seq<Expr>>)
      requires Valid()
      modifies this, lx
      ensures Valid()
      ensures AgreesArgs(args, PArgs(ts, old(at), []))
      decreases |ts| - at, 26
    {
      ghost var i0 := at;
      var acc: seq<Expr> := [];
      while true
        invariant Valid() && i0 <= at
        invariant PArgs(ts, i0, []) == PArgs(ts, at, acc)
        decreases |ts| - at
      {
        var arg := ParseExpr();
        if arg.None? {
          return None;
        }
        acc := acc + [arg.value];
        var done := Consume(RParen);
        if done {
          return Some(acc);
        }
        var comma := Consume(Comma);
        if !comma {
          lx.err := ExpectedArgSeparator;
          return None;
        }
      }
    }

    /** The loop's outcome `args` is the grammar's outcome `r`, as in `Agrees`. */
    ghost predicate AgreesArgs(args: Option<seq<Expr>>, r: ArgsResult)
      reads this, lx
    {
      match r
      case ArgsParsed(a, c) => args == Some(a) && at == c
      case ArgsFailed(m) => args == None && lx.err == m
    }

    /** `parse_primary`. */
    method ParsePrimary() returns (e: Option<Expr>)
      requires Valid()
      modifies this, lx
      ensures Valid()
      ensures Agrees(e, PPrimary(ts, old(at)))
      decreases |ts| - at, 1
    {
      if lx.tok.Number? {
        var v := lx.tok.value;
        Advance();
        return Some(Num(v));
      }
      if lx.tok.Ident? {
        e := ParseName();
        return;
      }
      var lp := Consume(LParen);
      if lp {
        e := ParseExpr();
        if e.None? {
          return None;
        }
        var rp := Consume(RParen);
        if !rp {
          lx.err := ExpectedRParen;
          return None;
        }
        return e;
      }
      lx.err := ExpectedExpression;
      return None;
    }

    /**
     * The name branch of `parse_primary`: a call when `(` follows the name,
     * otherwise one of the seven variables, otherwise an unknown identifier.
     */
    method ParseName() returns (e: Option<Expr>)
      requires Valid() && lx.tok.Ident?
      modifies this, lx
      ensures Valid()
      ensures Agrees(e, PPrimary(ts, old(at)))
      decreases |ts| - at, 0
    {
      var ident := lx.tok.name;
      Advance();
      var lp := Consume(LParen);
      if lp {
        var rp := Consume(RParen);
        if rp {
          return Some(Call(ident, []));
        }
        var args := ParseArgs();
        if args.None? {
          return None;
        }
        return Some(Call(ident, args.value));
      }
      var id := VarOf(ident);
      if id.Some? {
        return Some(Var(id.value));
      }
      lx.err := UnknownIdentifier(ident);
      return None;
    }
  }

  /**
   * `compile_expr`: a fresh lexer on `src`, the first token, one
   * expression, and end of input after it.
   */
  method CompileExpr(src: string) returns (r: Result<Expr, string>)
    ensures r == Compile(src)
  {
    var lx := new Lexer(src);
    lx.Next();
    var p := new Parser(lx);
    var root := p.ParseExpr();
    if root.None? {
      return Err(if lx.err != "" then lx.err else ParseError);
    }
    if lx.tok != Eof {
      return Err(TrailingTokens);
    }
    return Ok(root.value);
  }
}

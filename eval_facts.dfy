/**
 * What the evaluator promises: floor-then-wrap integer conversion, masked
 * shift distances, guarded division and modulo, 0/1 logical results,
 * laziness of `&&`, `||` and `?:`, the eight-argument cap of calls, and
 * that a result depends only on the variables the tree mentions.
 */
module EvalFacts {
  import opened Int32
  import opened Ast
  import opened Evaluator

  /** `to_i32` floors before it wraps. */
  lemma ToI32Examples()
    ensures ToI32(5.9) == 5
    ensures ToI32(-5.1) == -6
    ensures ToI32(2147483648.0) == -2147483648
    ensures ToI32(4294967303.5) == 7
  {
  }

  lemma BitNotOfZero(ctx: Context, m: Libm)
    ensures Eval(Unary(BitNot, Num(0.0)), ctx, m) == -1.0
  {
  }

  /**
   * The `& mask` idiom: with a non-negative integral mask the result lies
   * in [0, mask], whatever the left operand evaluates to.
   */
  lemma MaskBoundsResult(e: Expr, ctx: Context, m: Libm)
    requires ctx.mask == ctx.mask.Floor as real && 0.0 <= ctx.mask < Two31 as real
    ensures 0.0 <= Eval(Binary(BAnd, e, Var(VarMask)), ctx, m) <= ctx.mask
  {
    var k := ctx.mask.Floor;
    WrapIdentity(k);
    assert ToI32(ctx.mask) == k;
    var x := ToI32(Eval(e, ctx, m));
    AndFacts(x, k);
    assert Eval(Binary(BAnd, e, Var(VarMask)), ctx, m) == EvalBinary(BAnd, Eval(e, ctx, m), ctx.mask);
    assert EvalBinary(BAnd, Eval(e, ctx, m), ctx.mask) == And(x, k) as real;
  }

  predicate IsShift(op: BinOp) {
    op == Shl || op == Shr || op == UShr
  }

  /**
   * Only the low five bits of the shift distance matter: a distance k + 32
   * shifts exactly as k does, for every left operand.
   */
  lemma ShiftDistanceMod32(op: BinOp, l: Expr, k: int, ctx: Context, m: Libm)
    requires IsShift(op) && InRange(k) && InRange(k + 32)
    ensures Eval(Binary(op, l, Num((k + 32) as real)), ctx, m)
         == Eval(Binary(op, l, Num(k as real)), ctx, m)
  {
    assert ((k + 32) as real).Floor == k + 32;
    assert (k as real).Floor == k;
    WrapIdentity(k + 32);
    WrapIdentity(k);
    assert ShiftCount(ToI32((k + 32) as real)) == ShiftCount(ToI32(k as real));
  }

  lemma OneShiftedByOne(ctx: Context, m: Libm)
    ensures Eval(Binary(Shl, Num(1.0), Num(1.0)), ctx, m) == 2.0
  {
    WrapIdentity(1);
    WrapIdentity(2);
    assert ToI32(1.0) == 1;
    assert ShiftCount(1) == 1;
    assert Int32.Shl(1, 1) == 2;
    assert Eval(Binary(Shl, Num(1.0), Num(1.0)), ctx, m) == EvalBinary(Shl, 1.0, 1.0);
  }

  /** `1<<33` is `1<<1`, which is 2. */
  lemma OneShiftedBy33(ctx: Context, m: Libm)
    ensures Eval(Binary(Shl, Num(1.0), Num(33.0)), ctx, m) == 2.0
  {
    ShiftDistanceMod32(Shl, Num(1.0), 1, ctx, m);
    OneShiftedByOne(ctx, m);
  }

  /** `/` by a divisor smaller than 1e-12 in magnitude is 0, otherwise the quotient. */
  lemma DivisionGuard(l: Expr, r: Expr, ctx: Context, m: Libm)
    ensures RAbs(Eval(r, ctx, m)) < Epsilon ==> Eval(Binary(Div, l, r), ctx, m) == 0.0
    ensures RAbs(Eval(r, ctx, m)) >= Epsilon ==>
      Eval(Binary(Div, l, r), ctx, m) == Eval(l, ctx, m) / Eval(r, ctx, m)
  {
    StrictOperands(Div, l, r, ctx, m);
  }

  /** An operator other than `&&` and `||` is applied to both operands' values. */
  lemma StrictOperands(op: BinOp, l: Expr, r: Expr, ctx: Context, m: Libm)
    requires op != LAnd && op != LOr
    ensures Eval(Binary(op, l, r), ctx, m) == EvalBinary(op, Eval(l, ctx, m), Eval(r, ctx, m))
  {
  }

  /** The guarded quotient `q` of two values is 0 or, times the divisor, gives back the dividend. */
  lemma DivideGuarded(a: real, b: real, q: real)
    requires q == EvalBinary(Div, a, b)
    ensures RAbs(b) < Epsilon ==> q == 0.0
    ensures RAbs(b) >= Epsilon ==> q * b == a
  {
    if RAbs(b) >= Epsilon {
      assert b != 0.0;
      DivCancels(a, b, q);
    }
  }

  lemma DivCancels(a: real, b: real, q: real)
    requires b != 0.0 && q == a / b
    ensures q * b == a
  {
  }

  /**
   * `%` is 0 when the truncated divisor is 0; otherwise it is C's
   * remainder `Rem` of the truncated operands.
   */
  lemma ModuloSemantics(l: Expr, r: Expr, ctx: Context, m: Libm)
    ensures var y, v := ToI32(Eval(r, ctx, m)), Eval(Binary(Mod, l, r), ctx, m);
      && (y == 0 ==> v == 0.0)
      && (y != 0 ==> v == Rem(ToI32(Eval(l, ctx, m)), y) as real)
  {
    StrictOperands(Mod, l, r, ctx, m);
  }

  /**
   * The guarded remainder `v` of two values: 0 for a zero divisor, else an
   * integer with the dividend's sign, smaller in magnitude than the divisor,
   * that differs from the dividend by a multiple of it.
   */
  lemma RemainderGuarded(a: real, b: real, v: real)
    requires v == EvalBinary(Mod, a, b)
    ensures var x, y := ToI32(a), ToI32(b);
      && (y == 0 ==> v == 0.0)
      && (y != 0 ==>
            && v == v.Floor as real
            && (x >= 0 ==> v >= 0.0) && (x < 0 ==> v <= 0.0)
            && -(Abs(y) as real) < v < Abs(y) as real
            && (x - v.Floor) % Abs(y) == 0)
  {
    var x, y := ToI32(a), ToI32(b);
    if y != 0 {
      var k := Rem(x, y);
      assert v == k as real;
      assert v.Floor == k;
    }
  }

  predicate IsLogical(e: Expr) {
    || (e.Unary? && e.uop == LogNot)
    || (e.Binary? && e.bop in {Lt, Gt, Le, Ge, Eq, Ne, LAnd, LOr})
  }

  /** `!`, `&&`, `||` and the comparisons yield exactly 0 or 1. */
  lemma LogicalIsZeroOrOne(e: Expr, ctx: Context, m: Libm)
    requires IsLogical(e)
    ensures Eval(e, ctx, m) == 0.0 || Eval(e, ctx, m) == 1.0
  {
  }

  /** A false left operand decides `&&`: the right tree is never looked at. */
  lemma AndIgnoresRightWhenLeftFalse(l: Expr, r1: Expr, r2: Expr, ctx: Context, m: Libm)
    requires !Truthy(Eval(l, ctx, m))
    ensures Eval(Binary(LAnd, l, r1), ctx, m) == Eval(Binary(LAnd, l, r2), ctx, m) == 0.0
  {
  }

  /** A true left operand decides `||`. */
  lemma OrIgnoresRightWhenLeftTrue(l: Expr, r1: Expr, r2: Expr, ctx: Context, m: Libm)
    requires Truthy(Eval(l, ctx, m))
    ensures Eval(Binary(LOr, l, r1), ctx, m) == Eval(Binary(LOr, l, r2), ctx, m) == 1.0
  {
  }

  /** The branch `?:` does not take has no influence on its value. */
  lemma TernaryIgnoresUntakenBranch(c: Expr, y1: Expr, y2: Expr, n1: Expr, n2: Expr, ctx: Context, m: Libm)
    ensures Truthy(Eval(c, ctx, m)) ==>
      Eval(Ternary(c, y1, n1), ctx, m) == Eval(Ternary(c, y1, n2), ctx, m) == Eval(y1, ctx, m)
    ensures !Truthy(Eval(c, ctx, m)) ==>
      Eval(Ternary(c, y1, n1), ctx, m) == Eval(Ternary(c, y2, n1), ctx, m) == Eval(n1, ctx, m)
  {
  }

  /** `0&&(1/0)` is 0, and `1/0` itself is 0 rather than infinite. */
  lemma GuardedExamples(ctx: Context, m: Libm)
    ensures Eval(Binary(Div, Num(1.0), Num(0.0)), ctx, m) == 0.0
    ensures Eval(Binary(LAnd, Num(0.0), Binary(Div, Num(1.0), Num(0.0))), ctx, m) == 0.0
    ensures Eval(Binary(Mod, Num(7.0), Num(0.5)), ctx, m) == 0.0
    ensures Eval(Binary(Mod, Num(0.0) , Num(3.0)), ctx, m) == 0.0
  {
  }

  /** A name that is not a built-in of the given arity evaluates to 0. */
  lemma UnknownCallIsZero(name: string, args: seq<Expr>, ctx: Context, m: Libm)
    requires !IsBuiltin(name, Min(|args|, MaxArgs))
    ensures Eval(Call(name, args), ctx, m) == 0.0
  {
  }

  lemma {:induction false} EvalArgsPrefix(args: seq<Expr>, limit: nat, ctx: Context, m: Libm)
    requires limit <= |args|
    ensures EvalArgs(args, limit, ctx, m) == EvalArgs(args[..limit], limit, ctx, m)
  {
    if limit > 0 {
      assert args[..limit][1..] == args[1..][..limit - 1];
      EvalArgsPrefix(args[1..], limit - 1, ctx, m);
    }
  }

  /**
   * Arguments after the eighth are never evaluated: dropping them changes
   * nothing.  No built-in takes eight arguments, so such a call is 0.
   */
  lemma ArgsAfterEighthIgnored(name: string, args: seq<Expr>, ctx: Context, m: Libm)
    requires |args| > MaxArgs
    ensures Eval(Call(name, args), ctx, m) == Eval(Call(name, args[..MaxArgs]), ctx, m) == 0.0
  {
    EvalArgsPrefix(args, MaxArgs, ctx, m);
  }

  /** The variables a tree mentions. */
  function FreeVars(e: Expr): set<VarId>
    decreases e, 1
  {
    match e
    case Num(_) => {}
    case Var(id) => {id}
    case Unary(_, x) => FreeVars(x)
    case Binary(_, l, r) => FreeVars(l) + FreeVars(r)
    case Ternary(c, y, n) => FreeVars(c) + FreeVars(y) + FreeVars(n)
    case Call(_, args) => FreeVarsOfArgs(args)
  }

  function FreeVarsOfArgs(args: seq<Expr>): set<VarId>
    decreases args, 0
  {
    if args == [] then {} else FreeVars(args[0]) + FreeVarsOfArgs(args[1..])
  }

  predicate AgreeOn(c1: Context, c2: Context, vs: set<VarId>) {
    forall v :: v in vs ==> EvalVar(c1, v) == EvalVar(c2, v)
  }

  /**
   * Evaluation reads nothing but the context fields of the variables the
   * tree mentions: two contexts that agree on them give the same value.
   */
  lemma {:induction false} EvalReadsOnlyFreeVars(e: Expr, c1: Context, c2: Context, m: Libm)
    requires AgreeOn(c1, c2, FreeVars(e))
    ensures Eval(e, c1, m) == Eval(e, c2, m)
    decreases e, 1
  {
    match e
    case Num(_) =>
    case Var(id) =>
    case Unary(_, x) =>
      EvalReadsOnlyFreeVars(x, c1, c2, m);
    case Binary(_, l, r) =>
      EvalReadsOnlyFreeVars(l, c1, c2, m);
      EvalReadsOnlyFreeVars(r, c1, c2, m);
    case Ternary(c, y, n) =>
      EvalReadsOnlyFreeVars(c, c1, c2, m);
      EvalReadsOnlyFreeVars(y, c1, c2, m);
      EvalReadsOnlyFreeVars(n, c1, c2, m);
    case Call(_, args) =>
      EvalArgsReadOnlyFreeVars(args, MaxArgs, c1, c2, m);
  }

  lemma {:induction false} EvalArgsReadOnlyFreeVars(args: seq<Expr>, limit: nat, c1: Context, c2: Context, m: Libm)
    requires AgreeOn(c1, c2, FreeVarsOfArgs(args))
    ensures EvalArgs(args, limit, c1, m) == EvalArgs(args, limit, c2, m)
    decreases args, 0
  {
    if args != [] && limit > 0 {
      EvalReadsOnlyFreeVars(args[0], c1, c2, m);
      EvalArgsReadOnlyFreeVars(args[1..], limit - 1, c1, c2, m);
    }
  }

  predicate IsInt(v: real) {
    v == v.Floor as real
  }

  /**
   * The shape of the classic bytebeat presets: integer literals, no `/`
   * and no function calls.
   */
  predicate IntegerProgram(e: Expr)
    decreases e
  {
    match e
    case Num(v) => IsInt(v)
    case Var(_) => true
    case Unary(_, x) => IntegerProgram(x)
    case Binary(op, l, r) => op != Div && IntegerProgram(l) && IntegerProgram(r)
    case Ternary(c, y, n) => IntegerProgram(c) && IntegerProgram(y) && IntegerProgram(n)
    case Call(_, _) => false
  }

  predicate IntegerContext(ctx: Context) {
    IsInt(ctx.t) && IsInt(ctx.a) && IsInt(ctx.b) && IsInt(ctx.c) && IsInt(ctx.d) && IsInt(ctx.sh) && IsInt(ctx.mask)
  }

  lemma ProductOfInts(x: int, y: int)
    ensures (x as real) * (y as real) == (x * y) as real
  {
  }

  lemma IntIsInt(k: int)
    ensures IsInt(k as real)
  {
  }

  lemma UnaryKeepsInts(op: UnOp, a: real)
    requires IsInt(a)
    ensures IsInt(EvalUnary(op, a))
  {
    var k := a.Floor;
    match op
    case Neg =>
      assert -a == (-k) as real;
      IntIsInt(-k);
    case BitNot =>
      IntIsInt(Not(ToI32(a)));
    case LogNot =>
      IntIsInt(if a == 0.0 then 1 else 0);
  }

  lemma BinaryKeepsInts(op: BinOp, a: real, b: real)
    requires op != Div && IsInt(a) && IsInt(b)
    ensures IsInt(EvalBinary(op, a, b))
  {
    var x, y := a.Floor, b.Floor;
    match op
    case Add =>
      assert a + b == (x + y) as real;
      IntIsInt(x + y);
    case Sub =>
      assert a - b == (x - y) as real;
      IntIsInt(x - y);
    case Mul =>
      ProductOfInts(x, y);
      assert EvalBinary(op, a, b) == (x * y) as real;
      IntIsInt(x * y);
    case Mod =>
      var ib := ToI32(b);
      IntIsInt(if ib == 0 then 0 else Rem(ToI32(a), ib));
    case BAnd =>
      IntIsInt(And(ToI32(a), ToI32(b)));
    case BOr =>
      IntIsInt(Or(ToI32(a), ToI32(b)));
    case BXor =>
      IntIsInt(Xor(ToI32(a), ToI32(b)));
    case Shl =>
      IntIsInt(Int32.Shl(ToI32(a), ShiftCount(ToI32(b))));
    case Shr =>
      IntIsInt(Int32.Shr(ToI32(a), ShiftCount(ToI32(b))));
    case UShr =>
      IntIsInt(Int32.UShr(ToU32(a), ShiftCount(ToI32(b))));
    case _ =>
      IntIsInt(if EvalBinary(op, a, b) == 1.0 then 1 else 0);
  }

  /**
   * An integer program evaluated in an integer context only ever
   * produces integers: the arithmetic never leaves the integers.
   */
  lemma {:induction false} IntegerProgramsStayIntegral(e: Expr, ctx: Context, m: Libm)
    requires IntegerProgram(e) && IntegerContext(ctx)
    ensures IsInt(Eval(e, ctx, m))
  {
    match e
    case Num(_) =>
    case Var(id) =>
    case Unary(op, x) =>
      IntegerProgramsStayIntegral(x, ctx, m);
      UnaryKeepsInts(op, Eval(x, ctx, m));
    case Binary(op, l, r) =>
      IntegerProgramsStayIntegral(l, ctx, m);
      IntegerProgramsStayIntegral(r, ctx, m);
      if op != LAnd && op != LOr {
        BinaryKeepsInts(op, Eval(l, ctx, m), Eval(r, ctx, m));
      }
    case Ternary(c, y, n) =>
      IntegerProgramsStayIntegral(c, ctx, m);
      IntegerProgramsStayIntegral(y, ctx, m);
      IntegerProgramsStayIntegral(n, ctx, m);
  }
}

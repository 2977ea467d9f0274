/**
 * The evaluator `expr_eval`: a total recursive walk of the tree.  Every
 * edge case (division by a tiny divisor, modulo by zero, an unknown
 * function or a wrong argument count) yields 0 instead of failing.
 */
module Evaluator {
  import opened Int32
  import opened Ast

  /** Guard used by `/`, `==` and `!=` (1e-12 in the source). */
  const Epsilon: real := 0.000000000001

  /** A call evaluates at most this many arguments. */
  const MaxArgs: nat := 8

  function RAbs(x: real): (r: real)
    ensures r >= 0.0 && (r == x || r == -x)
  {
    if x < 0.0 then -x else x
  }

  function Min(x: nat, y: nat): nat {
    if x < y then x else y
  }

  /** C's truth test on a double (NaN is not modelled). */
  predicate Truthy(v: real) {
    v != 0.0
  }

  function Bool(b: bool): real {
    if b then 1.0 else 0.0
  }

  /** The built-ins `fn_eval` knows, each with its one accepted arity. */
  predicate IsBuiltin(name: string, n: nat) {
    || (n == 1 && name in {"sin", "cos", "tan", "abs", "sqrt", "floor", "ceil"})
    || (n == 2 && name in {"pow", "min", "max"})
    || (n == 3 && name == "clamp")
  }

  function FMin(x: real, y: real): real {
    if x <= y then x else y
  }

  function FMax(x: real, y: real): real {
    if x >= y then x else y
  }

  function Ceil(x: real): int {
    -((-x).Floor)
  }

  /**
   * `fn_eval`: a built-in called with its arity computes its value;
   * anything else is 0.
   */
  function FnEval(name: string, a: seq<real>, m: Libm): (r: real)
    ensures !IsBuiltin(name, |a|) ==> r == 0.0
    ensures IsBuiltin(name, |a|) && name == "abs" ==> r >= 0.0
    ensures IsBuiltin(name, |a|) && name == "clamp" && a[1] <= a[2] ==> a[1] <= r <= a[2]
  {
    var n := |a|;
    if name == "sin" && n == 1 then m.sin(a[0])
    else if name == "cos" && n == 1 then m.cos(a[0])
    else if name == "tan" && n == 1 then m.tan(a[0])
    else if name == "abs" && n == 1 then RAbs(a[0])
    else if name == "sqrt" && n == 1 then m.sqrt(RAbs(a[0]))
    else if name == "floor" && n == 1 then a[0].Floor as real
    else if name == "ceil" && n == 1 then Ceil(a[0]) as real
    else if name == "pow" && n == 2 then m.pow(a[0], a[1])
    else if name == "min" && n == 2 then FMin(a[0], a[1])
    else if name == "max" && n == 2 then FMax(a[0], a[1])
    else if name == "clamp" && n == 3 then FMax(a[1], FMin(a[2], a[0]))
    else 0.0
  }

  function EvalVar(ctx: Context, id: VarId): real {
    match id
    case VarT => ctx.t
    case VarA => ctx.a
    case VarB => ctx.b
    case VarC => ctx.c
    case VarD => ctx.d
    case VarSh => ctx.sh
    case VarMask => ctx.mask
  }

  function EvalUnary(op: UnOp, a: real): real {
    match op
    case Neg => -a
    case BitNot => Not(ToI32(a)) as real
    case LogNot => if a == 0.0 then 1.0 else 0.0
  }

  /**
   * The operators that evaluate both operands.  `&&` and `||` are lazy
   * and handled by Eval itself; here they fall to the switch's default.
   */
  function EvalBinary(op: BinOp, a: real, b: real): real {
    match op
    case Add => a + b
    case Sub => a - b
    case Mul => a * b
    case Div => if RAbs(b) < Epsilon then 0.0 else a / b
    case Mod =>
      var ib := ToI32(b);
      if ib == 0 then 0.0 else Rem(ToI32(a), ib) as real
    case Lt => Bool(a < b)
    case Gt => Bool(a > b)
    case Le => Bool(a <= b)
    case Ge => Bool(a >= b)
    case Eq => Bool(RAbs(a - b) < Epsilon)
    case Ne => Bool(RAbs(a - b) >= Epsilon)
    case LAnd => 0.0
    case LOr => 0.0
    case BAnd => And(ToI32(a), ToI32(b)) as real
    case BOr => Or(ToI32(a), ToI32(b)) as real
    case BXor => Xor(ToI32(a), ToI32(b)) as real
    case Shl => Int32.Shl(ToI32(a), ShiftCount(ToI32(b))) as real
    case Shr => Int32.Shr(ToI32(a), ShiftCount(ToI32(b))) as real
    case UShr => Int32.UShr(ToU32(a), ShiftCount(ToI32(b))) as real
  }

  /** `expr_eval`. */
  function Eval(e: Expr, ctx: Context, m: Libm): real
    decreases e, 1
  {
    match e
    case Num(v) => v
    case Var(id) => EvalVar(ctx, id)
    case Unary(op, x) => EvalUnary(op, Eval(x, ctx, m))
    case Binary(op, l, r) =>
      if op == LAnd then
        (if Truthy(Eval(l, ctx, m)) then Bool(Truthy(Eval(r, ctx, m))) else 0.0)
      else if op == LOr then
        (if Truthy(Eval(l, ctx, m)) then 1.0 else Bool(Truthy(Eval(r, ctx, m))))
      else
        EvalBinary(op, Eval(l, ctx, m), Eval(r, ctx, m))
    case Ternary(c, y, n) =>
      if Truthy(Eval(c, ctx, m)) then Eval(y, ctx, m) else Eval(n, ctx, m)
    case Call(name, args) =>
      FnEval(name, EvalArgs(args, MaxArgs, ctx, m), m)
  }

  /** The values of the first `limit` arguments, in order. */
  function EvalArgs(args: seq<Expr>, limit: nat, ctx: Context, m: Libm): (vs: seq<real>)
    ensures |vs| == Min(|args|, limit)
    decreases args, 0
  {
    if args == [] || limit == 0 then []
    else [Eval(args[0], ctx, m)] + EvalArgs(args[1..], limit - 1, ctx, m)
  }
}

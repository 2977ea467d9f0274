/**
 * The compiled form of a bytebeat program: a closed tagged tree, the
 * per-sample variable context and the floating-point library calls the
 * evaluator makes.
 */
module Ast {

  /** The seven names an expression may read: `t,a,b,c,d,sh,mask`. */
  datatype VarId = VarT | VarA | VarB | VarC | VarD | VarSh | VarMask

  datatype UnOp = Neg | BitNot | LogNot

  datatype BinOp =
    | Add | Sub | Mul | Div | Mod
    | Lt | Gt | Le | Ge | Eq | Ne
    | LAnd | LOr
    | BAnd | BOr | BXor
    | Shl | Shr | UShr

  /**
   * An expression tree.  A call keeps its name and all its argument trees;
   * arity is only looked at when the call is evaluated.
   */
  datatype Expr =
    | Num(value: real)
    | Var(id: VarId)
    | Unary(uop: UnOp, arg: Expr)
    | Binary(bop: BinOp, left: Expr, right: Expr)
    | Ternary(cond: Expr, yes: Expr, no: Expr)
    | Call(name: string, args: seq<Expr>)

  /** The values of the seven variables for one sample. */
  datatype Context = Context(t: real, a: real, b: real, c: real, d: real, sh: real, mask: real)

  /**
   * The transcendental functions of the C math library.  Their exact
   * floating-point results are not modelled: the evaluator receives them
   * as parameters and every property below holds whatever they are.
   */
  datatype Libm = Libm(
    sin: real -> real,
    cos: real -> real,
    tan: real -> real,
    sqrt: real -> real,
    pow: (real, real) -> real)
}

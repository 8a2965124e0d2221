/**
 * The part of cvxpy the optimiser composes: decision variables, affine and
 * convex expressions built from them, constraints, problems, and the values
 * a solver hands back. Expressions are kept symbolic so that the way the
 * optimiser assembles them can be stated; `Eval` gives them their numeric
 * meaning under an assignment of values to variables, with the 2-norm and
 * user-supplied callables left as parameters.
 */
module Expressions {
  import opened Wrappers
  import opened Vectors

  /**
   * A cvxpy `Variable` of shape (len, 1). Each `addSource` call creates the
   * pair SourceVar/ThetaVar tagged with that call's model counter; each
   * ADMM sub-problem creates a fresh SourceUpdate/ThetaUpdate pair tagged
   * with its sweep number and the position of the source in the registry.
   */
  datatype Var =
    | SourceVar(model: nat, len: nat)
    | ThetaVar(model: nat, len: nat)
    | SourceUpdate(sweep: nat, pos: nat, len: nat)
    | ThetaUpdate(sweep: nat, pos: nat, len: nat)

  datatype Expr =
    | Zero                          // the Python integer 0 (an empty sum, a disabled cost term)
    | Const(values: seq<real>)      // a numpy array
    | Variable(v: Var)
    | Add(l: Expr, r: Expr)
    | Sub(l: Expr, r: Expr)
    | MatMul(m: Matrix, e: Expr)    // regressor * theta
    | Mul(e: Expr, w: seq<real>)    // an expression times a numpy weight (alpha, beta, gamma, rho/2)
    | SumSquares(e: Expr)
    | Diff(e: Expr)
    | Norm2(e: Expr)
    | Norm1(e: Expr)
    | Call(f: nat, e: Expr)         // a user-supplied Python callable, identified by f

  datatype Constraint =
    | Eq(lhs: Expr, rhs: Expr)
    | Le(lhs: Expr, rhs: Expr)
    | Ge(lhs: Expr, rhs: Expr)
    | Gt(lhs: Expr, rhs: Expr)

  /** `cvxpy.Problem(cvxpy.Minimize(objective), constraints)`. */
  datatype Problem = Problem(objective: Expr, constraints: seq<Constraint>)

  /** What `prob.solve()` makes available: its return value and each variable's `.value`. */
  datatype Solution = Solution(objective: real, values: map<Var, seq<real>>)

  /** `v.value` after a solve: present only when the solver assigned a value of v's shape. */
  function ValueOf(sol: Solution, v: Var): (r: Option<seq<real>>)
    ensures r.Some? ==> |r.value| == v.len
  {
    if v in sol.values && |sol.values[v]| == v.len then Some(sol.values[v]) else None
  }

  /** The decision variables an expression mentions. */
  function Vars(e: Expr): set<Var>
  {
    match e
    case Zero => {}
    case Const(_) => {}
    case Variable(v) => {v}
    case Add(l, r) => Vars(l) + Vars(r)
    case Sub(l, r) => Vars(l) + Vars(r)
    case MatMul(_, x) => Vars(x)
    case Mul(x, _) => Vars(x)
    case SumSquares(x) => Vars(x)
    case Diff(x) => Vars(x)
    case Norm2(x) => Vars(x)
    case Norm1(x) => Vars(x)
    case Call(_, x) => Vars(x)
  }

  function ConstraintVars(c: Constraint): set<Var>
  {
    Vars(c.lhs) + Vars(c.rhs)
  }

  function ConstraintsVars(cs: seq<Constraint>): set<Var>
  {
    if cs == [] then {} else ConstraintsVars(cs[..|cs| - 1]) + ConstraintVars(cs[|cs| - 1])
  }

  /** The summands of a left-nested sum `((e0 + e1) + e2) + ...`. */
  function Spine(e: Expr): (s: seq<Expr>)
    ensures |s| >= 1
  {
    if e.Add? then Spine(e.l) + [e.r] else [e]
  }

  // ---------------------------------------------------------------------
  // Numeric meaning
  // ---------------------------------------------------------------------

  /** The parts of cvxpy's numeric semantics this model does not define. */
  datatype Semantics = Semantics(norm2: seq<real> -> real, call: (nat, seq<real>) -> seq<real>)

  type Env = map<Var, seq<real>>

  datatype Op = Plus | Minus | Times

  function Apply(op: Op, x: real, y: real): real
  {
    match op
    case Plus => x + y
    case Minus => x - y
    case Times => x * y
  }

  /** numpy broadcasting between two vectors: equal lengths, or one of them of length 1. */
  function Broadcast(op: Op, a: seq<real>, b: seq<real>): (r: Option<seq<real>>)
    ensures |a| == |b| ==> r.Some? && |r.value| == |a|
    ensures |a| == |b| ==> forall i :: 0 <= i < |a| ==> r.value[i] == Apply(op, a[i], b[i])
    ensures |a| != |b| && |a| == 1 ==> r.Some? && |r.value| == |b|
    ensures |a| != |b| && |a| == 1 ==> forall i :: 0 <= i < |b| ==> r.value[i] == Apply(op, a[0], b[i])
    ensures |a| != |b| && |a| != 1 && |b| == 1 ==> r.Some? && |r.value| == |a|
    ensures |a| != |b| && |a| != 1 && |b| == 1 ==> forall i :: 0 <= i < |a| ==> r.value[i] == Apply(op, a[i], b[0])
    ensures r.Some? <==> |a| == |b| || |a| == 1 || |b| == 1
  {
    if |a| == |b| then Some(seq(|a|, i requires 0 <= i < |a| => Apply(op, a[i], b[i])))
    else if |a| == 1 then Some(seq(|b|, i requires 0 <= i < |b| => Apply(op, a[0], b[i])))
    else if |b| == 1 then Some(seq(|a|, i requires 0 <= i < |a| => Apply(op, a[i], b[0])))
    else None
  }

  lemma BroadcastScalars(op: Op, x: real, w: seq<real>)
    requires |w| == 1
    ensures Broadcast(op, [x], w) == Some([Apply(op, x, w[0])])
  {
    var a := [x];
    assert |a| == |w| && a[0] == x;
    var r := Broadcast(op, a, w);
    assert r.Some? && |r.value| == 1;
    assert r.value[0] == Apply(op, a[0], w[0]);
    assert r.value == [Apply(op, x, w[0])];
  }

  /** An expression of scalar value x times a scalar weight w. */
  lemma EvalMulScalar(e: Expr, w: seq<real>, env: Env, sem: Semantics, x: real)
    requires |w| == 1 && Eval(e, env, sem) == Some([x])
    ensures Eval(Mul(e, w), env, sem) == Some([Apply(Times, x, w[0])])
  {
    BroadcastScalars(Times, x, w);
  }

  function Lift(op: Op, a: Option<seq<real>>, b: Option<seq<real>>): Option<seq<real>>
  {
    if a.Some? && b.Some? then Broadcast(op, a.value, b.value) else None
  }

  /**
   * The value of an expression under env, or None where the shapes do not
   * fit or a variable has no value.
   */
  function Eval(e: Expr, env: Env, sem: Semantics): Option<seq<real>>
  {
    match e
    case Zero => Some([0.0])
    case Const(v) => Some(v)
    case Variable(x) => if x in env && |env[x]| == x.len then Some(env[x]) else None
    case Add(l, r) => Lift(Plus, Eval(l, env, sem), Eval(r, env, sem))
    case Sub(l, r) => Lift(Minus, Eval(l, env, sem), Eval(r, env, sem))
    case MatMul(m, x) =>
      var a := Eval(x, env, sem);
      if a.Some? && |a.value| == m.cols then Some(MatVec(m, a.value)) else None
    case Mul(x, w) => Lift(Times, Eval(x, env, sem), Some(w))
    case SumSquares(x) =>
      var a := Eval(x, env, sem);
      if a.Some? then Some([SumSq(a.value)]) else None
    case Diff(x) =>
      var a := Eval(x, env, sem);
      if a.Some? then Some(Diffs(a.value)) else None
    case Norm2(x) =>
      var a := Eval(x, env, sem);
      if a.Some? then Some([sem.norm2(a.value)]) else None
    case Norm1(x) =>
      var a := Eval(x, env, sem);
      if a.Some? then Some([SumAbs(a.value)]) else None
    case Call(f, x) =>
      var a := Eval(x, env, sem);
      if a.Some? then Some(sem.call(f, a.value)) else None
  }

  /** An expression's value depends only on the values of the variables it mentions. */
  lemma {:induction false} EvalDependsOnVarsOnly(e: Expr, env1: Env, env2: Env, sem: Semantics)
    requires forall v :: v in Vars(e) ==> (v in env1 <==> v in env2)
    requires forall v :: v in Vars(e) && v in env1 ==> env1[v] == env2[v]
    ensures Eval(e, env1, sem) == Eval(e, env2, sem)
  {
    match e
    case Zero =>
    case Const(_) =>
    case Variable(x) =>
    case Add(l, r) =>
      EvalDependsOnVarsOnly(l, env1, env2, sem);
      EvalDependsOnVarsOnly(r, env1, env2, sem);
    case Sub(l, r) =>
      EvalDependsOnVarsOnly(l, env1, env2, sem);
      EvalDependsOnVarsOnly(r, env1, env2, sem);
    case MatMul(_, x) => EvalDependsOnVarsOnly(x, env1, env2, sem);
    case Mul(x, _) => EvalDependsOnVarsOnly(x, env1, env2, sem);
    case SumSquares(x) => EvalDependsOnVarsOnly(x, env1, env2, sem);
    case Diff(x) => EvalDependsOnVarsOnly(x, env1, env2, sem);
    case Norm2(x) => EvalDependsOnVarsOnly(x, env1, env2, sem);
    case Norm1(x) => EvalDependsOnVarsOnly(x, env1, env2, sem);
    case Call(_, x) => EvalDependsOnVarsOnly(x, env1, env2, sem);
  }
}

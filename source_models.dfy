/**
 * The per-source bookkeeping of `CSSS.addSource` (CSSS.py): normalising the
 * regressor's shape, validating the weights, creating the decision variables
 * and composing the source's cost expression. Everything here is the
 * straight-line part of `addSource`; the registry update and the model
 * counter are in module Csss.
 */
module SourceModels {
  import opened Wrappers
  import opened Vectors
  import opened Text
  import opened Expressions

  /** The `regressor` argument after `np.array(regressor)`, by its number of dimensions. */
  datatype Regressor =
    | Scalar(x: real)              // 0-d, which includes `None`: no regressors at all
    | Vec(v: seq<real>)            // 1-d, of length |v|
    | Mat2(m: Matrix)              // 2-d
    | HigherDim(shape: seq<nat>)   // 3 or more dimensions

  /** `regularizeTheta` / `regularizeSource`: a Python callable or a string. */
  datatype Regularizer = Callable(f: nat) | Named(kind: string)

  /** The `NameError`s `addSource` raises, and the unbound `modelObj` of line 117. */
  datatype SourceError =
    | TooManyDimensions   // line 48
    | LengthMismatch      // line 56
    | BetaSize            // line 78
    | ProductShape        // lines 89 and 91: `theta * beta` is a matrix product
    | GammaSize           // line 102
    | UnsupportedCost     // line 117: `modelObj` is only bound for 'sse'

  /** The dict `addSource` stores per source; admmSource/admmTheta are the keys `admmSolve` adds. */
  datatype SourceModel = SourceModel(
    name: string,
    alpha: seq<real>,
    lb: Option<seq<real>>,
    ub: Option<seq<real>>,
    regressor: Matrix,
    order: nat,
    source: Var,
    theta: Var,
    costFunction: string,
    obj: Expr,
    admmSource: Option<seq<real>>,
    admmTheta: Option<seq<real>>)

  /** The shape facts every stored model satisfies. */
  predicate ShapeInvariant(m: SourceModel, n: nat)
  {
    && m.regressor.rows == n
    && m.order == m.regressor.cols
    && m.source.len == n
    && m.theta.len == m.order
  }

  /**
   * Lines 42-56: a 0-d input becomes n x 0, a 1-d input of length L becomes
   * L x 1, more than 2 dimensions is refused; the matrix is then transposed
   * when only its second axis equals n, and refused when neither does.
   */
  function NormaliseRegressor(r: Regressor, n: nat): (res: Result<Matrix, SourceError>)
    ensures res.Success? ==> res.value.rows == n
    ensures r.Scalar? ==> res == Success(ZeroMatrix(n, 0))
    ensures r.Vec? ==> (res.Success? <==> |r.v| == n || n == 1)
    ensures r.Vec? && |r.v| == n ==> res == Success(ColumnMatrix(r.v))
    ensures r.Vec? && |r.v| != n && n == 1 ==> res == Success(Transpose(ColumnMatrix(r.v)))
    ensures r.Mat2? ==> (res.Success? <==> r.m.rows == n || r.m.cols == n)
    ensures r.Mat2? && r.m.rows == n ==> res == Success(r.m)
    ensures r.Mat2? && r.m.rows != n && r.m.cols == n ==> res == Success(Transpose(r.m))
    ensures res.Failure? ==> (res.error == TooManyDimensions <==> r.HigherDim?)
    ensures res.Failure? ==> res.error == TooManyDimensions || res.error == LengthMismatch
  {
    match r
    case Scalar(_) => MatchRows(ZeroMatrix(n, 0), n)
    case Vec(v) => MatchRows(ColumnMatrix(v), n)
    case Mat2(m) => MatchRows(m, n)
    case HigherDim(_) => Failure(TooManyDimensions)
  }

  /** Lines 52-56, on a 2-d array. */
  function MatchRows(m: Matrix, n: nat): (res: Result<Matrix, SourceError>)
    ensures res.Success? <==> m.rows == n || m.cols == n
    ensures res.Success? ==> res.value == if m.rows == n then m else Transpose(m)
    ensures res.Failure? ==> res.error == LengthMismatch
  {
    if m.rows != n then
      if m.cols == n then Success(Transpose(m)) else Failure(LengthMismatch)
    else Success(m)
  }

  /** Lines 68-70: `cvxpy.sum_squares(source - regressor * theta) * alpha`. */
  function FitTerm(source: Var, regressor: Matrix, theta: Var, alpha: seq<real>): Expr
  {
    Mul(SumSquares(Sub(Variable(source), MatMul(regressor, Variable(theta)))), alpha)
  }

  /** Lines 88-91: the regulariser names that multiply theta by beta inside a norm. */
  predicate NormOfTheta(reg: Regularizer)
  {
    reg.Named? && (Lower(reg.kind) == "l2" || Lower(reg.kind) == "l1")
  }

  /** Lines 80-94: the theta regulariser, chosen from callable, 'l2', 'l1' or nothing. */
  function ThetaTerm(reg: Regularizer, theta: Var, beta: seq<real>): (t: Expr)
    ensures Vars(t) <= {theta}
    ensures reg.Named? && Lower(reg.kind) != "l1" && Lower(reg.kind) != "l2" ==> t == Zero
  {
    match reg
    case Callable(f) =>
      assert Vars(Call(f, Variable(theta))) == {theta};
      Mul(Call(f, Variable(theta)), beta)
    case Named(kind) =>
      var scaled := Mul(Variable(theta), beta);
      assert Vars(scaled) == {theta};
      if Lower(kind) == "l2" then Norm2(scaled)
      else if Lower(kind) == "l1" then Norm1(scaled)
      else Zero
  }

  /** Lines 105-112: the source regulariser, chosen from callable, 'diff1_ss' or nothing. */
  function SourceTerm(reg: Regularizer, source: Var, gamma: seq<real>): (t: Expr)
    ensures Vars(t) <= {source}
    ensures reg.Named? && Lower(reg.kind) != "diff1_ss" ==> t == Zero
  {
    match reg
    case Callable(f) =>
      assert Vars(Call(f, Variable(source))) == {source};
      Mul(Call(f, Variable(source)), gamma)
    case Named(kind) =>
      var smoothness := SumSquares(Diff(Variable(source)));
      assert Vars(Diff(Variable(source))) == {source};
      if Lower(kind) == "diff1_ss" then Mul(smoothness, gamma)
      else Zero
  }

  /**
   * Lines 28-117 without the registry: the model dict that `addSource`
   * builds for its `counter`-th call, or the error it raises. The checks run
   * in the source's order: shape, beta, the theta norm, gamma, then the
   * cost function. In the cvxpy of the time `*` between a variable and an
   * array is a matrix product: `theta * beta` is defined when beta has one
   * entry (a scalar factor) and raises when beta has one entry per regressor
   * and there are two or more regressors, as (k x 1) * (k x 1) does not
   * conform.
   */
  function BuildModel(counter: nat, name: string, n: nat, regressor: Regressor,
                      costFunction: string, alpha: seq<real>,
                      regularizeTheta: Regularizer, beta: seq<real>,
                      regularizeSource: Regularizer, gamma: seq<real>,
                      lb: Option<seq<real>>, ub: Option<seq<real>>): (res: Result<SourceModel, SourceError>)
    ensures var r := NormaliseRegressor(regressor, n);
      res.Success? <==>
        && r.Success? && (|beta| == 1 || |beta| == r.value.cols)
        && (NormOfTheta(regularizeTheta) ==> |beta| == 1)
        && |gamma| == 1 && Lower(costFunction) == "sse"
    ensures NormaliseRegressor(regressor, n).Failure? ==> res == Failure(NormaliseRegressor(regressor, n).error)
    ensures NormaliseRegressor(regressor, n).Success? && res.Failure? ==>
      res.error in {BetaSize, ProductShape, GammaSize, UnsupportedCost}
    ensures res.Failure? && res.error == BetaSize ==>
      NormaliseRegressor(regressor, n).Success?
      && |beta| != 1 && |beta| != NormaliseRegressor(regressor, n).value.cols
    ensures res.Failure? && res.error == ProductShape ==>
      NormOfTheta(regularizeTheta) && |beta| != 1 && |beta| == NormaliseRegressor(regressor, n).value.cols
    ensures res.Failure? && res.error == GammaSize ==>
      && (|beta| == 1 || |beta| == NormaliseRegressor(regressor, n).value.cols)
      && (NormOfTheta(regularizeTheta) ==> |beta| == 1)
      && |gamma| != 1
    ensures res.Failure? && res.error == UnsupportedCost ==>
      && (|beta| == 1 || |beta| == NormaliseRegressor(regressor, n).value.cols)
      && (NormOfTheta(regularizeTheta) ==> |beta| == 1)
      && |gamma| == 1 && Lower(costFunction) != "sse"
    ensures res.Success? ==> ShapeInvariant(res.value, n)
    ensures res.Success? ==> res.value.source == SourceVar(counter, n) && res.value.theta == ThetaVar(counter, res.value.order)
    ensures res.Success? ==> res.value.name == name && res.value.alpha == alpha && res.value.lb == lb && res.value.ub == ub
    ensures res.Success? ==> res.value.admmSource.None? && res.value.admmTheta.None?
    ensures res.Success? ==> Vars(res.value.obj) <= {res.value.source, res.value.theta}
    ensures res.Success? ==> Spine(res.value.obj) == [
      FitTerm(res.value.source, res.value.regressor, res.value.theta, alpha),
      ThetaTerm(regularizeTheta, res.value.theta, beta),
      SourceTerm(regularizeSource, res.value.source, gamma)]
  {
    var r :- NormaliseRegressor(regressor, n);
    var order := r.cols;
    var source := SourceVar(counter, n);
    var theta := ThetaVar(counter, order);
    if |beta| != 1 && |beta| != order then Failure(BetaSize)
    else if NormOfTheta(regularizeTheta) && |beta| != 1 then Failure(ProductShape)
    else if |gamma| != 1 then Failure(GammaSize)
    else if Lower(costFunction) != "sse" then Failure(UnsupportedCost)
    else
      var obj := Add(Add(FitTerm(source, r, theta, alpha),
                         ThetaTerm(regularizeTheta, theta, beta)),
                     SourceTerm(regularizeSource, source, gamma));
      assert Vars(FitTerm(source, r, theta, alpha)) == {source, theta} by {
        var residual := Sub(Variable(source), MatMul(r, Variable(theta)));
        assert Vars(MatMul(r, Variable(theta))) == {theta};
        assert Vars(residual) == {source, theta};
        assert Vars(SumSquares(residual)) == {source, theta};
      }
      var fit := FitTerm(source, r, theta, alpha);
      assert Spine(fit) == [fit];
      assert Spine(Add(fit, ThetaTerm(regularizeTheta, theta, beta))) == [fit, ThetaTerm(regularizeTheta, theta, beta)];
      Success(SourceModel(name, alpha, lb, ub, r, order, source, theta, costFunction, obj, None, None))
  }

  // ---------------------------------------------------------------------
  // What the composed cost means numerically
  // ---------------------------------------------------------------------

  lemma {:induction false} DotZeros(a: seq<real>, n: nat)
    requires |a| == n
    ensures Dot(a, Zeros(n)) == 0.0
  {
    if n > 0 {
      assert Zeros(n)[..n - 1] == Zeros(n - 1);
      DotZeros(a[..n - 1], n - 1);
    }
  }

  /** The fit cost is alpha times the sum of squared residuals source - regressor * theta. */
  lemma FitTermValue(source: Var, regressor: Matrix, theta: Var, alpha: seq<real>,
                     env: Env, sem: Semantics)
    requires |alpha| == 1
    requires source in env && |env[source]| == source.len == regressor.rows
    requires theta in env && |env[theta]| == theta.len == regressor.cols
    ensures Eval(FitTerm(source, regressor, theta, alpha), env, sem)
         == Some([Apply(Times, SumSq(VecSub(env[source], MatVec(regressor, env[theta]))), alpha[0])])
  {
    var s, t := env[source], env[theta];
    var residual := Sub(Variable(source), MatMul(regressor, Variable(theta)));
    assert Eval(MatMul(regressor, Variable(theta)), env, sem) == Some(MatVec(regressor, t));
    var b := Broadcast(Minus, s, MatVec(regressor, t));
    assert b.value == VecSub(s, MatVec(regressor, t));
    assert Eval(residual, env, sem) == Some(VecSub(s, MatVec(regressor, t)));
    assert Eval(SumSquares(residual), env, sem) == Some([SumSq(VecSub(env[source], MatVec(regressor, env[theta])))]);
    EvalMulScalar(SumSquares(residual), alpha, env, sem, SumSq(VecSub(env[source], MatVec(regressor, env[theta]))));
    assert FitTerm(source, regressor, theta, alpha) == Mul(SumSquares(residual), alpha);
    assert Eval(Mul(SumSquares(residual), alpha), env, sem) == Some([Apply(Times, SumSq(VecSub(env[source], MatVec(regressor, env[theta]))), alpha[0])]);
    assert Eval(FitTerm(source, regressor, theta, alpha), env, sem) == Eval(Mul(SumSquares(residual), alpha), env, sem);
  }

  /**
   * Without regressors (an n x 0 matrix, order 0) the fit cost degenerates to
   * alpha times the sum of squares of the source itself.
   */
  lemma FitWithoutRegressors(source: Var, regressor: Matrix, theta: Var, alpha: seq<real>,
                             env: Env, sem: Semantics)
    requires |alpha| == 1 && regressor.cols == 0
    requires source in env && |env[source]| == source.len == regressor.rows
    requires theta in env && |env[theta]| == theta.len == 0
    ensures Eval(FitTerm(source, regressor, theta, alpha), env, sem) == Some([Apply(Times, SumSq(env[source]), alpha[0])])
  {
    var s := env[source];
    FitTermValue(source, regressor, theta, alpha, env, sem);
    assert env[theta] == [];
    assert VecSub(s, MatVec(regressor, env[theta])) == s;
  }

  /** 'diff1_ss' costs gamma times the sum of squared first differences of the source. */
  lemma Diff1Value(kind: string, source: Var, gamma: seq<real>, env: Env, sem: Semantics)
    requires Lower(kind) == "diff1_ss" && |gamma| == 1
    requires source in env && |env[source]| == source.len
    ensures Eval(SourceTerm(Named(kind), source, gamma), env, sem)
         == Some([Apply(Times, SumSq(Diffs(env[source])), gamma[0])])
  {
    assert Eval(Diff(Variable(source)), env, sem) == Some(Diffs(env[source]));
    assert Eval(SumSquares(Diff(Variable(source))), env, sem) == Some([SumSq(Diffs(env[source]))]);
    EvalMulScalar(SumSquares(Diff(Variable(source))), gamma, env, sem, SumSq(Diffs(env[source])));
  }

  /** `theta * beta` with a one-entry beta scales every entry of theta by it. */
  lemma ScaledTheta(theta: Var, beta: seq<real>, env: Env, sem: Semantics)
    requires |beta| == 1
    requires theta in env && |env[theta]| == theta.len
    ensures Eval(Mul(Variable(theta), beta), env, sem) == Some(VecScale(beta[0], env[theta]))
  {
    var t := env[theta];
    var r := Broadcast(Times, t, beta);
    assert |r.value| == |t|;
    assert forall i :: 0 <= i < |t| ==> r.value[i] == VecScale(beta[0], t)[i];
    assert r.value == VecScale(beta[0], t);
  }

  /** 'l1' costs the 1-norm of theta scaled by the one-entry beta. */
  lemma L1Value(kind: string, theta: Var, beta: seq<real>, env: Env, sem: Semantics)
    requires Lower(kind) == "l1" && |beta| == 1
    requires theta in env && |env[theta]| == theta.len
    ensures Lower(kind) != "l2"
    ensures Eval(ThetaTerm(Named(kind), theta, beta), env, sem) == Some([SumAbs(VecScale(beta[0], env[theta]))])
  {
    assert Lower(kind) != "l2" by {
      assert Lower(kind)[1] == '1';
    }
    ScaledTheta(theta, beta, env, sem);
  }

  /** 'l2' costs the Euclidean norm of theta scaled by the one-entry beta. */
  lemma L2Value(kind: string, theta: Var, beta: seq<real>, env: Env, sem: Semantics)
    requires Lower(kind) == "l2" && |beta| == 1
    requires theta in env && |env[theta]| == theta.len
    ensures Eval(ThetaTerm(Named(kind), theta, beta), env, sem) == Some([sem.norm2(VecScale(beta[0], env[theta]))])
  {
    ScaledTheta(theta, beta, env, sem);
  }

  /**
   * With the default regularisers ('None') and a scalar alpha, a built
   * model's cost is exactly alpha * sum((source - regressor * theta)^2).
   */
  lemma UnregularisedObjective(counter: nat, name: string, n: nat, regressor: Regressor,
                               costFunction: string, alpha: seq<real>, beta: seq<real>, gamma: seq<real>,
                               lb: Option<seq<real>>, ub: Option<seq<real>>, env: Env, sem: Semantics)
    requires |alpha| == 1
    requires BuildModel(counter, name, n, regressor, costFunction, alpha, Named("None"), beta,
                        Named("None"), gamma, lb, ub).Success?
    ensures var m := BuildModel(counter, name, n, regressor, costFunction, alpha, Named("None"), beta,
                                Named("None"), gamma, lb, ub).value;
      m.source in env && |env[m.source]| == n && m.theta in env && |env[m.theta]| == m.order ==>
      Eval(m.obj, env, sem) == Some([Apply(Times, SumSq(VecSub(env[m.source], MatVec(m.regressor, env[m.theta]))), alpha[0])])
  {
    var m := BuildModel(counter, name, n, regressor, costFunction, alpha, Named("None"), beta,
                        Named("None"), gamma, lb, ub).value;
    assert Lower("None") == "none";
    if m.source in env && |env[m.source]| == n && m.theta in env && |env[m.theta]| == m.order {
      FitTermValue(m.source, m.regressor, m.theta, alpha, env, sem);
      var x := Apply(Times, SumSq(VecSub(env[m.source], MatVec(m.regressor, env[m.theta]))), alpha[0]);
      assert m.obj == Add(Add(FitTerm(m.source, m.regressor, m.theta, alpha), Zero), Zero);
      BroadcastScalars(Plus, x, [0.0]);
      assert Eval(Add(FitTerm(m.source, m.regressor, m.theta, alpha), Zero), env, sem) == Some([x]);
    }
  }
}

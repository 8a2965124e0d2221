/**
 * The Gauss-Seidel ADMM driver of `CSSS.admmSolve` (CSSS.py:155-243), as
 * functions over the registry. Sweep 0 initialises every source's held
 * value to zeros; every later sweep re-solves each source once, in registry
 * order, against a sub-problem that holds the other sources fixed; after a
 * sweep the scaled dual u grows by the coupling residual and the loop stops
 * early when both residual tests pass. The convex solver is the parameter
 * `solve`, and the norms and square root of the stopping test are the
 * parameter `num`. Class Csss.CSSS runs this loop on its own fields.
 */
module Admm {
  import opened Wrappers
  import opened Vectors
  import opened OrderedDict
  import opened Expressions
  import opened SourceModels

  type Models = Dict<SourceModel>

  /**
   * What stands for another source in a sub-problem's coupling sum: the held
   * value of the source being solved, as line 192 is written, or the
   * other source's own held value, as the Gauss-Seidel scheme intends.
   */
  datatype Coupling = AsWritten | Intended

  /** `cvp.norm`/`np.linalg.norm` (the 2-norm) and `np.sqrt` of the stopping test. */
  datatype Numerics = Numerics(norm: seq<real> -> real, sqrt: real -> real)

  datatype Tolerances = Tolerances(abstol: real, reltol: real)

  datatype AdmmError =
    | UnboundLocal                              // no sweep ran: `y` or `last_obj` is never bound
    | ZeroDivision                              // line 181 with rho == 0
    | MissingSourceValue(sweep: nat, name: string)  // line 215: the solver left source_update without a value

  /** The three values `admmSolve` returns. */
  datatype AdmmOutput = AdmmOutput(dualObjective: seq<real>, normResidEquality: seq<real>, y: seq<real>)

  /** Every source holds a value of length n, as after sweep 0. */
  predicate Ready(models: Models, n: nat)
  {
    forall p :: 0 <= p < |models| ==> models[p].val.admmSource.Some? && |models[p].val.admmSource.value| == n
  }

  /** The held values of all sources, in registry order. */
  function Sources(models: Models, n: nat): (s: seq<seq<real>>)
    requires Ready(models, n)
    ensures |s| == |models| && forall p :: 0 <= p < |s| ==> |s[p]| == n
  {
    seq(|models|, p requires 0 <= p < |models| => models[p].val.admmSource.value)
  }

  /** a and b differ at most in the held values admmSource/admmTheta. */
  predicate SameButAdmm(a: Models, b: Models)
  {
    && |a| == |b|
    && forall p :: 0 <= p < |a| ==>
         b[p] == Entry(a[p].key, a[p].val.(admmSource := b[p].val.admmSource, admmTheta := b[p].val.admmTheta))
  }

  lemma SameButAdmmTrans(a: Models, b: Models, c: Models)
    requires SameButAdmm(a, b) && SameButAdmm(b, c)
    ensures SameButAdmm(a, c)
  {
  }

  // ---------------------------------------------------------------------
  // Sweep 0 (lines 174-181)
  // ---------------------------------------------------------------------

  function Initialised(m: SourceModel, n: nat): SourceModel
  {
    m.(admmSource := Some(Zeros(n)), admmTheta := Some(Zeros(m.order)))
  }

  /** All sources initialised, as sweep 0 leaves them when rho != 0. */
  function InitAll(models: Models, n: nat): (r: Models)
    ensures Ready(r, n) && SameButAdmm(models, r)
    ensures forall p :: 0 <= p < |r| ==> r[p].val.admmSource == Some(Zeros(n))
  {
    seq(|models|, p requires 0 <= p < |models| => Entry(models[p].key, Initialised(models[p].val, n)))
  }

  /** Only the first source initialised: line 181 divides by zero right after it. */
  function InitFirst(models: Models, n: nat): (r: Models)
    requires |models| > 0
    ensures SameButAdmm(models, r) && r[1..] == models[1..]
    ensures r[0].val.admmSource == Some(Zeros(n))
  {
    models[0 := Entry(models[0].key, Initialised(models[0].val, n))]
  }

  // ---------------------------------------------------------------------
  // One sub-problem (lines 184-211)
  // ---------------------------------------------------------------------

  /** `source_update - regressor * theta_update` of the i-th source in sweep k. */
  function Residual(models: Models, k: nat, i: nat, n: nat): Expr
    requires i < |models|
  {
    Sub(Variable(SourceUpdate(k, i, n)),
        MatMul(models[i].val.regressor, Variable(ThetaUpdate(k, i, models[i].val.order))))
  }

  /**
   * The `residuals` binding line 208 reads at inner position p while the
   * i-th source is solved: before position i it is still the one bound for
   * source i - 1; from position i on it is source i's own.
   */
  function ResidualAt(models: Models, k: nat, i: nat, p: nat, n: nat): Expr
    requires i < |models|
  {
    if p < i then Residual(models, k, i - 1, n) else Residual(models, k, i, n)
  }

  /** Line 208: the fit term added at inner position p, weighted by the solved source's alpha. */
  function FitAt(models: Models, k: nat, i: nat, p: nat, n: nat): Expr
    requires i < |models|
  {
    Mul(SumSquares(ResidualAt(models, k, i, p, n)), models[i].val.alpha)
  }

  /** `obj` after the first q inner iterations. */
  function SubObj(models: Models, k: nat, i: nat, q: nat, n: nat): Expr
    requires i < |models| && q <= |models|
  {
    if q == 0 then Zero else Add(SubObj(models, k, i, q - 1, n), FitAt(models, k, i, q - 1, n))
  }

  /** Lines 202-205: the solved source's own bounds on its update variable. */
  function Bounds(m: SourceModel, su: Var): seq<Constraint>
  {
    (if m.lb.Some? then [Ge(Variable(su), Const(m.lb.value))] else [])
    + (if m.ub.Some? then [Le(Variable(su), Const(m.ub.value))] else [])
  }

  /** `con` after the first q inner iterations. */
  function SubCon(models: Models, k: nat, i: nat, q: nat, n: nat): seq<Constraint>
    requires i < |models| && q <= |models|
  {
    if q == 0 then []
    else SubCon(models, k, i, q - 1, n)
         + (if models[q - 1].key != models[i].key then [] else Bounds(models[i].val, SourceUpdate(k, i, n)))
  }

  /** The value that stands for source p while source i is solved. */
  function Held(models: Models, i: nat, p: nat, n: nat, c: Coupling): (h: seq<real>)
    requires Ready(models, n) && i < |models| && p < |models|
    ensures |h| == n
  {
    match c
    case AsWritten => models[i].val.admmSource.value
    case Intended => models[p].val.admmSource.value
  }

  /** `sum_sources` after the first q inner iterations. */
  function SubSum(models: Models, k: nat, i: nat, q: nat, n: nat, c: Coupling): Expr
    requires Ready(models, n) && i < |models| && q <= |models|
  {
    if q == 0 then Const(Zeros(n))
    else Add(SubSum(models, k, i, q - 1, n, c),
             if models[q - 1].key != models[i].key then Const(Held(models, i, q - 1, n, c))
             else Variable(SourceUpdate(k, i, n)))
  }

  /** One more inner iteration adds the solved source's bounds at its own position and nothing elsewhere. */
  lemma SubConStep(models: Models, k: nat, i: nat, q: nat, n: nat)
    requires i < |models| && q < |models|
    ensures SubCon(models, k, i, q + 1, n)
            == if models[q].key != models[i].key then SubCon(models, k, i, q, n)
               else SubCon(models, k, i, q, n) + Bounds(models[i].val, SourceUpdate(k, i, n))
  {
    assert SubCon(models, k, i, q, n) + [] == SubCon(models, k, i, q, n);
  }

  /** One more inner iteration adds source q's held value, or the update variable at the solved source. */
  lemma SubSumStep(models: Models, k: nat, i: nat, q: nat, n: nat)
    requires Ready(models, n) && i < |models| && q < |models|
    ensures SubSum(models, k, i, q + 1, n, AsWritten)
            == Add(SubSum(models, k, i, q, n, AsWritten),
                   if models[q].key != models[i].key then Const(models[i].val.admmSource.value)
                   else Variable(SourceUpdate(k, i, n)))
    ensures SubSum(models, k, i, q + 1, n, Intended)
            == Add(SubSum(models, k, i, q, n, Intended),
                   if models[q].key != models[i].key then Const(models[q].val.admmSource.value)
                   else Variable(SourceUpdate(k, i, n)))
  {
  }

  /** Line 210: `(rho/2) * sum_squares(sum_sources - aggregate + u)`. */
  function Penalty(sum: Expr, agg: seq<real>, u: seq<real>, rho: real): Expr
  {
    Mul(SumSquares(Add(Sub(sum, Const(agg)), Const(u))), [rho / 2.0])
  }

  /** The problem line 211 hands to the solver for source i in sweep k. */
  function SubProblem(models: Models, k: nat, i: nat, n: nat, agg: seq<real>, u: seq<real>,
                      rho: real, c: Coupling): Problem
    requires Ready(models, n) && i < |models|
  {
    var M := |models|;
    Problem(Add(SubObj(models, k, i, M, n), Penalty(SubSum(models, k, i, M, n, c), agg, u, rho)),
            SubCon(models, k, i, M, n))
  }

  /** The numeric value of `sum_sources` once source_update has the value v. */
  function SubSumValue(models: Models, i: nat, q: nat, n: nat, v: seq<real>, c: Coupling): (s: seq<real>)
    requires Ready(models, n) && i < |models| && q <= |models| && |v| == n
    ensures |s| == n
  {
    if q == 0 then Zeros(n)
    else VecAdd(SubSumValue(models, i, q - 1, n, v, c),
                if models[q - 1].key != models[i].key then Held(models, i, q - 1, n, c) else v)
  }

  // ---------------------------------------------------------------------
  // One sweep (lines 173, 182-217)
  // ---------------------------------------------------------------------

  /**
   * What a sweep leaves behind for lines 224-232: the last solve's
   * objective, the value of its `sum_sources`, and `source_update_diff`.
   */
  datatype Carry = Carry(lastObj: real, lastSum: seq<real>, lastDiff: seq<real>)

  datatype SweepOut = Swept(models: Models, carry: Carry) | Stuck(models: Models, error: AdmmError)

  /** Lines 215-217: source i takes its update's values. */
  function Updated(models: Models, i: nat, v: seq<real>, t: Option<seq<real>>): (r: Models)
    requires i < |models|
    ensures |r| == |models| && r[i].key == models[i].key
    ensures r[i].val == models[i].val.(admmSource := Some(v), admmTheta := t)
    ensures forall p :: 0 <= p < |models| && p != i ==> r[p] == models[p]
  {
    models[i := Entry(models[i].key, models[i].val.(admmSource := Some(v), admmTheta := t))]
  }

  /** Taking new held values keeps the names, so unique names stay unique. */
  lemma UpdatedKeys(models: Models, i: nat, v: seq<real>, t: Option<seq<real>>)
    requires i < |models| && UniqueKeys(models)
    ensures UniqueKeys(Updated(models, i, v, t))
  {
  }

  /** Sweep k from source i on, with `c` what the sources before i left behind. */
  function SweepFrom(models: Models, k: nat, i: nat, n: nat, agg: seq<real>, u: seq<real>, rho: real,
                     solve: Problem -> Solution, cp: Coupling, c: Carry): (r: SweepOut)
    requires Ready(models, n) && i <= |models|
    ensures Ready(r.models, n) && |r.models| == |models|
    ensures r.Swept? && i < |models| ==> |r.carry.lastSum| == n && |r.carry.lastDiff| == n
    ensures r.Swept? && i == |models| ==> r.carry == c
    ensures r.Stuck? ==> r.error.MissingSourceValue? && r.error.sweep == k
    decreases |models| - i, 1
  {
    if i == |models| then Swept(models, c) else SolveFrom(models, k, i, n, agg, u, rho, solve, cp)
  }

  /** Lines 184-217 for source i, then the rest of the sweep. */
  function SolveFrom(models: Models, k: nat, i: nat, n: nat, agg: seq<real>, u: seq<real>, rho: real,
                     solve: Problem -> Solution, cp: Coupling): (r: SweepOut)
    requires Ready(models, n) && i < |models|
    ensures Ready(r.models, n) && |r.models| == |models|
    ensures r.Swept? ==> |r.carry.lastSum| == n && |r.carry.lastDiff| == n
    ensures r.Stuck? ==> r.error.MissingSourceValue? && r.error.sweep == k
    decreases |models| - i, 0
  {
    var sol := solve(SubProblem(models, k, i, n, agg, u, rho, cp));
    match ValueOf(sol, SourceUpdate(k, i, n))
    case None => Stuck(models, MissingSourceValue(k, models[i].key))
    case Some(v) =>
      var was := models[i].val.admmSource.value;
      var theta := ValueOf(sol, ThetaUpdate(k, i, models[i].val.order));
      var next := Updated(models, i, v, theta);
      SweepFrom(next, k, i + 1, n, agg, u, rho, solve, cp,
                Carry(sol.objective, SubSumValue(models, i, |models|, n, v, cp), VecSub(v, was)))
  }

  // ---------------------------------------------------------------------
  // The outer loop (lines 172, 219-240)
  // ---------------------------------------------------------------------

  /** The quantities of lines 225-232 after a sweep. */
  datatype Stats = Stats(u: seq<real>, normResid: real, epsPri: real, sNorm: real, epsDual: real)

  function SweepStats(c: Carry, u: seq<real>, agg: seq<real>, n: nat, rho: real,
                      tol: Tolerances, num: Numerics): (s: Stats)
    requires |c.lastSum| == n && |c.lastDiff| == n && |u| == n && |agg| == n
    ensures |s.u| == n
  {
    var resid := VecSub(c.lastSum, agg);
    var u' := VecAdd(u, resid);
    var normSum := num.norm(c.lastSum);
    var normAgg := num.norm(VecScale(-1.0, agg));
    Stats(u',
          num.norm(resid),
          num.sqrt(n as real) * tol.abstol + tol.reltol * (if normSum >= normAgg then normSum else normAgg),
          num.norm(VecScale(-rho, c.lastDiff)),
          num.sqrt(n as real) * tol.abstol + tol.reltol * num.norm(VecScale(rho, u')))
  }

  /** Line 239: both residual tests pass. */
  predicate Converged(s: Stats)
  {
    s.sNorm < s.epsDual && s.normResid < s.epsPri
  }

  datatype RunState = RunState(models: Models, u: seq<real>, dual: seq<real>, resid: seq<real>)

  /**
   * What the run does: the final registry, what `admmSolve` returns or
   * raises, and, for reading the run, whether each completed sweep passed
   * the stopping test.
   */
  datatype RunOut = RunOut(models: Models, result: Result<AdmmOutput, AdmmError>, stops: seq<bool>)

  predicate RunReady(st: RunState, n: nat)
  {
    Ready(st.models, n) && |st.u| == n
  }

  /** Sweeps k, k + 1, ... up to MaxIter - 1. */
  function RunFrom(st: RunState, k: nat, maxIter: int, n: nat, agg: seq<real>, rho: real,
                   tol: Tolerances, solve: Problem -> Solution, cp: Coupling, num: Numerics): (r: RunOut)
    requires RunReady(st, n) && |agg| == n && |st.models| > 0
    ensures Ready(r.models, n) && |r.models| == |st.models|
    decreases maxIter - k
  {
    if k >= maxIter then RunOut(st.models, Success(AdmmOutput(st.dual, st.resid, Zeros(n))), [])
    else
      match SweepFrom(st.models, k, 0, n, agg, st.u, rho, solve, cp, Carry(0.0, Zeros(n), Zeros(n)))
      case Stuck(ms, e) => RunOut(ms, Failure(e), [])
      case Swept(ms, c) =>
        var s := SweepStats(c, st.u, agg, n, rho, tol, num);
        var st' := RunState(ms, s.u, st.dual + [c.lastObj], st.resid + [s.normResid]);
        if Converged(s) then RunOut(ms, Success(AdmmOutput(st'.dual, st'.resid, Zeros(n))), [true])
        else
          var r := RunFrom(st', k + 1, maxIter, n, agg, rho, tol, solve, cp, num);
          r.(stops := [false] + r.stops)
  }

  /** `admmSolve(rho, MaxIter, ABSTOL, RELTOL)` on a registry of models over an aggregate of length n. */
  function AdmmRun(models: Models, n: nat, agg: seq<real>, rho: real, maxIter: int, tol: Tolerances,
                   solve: Problem -> Solution, cp: Coupling, num: Numerics): (r: RunOut)
    requires |agg| == n
    ensures |r.models| == |models|
  {
    if maxIter <= 0 || |models| == 0 then RunOut(models, Failure(UnboundLocal), [])
    else if rho == 0.0 then RunOut(InitFirst(models, n), Failure(ZeroDivision), [])
    else RunFrom(RunState(InitAll(models, n), Zeros(n), [], []), 1, maxIter, n, agg, rho, tol, solve, cp, num)
  }

  // ---------------------------------------------------------------------
  // Properties of a sub-problem
  // ---------------------------------------------------------------------

  lemma LiftSameLength(op: Op, a: seq<real>, b: seq<real>)
    requires |a| == |b|
    ensures Lift(op, Some(a), Some(b)) == Some(seq(|a|, j requires 0 <= j < |a| => Apply(op, a[j], b[j])))
  {
    var r := Broadcast(op, a, b);
    assert r.value == seq(|a|, j requires 0 <= j < |a| => Apply(op, a[j], b[j]));
  }

  lemma LiftPlus(a: seq<real>, b: seq<real>)
    requires |a| == |b|
    ensures Lift(Plus, Some(a), Some(b)) == Some(VecAdd(a, b))
  {
    LiftSameLength(Plus, a, b);
    assert seq(|a|, j requires 0 <= j < |a| => Apply(Plus, a[j], b[j])) == VecAdd(a, b);
  }

  /**
   * Under any solution that gives source_update the value v, the symbolic
   * `sum_sources` evaluates to SubSumValue: the held values of the others
   * plus v.
   */
  lemma {:induction false} EvalSubSum(models: Models, k: nat, i: nat, q: nat, n: nat, c: Coupling,
                                      v: seq<real>, env: Env, sem: Semantics)
    requires Ready(models, n) && i < |models| && q <= |models| && |v| == n
    requires SourceUpdate(k, i, n) in env && env[SourceUpdate(k, i, n)] == v
    ensures Eval(SubSum(models, k, i, q, n, c), env, sem) == Some(SubSumValue(models, i, q, n, v, c))
  {
    if q > 0 {
      EvalSubSum(models, k, i, q - 1, n, c, v, env, sem);
      var last := if models[q - 1].key != models[i].key then Held(models, i, q - 1, n, c) else v;
      var e := if models[q - 1].key != models[i].key then Const(Held(models, i, q - 1, n, c))
               else Variable(SourceUpdate(k, i, n));
      assert Eval(e, env, sem) == Some(last);
      LiftPlus(SubSumValue(models, i, q - 1, n, v, c), last);
    }
  }

  /**
   * With the intended coupling and unique names, the first q summands of
   * `sum_sources` are the held values of the first q sources once source i
   * holds v.
   */
  lemma {:induction false} SubSumIntended(models: Models, i: nat, q: nat, n: nat, v: seq<real>,
                                          t: Option<seq<real>>)
    requires Ready(models, n) && UniqueKeys(models) && i < |models| && q <= |models| && |v| == n
    ensures Ready(Updated(models, i, v, t), n)
    ensures SubSumValue(models, i, q, n, v, Intended) == SumVecs(Sources(Updated(models, i, v, t), n)[..q], n)
  {
    var next := Updated(models, i, v, t);
    var src := Sources(next, n);
    if q > 0 {
      SubSumIntended(models, i, q - 1, n, v, t);
      SumVecsPrefix(src, q, n);
      if q - 1 != i {
        assert models[q - 1].key != models[i].key;
      }
    }
  }

  /** A sub-problem's constraints are the solved source's own bounds: never `self.constraints`. */
  lemma {:induction false} SubConOwnBounds(models: Models, k: nat, i: nat, q: nat, n: nat)
    requires UniqueKeys(models) && i < |models| && q <= |models|
    ensures SubCon(models, k, i, q, n) == if i < q then Bounds(models[i].val, SourceUpdate(k, i, n)) else []
  {
    if q > 0 {
      SubConOwnBounds(models, k, i, q - 1, n);
      assert (models[q - 1].key != models[i].key) == (q - 1 != i);
    }
  }

  /** The constraints of source i's sub-problem are exactly its lb/ub bounds. */
  lemma SubProblemConstraints(models: Models, k: nat, i: nat, n: nat, agg: seq<real>, u: seq<real>,
                              rho: real, c: Coupling)
    requires Ready(models, n) && UniqueKeys(models) && i < |models|
    ensures SubProblem(models, k, i, n, agg, u, rho, c).constraints == Bounds(models[i].val, SourceUpdate(k, i, n))
    ensures |SubProblem(models, k, i, n, agg, u, rho, c).constraints|
            == (if models[i].val.lb.Some? then 1 else 0) + (if models[i].val.ub.Some? then 1 else 0)
  {
    SubConOwnBounds(models, k, i, |models|, n);
  }

  /**
   * Lines 208-209 sit in the inner loop: the objective sums one fit term
   * per source in the registry, the first i of them over the previous
   * source's update variables and the rest over source i's own.
   */
  lemma {:induction false} SubObjSummands(models: Models, k: nat, i: nat, q: nat, n: nat)
    requires i < |models| && q <= |models|
    ensures var s := Spine(SubObj(models, k, i, q, n));
      && |s| == q + 1 && s[0] == Zero
      && (forall p :: 1 <= p <= q && p <= i ==>
            s[p] == Mul(SumSquares(Residual(models, k, i - 1, n)), models[i].val.alpha))
      && (forall p :: i < p <= q ==>
            s[p] == Mul(SumSquares(Residual(models, k, i, n)), models[i].val.alpha))
  {
    if q > 0 {
      SubObjSummands(models, k, i, q - 1, n);
    }
  }

  lemma {:induction false} SubObjVars(models: Models, k: nat, i: nat, q: nat, n: nat)
    requires i < |models| && q <= |models|
    ensures i < q ==> SourceUpdate(k, i, n) in Vars(SubObj(models, k, i, q, n))
    ensures 0 < i && 0 < q ==> SourceUpdate(k, i - 1, n) in Vars(SubObj(models, k, i, q, n))
  {
    if q > 0 {
      SubObjVars(models, k, i, q - 1, n);
      var j := if q - 1 < i then i - 1 else i;
      var res := Residual(models, k, j, n);
      assert Vars(Variable(SourceUpdate(k, j, n))) == {SourceUpdate(k, j, n)};
      assert SourceUpdate(k, j, n) in Vars(res);
      assert Vars(FitAt(models, k, i, q - 1, n)) == Vars(res);
    }
  }

  /**
   * The objective of source i's sub-problem (i > 0) mentions the previous
   * source's update variable, through the stale `residuals` binding.
   */
  lemma StaleResidual(models: Models, k: nat, i: nat, n: nat, agg: seq<real>, u: seq<real>, rho: real, c: Coupling)
    requires Ready(models, n) && 0 < i < |models|
    ensures SourceUpdate(k, i - 1, n) in Vars(SubProblem(models, k, i, n, agg, u, rho, c).objective)
    ensures SourceUpdate(k, i, n) in Vars(SubProblem(models, k, i, n, agg, u, rho, c).objective)
  {
    SubObjVars(models, k, i, |models|, n);
  }

  // ---------------------------------------------------------------------
  // Properties of a sweep
  // ---------------------------------------------------------------------

  /**
   * Source p took, for its update variables, the values of the solve of its
   * sub-problem posed over `before`.
   */
  predicate SolvedAgainst(before: Models, after: SourceModel, k: nat, p: nat, n: nat, agg: seq<real>,
                          u: seq<real>, rho: real, solve: Problem -> Solution, cp: Coupling)
  {
    && Ready(before, n) && p < |before|
    && var sol := solve(SubProblem(before, k, p, n, agg, u, rho, cp));
    && after.admmSource == ValueOf(sol, SourceUpdate(k, p, n))
    && after.admmTheta == ValueOf(sol, ThetaUpdate(k, p, before[p].val.order))
  }

  /** The step SweepFrom takes at a source whose update got a value. */
  function NextCarry(models: Models, k: nat, i: nat, n: nat, agg: seq<real>, u: seq<real>, rho: real,
                     solve: Problem -> Solution, cp: Coupling): Carry
    requires Ready(models, n) && i < |models|
  {
    var sol := solve(SubProblem(models, k, i, n, agg, u, rho, cp));
    var v := ValueOf(sol, SourceUpdate(k, i, n));
    if v.None? then Carry(0.0, [], [])
    else Carry(sol.objective, SubSumValue(models, i, |models|, n, v.value, cp),
               VecSub(v.value, models[i].val.admmSource.value))
  }

  function NextModels(models: Models, k: nat, i: nat, n: nat, agg: seq<real>, u: seq<real>, rho: real,
                      solve: Problem -> Solution, cp: Coupling): (r: Models)
    requires Ready(models, n) && i < |models|
    ensures Ready(r, n) && |r| == |models|
    ensures forall p :: 0 <= p < |models| && p != i ==> r[p] == models[p]
  {
    var sol := solve(SubProblem(models, k, i, n, agg, u, rho, cp));
    var v := ValueOf(sol, SourceUpdate(k, i, n));
    if v.None? then models
    else Updated(models, i, v.value, ValueOf(sol, ThetaUpdate(k, i, models[i].val.order)))
  }

  lemma SweepStep(models: Models, k: nat, i: nat, n: nat, agg: seq<real>, u: seq<real>, rho: real,
                  solve: Problem -> Solution, cp: Coupling, c: Carry)
    requires Ready(models, n) && i < |models|
    requires SweepFrom(models, k, i, n, agg, u, rho, solve, cp, c).Swept?
    ensures SweepFrom(models, k, i, n, agg, u, rho, solve, cp, c)
         == SweepFrom(NextModels(models, k, i, n, agg, u, rho, solve, cp), k, i + 1, n, agg, u, rho, solve, cp,
                      NextCarry(models, k, i, n, agg, u, rho, solve, cp))
    ensures SolvedAgainst(models, NextModels(models, k, i, n, agg, u, rho, solve, cp)[i].val, k, i, n, agg, u, rho, solve, cp)
  {
  }

  /** One level of SweepFrom, whatever the solver returns. */
  lemma SweepUnfold(models: Models, k: nat, i: nat, n: nat, agg: seq<real>, u: seq<real>, rho: real,
                    solve: Problem -> Solution, cp: Coupling, c: Carry)
    requires Ready(models, n) && i < |models|
    ensures var sol := solve(SubProblem(models, k, i, n, agg, u, rho, cp));
      var v := ValueOf(sol, SourceUpdate(k, i, n));
      SweepFrom(models, k, i, n, agg, u, rho, solve, cp, c)
      == if v.None? then Stuck(models, MissingSourceValue(k, models[i].key))
         else SweepFrom(Updated(models, i, v.value, ValueOf(sol, ThetaUpdate(k, i, models[i].val.order))),
                        k, i + 1, n, agg, u, rho, solve, cp,
                        Carry(sol.objective, SubSumValue(models, i, |models|, n, v.value, cp),
                              VecSub(v.value, models[i].val.admmSource.value)))
  {
  }

  lemma NextKeeps(models: Models, k: nat, i: nat, n: nat, agg: seq<real>, u: seq<real>, rho: real,
                  solve: Problem -> Solution, cp: Coupling)
    requires Ready(models, n) && i < |models|
    ensures SameButAdmm(models, NextModels(models, k, i, n, agg, u, rho, solve, cp))
  {
  }

  /** One level of SweepFrom in terms of NextModels and NextCarry. */
  lemma SweepNext(models: Models, k: nat, i: nat, n: nat, agg: seq<real>, u: seq<real>, rho: real,
                  solve: Problem -> Solution, cp: Coupling, c: Carry)
    requires Ready(models, n) && i < |models|
    ensures var v := ValueOf(solve(SubProblem(models, k, i, n, agg, u, rho, cp)), SourceUpdate(k, i, n));
      SweepFrom(models, k, i, n, agg, u, rho, solve, cp, c)
      == if v.None? then Stuck(models, MissingSourceValue(k, models[i].key))
         else SweepFrom(NextModels(models, k, i, n, agg, u, rho, solve, cp), k, i + 1, n, agg, u, rho, solve, cp,
                        NextCarry(models, k, i, n, agg, u, rho, solve, cp))
  {
  }

  /** A sweep changes nothing but held values. */
  lemma {:induction false} SweepKeeps(models: Models, k: nat, i: nat, n: nat, agg: seq<real>, u: seq<real>,
                                      rho: real, solve: Problem -> Solution, cp: Coupling, c: Carry)
    requires Ready(models, n) && i <= |models|
    ensures SameButAdmm(models, SweepFrom(models, k, i, n, agg, u, rho, solve, cp, c).models)
    decreases |models| - i
  {
    if i < |models| {
      SweepNext(models, k, i, n, agg, u, rho, solve, cp, c);
      var next := NextModels(models, k, i, n, agg, u, rho, solve, cp);
      var c' := NextCarry(models, k, i, n, agg, u, rho, solve, cp);
      SweepKeeps(next, k, i + 1, n, agg, u, rho, solve, cp, c');
      NextKeeps(models, k, i, n, agg, u, rho, solve, cp);
      SameButAdmmTrans(models, next, SweepFrom(next, k, i + 1, n, agg, u, rho, solve, cp, c').models);
    }
  }

  /** The sources before i keep what they held. */
  lemma {:induction false} SweepKeepsPrefix(models: Models, k: nat, i: nat, n: nat, agg: seq<real>, u: seq<real>,
                                            rho: real, solve: Problem -> Solution, cp: Coupling, c: Carry, p: nat)
    requires Ready(models, n) && p < i <= |models|
    ensures SweepFrom(models, k, i, n, agg, u, rho, solve, cp, c).models[p] == models[p]
    decreases |models| - i
  {
    if i < |models| {
      SweepNext(models, k, i, n, agg, u, rho, solve, cp, c);
      var next := NextModels(models, k, i, n, agg, u, rho, solve, cp);
      SweepKeepsPrefix(next, k, i + 1, n, agg, u, rho, solve, cp, NextCarry(models, k, i, n, agg, u, rho, solve, cp), p);
    }
  }

  /**
   * Gauss-Seidel order: each source p from i on is solved once, against
   * the registry in which the sources before p already hold this sweep's
   * values and the sources from p on still hold the earlier ones; it takes
   * that solve's values for its update variables.
   */
  lemma {:induction false} SweepOrder(models: Models, k: nat, i: nat, n: nat, agg: seq<real>, u: seq<real>,
                                      rho: real, solve: Problem -> Solution, cp: Coupling, c: Carry, p: nat)
    requires Ready(models, n) && i <= p < |models|
    requires SweepFrom(models, k, i, n, agg, u, rho, solve, cp, c).Swept?
    ensures var ms := SweepFrom(models, k, i, n, agg, u, rho, solve, cp, c).models;
      SolvedAgainst(ms[..p] + models[p..], ms[p].val, k, p, n, agg, u, rho, solve, cp)
    decreases |models| - i
  {
    var ms := SweepFrom(models, k, i, n, agg, u, rho, solve, cp, c).models;
    SweepStep(models, k, i, n, agg, u, rho, solve, cp, c);
    var next := NextModels(models, k, i, n, agg, u, rho, solve, cp);
    var c' := NextCarry(models, k, i, n, agg, u, rho, solve, cp);
    if p == i {
      SweepKeepsPrefix(next, k, i + 1, n, agg, u, rho, solve, cp, c', i);
      forall q | 0 <= q < i ensures ms[q] == models[q] {
        SweepKeepsPrefix(models, k, i, n, agg, u, rho, solve, cp, c, q);
      }
      SpliceSelf(ms, models, i);
    } else {
      SweepOrder(next, k, i + 1, n, agg, u, rho, solve, cp, c', p);
      SpliceShift(ms, next, models, i, p);
    }
  }

  lemma SpliceSelf<T>(ms: seq<T>, models: seq<T>, i: nat)
    requires |ms| == |models| && i <= |models|
    requires forall q :: 0 <= q < i ==> ms[q] == models[q]
    ensures ms[..i] + models[i..] == models
  {
    assert ms[..i] == models[..i];
  }

  lemma SpliceShift<T>(ms: seq<T>, next: seq<T>, models: seq<T>, i: nat, p: nat)
    requires |next| == |models| && i < p <= |models| && p <= |ms|
    requires forall q :: 0 <= q < |models| && q != i ==> next[q] == models[q]
    ensures ms[..p] + next[p..] == ms[..p] + models[p..]
  {
    assert next[p..] == models[p..];
  }

  /**
   * With the intended coupling, the `sum_sources` a sweep leaves behind is
   * the sum of every source's value after the sweep.
   */
  lemma {:induction false} SweepSumIsTotal(models: Models, k: nat, i: nat, n: nat, agg: seq<real>, u: seq<real>,
                                           rho: real, solve: Problem -> Solution, c: Carry)
    requires Ready(models, n) && UniqueKeys(models) && i < |models|
    requires SweepFrom(models, k, i, n, agg, u, rho, solve, Intended, c).Swept?
    ensures var r := SweepFrom(models, k, i, n, agg, u, rho, solve, Intended, c);
      r.carry.lastSum == SumVecs(Sources(r.models, n), n)
    decreases |models| - i
  {
    SweepStep(models, k, i, n, agg, u, rho, solve, Intended, c);
    var sol := solve(SubProblem(models, k, i, n, agg, u, rho, Intended));
    var v := ValueOf(sol, SourceUpdate(k, i, n)).value;
    var theta := ValueOf(sol, ThetaUpdate(k, i, models[i].val.order));
    var next := NextModels(models, k, i, n, agg, u, rho, solve, Intended);
    var c' := NextCarry(models, k, i, n, agg, u, rho, solve, Intended);
    assert next == Updated(models, i, v, theta);
    assert UniqueKeys(next) by {
      assert forall p :: 0 <= p < |next| ==> next[p].key == models[p].key;
    }
    if i + 1 == |models| {
      SubSumIntended(models, i, |models|, n, v, theta);
      assert Sources(next, n)[..|models|] == Sources(next, n);
    } else {
      SweepSumIsTotal(next, k, i + 1, n, agg, u, rho, solve, c');
    }
  }

  /**
   * Line 225: after a completed sweep, u grows by the sum of all sources'
   * new values minus the aggregate.
   */
  lemma DualUpdate(models: Models, k: nat, n: nat, agg: seq<real>, u: seq<real>, rho: real,
                   solve: Problem -> Solution, tol: Tolerances, num: Numerics)
    requires Ready(models, n) && UniqueKeys(models) && 0 < |models| && |u| == n && |agg| == n
    requires SweepFrom(models, k, 0, n, agg, u, rho, solve, Intended, Carry(0.0, Zeros(n), Zeros(n))).Swept?
    ensures var r := SweepFrom(models, k, 0, n, agg, u, rho, solve, Intended, Carry(0.0, Zeros(n), Zeros(n)));
      SweepStats(r.carry, u, agg, n, rho, tol, num).u == VecAdd(u, VecSub(SumVecs(Sources(r.models, n), n), agg))
  {
    SweepSumIsTotal(models, k, 0, n, agg, u, rho, solve, Carry(0.0, Zeros(n), Zeros(n)));
  }

  // ---------------------------------------------------------------------
  // Line 192 as written
  // ---------------------------------------------------------------------

  /** A one-sample source without regressors that holds the value [held]. */
  function ExampleModel(name: string, held: real): SourceModel
  {
    SourceModel(name, [1.0], None, None, ZeroMatrix(1, 0), 0, SourceVar(0, 1), ThetaVar(0, 0), "sse", Zero,
                Some([held]), Some([]))
  }

  /**
   * As line 192 is written the coupling sum counts the solved source's
   * own held value once for every other source: with sources a (holding
   * 1) and b (holding 5), solving b with update value 2 gives 5 + 2 = 7,
   * while the sources after the update sum to 1 + 2 = 3.
   */
  lemma CouplingAsWrittenDoubleCounts()
    ensures var ms := [Entry("a", ExampleModel("a", 1.0)), Entry("b", ExampleModel("b", 5.0))];
      && Ready(ms, 1)
      && SubSumValue(ms, 1, 2, 1, [2.0], AsWritten) == [7.0]
      && SubSumValue(ms, 1, 2, 1, [2.0], Intended) == [3.0]
      && SumVecs(Sources(Updated(ms, 1, [2.0], None), 1), 1) == [3.0]
  {
    var ms := [Entry("a", ExampleModel("a", 1.0)), Entry("b", ExampleModel("b", 5.0))];
    assert ms[0].key != ms[1].key;
    assert SubSumValue(ms, 1, 1, 1, [2.0], AsWritten) == VecAdd(Zeros(1), [5.0]);
    assert VecAdd(Zeros(1), [5.0]) == [5.0];
    assert VecAdd([5.0], [2.0]) == [7.0];
    assert SubSumValue(ms, 1, 1, 1, [2.0], Intended) == VecAdd(Zeros(1), [1.0]);
    assert VecAdd(Zeros(1), [1.0]) == [1.0];
    assert VecAdd([1.0], [2.0]) == [3.0];
    var src := Sources(Updated(ms, 1, [2.0], None), 1);
    assert src == [[1.0], [2.0]];
    assert src[..1] == [[1.0]];
    assert SumVecs(src[..1], 1) == [1.0];
  }

  /**
   * An entry of `sum_sources` for source i after q inner iterations of line
   * 192 as written, w being i's previous value and x its update there.
   */
  function AsWrittenCount(i: nat, q: nat, w: real, x: real): real
  {
    if i < q then (q - 1) as real * w + x else q as real * w
  }

  lemma AsWrittenEntry(i: nat, q: nat, w: real, x: real)
    requires 0 < q
    ensures AsWrittenCount(i, q, w, x) == AsWrittenCount(i, q - 1, w, x) + if q - 1 != i then w else x
  {
    if q - 1 < i {
      assert q as real * w == (q - 1) as real * w + w;
    } else if q - 1 > i {
      assert (q - 1) as real * w == (q - 2) as real * w + w;
    }
  }

  /**
   * Line 192 as written, for any registry with distinct names: after q
   * inner iterations `sum_sources` for source i holds i's own previous
   * value once for every other source passed, plus the update once i
   * itself is passed.
   */
  lemma {:induction false} SubSumAsWritten(models: Models, i: nat, q: nat, n: nat, v: seq<real>)
    requires Ready(models, n) && UniqueKeys(models) && i < |models| && q <= |models| && |v| == n
    ensures var s := SubSumValue(models, i, q, n, v, AsWritten);
      var w := models[i].val.admmSource.value;
      forall j :: 0 <= j < n ==> s[j] == AsWrittenCount(i, q, w[j], v[j])
  {
    if q > 0 {
      SubSumAsWritten(models, i, q - 1, n, v);
      var w := models[i].val.admmSource.value;
      var prev := SubSumValue(models, i, q - 1, n, v, AsWritten);
      var add := if models[q - 1].key != models[i].key then w else v;
      assert (models[q - 1].key != models[i].key) == (q - 1 != i);
      assert SubSumValue(models, i, q, n, v, AsWritten) == VecAdd(prev, add);
      forall j | 0 <= j < n
        ensures VecAdd(prev, add)[j] == AsWrittenCount(i, q, w[j], v[j])
      {
        AsWrittenEntry(i, q, w[j], v[j]);
      }
    }
  }

  /**
   * Lines 192 and 225 as written: the `sum_sources` a sweep hands to the
   * dual update is the one the last source M - 1 was solved with, so it
   * holds that source's value from before the sweep M - 1 times and its
   * new value once.
   */
  lemma {:induction false} SweepSumAsWritten(models: Models, k: nat, i: nat, n: nat, agg: seq<real>, u: seq<real>,
                                             rho: real, solve: Problem -> Solution, c: Carry)
    requires Ready(models, n) && UniqueKeys(models) && i < |models|
    requires SweepFrom(models, k, i, n, agg, u, rho, solve, AsWritten, c).Swept?
    ensures var r := SweepFrom(models, k, i, n, agg, u, rho, solve, AsWritten, c);
      var M := |models|;
      var was := models[M - 1].val.admmSource.value;
      var now := r.models[M - 1].val.admmSource.value;
      forall j :: 0 <= j < n ==> r.carry.lastSum[j] == AsWrittenCount(M - 1, M, was[j], now[j])
    decreases |models| - i
  {
    SweepStep(models, k, i, n, agg, u, rho, solve, AsWritten, c);
    var sol := solve(SubProblem(models, k, i, n, agg, u, rho, AsWritten));
    var v := ValueOf(sol, SourceUpdate(k, i, n)).value;
    var theta := ValueOf(sol, ThetaUpdate(k, i, models[i].val.order));
    var next := NextModels(models, k, i, n, agg, u, rho, solve, AsWritten);
    var c' := NextCarry(models, k, i, n, agg, u, rho, solve, AsWritten);
    assert next == Updated(models, i, v, theta);
    UpdatedKeys(models, i, v, theta);
    if i + 1 == |models| {
      SubSumAsWritten(models, i, |models|, n, v);
    } else {
      SweepSumAsWritten(next, k, i + 1, n, agg, u, rho, solve, c');
    }
  }

  /**
   * Line 225 as written: after a completed sweep u grows by M - 1 copies
   * of the last source's previous value plus its new value, minus the
   * aggregate.
   */
  lemma DualUpdateAsWritten(models: Models, k: nat, n: nat, agg: seq<real>, u: seq<real>, rho: real,
                            solve: Problem -> Solution, tol: Tolerances, num: Numerics)
    requires Ready(models, n) && UniqueKeys(models) && 0 < |models| && |u| == n && |agg| == n
    requires SweepFrom(models, k, 0, n, agg, u, rho, solve, AsWritten, Carry(0.0, Zeros(n), Zeros(n))).Swept?
    ensures var r := SweepFrom(models, k, 0, n, agg, u, rho, solve, AsWritten, Carry(0.0, Zeros(n), Zeros(n)));
      var M := |models|;
      var was := models[M - 1].val.admmSource.value;
      var now := r.models[M - 1].val.admmSource.value;
      var u' := SweepStats(r.carry, u, agg, n, rho, tol, num).u;
      forall j :: 0 <= j < n ==> u'[j] == u[j] + ((M - 1) as real * was[j] + now[j] - agg[j])
  {
    SweepSumAsWritten(models, k, 0, n, agg, u, rho, solve, Carry(0.0, Zeros(n), Zeros(n)));
  }

  /** With a single source the two couplings pose the same sub-problem and leave the same sum. */
  lemma SingleSourceCouplingsAgree(models: Models, k: nat, n: nat, agg: seq<real>, u: seq<real>, rho: real,
                                   v: seq<real>)
    requires Ready(models, n) && |models| == 1 && |v| == n
    ensures SubProblem(models, k, 0, n, agg, u, rho, AsWritten) == SubProblem(models, k, 0, n, agg, u, rho, Intended)
    ensures SubSumValue(models, 0, 1, n, v, AsWritten) == SubSumValue(models, 0, 1, n, v, Intended)
  {
    assert SubSum(models, k, 0, 1, n, AsWritten) == SubSum(models, k, 0, 1, n, Intended);
  }

  // ---------------------------------------------------------------------
  // Properties of the run
  // ---------------------------------------------------------------------

  /**
   * What a run from sweep k leaves in its histories, given the histories
   * dual and resid it starts from.
   */
  predicate Histories(dual: seq<real>, resid: seq<real>, k: int, maxIter: int, n: nat, r: RunOut)
  {
    && (forall j :: 0 <= j < |r.stops| - 1 ==> !r.stops[j])
    && (r.result.Failure? ==> r.result.error.MissingSourceValue?)
    && (r.result.Success? ==>
          var out := r.result.value;
          && |out.dualObjective| == |out.normResidEquality| == |dual| + |r.stops|
          && |resid| == |dual|
          && out.dualObjective[..|dual|] == dual
          && out.normResidEquality[..|resid|] == resid
          && out.y == Zeros(n)
          && (k < maxIter ==> |r.stops| <= maxIter - k)
          && (k >= maxIter ==> r.stops == [])
          && (|r.stops| < maxIter - k ==> |r.stops| > 0 && r.stops[|r.stops| - 1]))
  }

  /** A sweep that does not stop the run prepends one entry to each history and one `false` to the stops. */
  lemma HistoriesStep(dual: seq<real>, resid: seq<real>, x: real, y: real, k: int, maxIter: int, n: nat,
                      r': RunOut, r: RunOut)
    requires |dual| == |resid| && k < maxIter
    requires Histories(dual + [x], resid + [y], k + 1, maxIter, n, r')
    requires r.models == r'.models && r.result == r'.result && r.stops == [false] + r'.stops
    ensures Histories(dual, resid, k, maxIter, n, r)
  {
    if r.result.Success? {
      var out := r.result.value;
      PrefixOfExtension(out.dualObjective, dual, x);
      PrefixOfExtension(out.normResidEquality, resid, y);
    }
  }

  lemma {:induction false} RunHistories(st: RunState, k: nat, maxIter: int, n: nat, agg: seq<real>, rho: real,
                                        tol: Tolerances, solve: Problem -> Solution, cp: Coupling, num: Numerics)
    requires RunReady(st, n) && |agg| == n && |st.models| > 0 && |st.dual| == |st.resid|
    ensures Histories(st.dual, st.resid, k, maxIter, n, RunFrom(st, k, maxIter, n, agg, rho, tol, solve, cp, num))
    decreases maxIter - k
  {
    if k < maxIter {
      RunUnfold(st, k, maxIter, n, agg, rho, tol, solve, cp, num);
      var sw := SweepFrom(st.models, k, 0, n, agg, st.u, rho, solve, cp, Carry(0.0, Zeros(n), Zeros(n)));
      if sw.Swept? {
        var s := SweepStats(sw.carry, st.u, agg, n, rho, tol, num);
        var st' := RunState(sw.models, s.u, st.dual + [sw.carry.lastObj], st.resid + [s.normResid]);
        if !Converged(s) {
          RunHistories(st', k + 1, maxIter, n, agg, rho, tol, solve, cp, num);
          HistoriesStep(st.dual, st.resid, sw.carry.lastObj, s.normResid, k, maxIter, n,
                        RunFrom(st', k + 1, maxIter, n, agg, rho, tol, solve, cp, num),
                        RunFrom(st, k, maxIter, n, agg, rho, tol, solve, cp, num));
        }
      }
    }
  }

  lemma PrefixOfExtension<T>(s: seq<T>, p: seq<T>, x: T)
    requires |p| + 1 <= |s| && s[..|p| + 1] == p + [x]
    ensures s[..|p|] == p
  {
    assert s[..|p|] == s[..|p| + 1][..|p|];
  }

  /** One level of RunFrom below MaxIter. */
  lemma RunUnfold(st: RunState, k: nat, maxIter: int, n: nat, agg: seq<real>, rho: real,
                  tol: Tolerances, solve: Problem -> Solution, cp: Coupling, num: Numerics)
    requires RunReady(st, n) && |agg| == n && |st.models| > 0 && k < maxIter
    ensures var sw := SweepFrom(st.models, k, 0, n, agg, st.u, rho, solve, cp, Carry(0.0, Zeros(n), Zeros(n)));
      sw.Swept? ==> |sw.carry.lastSum| == n && |sw.carry.lastDiff| == n
    ensures var sw := SweepFrom(st.models, k, 0, n, agg, st.u, rho, solve, cp, Carry(0.0, Zeros(n), Zeros(n)));
      var r := RunFrom(st, k, maxIter, n, agg, rho, tol, solve, cp, num);
      && (sw.Stuck? ==> r == RunOut(sw.models, Failure(sw.error), []))
      && (sw.Swept? ==>
            var s := SweepStats(sw.carry, st.u, agg, n, rho, tol, num);
            var st' := RunState(sw.models, s.u, st.dual + [sw.carry.lastObj], st.resid + [s.normResid]);
            && (Converged(s) ==> r == RunOut(sw.models, Success(AdmmOutput(st'.dual, st'.resid, Zeros(n))), [true]))
            && (!Converged(s) ==>
                  r.models == RunFrom(st', k + 1, maxIter, n, agg, rho, tol, solve, cp, num).models
                  && r.result == RunFrom(st', k + 1, maxIter, n, agg, rho, tol, solve, cp, num).result
                  && r.stops == [false] + RunFrom(st', k + 1, maxIter, n, agg, rho, tol, solve, cp, num).stops))
  {
  }

  /** The outer loop changes nothing but held values. */
  lemma {:induction false} RunKeeps(st: RunState, k: nat, maxIter: int, n: nat, agg: seq<real>, rho: real,
                                    tol: Tolerances, solve: Problem -> Solution, cp: Coupling, num: Numerics)
    requires RunReady(st, n) && |agg| == n && |st.models| > 0
    ensures SameButAdmm(st.models, RunFrom(st, k, maxIter, n, agg, rho, tol, solve, cp, num).models)
    decreases maxIter - k
  {
    if k < maxIter {
      RunUnfold(st, k, maxIter, n, agg, rho, tol, solve, cp, num);
      var sw := SweepFrom(st.models, k, 0, n, agg, st.u, rho, solve, cp, Carry(0.0, Zeros(n), Zeros(n)));
      SweepKeeps(st.models, k, 0, n, agg, st.u, rho, solve, cp, Carry(0.0, Zeros(n), Zeros(n)));
      if sw.Swept? {
        var s := SweepStats(sw.carry, st.u, agg, n, rho, tol, num);
        var st' := RunState(sw.models, s.u, st.dual + [sw.carry.lastObj], st.resid + [s.normResid]);
        if !Converged(s) {
          RunKeeps(st', k + 1, maxIter, n, agg, rho, tol, solve, cp, num);
        }
      }
    }
  }

  /**
   * `admmSolve` changes nothing in the registry but the held values
   * admmSource/admmTheta: every name, position, cost and bound stays.
   */
  lemma AdmmKeeps(models: Models, n: nat, agg: seq<real>, rho: real, maxIter: int, tol: Tolerances,
                  solve: Problem -> Solution, cp: Coupling, num: Numerics)
    requires |agg| == n
    ensures SameButAdmm(models, AdmmRun(models, n, agg, rho, maxIter, tol, solve, cp, num).models)
  {
    if maxIter > 0 && |models| > 0 && rho != 0.0 {
      RunKeeps(RunState(InitAll(models, n), Zeros(n), [], []), 1, maxIter, n, agg, rho, tol, solve, cp, num);
    }
  }

  /**
   * The histories `admmSolve` returns have equal length, one entry per
   * sweep after sweep 0 and at most MaxIter - 1 of them; y is the zero
   * vector; and a run that stops before MaxIter - 1 sweeps stopped because
   * its last sweep passed both residual tests, while no earlier one did.
   */
  lemma AdmmHistories(models: Models, n: nat, agg: seq<real>, rho: real, maxIter: int, tol: Tolerances,
                      solve: Problem -> Solution, cp: Coupling, num: Numerics)
    requires |agg| == n
    ensures var r := AdmmRun(models, n, agg, rho, maxIter, tol, solve, cp, num);
      && (forall j :: 0 <= j < |r.stops| - 1 ==> !r.stops[j])
      && (r.result.Success? ==>
            var out := r.result.value;
            && |out.dualObjective| == |out.normResidEquality| == |r.stops| <= maxIter - 1
            && out.y == Zeros(n)
            && (|r.stops| < maxIter - 1 ==> |r.stops| > 0 && r.stops[|r.stops| - 1]))
  {
    if maxIter > 0 && |models| > 0 && rho != 0.0 {
      RunHistories(RunState(InitAll(models, n), Zeros(n), [], []), 1, maxIter, n, agg, rho, tol, solve, cp, num);
    }
  }

  /**
   * The errors `admmSolve` raises: with no source or no iteration nothing is
   * bound and nothing changes; with rho == 0 the first source has been
   * initialised when line 181 divides by zero; every other failure is a
   * solve that left source_update without a value.
   */
  lemma AdmmErrors(models: Models, n: nat, agg: seq<real>, rho: real, maxIter: int, tol: Tolerances,
                   solve: Problem -> Solution, cp: Coupling, num: Numerics)
    requires |agg| == n
    ensures var r := AdmmRun(models, n, agg, rho, maxIter, tol, solve, cp, num);
      && (r.result == Failure(UnboundLocal) <==> maxIter <= 0 || |models| == 0)
      && (r.result == Failure(UnboundLocal) ==> r.models == models)
      && (r.result == Failure(ZeroDivision) <==> maxIter > 0 && |models| > 0 && rho == 0.0)
      && (r.result == Failure(ZeroDivision) ==> r.models == InitFirst(models, n))
      && (r.result.Failure? ==> r.result.error.UnboundLocal? || r.result.error.ZeroDivision?
                                || r.result.error.MissingSourceValue?)
  {
    if maxIter > 0 && |models| > 0 && rho != 0.0 {
      RunHistories(RunState(InitAll(models, n), Zeros(n), [], []), 1, maxIter, n, agg, rho, tol, solve, cp, num);
    }
  }
}

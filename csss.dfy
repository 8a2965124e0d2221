/**
 * Class `CSSS` of CSSS.py: the registry of source models, the extra
 * constraints, and the two ways of solving (one joint problem, or ADMM).
 */
module Csss {
  import opened Wrappers
  import opened Vectors
  import opened Text
  import opened OrderedDict
  import opened Expressions
  import opened SourceModels
  import opened Admm

  // ---------------------------------------------------------------------
  // What constructSolve assembles (lines 132-147)
  // ---------------------------------------------------------------------

  /**
   * Line 147 with no source registered compares two numpy arrays instead of
   * posing a constraint, and the solve of line 151 cannot use the result.
   */
  datatype ConstructError = NoSources

  /** `obj` after adding the cost of the first q models to the integer 0. */
  function TotalObjective(models: Models, q: nat): Expr
    requires q <= |models|
  {
    if q == 0 then Zero else Add(TotalObjective(models, q - 1), models[q - 1].val.obj)
  }

  /** `sum_sources` after adding the source variable of the first q models to `np.zeros`. */
  function SumOfSources(models: Models, q: nat, n: nat): Expr
    requires q <= |models|
  {
    if q == 0 then Const(Zeros(n)) else Add(SumOfSources(models, q - 1, n), Variable(models[q - 1].val.source))
  }

  /** The objective sums every model's cost, in registry order, after the integer 0. */
  lemma {:induction false} TotalObjectiveSummands(models: Models, q: nat)
    requires q <= |models|
    ensures var s := Spine(TotalObjective(models, q));
      && |s| == q + 1 && s[0] == Zero
      && forall p :: 1 <= p <= q ==> s[p] == models[p - 1].val.obj
  {
    if q > 0 {
      TotalObjectiveSummands(models, q - 1);
    }
  }

  /** The objective mentions exactly the variables of the models' costs. */
  lemma {:induction false} TotalObjectiveVars(models: Models, q: nat, v: Var)
    requires q <= |models|
    ensures v in Vars(TotalObjective(models, q)) <==> exists p :: 0 <= p < q && v in Vars(models[p].val.obj)
  {
    if q > 0 {
      TotalObjectiveVars(models, q - 1, v);
      if v in Vars(models[q - 1].val.obj) {
        assert exists p :: 0 <= p < q && v in Vars(models[p].val.obj);
      }
    }
  }

  /** The values the sources take under env, in registry order. */
  function SourceValues(models: Models, env: Env, n: nat): (vs: seq<seq<real>>)
    requires forall p :: 0 <= p < |models| ==> models[p].val.source in env && |env[models[p].val.source]| == n
    ensures |vs| == |models| && forall p :: 0 <= p < |vs| ==> |vs[p]| == n
  {
    seq(|models|, p requires 0 <= p < |models| => env[models[p].val.source])
  }

  /**
   * Under values for every source variable, the right-hand side of the
   * coupling constraint is the element-wise sum of the sources.
   */
  lemma {:induction false} SumOfSourcesValue(models: Models, q: nat, n: nat, env: Env, sem: Semantics)
    requires q <= |models|
    requires forall p :: 0 <= p < |models| ==> models[p].val.source.len == n
    requires forall p :: 0 <= p < |models| ==> models[p].val.source in env && |env[models[p].val.source]| == n
    ensures Eval(SumOfSources(models, q, n), env, sem) == Some(SumVecs(SourceValues(models, env, n)[..q], n))
  {
    var vs := SourceValues(models, env, n);
    if q > 0 {
      SumOfSourcesValue(models, q - 1, n, env, sem);
      assert vs[..q][..q - 1] == vs[..q - 1];
      assert Eval(Variable(models[q - 1].val.source), env, sem) == Some(vs[q - 1]);
      LiftPlus(SumVecs(vs[..q - 1], n), vs[q - 1]);
    }
  }

  // ---------------------------------------------------------------------
  // The class
  // ---------------------------------------------------------------------

  class CSSS {
    var aggregateSignal: seq<real>
    var modelcounter: nat
    var models: Models
    var constraints: seq<Constraint>
    var N: nat
    /** The variable values the last solve of `constructSolve` assigned. */
    var values: map<Var, seq<real>>

    ghost predicate Valid()
      reads this`aggregateSignal, this`N, this`models
    {
      N == |aggregateSignal| && Registered(models, N)
    }

    /** Lines 7-12. */
    constructor (aggregateSignal: seq<real>)
      ensures Valid()
      ensures this.aggregateSignal == aggregateSignal && N == |aggregateSignal|
      ensures modelcounter == 0 && models == [] && constraints == [] && values == map[]
    {
      this.aggregateSignal := aggregateSignal;
      modelcounter := 0;
      models := [];
      constraints := [];
      N := |aggregateSignal|;
      values := map[];
    }

    /**
     * Lines 15-121: the counter always moves on; the model is stored under
     * its name (by default the new counter value) only when it builds.
     */
    method AddSource(regressor: Regressor, name: Option<string>, costFunction: string, alpha: seq<real>,
                     regularizeTheta: Regularizer, beta: seq<real>,
                     regularizeSource: Regularizer, gamma: seq<real>,
                     lb: Option<seq<real>>, ub: Option<seq<real>>) returns (r: Result<(), SourceError>)
      requires Valid()
      modifies this`modelcounter, this`models
      ensures Valid()
      ensures modelcounter == old(modelcounter) + 1
      ensures var nm := if name.Some? then name.value else NatToString(modelcounter);
        var b := BuildModel(modelcounter, nm, N, regressor, costFunction, alpha,
                            regularizeTheta, beta, regularizeSource, gamma, lb, ub);
        && (r.Success? <==> b.Success?)
        && (r.Failure? ==> r.error == b.error)
        && models == if b.Success? then Put(old(models), nm, b.value) else old(models)
    {
      modelcounter := modelcounter + 1;
      var nm := if name.Some? then name.value else NatToString(modelcounter);
      var b := BuildModel(modelcounter, nm, N, regressor, costFunction, alpha,
                          regularizeTheta, beta, regularizeSource, gamma, lb, ub);
      if b.Failure? {
        return Failure(b.error);
      }
      PutRegistered(models, nm, b.value, N);
      models := Put(models, nm, b.value);
      r := Success(());
    }

    /** Lines 123-126. */
    method AddConstraint(c: Constraint)
      modifies this`constraints
      ensures constraints == old(constraints) + [c]
    {
      constraints := constraints + [c];
    }

    /**
     * Lines 128-153: minimise the sum of all costs subject to the extra
     * constraints and aggregate == sum of sources. `con` is the list
     * `self.constraints` itself, so the coupling constraint stays in it.
     * With an empty registry there is no variable to constrain and the call
     * fails.
     */
    method ConstructSolve(solve: Problem -> Solution) returns (r: Result<(), ConstructError>)
      modifies this`constraints, this`values
      ensures r.Failure? <==> |models| == 0
      ensures r.Failure? ==> constraints == old(constraints) && values == old(values)
      ensures r.Success? ==>
        constraints == old(constraints) + [Eq(Const(aggregateSignal), SumOfSources(models, |models|, N))]
      ensures r.Success? ==>
        values == old(values) + solve(Problem(TotalObjective(models, |models|), constraints)).values
    {
      if |models| == 0 {
        return Failure(NoSources);
      }
      var obj := Zero;
      var sum := Const(Zeros(N));
      var q := 0;
      while q < |models|
        invariant q <= |models|
        invariant obj == TotalObjective(models, q)
        invariant sum == SumOfSources(models, q, N)
      {
        obj := Add(obj, models[q].val.obj);
        sum := Add(sum, Variable(models[q].val.source));
        q := q + 1;
      }
      constraints := constraints + [Eq(Const(aggregateSignal), sum)];
      var sol := solve(Problem(obj, constraints));
      values := values + sol.values;
      r := Success(());
    }

    /** Lines 155-243: run ADMM on the registry, holding each source's iterate in the registry. */
    method AdmmSolve(rho: real, maxIter: int, tol: Tolerances, solve: Problem -> Solution, num: Numerics)
      returns (r: Result<AdmmOutput, AdmmError>)
      requires Valid()
      modifies this`models
      ensures Valid()
      ensures var spec := AdmmRun(old(models), N, aggregateSignal, rho, maxIter, tol, solve, AsWritten, num);
        models == spec.models && r == spec.result
    {
      ghost var start := models;
      ghost var target := AdmmRun(start, N, aggregateSignal, rho, maxIter, tol, solve, AsWritten, num);
      AdmmKeeps(start, N, aggregateSignal, rho, maxIter, tol, solve, AsWritten, num);
      r := RunAdmm(rho, maxIter, tol, solve, num);
      SameButAdmmRegistered(start, models, N);
    }

    /** The body of `admmSolve`, against AdmmRun. */
    method RunAdmm(rho: real, maxIter: int, tol: Tolerances, solve: Problem -> Solution, num: Numerics)
      returns (r: Result<AdmmOutput, AdmmError>)
      requires UniqueKeys(models) && N == |aggregateSignal|
      modifies this`models
      ensures var spec := AdmmRun(old(models), N, aggregateSignal, rho, maxIter, tol, solve, AsWritten, num);
        models == spec.models && r == spec.result
    {
      ghost var target := AdmmRun(models, N, aggregateSignal, rho, maxIter, tol, solve, AsWritten, num);
      if maxIter <= 0 || |models| == 0 {
        return Failure(UnboundLocal);
      }
      var ok := InitialiseHeld(rho);
      if !ok {
        return Failure(ZeroDivision);
      }
      var u := Zeros(N);
      var dual: seq<real> := [];
      var resid: seq<real> := [];
      var k: nat := 1;
      while k < maxIter
        invariant RunReady(RunState(models, u, dual, resid), N) && UniqueKeys(models) && |models| > 0
        invariant RunFrom(RunState(models, u, dual, resid), k, maxIter, N, aggregateSignal, rho, tol, solve, AsWritten, num).models
                  == target.models
        invariant RunFrom(RunState(models, u, dual, resid), k, maxIter, N, aggregateSignal, rho, tol, solve, AsWritten, num).result
                  == target.result
        decreases maxIter - k
      {
        ghost var st := RunState(models, u, dual, resid);
        RunUnfold(st, k, maxIter, N, aggregateSignal, rho, tol, solve, AsWritten, num);
        var swept := Sweep(k, u, rho, solve);
        if swept.Failure? {
          return Failure(swept.error);
        }
        var s := Stopping(swept.value, u, rho, tol, num);
        dual := dual + [swept.value.lastObj];
        u := s.u;
        resid := resid + [s.normResid];
        if s.sNorm < s.epsDual && s.normResid < s.epsPri {
          return Success(AdmmOutput(dual, resid, Zeros(N)));
        }
        k := k + 1;
      }
      r := Success(AdmmOutput(dual, resid, Zeros(N)));
    }

    /** Lines 224-232: the dual update and the four quantities of the stopping test. */
    method Stopping(carry: Carry, u: seq<real>, rho: real, tol: Tolerances, num: Numerics) returns (s: Stats)
      requires |carry.lastSum| == N && |carry.lastDiff| == N && |u| == N && N == |aggregateSignal|
      ensures s == SweepStats(carry, u, aggregateSignal, N, rho, tol, num)
    {
      var dev := VecSub(carry.lastSum, aggregateSignal);
      var u' := VecAdd(u, dev);
      var normResid := num.norm(dev);
      var normSum := num.norm(carry.lastSum);
      var normAgg := num.norm(VecScale(-1.0, aggregateSignal));
      var epsPri := num.sqrt(N as real) * tol.abstol + tol.reltol * (if normSum >= normAgg then normSum else normAgg);
      var sNorm := num.norm(VecScale(-rho, carry.lastDiff));
      var epsDual := num.sqrt(N as real) * tol.abstol + tol.reltol * num.norm(VecScale(rho, u'));
      s := Stats(u', normResid, epsPri, sNorm, epsDual);
    }

    /** Lines 173-181 of sweep 0: zero each source's held values, stopping at line 181 when rho == 0. */
    method InitialiseHeld(rho: real) returns (ok: bool)
      requires UniqueKeys(models) && |models| > 0
      modifies this`models
      ensures UniqueKeys(models)
      ensures ok == (rho != 0.0)
      ensures models == if ok then InitAll(old(models), N) else InitFirst(old(models), N)
    {
      ghost var start := models;
      var i := 0;
      while i < |models|
        invariant 0 <= i <= |models| == |start|
        invariant i == 0 ==> models == start
        invariant forall p :: 0 <= p < i ==> models[p] == InitAll(start, N)[p]
        invariant forall p :: i <= p < |models| ==> models[p] == start[p]
        invariant i > 0 ==> rho != 0.0
      {
        models := models[i := Entry(models[i].key, Initialised(models[i].val, N))];
        if rho == 0.0 {
          assert models == InitFirst(start, N);
          SameButAdmmUnique(start, models);
          return false;
        }
        i := i + 1;
      }
      assert models == InitAll(start, N);
      SameButAdmmUnique(start, models);
      ok := true;
    }

    /** Lines 173-217 of a sweep k >= 1: solve each source in turn and hold its new values. */
    method Sweep(k: nat, u: seq<real>, rho: real, solve: Problem -> Solution) returns (r: Result<Carry, AdmmError>)
      requires Ready(models, N) && UniqueKeys(models)
      modifies this`models
      ensures Ready(models, N) && UniqueKeys(models)
      ensures SweepFrom(old(models), k, 0, N, aggregateSignal, u, rho, solve, AsWritten, Carry(0.0, Zeros(N), Zeros(N)))
              == if r.Success? then Swept(models, r.value) else Stuck(models, r.error)
    {
      ghost var target := SweepFrom(models, k, 0, N, aggregateSignal, u, rho, solve, AsWritten, Carry(0.0, Zeros(N), Zeros(N)));
      var ms := models;
      var carry := Carry(0.0, Zeros(N), Zeros(N));
      var residuals := Zero;
      var i := 0;
      while i < |ms|
        invariant 0 <= i <= |ms|
        invariant Ready(ms, N) && UniqueKeys(ms)
        invariant i > 0 ==> residuals == Residual(ms, k, i - 1, N)
        invariant SweepFrom(ms, k, i, N, aggregateSignal, u, rho, solve, AsWritten, carry) == target
      {
        var step;
        step, ms, residuals := SolveSource(ms, k, i, u, rho, solve, residuals, carry);
        if step.Failure? {
          models := ms;
          return Failure(step.error);
        }
        carry := step.value;
        i := i + 1;
      }
      models := ms;
      r := Success(carry);
    }

    /**
     * Lines 184-217 for source i of sweep k: pose its sub-problem, solve it,
     * and take the update's values.
     */
    method SolveSource(ms: Models, k: nat, i: nat, u: seq<real>, rho: real, solve: Problem -> Solution,
                       residuals: Expr, ghost c: Carry)
      returns (r: Result<Carry, AdmmError>, ms': Models, residualsOut: Expr)
      requires Ready(ms, N) && UniqueKeys(ms) && i < |ms|
      requires i > 0 ==> residuals == Residual(ms, k, i - 1, N)
      ensures Ready(ms', N) && UniqueKeys(ms') && |ms'| == |ms|
      ensures residualsOut == Residual(ms', k, i, N)
      ensures r.Failure? ==> SweepFrom(ms, k, i, N, aggregateSignal, u, rho, solve, AsWritten, c) == Stuck(ms', r.error)
      ensures r.Success? ==> SweepFrom(ms, k, i, N, aggregateSignal, u, rho, solve, AsWritten, c)
                             == SweepFrom(ms', k, i + 1, N, aggregateSignal, u, rho, solve, AsWritten, r.value)
    {
      SweepNext(ms, k, i, N, aggregateSignal, u, rho, solve, AsWritten, c);
      var prob;
      prob, residualsOut := BuildSubproblem(ms, k, i, N, aggregateSignal, u, rho, residuals);
      var sol := solve(prob);
      var v := ValueOf(sol, SourceUpdate(k, i, N));
      if v.None? {
        return Failure(MissingSourceValue(k, ms[i].key)), ms, residualsOut;
      }
      var diff := VecSub(v.value, ms[i].val.admmSource.value);
      var sum := SubSumValue(ms, i, |ms|, N, v.value, AsWritten);
      UpdatedKeys(ms, i, v.value, ValueOf(sol, ThetaUpdate(k, i, ms[i].val.order)));
      ms' := Updated(ms, i, v.value, ValueOf(sol, ThetaUpdate(k, i, ms[i].val.order)));
      r := Success(Carry(sol.objective, sum, diff));
    }

  }

  /** The registry invariant: unique keys, each model under its own name, shapes fitting n samples. */
  ghost predicate Registered(models: Models, n: nat)
  {
    && UniqueKeys(models)
    && forall p :: 0 <= p < |models| ==> models[p].key == models[p].val.name && ShapeInvariant(models[p].val, n)
  }

  /** Storing a model under its own name keeps the registry invariant. */
  lemma PutRegistered(models: Models, nm: string, m: SourceModel, n: nat)
    requires Registered(models, n) && m.name == nm && ShapeInvariant(m, n)
    ensures Registered(Put(models, nm, m), n)
  {
    PutKeys(models, nm, m);
    forall p | 0 <= p < |Put(models, nm, m)| ensures Put(models, nm, m)[p].key == Put(models, nm, m)[p].val.name && ShapeInvariant(Put(models, nm, m)[p].val, n) {
      PutAt(models, nm, m, p);
    }
  }

  /** Registries that differ only in held values are equally valid. */
  lemma SameButAdmmRegistered(a: Models, b: Models, n: nat)
    requires SameButAdmm(a, b) && Registered(a, n)
    ensures Registered(b, n)
  {
  }

  lemma SameButAdmmUnique(a: Models, b: Models)
    requires SameButAdmm(a, b) && UniqueKeys(a)
    ensures UniqueKeys(b)
  {
  }


  /**
   * Lines 184-210 for source i of sweep k: the inner loop over the
   * registry. `residuals` is the binding the previous source's sub-problem
   * left behind; the new one is returned.
   */
  method BuildSubproblem(models: Models, k: nat, i: nat, n: nat, agg: seq<real>, u: seq<real>, rho: real,
                         residuals: Expr) returns (prob: Problem, residualsOut: Expr)
    requires Ready(models, n) && UniqueKeys(models) && i < |models|
    requires i > 0 ==> residuals == Residual(models, k, i - 1, n)
    ensures prob == SubProblem(models, k, i, n, agg, u, rho, AsWritten)
    ensures residualsOut == Residual(models, k, i, n)
  {
    var obj := Zero;
    var con: seq<Constraint> := [];
    var sum := Const(Zeros(n));
    residualsOut := residuals;
    var q := 0;
    while q < |models|
      invariant q <= |models|
      invariant obj == SubObj(models, k, i, q, n)
      invariant con == SubCon(models, k, i, q, n)
      invariant sum == SubSum(models, k, i, q, n, AsWritten)
      invariant residualsOut == if q <= i then residuals else Residual(models, k, i, n)
    {
      SubConStep(models, k, i, q, n);
      SubSumStep(models, k, i, q, n);
      if models[q].key != models[i].key {
        sum := Add(sum, Const(models[i].val.admmSource.value));
      } else {
        assert q == i;
        var thetaUpdate := Variable(ThetaUpdate(k, i, models[i].val.order));
        var sourceUpdate := Variable(SourceUpdate(k, i, n));
        residualsOut := Sub(sourceUpdate, MatMul(models[i].val.regressor, thetaUpdate));
        ghost var before := con;
        if models[i].val.lb.Some? {
          con := con + [Ge(sourceUpdate, Const(models[i].val.lb.value))];
        }
        if models[i].val.ub.Some? {
          con := con + [Le(sourceUpdate, Const(models[i].val.ub.value))];
        }
        AppendBounds(before, models[i].val, SourceUpdate(k, i, n));
        sum := Add(sum, sourceUpdate);
      }
      obj := Add(obj, Mul(SumSquares(residualsOut), models[i].val.alpha));
      q := q + 1;
    }
    obj := Add(obj, Mul(SumSquares(Add(Sub(sum, Const(agg)), Const(u))), [rho / 2.0]));
    prob := Problem(obj, con);
  }

  /** Appending the bounds one at a time, as lines 202-205 do, appends `Bounds`. */
  lemma AppendBounds(con: seq<Constraint>, m: SourceModel, su: Var)
    ensures con + Bounds(m, su)
            == var withLb := if m.lb.Some? then con + [Ge(Variable(su), Const(m.lb.value))] else con;
               if m.ub.Some? then withLb + [Le(Variable(su), Const(m.ub.value))] else withLb
  {
    var lo := if m.lb.Some? then [Ge(Variable(su), Const(m.lb.value))] else [];
    var hi := if m.ub.Some? then [Le(Variable(su), Const(m.ub.value))] else [];
    assert con + (lo + hi) == (con + lo) + hi;
    assert con + lo == if m.lb.Some? then con + lo else con;
    assert (con + lo) + hi == if m.ub.Some? then (con + lo) + hi else con + lo;
  }
}

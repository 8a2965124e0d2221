# CSSS: contextually supervised source separation, in Dafny

CSSS splits one aggregate signal (for example the net load of a group of
homes) into several source signals. Each source is a linear model of its
own regressors, and the sources must add up to the aggregate. Each source
has a cost: an alpha-weighted fit of source against regressors times theta,
plus optional regularisers on theta and on the source. The problem can be
solved in two ways:

- as one joint convex problem (`constructSolve`);
- by Gauss-Seidel ADMM (`admmSolve`), which re-solves one source at a time
  while the others are held fixed, and updates a scaled dual after each
  sweep.

`SolarDisagg_IndvHome` specialises this to solar disaggregation:

- one solar source per home, at most that home's net load and at most zero;
- one positive aggregate-load source;
- true values kept for evaluation;
- a rescaling of every alpha by the largest alpha entry.

The module function `convolve_cyc` is a cyclic convolution filter.

The project is organised as follows.

- `wrappers.dfy`: the Option and Result types.
- `vectors.dfy`: numpy vectors and matrices.
- `text.dfy`: `str.lower` and `str(n)`.
- `ordered_dict.dfy`: Python's insertion-ordered `dict`.
- `expressions.dfy`: the part of cvxpy the optimiser builds, kept symbolic.
  Variables, expressions, constraints, problems and solutions are datatypes.
  `Eval` gives an expression its value under an assignment to the variables.
- `source_models.dfy`: the straight-line part of `addSource`. This covers
  shape normalisation, the weight checks and the cost expression.
- `admm.dfy`: `admmSolve` as functions over the registry of source models.
- `csss.dfy`: class `CSSS`, whose methods update the registry, the
  constraints and the solver's values in place. Each method is proved
  against the functions of the modules above.
- `solar_disagg.dfy`: class `SolarDisaggIndvHome`. It holds its `CSSS` part
  as `core`, because in the source it is a subclass.
- `cyclic_filter.dfy`: `convolve_cyc`, with Python's slice rules and numpy's
  'valid' convolution written out.

The convex solver `prob.solve()` is a parameter: `solve: Problem -> Solution`
maps a problem to the objective value and the values of the variables. The
2-norm and square root of the ADMM stopping test are parameters
(`Numerics`). User-supplied Python callables are opaque tags, and `Eval`
takes their meaning as a parameter.

The comments of `admmSolve` say that each source is updated while the
remaining sources are held constant (CSSS.py:162, 183 and 188). The coupling
sum at CSSS.py:192 instead adds `model['admmSource']`, the held value of the
source being solved, once for every other source. The functions of
`admm.dfy` take the reading as a parameter (`Admm.Coupling`), and the
general sweep and run lemmas hold for both. The class runs the code as
written (`AsWritten`); `Intended` is the corrected sum, with its own lemmas
(see Findings).

## Model

| member | source | states |
|---|---|---|
| Csss.CSSS.constructor | CSSS.py:7-12 | the new optimiser holds the aggregate signal with N its length, model counter 0, no models and no extra constraints |
| SourceModels.NormaliseRegressor | CSSS.py:41-56 | a 0-d regressor becomes N x 0; a 1-d one of length L becomes L x 1 and is accepted iff L == N or N == 1; a 2-d one is kept when its rows are N, transposed when only its columns are N, and refused otherwise; more than two dimensions is refused with its own error; on success the result has N rows |
| SourceModels.ThetaTerm | CSSS.py:80-94 | the theta regulariser mentions only theta, and any named kind other than l1/l2 (in either case) costs the integer 0; l1/l2 are only reached with a one-entry beta (BuildModel) |
| SourceModels.SourceTerm | CSSS.py:104-112 | the source regulariser mentions only the source, and any named kind other than diff1_ss costs 0 |
| SourceModels.BuildModel | CSSS.py:28-117 | a source builds iff its regressor fits, beta has 1 or `order` entries, beta has exactly 1 entry when theta is regularised by 'l1' or 'l2' (`theta * beta` is a matrix product), gamma has 1, and the cost function is 'sse' in any case; the checks fail in that order: a shape error only for a regressor that does not fit, BetaSize only for a fitting regressor with a wrong-sized beta, and each later error only when every earlier check passed; a built model keeps the given name, alpha and bounds, gets this call's source/theta variables with the regressor's shape, holds no ADMM values, and its cost is fit + theta term + source term over its own two variables only |
| SourceModels.FitTermValue | CSSS.py:67-70 | under any values of the model's variables, the fit term evaluates to alpha times the sum of squares of source minus regressor times theta |
| SourceModels.FitWithoutRegressors | CSSS.py:43-44 | with no regressors the fit term is alpha times the source's sum of squares |
| SourceModels.L1Value | CSSS.py:90-91 | an 'l1' theta regulariser, in either case, with its one-entry beta evaluates to the 1-norm of theta scaled by beta |
| SourceModels.L2Value | CSSS.py:88-89 | an 'l2' theta regulariser, in either case, with its one-entry beta evaluates to the 2-norm of theta scaled by beta |
| SourceModels.Diff1Value | CSSS.py:109-110 | a 'diff1_ss' source regulariser evaluates to gamma times the sum of squared first differences of the source |
| SourceModels.UnregularisedObjective | CSSS.py:67-117 | with the default regularisers and a scalar alpha, a built model's whole cost is alpha times the squared fit residual |
| Text.LowerLetterDigit | CSSS.py:87-90 | a keyword such as 'l1' matches through `.lower()` exactly for its lower- and upper-case spellings |
| Text.NatToString | CSSS.py:31-32 | `str(n)` is a non-empty string of decimal digits, one digit exactly when n < 10 |
| Text.NatToStringInjective | CSSS.py:31-32 | different model counters give different default names |
| OrderedDict.PutGet | CSSS.py:120 | after `d[k] = v`, k maps to v and every other key maps to what it did before |
| OrderedDict.PutKeys | CSSS.py:120 | assignment keeps keys unique; the keys are the old ones in their old order, with k appended only when it was new |
| OrderedDict.PutHasKey | CSSS.py:120 | after `d[k] = v` the keys present are the old ones and k |
| Csss.CSSS.AddSource | CSSS.py:15-121 | the counter always goes up by one; the model is stored under the given name (by default the new counter as a string) exactly when it builds, replacing any model of that name in its place; on an error the registry is unchanged and the error is BuildModel's; the registry invariant (unique names, each model stored under its own name with the shapes of an N-sample source) is kept |
| Csss.CSSS.AddConstraint | CSSS.py:123-126 | the constraint is appended to the extra constraints |
| Expressions.Broadcast | CSSS.py:70 | numpy broadcasting: equal lengths act entrywise; a length-1 side is applied to every entry of the other; any other pair of lengths is refused |
| Csss.TotalObjectiveSummands | CSSS.py:132-143 | the joint objective is the integer 0 followed by every model's cost, in registry order |
| Csss.TotalObjectiveVars | CSSS.py:142-143 | the joint objective mentions exactly the variables of the models' costs |
| Csss.SumOfSourcesValue | CSSS.py:133-144 | under values for all source variables, the sum of sources evaluates to the element-wise sum of those values |
| Csss.CSSS.ConstructSolve | CSSS.py:128-153 | with no source registered it fails and changes nothing; otherwise `self.constraints` gains, and keeps, aggregate == sum of all sources, the problem posed is minimise the sum of all costs subject to the extra constraints plus that one, and the variables take the solver's values |
| Csss.CSSS.AdmmSolve | CSSS.py:155-243 | the registry invariant is kept; the new registry and the returned triple or error are those of the ADMM run on the old registry with the coupling sum as written |
| Csss.CSSS.RunAdmm | CSSS.py:165-243 | the loop over sweeps, run on the registry field, leaves exactly the registry and result of AdmmRun with the coupling as written |
| Csss.CSSS.InitialiseHeld | CSSS.py:172-181 | sweep 0 sets every source's held source and theta to zeros; with rho == 0 only the first source is set before the division by zero |
| Csss.CSSS.Sweep | CSSS.py:173-217 | one sweep of the class's loop leaves the registry and carried values that SweepFrom gives from the first source, with the coupling as written |
| Csss.CSSS.SolveSource | CSSS.py:183-217 | one source's update: pose its sub-problem with the coupling as written, solve, store the update's values, or fail as SweepFrom does; the stale `residuals` binding is passed on |
| Csss.CSSS.Stopping | CSSS.py:224-239 | the dual update, residual norms and both tolerances are those of SweepStats |
| Csss.BuildSubproblem | CSSS.py:184-211 | the inner loop builds exactly SubProblem with the coupling as written (the solved source's own held value for every other source), and leaves `residuals` bound to the solved source's update variables |
| Admm.EvalSubSum | CSSS.py:186-206 | under a solution giving the update the value v, the symbolic coupling sum evaluates to the others' held values plus v |
| Admm.SubSumIntended | CSSS.py:186-206 | with the intended coupling, the coupling sum is the sum of all sources' held values once the solved source holds v |
| Admm.SubConOwnBounds | CSSS.py:185-205 | a sub-problem's constraints are the solved source's own lb/ub bounds and nothing else |
| Admm.SubProblemConstraints | CSSS.py:185-211 | source i's sub-problem has exactly its bounds as constraints, one per bound given, and none of `self.constraints` |
| Admm.SubObjSummands | CSSS.py:199-209 | the sub-objective sums one fit term per registered source: over the previous source's update variables for positions before i, over source i's own from i on |
| Admm.SubObjVars | CSSS.py:199-209 | the sub-objective mentions the solved source's update, and the previous source's update when i > 0 |
| Admm.StaleResidual | CSSS.py:199-210 | for i > 0 the sub-problem's objective mentions both the previous source's and this source's update variables |
| Admm.SweepStep | CSSS.py:211-217 | for either coupling, a completed sweep from source i is the sweep from i + 1 after source i takes the values its own sub-problem's solve gave |
| Admm.SweepKeeps | CSSS.py:173-217 | for either coupling, a sweep changes nothing in the registry but held source and theta values: names, order, costs and bounds stay |
| Admm.SweepKeepsPrefix | CSSS.py:173-217 | for either coupling, a sweep from source i leaves every source before i untouched |
| Admm.SweepOrder | CSSS.py:173-217 | Gauss-Seidel order, for either coupling: source p is solved once, against the registry in which the sources before it already hold this sweep's values and the sources from p on hold the earlier ones |
| Admm.SweepSumIsTotal | CSSS.py:186-206 | with the intended coupling, the sum of sources a sweep leaves is the sum of every source's new held value |
| Admm.DualUpdate | CSSS.py:225 | with the intended coupling, after a completed sweep u grows by the sum of all sources' new values minus the aggregate |
| Admm.CouplingAsWrittenDoubleCounts | CSSS.py:189-192 | as written, with sources holding 1 and 5 and update 2, the coupling sum is 7, whereas the sources after the update sum to 3 |
| Admm.SubSumAsWritten | CSSS.py:186-206 | as written, with distinct names, the coupling sum for source i after q inner iterations is i's previous value once per other source passed, plus the update once i is passed |
| Admm.SweepSumAsWritten | CSSS.py:173-217 | as written, the sum a completed sweep hands on is the last source's value from before the sweep M - 1 times plus its new value |
| Admm.DualUpdateAsWritten | CSSS.py:225 | as written, after a completed sweep u grows entrywise by (M - 1) times the last source's previous value plus its new value, minus the aggregate |
| Admm.SingleSourceCouplingsAgree | CSSS.py:186-206 | with a single source the two couplings pose the same sub-problem and leave the same sum |
| Admm.RunUnfold | CSSS.py:219-240 | for either coupling: a sweep that passes both residual tests ends the run with its entry recorded; one that fails them records its entry and runs on; a failed solve stops the run with its error |
| Admm.RunHistories | CSSS.py:165-240 | for either coupling, the histories a run returns extend those it starts with, by one entry per sweep; no sweep but the last stopped the run, and one that ends before MaxIter did |
| Admm.RunKeeps | CSSS.py:172-240 | for either coupling, the run changes nothing but held values |
| Admm.AdmmKeeps | CSSS.py:155-243 | for either coupling, `admmSolve` changes nothing in the registry but admmSource/admmTheta |
| Admm.AdmmHistories | CSSS.py:165-243 | for either coupling, the two returned histories have equal length, at most MaxIter - 1; y is zeros; a run shorter than MaxIter - 1 sweeps stopped on its last sweep and on no earlier one |
| Admm.AdmmErrors | CSSS.py:172-215 | for either coupling: with no models or MaxIter <= 0 a name is never bound and nothing changes; rho == 0 fails exactly after the first source is initialised; every other failure is a solve that gave the update no value |
| SolarDisagg.DefaultNamesDistinct | csss/SolarDisagg.py:17-18 | the default home names `str(i)` are pairwise different and none is "AggregateLoad" |
| SolarDisagg.NetLoadsUnique | csss/SolarDisagg.py:23-26 | the net-load dict has unique keys |
| SolarDisagg.NetLoadsKeys | csss/SolarDisagg.py:23-26 | the net-load dict holds exactly the first q names |
| SolarDisagg.NetLoadsColumn | csss/SolarDisagg.py:23-26 | with distinct names, home j's net load is column j of the net-load array |
| SolarDisagg.DefaultModelIsBuilt | csss/SolarDisagg.py:35 | the call `addSource(regressor, name, alpha = 1)` is BuildModel with every other argument at its default |
| SolarDisagg.DefaultModelBuilds | csss/SolarDisagg.py:35-42 | that call succeeds iff the regressor fits; on success the model has alpha 1 and this counter's source variable |
| SolarDisagg.AddHomeIs | csss/SolarDisagg.py:34-39 | one home, added in full, stores its model and appends its two constraints |
| SolarDisagg.HomeConstraintsAt | csss/SolarDisagg.py:37-39 | the constraints for home j are: its source is at most its net load, and at most 0 |
| SolarDisagg.AddHomeShape | csss/SolarDisagg.py:34-39 | adding the next home to a registry that holds the earlier ones extends it by that home: the counter, the models in name order, and the two constraints |
| SolarDisagg.HomesFromShape | csss/SolarDisagg.py:34-39 | with distinct names, the homes loop leaves one model per home in name order, each with alpha 1 and the next source variable, and two constraints per home |
| SolarDisagg.AddHomeSucceeds | csss/SolarDisagg.py:35-38 | a home is added iff the solar regressor fits and the home has a net-load column |
| SolarDisagg.HomesFromSucceeds | csss/SolarDisagg.py:34-39 | the homes loop succeeds iff the solar regressor fits and every name has a net load |
| SolarDisagg.AddLoadShape | csss/SolarDisagg.py:41-43 | the aggregate load goes after the homes, with its positivity constraint |
| SolarDisagg.ConstructUnfold | csss/SolarDisagg.py:12-43 | once the net loads are stored, `__init__` adds the homes and then the load |
| SolarDisagg.ConstructSucceeds | csss/SolarDisagg.py:5-43 | `__init__` succeeds iff there are at least as many names as columns, every name is among the first M (so has a net-load column), the solar regressor fits when there is a home, and the load regressor fits |
| SolarDisagg.DefaultNamesSucceed | csss/SolarDisagg.py:15-43 | with the default names it fails only when a regressor does not fit |
| SolarDisagg.ConstructNames | csss/SolarDisagg.py:16-38 | with distinct names, a successful `__init__` had exactly one name per column |
| SolarDisagg.RegistryShape | csss/SolarDisagg.py:33-43 | the homes and the load leave M + 1 models with alpha 1 (homes in name order, the load last) and 2M + 1 constraints, each home's on its own source and net-load column |
| SolarDisagg.ConstructShape | csss/SolarDisagg.py:5-43 | with distinct home names, none of them "AggregateLoad", a successful `__init__` leaves that registry |
| SolarDisagg.SolarDisaggIndvHome.constructor | csss/SolarDisagg.py:16-31 | a new object holds the given dimensions, names, net loads and regressors, and no true values |
| SolarDisagg.SolarDisaggIndvHome.Create | csss/SolarDisagg.py:5-43 | succeeds iff Construct does, with the same error; on success the aggregate is the row sums of the net loads, the names default to `str(i)`, the net loads are stored per name, and the registry, counter and constraints are those of Construct |
| SolarDisagg.SolarDisaggIndvHome.StoreNetLoads | csss/SolarDisagg.py:23-26 | the loop yields the net-load dict, or the IndexError when the names run out |
| SolarDisagg.SolarDisaggIndvHome.AddSources | csss/SolarDisagg.py:33-43 | the sources and constraints loop leaves the registry that Populate gives |
| SolarDisagg.SolarDisaggIndvHome.AddDefaultSource | csss/SolarDisagg.py:35-42 | one `addSource(regressor, name, alpha = 1)` on the core, checked against DefaultModel |
| SolarDisagg.SolarDisaggIndvHome.AddHomeSource | csss/SolarDisagg.py:34-39 | one home's source and two constraints, as AddHome |
| SolarDisagg.SolarDisaggIndvHome.AddLoadSource | csss/SolarDisagg.py:41-43 | the aggregate load source and its constraint, as AddLoad |
| SolarDisagg.SqueezeProduct | csss/SolarDisagg.py:49 | squeezing keeps the number of entries |
| SolarDisagg.SqueezeAccepts | csss/SolarDisagg.py:49-51 | an array accepted by the shape test holds exactly N entries, and with N = 1 no array is ever accepted |
| SolarDisagg.SolarDisaggIndvHome.AddTrueValue | csss/SolarDisagg.py:45-58 | succeeds iff the squeezed shape is (N,) and the name is a home or "AggregateLoad"; the shape error is raised first; on failure the true values are unchanged; on success the name maps to the squeezed data and every other name to what it did |
| SolarDisagg.LargestBounds | csss/SolarDisagg.py:150-153 | the running maximum fails iff some alpha is empty; otherwise it is at least its start and every alpha entry, and is its start or one of the entries |
| SolarDisagg.ScaleAllFails | csss/SolarDisagg.py:148-158 | scaling fails iff some alpha is empty or no alpha entry is positive |
| SolarDisagg.ScaleAllAlphas | csss/SolarDisagg.py:156-159 | on success every alpha is its old one divided by the non-zero global maximum and multiplied by scale_to |
| SolarDisagg.RescaledMaximum | csss/SolarDisagg.py:156-158 | rescaling by a positive largest entry makes scale_to the largest entry |
| SolarDisagg.ScaleAllMaximum | csss/SolarDisagg.py:148-163 | with scale_to > 0, after scaling every alpha entry is at most scale_to and some entry equals it |
| SolarDisagg.RescaledRatio | csss/SolarDisagg.py:158 | rescaling keeps the ratio between any two alpha entries |
| SolarDisagg.ScaleAllKeeps | csss/SolarDisagg.py:156-159 | scaling changes nothing but alphas: names, order and every other field stay |
| SolarDisagg.SolarDisaggIndvHome.ScaleAlphas | csss/SolarDisagg.py:148-163 | the two loops leave the registry ScaleAll gives, or its error with the registry unchanged |
| CyclicFilter.SliceFrom | csss/SolarDisagg.py:180 | `x[start:]` has min(-start, len) samples for a negative start and max(len - start, 0) otherwise |
| CyclicFilter.SliceTo | csss/SolarDisagg.py:180 | `x[:stop]` has max(len + stop, 0) samples for a negative stop and min(stop, len) otherwise |
| CyclicFilter.PadsSplit | csss/SolarDisagg.py:169-177 | a filter of length L >= 1 is padded by L - 1 samples in all: evenly for odd L, with the extra one on the side `left` chooses for even L |
| CyclicFilter.ConvolveValid | csss/SolarDisagg.py:181 | 'valid' convolution fails iff an argument is empty; otherwise, when v is no longer than a, it has len(a) - len(v) + 1 outputs, output k being the sum over i of v[i] * a[k + len(v) - 1 - i], and when v is longer it has len(v) - len(a) + 1 outputs |
| CyclicFilter.AsWrittenAgrees | csss/SolarDisagg.py:180 | whenever pad_l is not 0, the filter as written and the corrected one agree |
| CyclicFilter.AsWrittenDoubles | csss/SolarDisagg.py:169-181 | as written, whenever pad_l is 0 (a filter of length 1, or of length 2 padded on the right), a signal of n samples comes back with 2n |
| CyclicFilter.AsWrittenExample | csss/SolarDisagg.py:169-181 | as written, [1, 2] filtered by [1] returns [1, 2, 1, 2] |
| CyclicFilter.PaddedWraps | csss/SolarDisagg.py:180 | each sample of the padded signal is the signal sample at its position minus pad_l, taken mod n |
| CyclicFilter.TapIsCyclic | csss/SolarDisagg.py:180-181 | each filter tap on the padded signal is a cyclic tap of the original signal |
| CyclicFilter.ConvolveCycIsCyclic | csss/SolarDisagg.py:168-182 | when neither padding exceeds the signal, the result is the cyclic convolution: n samples, output k the sum over j of filt[j] * x[(k + pad_r - j) mod n] |
| CyclicFilter.ConvolveCycFails | csss/SolarDisagg.py:168-182 | the corrected filter and the filter as written each fail (numpy's ValueError) iff the filter or the signal is empty |

## Left out

- The convex solver (`prob.solve()`, cvxpy's canonicalisation and numerics)
  is the parameter `solve`. What it returns is not constrained, beyond
  `.value` being present only with the variable's shape.
- The 2-norm and `np.sqrt` of the ADMM stopping test are parameters. So is
  the meaning of user-supplied callables (`regularizeTheta`,
  `regularizeSource`).
- Floating point is modelled as exact reals: no rounding, no inf or nan.
- `print` output (`verbose`, line 93) is left out.
- `tuneAlphas`, `performanceMetrics`, csss/utilities.py and the scripts are
  not part of this model.
- `updateSourceObj` (csss/SolarDisagg.py:159) is not defined in any of the
  files. It is treated as a call that changes nothing. So after
  `scaleAlphas`, each model's `obj` still holds the old alpha.
- SolarDisagg.SolarDisaggIndvHome.ScaleAlphas: with no positive alpha entry
  it reports ZeroMaximum and changes nothing. Python raises
  ZeroDivisionError for a scalar alpha, but numpy would silently give inf
  or nan for an array alpha; that case is not modelled.
- SolarDisagg.SolarDisaggIndvHome.ScaleAlphas: `.squeeze()` turns a
  one-entry alpha into a 0-d array. The model keeps it as a one-entry
  vector, which numpy broadcasting treats the same way.
- SolarDisagg.SolarDisaggIndvHome.Create: when `__init__` raises part-way,
  Python discards the half-built object. The model returns only the error,
  without that object's state.
- `np.int` (csss/SolarDisagg.py:170-176) is read as integer conversion.
  Newer numpy releases no longer provide it.
- CyclicFilter.ConvolveValid: when the filter is longer than the padded
  signal, numpy swaps the arguments. The contract states only the output
  length in that case; the body computes the swapped sums.
- CyclicFilter.ConvolveCycIsCyclic: covers only paddings no longer than
  the signal. Longer paddings are computed with Python's slice clamping, but
  not characterised.
- `admmSolve`'s dual objective history holds whatever the solver returns as
  `last_obj`. Nothing is proved about those values beyond their count.
- Division is true division: `1/rho` (CSSS.py:181), `rho/2` (CSSS.py:210)
  and `alpha/alpha_max` (csss/SolarDisagg.py:158) are real quotients, so
  rho, alpha and alpha_max are taken to be floats. With integer arguments
  Python 2 would floor these quotients.
- Csss.CSSS.ConstructSolve: with no source registered, line 147 compares
  two numpy arrays and appends the boolean result to `self.constraints`
  before the solve fails. The model reports NoSources and leaves the
  constraints unchanged, because that array is not a constraint.
- SourceModels.ThetaTerm: for a callable regulariser the shape of its
  output is unknown, so `regularizeTheta(theta) * beta` is modelled with
  numpy broadcasting. cvxpy's matrix product would instead refuse a
  k-entry output times a k-entry beta for k >= 2.
- Concurrency, I/O and data loading are not part of the core.

## Findings

| source | as written | input that shows it | evidently intended | confidence | as-written member | corrected member |
|---|---|---|---|---|---|---|
| CSSS.py:192 | `sum_sources + model['admmSource']` adds the held value of the source being solved once for every other source | sources a holding [1] and b holding [5]; solving b with update [2] gives a coupling sum of [7] | `model_sub['admmSource']`, each other source's own held value, so the sum is [1] + [2] = [3] | not executed | Admm.CouplingAsWrittenDoubleCounts | Admm.SweepSumIsTotal |
| csss/SolarDisagg.py:180 | `x[-pad_l:]` with pad_l == 0 is `x[0:]`, the whole signal, not an empty slice | x = [1, 2], filt = [1] (pad_l = pad_r = 0) returns [1, 2, 1, 2], twice the signal's length | no left padding when pad_l is 0, giving the cyclic convolution [1, 2] | not executed | CyclicFilter.AsWrittenExample | CyclicFilter.ConvolveCycIsCyclic |

/**
 * Class `SolarDisagg_IndvHome` of csss/SolarDisagg.py: one solar source per
 * home, constrained by the home's net load, plus one aggregate load source;
 * true values for evaluation; and the normalisation of every source's alpha
 * by the global maximum. The class is a `CSSS` in the source (a subclass);
 * here it holds its `CSSS` part as `core`.
 */
module SolarDisagg {
  import opened Wrappers
  import opened Vectors
  import opened Text
  import opened OrderedDict
  import opened Expressions
  import opened SourceModels
  import opened Admm
  import opened Csss

  /** The name of the source that models the load of all homes together. */
  const AggregateLoad: string := "AggregateLoad"

  /** The exceptions `__init__` raises. */
  datatype InitError =
    | NameIndex                      // line 25: fewer names than net-load columns (IndexError)
    | MissingNetLoad(name: string)   // line 38: a name with no net-load column (KeyError)
    | Source(error: SourceError)     // an `addSource` error (lines 35, 42)

  /** No name repeats an earlier one. */
  predicate Distinct(s: seq<string>)
  {
    forall i :: 0 <= i < |s| ==> s[i] !in s[..i]
  }

  // ---------------------------------------------------------------------
  // Names and net loads (lines 12-26)
  // ---------------------------------------------------------------------

  /** Line 18: `[str(i) for i in np.arange(M)]`. */
  function DefaultNames(m: nat): (names: seq<string>)
    ensures |names| == m && forall i :: 0 <= i < m ==> names[i] == NatToString(i)
  {
    seq(m, i requires 0 <= i < m => NatToString(i))
  }

  /** Lines 17-20. */
  function NamesOf(names: Option<seq<string>>, m: nat): seq<string>
  {
    if names.Some? then names.value else DefaultNames(m)
  }

  /** The default names are pairwise different and none of them is the aggregate load's. */
  lemma DefaultNamesDistinct(m: nat)
    ensures Distinct(DefaultNames(m)) && AggregateLoad !in DefaultNames(m)
  {
    var d := DefaultNames(m);
    forall i | 0 <= i < m ensures d[i] !in d[..i] {
      if d[i] in d[..i] {
        var j :| 0 <= j < i && d[..i][j] == d[i];
        NatToStringInjective(i, j);
      }
    }
    forall i | 0 <= i < m ensures d[i] != AggregateLoad {
      assert AggregateLoad[0] == 'A';
    }
  }

  /** `self.netloads` after the first q iterations of lines 24-26. */
  function NetLoads(netloads: Matrix, names: seq<string>, q: nat): Dict<seq<real>>
    requires q <= netloads.cols && q <= |names|
  {
    if q == 0 then [] else Put(NetLoads(netloads, names, q - 1), names[q - 1], ColumnOf(netloads, q - 1))
  }

  /** Lines 23-26 in full: an IndexError once the names run out before the columns. */
  function NetLoadDict(netloads: Matrix, names: seq<string>): Result<Dict<seq<real>>, InitError>
  {
    if |names| < netloads.cols then Failure(NameIndex) else Success(NetLoads(netloads, names, netloads.cols))
  }

  /** The net-load dict holds each of the first q names once. */
  lemma {:induction false} NetLoadsUnique(netloads: Matrix, names: seq<string>, q: nat)
    requires q <= netloads.cols && q <= |names|
    ensures UniqueKeys(NetLoads(netloads, names, q))
  {
    if q > 0 {
      NetLoadsUnique(netloads, names, q - 1);
      PutKeys(NetLoads(netloads, names, q - 1), names[q - 1], ColumnOf(netloads, q - 1));
    }
  }

  /** The net-load dict holds exactly the first q names. */
  lemma {:induction false} NetLoadsKeys(netloads: Matrix, names: seq<string>, q: nat, x: string)
    requires q <= netloads.cols && q <= |names|
    ensures HasKey(NetLoads(netloads, names, q), x) <==> x in names[..q]
  {
    if q > 0 {
      NetLoadsKeys(netloads, names, q - 1, x);
      PutHasKey(NetLoads(netloads, names, q - 1), names[q - 1], ColumnOf(netloads, q - 1), x);
      assert names[..q] == names[..q - 1] + [names[q - 1]];
    }
  }

  /** With distinct names, `self.netloads[names[j]]` is column j of the net-load array. */
  lemma {:induction false} NetLoadsColumn(netloads: Matrix, names: seq<string>, q: nat, j: nat)
    requires q <= netloads.cols && q <= |names| && j < q && Distinct(names)
    ensures Get(NetLoads(netloads, names, q), names[j]) == Some(ColumnOf(netloads, j))
  {
    var d := NetLoads(netloads, names, q - 1);
    NetLoadsUnique(netloads, names, q - 1);
    PutGet(d, names[q - 1], ColumnOf(netloads, q - 1), names[j]);
    if j < q - 1 {
      assert names[..q - 1][j] == names[j];
      NetLoadsColumn(netloads, names, q - 1, j);
    }
  }

  // ---------------------------------------------------------------------
  // The sources and constraints `__init__` adds (lines 34-43)
  // ---------------------------------------------------------------------

  /** What `__init__` leaves in the `CSSS` part: the model counter, the registry, the extra constraints. */
  datatype Registry = Registry(counter: nat, models: Models, constraints: seq<Constraint>)

  /**
   * The model `addSource` stores for `addSource(regressor = r, name = name,
   * alpha = 1)` as its `counter`-th call, once the regressor has become the
   * matrix m: cost 'sse', no regularisers, no bounds.
   */
  function PlainModel(counter: nat, name: string, n: nat, m: Matrix): SourceModel
  {
    var source, theta := SourceVar(counter, n), ThetaVar(counter, m.cols);
    SourceModel(name, [1.0], None, None, m, m.cols, source, theta, "sse",
                Add(Add(FitTerm(source, m, theta, [1.0]), Zero), Zero), None, None)
  }

  /** That call of `addSource`, or the error it raises. */
  function DefaultModel(counter: nat, name: string, n: nat, r: Regressor): Result<SourceModel, SourceError>
  {
    match NormaliseRegressor(r, n)
    case Failure(e) => Failure(e)
    case Success(m) => Success(PlainModel(counter, name, n, m))
  }

  /** It is what `addSource` builds from those arguments. */
  lemma DefaultModelIsBuilt(counter: nat, name: string, n: nat, r: Regressor)
    ensures DefaultModel(counter, name, n, r)
         == BuildModel(counter, name, n, r, "sse", [1.0], Named("None"), [1.0], Named("None"), [1.0], None, None)
  {
    assert Lower("sse") == "sse";
    assert Lower("None") == "none";
  }

  /** Such a model builds exactly when its regressor fits, and has alpha 1 and the counter's source variable. */
  lemma DefaultModelBuilds(counter: nat, name: string, n: nat, r: Regressor)
    ensures DefaultModel(counter, name, n, r).Success? <==> NormaliseRegressor(r, n).Success?
    ensures DefaultModel(counter, name, n, r).Success? ==>
      var m := DefaultModel(counter, name, n, r).value;
      m.alpha == [1.0] && m.source == SourceVar(counter, n) && m.name == name && ShapeInvariant(m, n)
  {
  }

  /** Lines 35-39 for one home. */
  function AddHome(s: Registry, n: nat, solar: Regressor, nl: Dict<seq<real>>, name: string): Result<Registry, InitError>
  {
    var b := DefaultModel(s.counter + 1, name, n, solar);
    if b.Failure? then Failure(Source(b.error))
    else
      match Get(nl, name)
      case None => Failure(MissingNetLoad(name))
      case Some(col) =>
        var src := Variable(b.value.source);
        Success(Registry(s.counter + 1, Put(s.models, name, b.value), s.constraints + [Le(src, Const(col)), Le(src, Zero)]))
  }

  /** One home added in full, spelt out. */
  lemma AddHomeIs(s: Registry, n: nat, solar: Regressor, nl: Dict<seq<real>>, name: string, b: SourceModel, col: seq<real>)
    requires DefaultModel(s.counter + 1, name, n, solar) == Success(b) && Get(nl, name) == Some(col)
    ensures AddHome(s, n, solar, nl, name) == Success(Registry(s.counter + 1, Put(s.models, name, b),
              s.constraints + [Le(Variable(b.source), Const(col))] + [Le(Variable(b.source), Zero)]))
  {
    var c := s.constraints;
    assert c + [Le(Variable(b.source), Const(col))] + [Le(Variable(b.source), Zero)]
        == c + [Le(Variable(b.source), Const(col)), Le(Variable(b.source), Zero)];
  }

  /** Lines 34-39 from the i-th home name on. */
  function HomesFrom(s: Registry, n: nat, solar: Regressor, nl: Dict<seq<real>>, names: seq<string>, i: nat)
    : Result<Registry, InitError>
    requires i <= |names|
    decreases |names| - i
  {
    if i == |names| then Success(s)
    else
      match AddHome(s, n, solar, nl, names[i])
      case Failure(e) => Failure(e)
      case Success(s') => HomesFrom(s', n, solar, nl, names, i + 1)
  }

  /** Lines 42-43. */
  function AddLoad(s: Registry, n: nat, load: Regressor): Result<Registry, InitError>
  {
    var b := DefaultModel(s.counter + 1, AggregateLoad, n, load);
    if b.Failure? then Failure(Source(b.error))
    else Success(Registry(s.counter + 1, Put(s.models, AggregateLoad, b.value),
                          s.constraints + [Gt(Variable(b.value.source), Zero)]))
  }

  /** Lines 34-43 on an empty `CSSS`. */
  function Populate(n: nat, solar: Regressor, load: Regressor, nl: Dict<seq<real>>, names: seq<string>)
    : Result<Registry, InitError>
  {
    var homes :- HomesFrom(Registry(0, [], []), n, solar, nl, names, 0);
    AddLoad(homes, n, load)
  }

  /** Lines 12-43: what `__init__` builds on an empty `CSSS`, or the exception it raises. */
  function Construct(netloads: Matrix, solar: Regressor, load: Regressor, names: Option<seq<string>>)
    : Result<Registry, InitError>
  {
    var nm := NamesOf(names, netloads.cols);
    var nl :- NetLoadDict(netloads, nm);
    Populate(netloads.rows, solar, load, nl, nm)
  }

  /** The two constraints of lines 38-39 for each of the first q homes, the j-th home's model being the (j+1)-th. */
  function HomeConstraints(n: nat, nl: Dict<seq<real>>, names: seq<string>, q: nat): (cs: seq<Constraint>)
    requires q <= |names|
    ensures |cs| == 2 * q
  {
    if q == 0 then []
    else
      var src := Variable(SourceVar(q, n));
      HomeConstraints(n, nl, names, q - 1) + [Le(src, Const(Get(nl, names[q - 1]).GetOr([]))), Le(src, Zero)]
  }

  lemma {:induction false} HomeConstraintsAt(n: nat, nl: Dict<seq<real>>, names: seq<string>, q: nat, j: nat)
    requires j < q <= |names|
    ensures HomeConstraints(n, nl, names, q)[2 * j] == Le(Variable(SourceVar(j + 1, n)), Const(Get(nl, names[j]).GetOr([])))
    ensures HomeConstraints(n, nl, names, q)[2 * j + 1] == Le(Variable(SourceVar(j + 1, n)), Zero)
  {
    if j < q - 1 {
      HomeConstraintsAt(n, nl, names, q - 1, j);
    }
  }

  /** The registry holds one model per home so far, in home order, each with alpha 1 and the next source variable. */
  predicate HomesBuilt(models: Models, names: seq<string>, i: nat, n: nat)
  {
    && |models| == i
    && forall p :: 0 <= p < i ==>
         p < |names| && models[p].key == names[p] && models[p].val.alpha == [1.0] && models[p].val.source == SourceVar(p + 1, n)
  }

  /** Adding a key that is absent appends it. */
  lemma PutNew<V>(d: Dict<V>, k: string, v: V)
    requires !HasKey(d, k)
    ensures Put(d, k, v) == d + [Entry(k, v)]
  {
  }

  /** One home added to a registry built from the homes before it. */
  lemma AddHomeShape(s: Registry, n: nat, solar: Regressor, nl: Dict<seq<real>>, names: seq<string>, i: nat)
    requires i < |names| && Distinct(names)
    requires s.counter == i && HomesBuilt(s.models, names, i, n)
    requires s.constraints == HomeConstraints(n, nl, names, i)
    requires AddHome(s, n, solar, nl, names[i]).Success?
    ensures var s' := AddHome(s, n, solar, nl, names[i]).value;
      s'.counter == i + 1 && HomesBuilt(s'.models, names, i + 1, n)
      && s'.constraints == HomeConstraints(n, nl, names, i + 1)
  {
    var b := DefaultModel(s.counter + 1, names[i], n, solar);
    DefaultModelBuilds(s.counter + 1, names[i], n, solar);
    assert !HasKey(s.models, names[i]) by {
      forall p | 0 <= p < |s.models| ensures s.models[p].key != names[i] {
        assert s.models[p].key == names[p] == names[..i][p];
      }
    }
    PutNew(s.models, names[i], b.value);
  }

  /**
   * With distinct home names the homes from i on are appended one after
   * another, each with its two constraints.
   */
  lemma {:induction false} HomesFromShape(s: Registry, n: nat, solar: Regressor, nl: Dict<seq<real>>,
                                          names: seq<string>, i: nat)
    requires i <= |names| && Distinct(names)
    requires s.counter == i && HomesBuilt(s.models, names, i, n)
    requires s.constraints == HomeConstraints(n, nl, names, i)
    requires HomesFrom(s, n, solar, nl, names, i).Success?
    ensures var r := HomesFrom(s, n, solar, nl, names, i).value;
      r.counter == |names| && HomesBuilt(r.models, names, |names|, n) && r.constraints == HomeConstraints(n, nl, names, |names|)
    decreases |names| - i
  {
    if i < |names| {
      AddHomeShape(s, n, solar, nl, names, i);
      HomesFromShape(AddHome(s, n, solar, nl, names[i]).value, n, solar, nl, names, i + 1);
    }
  }

  /** One home is added exactly when the solar regressor fits and the home has a net load. */
  lemma AddHomeSucceeds(s: Registry, n: nat, solar: Regressor, nl: Dict<seq<real>>, name: string)
    ensures AddHome(s, n, solar, nl, name).Success? <==> NormaliseRegressor(solar, n).Success? && HasKey(nl, name)
  {
    DefaultModelBuilds(s.counter + 1, name, n, solar);
  }

  /** The homes from i on are all added exactly when the solar regressor fits and every name has a net load. */
  lemma {:induction false} HomesFromSucceeds(s: Registry, n: nat, solar: Regressor, nl: Dict<seq<real>>,
                                             names: seq<string>, i: nat)
    requires i <= |names|
    ensures HomesFrom(s, n, solar, nl, names, i).Success? <==>
      (i < |names| ==> NormaliseRegressor(solar, n).Success?) && forall j :: i <= j < |names| ==> HasKey(nl, names[j])
    decreases |names| - i
  {
    if i < |names| {
      AddHomeSucceeds(s, n, solar, nl, names[i]);
      var a := AddHome(s, n, solar, nl, names[i]);
      if a.Success? {
        HomesFromSucceeds(a.value, n, solar, nl, names, i + 1);
      }
    }
  }


  /** Once the net loads are stored, `__init__` adds the homes and then the load. */
  lemma ConstructUnfold(netloads: Matrix, solar: Regressor, load: Regressor, names: Option<seq<string>>)
    requires |NamesOf(names, netloads.cols)| >= netloads.cols
    ensures var nm := NamesOf(names, netloads.cols);
      var homes := HomesFrom(Registry(0, [], []), netloads.rows, solar, NetLoads(netloads, nm, netloads.cols), nm, 0);
      Construct(netloads, solar, load, names) == if homes.Failure? then Failure(homes.error) else AddLoad(homes.value, netloads.rows, load)
  {
  }

  /**
   * `__init__` succeeds exactly when there are at least as many names as
   * net-load columns, every name has a column, the solar regressors fit
   * (when there is a home at all) and the load regressors fit.
   */
  lemma ConstructSucceeds(netloads: Matrix, solar: Regressor, load: Regressor, names: Option<seq<string>>)
    ensures var nm := NamesOf(names, netloads.cols);
      Construct(netloads, solar, load, names).Success? <==>
        && |nm| >= netloads.cols
        && (forall j :: 0 <= j < |nm| ==> nm[j] in nm[..netloads.cols])
        && (|nm| > 0 ==> NormaliseRegressor(solar, netloads.rows).Success?)
        && NormaliseRegressor(load, netloads.rows).Success?
  {
    var nm := NamesOf(names, netloads.cols);
    var n := netloads.rows;
    if |nm| >= netloads.cols {
      ConstructUnfold(netloads, solar, load, names);
      var nl := NetLoads(netloads, nm, netloads.cols);
      forall j | 0 <= j < |nm| ensures HasKey(nl, nm[j]) <==> nm[j] in nm[..netloads.cols] {
        NetLoadsKeys(netloads, nm, netloads.cols, nm[j]);
      }
      HomesFromSucceeds(Registry(0, [], []), n, solar, nl, nm, 0);
      var homes := HomesFrom(Registry(0, [], []), n, solar, nl, nm, 0);
      if homes.Success? {
        DefaultModelBuilds(homes.value.counter + 1, AggregateLoad, n, load);
      }
    }
  }

  /** With the default names, `__init__` fails only when a regressor does not fit. */
  lemma DefaultNamesSucceed(netloads: Matrix, solar: Regressor, load: Regressor)
    ensures Construct(netloads, solar, load, None).Success? <==>
      && (netloads.cols > 0 ==> NormaliseRegressor(solar, netloads.rows).Success?)
      && NormaliseRegressor(load, netloads.rows).Success?
  {
    ConstructSucceeds(netloads, solar, load, None);
    var nm := DefaultNames(netloads.cols);
    assert nm[..netloads.cols] == nm;
  }

  /** With distinct names, `__init__` succeeds only when there is exactly one name per column. */
  lemma ConstructNames(netloads: Matrix, solar: Regressor, load: Regressor, names: Option<seq<string>>)
    requires Distinct(NamesOf(names, netloads.cols))
    requires Construct(netloads, solar, load, names).Success?
    ensures |NamesOf(names, netloads.cols)| == netloads.cols
  {
    ConstructSucceeds(netloads, solar, load, names);
    var nm, m := NamesOf(names, netloads.cols), netloads.cols;
    if |nm| > m {
      assert false;
    }
  }

  /** The aggregate load goes after the homes, with its one constraint. */
  lemma AddLoadShape(homes: Registry, n: nat, load: Regressor, names: seq<string>)
    requires HomesBuilt(homes.models, names, |names|, n) && AggregateLoad !in names
    requires AddLoad(homes, n, load).Success?
    ensures var r := AddLoad(homes, n, load).value;
      && r.counter == homes.counter + 1
      && r.models == homes.models + [Entry(AggregateLoad, DefaultModel(homes.counter + 1, AggregateLoad, n, load).value)]
      && r.constraints == homes.constraints + [Gt(Variable(SourceVar(homes.counter + 1, n)), Zero)]
  {
    var b := DefaultModel(homes.counter + 1, AggregateLoad, n, load);
    DefaultModelBuilds(homes.counter + 1, AggregateLoad, n, load);
    assert !HasKey(homes.models, AggregateLoad) by {
      forall p | 0 <= p < |homes.models| ensures homes.models[p].key != AggregateLoad {
        assert homes.models[p].key == names[p];
      }
    }
    PutNew(homes.models, AggregateLoad, b.value);
  }

  /**
   * What a successful `__init__` leaves for the M = |names| homes: M + 1
   * models with alpha 1, the homes in name order and the aggregate load
   * last, model p owning the (p+1)-th source variable; and 2M + 1
   * constraints: home j's source is at most its net load (column j) and at
   * most zero, and the aggregate load's source is positive.
   */
  predicate InitShape(r: Registry, netloads: Matrix, names: seq<string>)
  {
    var m, n := |names|, netloads.rows;
    && m == netloads.cols
    && r.counter == m + 1
    && |r.models| == m + 1
    && (forall p :: 0 <= p < m ==> r.models[p].key == names[p])
    && r.models[m].key == AggregateLoad
    && (forall p :: 0 <= p <= m ==> r.models[p].val.alpha == [1.0] && r.models[p].val.source == SourceVar(p + 1, n))
    && |r.constraints| == 2 * m + 1
    && (forall j :: 0 <= j < m ==>
          && r.constraints[2 * j] == Le(Variable(SourceVar(j + 1, n)), Const(ColumnOf(netloads, j)))
          && r.constraints[2 * j + 1] == Le(Variable(SourceVar(j + 1, n)), Zero))
    && r.constraints[2 * m] == Gt(Variable(SourceVar(m + 1, n)), Zero)
  }

  /** The registry the homes and the load leave has that shape. */
  lemma RegistryShape(homes: Registry, load: SourceModel, netloads: Matrix, names: seq<string>)
    requires |names| == netloads.cols && Distinct(names)
    requires homes.counter == |names| && HomesBuilt(homes.models, names, |names|, netloads.rows)
    requires homes.constraints == HomeConstraints(netloads.rows, NetLoads(netloads, names, |names|), names, |names|)
    requires load.alpha == [1.0] && load.source == SourceVar(|names| + 1, netloads.rows)
    ensures InitShape(Registry(homes.counter + 1, homes.models + [Entry(AggregateLoad, load)],
                               homes.constraints + [Gt(Variable(load.source), Zero)]), netloads, names)
  {
    var m, n := |names|, netloads.rows;
    var nl := NetLoads(netloads, names, m);
    var cs := homes.constraints + [Gt(Variable(load.source), Zero)];
    forall j | 0 <= j < m
      ensures cs[2 * j] == Le(Variable(SourceVar(j + 1, n)), Const(ColumnOf(netloads, j)))
      ensures cs[2 * j + 1] == Le(Variable(SourceVar(j + 1, n)), Zero)
    {
      HomeConstraintsAt(n, nl, names, m, j);
      NetLoadsColumn(netloads, names, m, j);
    }
  }

  /** With distinct home names, none of them "AggregateLoad", a successful `__init__` has that shape. */
  lemma ConstructShape(netloads: Matrix, solar: Regressor, load: Regressor, names: Option<seq<string>>)
    requires var nm := NamesOf(names, netloads.cols); Distinct(nm) && AggregateLoad !in nm
    requires Construct(netloads, solar, load, names).Success?
    ensures InitShape(Construct(netloads, solar, load, names).value, netloads, NamesOf(names, netloads.cols))
  {
    var nm, m, n := NamesOf(names, netloads.cols), netloads.cols, netloads.rows;
    ConstructNames(netloads, solar, load, names);
    ConstructUnfold(netloads, solar, load, names);
    var nl := NetLoads(netloads, nm, m);
    var start := Registry(0, [], []);
    HomesFromShape(start, n, solar, nl, nm, 0);
    var homes := HomesFrom(start, n, solar, nl, nm, 0).value;
    AddLoadShape(homes, n, load, nm);
    DefaultModelBuilds(m + 1, AggregateLoad, n, load);
    RegistryShape(homes, DefaultModel(m + 1, AggregateLoad, n, load).value, netloads, nm);
  }

  // ---------------------------------------------------------------------
  // True values (lines 45-58)
  // ---------------------------------------------------------------------

  /** A numpy array: its shape, and its entries in row-major order. */
  datatype NdArray = NdArray(shape: seq<nat>, data: seq<real>)

  /** The number of entries an array of this shape holds. */
  function Product(shape: seq<nat>): nat
  {
    if shape == [] then 1 else shape[0] * Product(shape[1..])
  }

  /** `.squeeze()` on the shape: every axis of length 1 goes; the entries keep their order. */
  function Squeeze(shape: seq<nat>): (r: seq<nat>)
    ensures |r| <= |shape| && forall i :: 0 <= i < |r| ==> r[i] != 1
  {
    if shape == [] then [] else (if shape[0] == 1 then [] else [shape[0]]) + Squeeze(shape[1..])
  }

  /** Squeezing does not change the number of entries. */
  lemma {:induction false} SqueezeProduct(shape: seq<nat>)
    ensures Product(Squeeze(shape)) == Product(shape)
  {
    if shape != [] {
      SqueezeProduct(shape[1..]);
      var t := Squeeze(shape[1..]);
      if shape[0] != 1 {
        assert Squeeze(shape) == [shape[0]] + t;
        assert ([shape[0]] + t)[1..] == t;
      } else {
        assert Squeeze(shape) == [] + t == t;
      }
    }
  }

  /**
   * Line 50 accepts an array exactly when it squeezes to shape (N,): it then
   * holds N entries, and with N = 1 no array is ever accepted.
   */
  lemma SqueezeAccepts(a: NdArray, n: nat)
    requires Squeeze(a.shape) == [n]
    ensures n != 1
    ensures |a.data| == Product(a.shape) ==> |a.data| == n
  {
    SqueezeProduct(a.shape);
    assert Squeeze(a.shape)[0] == n;
    assert Product([n]) == n * Product([]);
  }

  /** The exceptions `addTrueValue` raises. */
  datatype TrueValueError =
    | BadShape      // line 51
    | UnknownName   // line 54

  // ---------------------------------------------------------------------
  // Alpha scaling (lines 148-163)
  // ---------------------------------------------------------------------

  /** The exceptions `scaleAlphas` raises. */
  datatype ScaleError =
    | EmptyAlpha(name: string)   // line 152: `np.max` of an empty alpha (ValueError)
    | ZeroMaximum                // line 158: no alpha entry above 0, so alpha_max stays 0

  /** Every model's alpha, in registry order. */
  function Alphas(models: Models): (r: seq<seq<real>>)
    ensures |r| == |models| && forall p :: 0 <= p < |models| ==> r[p] == models[p].val.alpha
  {
    seq(|models|, p requires 0 <= p < |models| => models[p].val.alpha)
  }

  /**
   * Lines 150-153 from alpha p on, `alpha_max` being acc so far; an empty
   * alpha stops it with its position.
   */
  function LargestFrom(alphas: seq<seq<real>>, p: nat, acc: real): (r: Result<real, nat>)
    requires p <= |alphas|
    ensures r.Failure? ==> p <= r.error < |alphas| && |alphas[r.error]| == 0
    decreases |alphas| - p
  {
    if p == |alphas| then Success(acc)
    else if |alphas[p]| == 0 then Failure(p)
    else LargestFrom(alphas, p + 1, if MaxOf(alphas[p]) > acc then MaxOf(alphas[p]) else acc)
  }

  /**
   * The running maximum fails exactly when some alpha from p on is empty;
   * otherwise it is at least acc and every entry from p on, and it is acc
   * or one of those entries.
   */
  lemma {:induction false} LargestBounds(alphas: seq<seq<real>>, p: nat, acc: real)
    requires p <= |alphas|
    ensures LargestFrom(alphas, p, acc).Failure? <==> exists q :: p <= q < |alphas| && |alphas[q]| == 0
    ensures LargestFrom(alphas, p, acc).Success? ==>
      var v := LargestFrom(alphas, p, acc).value;
      && acc <= v
      && (forall q, j :: p <= q < |alphas| && 0 <= j < |alphas[q]| ==> alphas[q][j] <= v)
      && (v == acc || exists q, j :: p <= q < |alphas| && 0 <= j < |alphas[q]| && alphas[q][j] == v)
    decreases |alphas| - p
  {
    if p < |alphas| && |alphas[p]| > 0 {
      var a := alphas[p];
      var acc' := if MaxOf(a) > acc then MaxOf(a) else acc;
      LargestBounds(alphas, p + 1, acc');
      var r := LargestFrom(alphas, p + 1, acc');
      if r.Success? {
        var v := r.value;
        if v == acc' && acc' != acc {
          var j :| 0 <= j < |a| && a[j] == MaxOf(a);
          assert alphas[p][j] == v;
        }
        if v != acc' {
          var q, j :| p + 1 <= q < |alphas| && 0 <= j < |alphas[q]| && alphas[q][j] == v;
          assert p <= q;
        }
      }
    }
  }

  /** Line 158: `alpha / alpha_max * scale_to`, entry by entry. */
  function Rescaled(a: seq<real>, amax: real, scaleTo: real): (b: seq<real>)
    requires amax != 0.0
    ensures |b| == |a| && forall j :: 0 <= j < |a| ==> b[j] == a[j] / amax * scaleTo
  {
    seq(|a|, j requires 0 <= j < |a| => a[j] / amax * scaleTo)
  }

  /** Lines 157-159: every model's alpha rescaled, the models otherwise unchanged. */
  function ScaledModels(models: Models, amax: real, scaleTo: real): (r: Models)
    requires amax != 0.0
    ensures |r| == |models|
    ensures forall p :: 0 <= p < |models| ==>
      r[p] == Entry(models[p].key, models[p].val.(alpha := Rescaled(models[p].val.alpha, amax, scaleTo)))
  {
    seq(|models|, p requires 0 <= p < |models| =>
      Entry(models[p].key, models[p].val.(alpha := Rescaled(models[p].val.alpha, amax, scaleTo))))
  }

  /** Lines 148-163: the rescaled registry, or the exception. */
  function ScaleAll(models: Models, scaleTo: real): Result<Models, ScaleError>
  {
    match LargestFrom(Alphas(models), 0, 0.0)
    case Failure(p) => Failure(EmptyAlpha(models[p].key))
    case Success(amax) => if amax == 0.0 then Failure(ZeroMaximum) else Success(ScaledModels(models, amax, scaleTo))
  }

  /** The alphas after scaling, as a function of the alphas before. */
  lemma ScaleAllAlphas(models: Models, scaleTo: real)
    requires ScaleAll(models, scaleTo).Success?
    ensures var amax := LargestFrom(Alphas(models), 0, 0.0).value;
      && amax != 0.0 && |Alphas(ScaleAll(models, scaleTo).value)| == |models|
      && forall q :: 0 <= q < |models| ==>
           Alphas(ScaleAll(models, scaleTo).value)[q] == Rescaled(Alphas(models)[q], amax, scaleTo)
  {
  }

  /**
   * With a positive target, a successful scaling leaves every alpha entry
   * at most the target and some entry equal to it: the new largest entry
   * is the target.
   */
  lemma ScaleAllMaximum(models: Models, scaleTo: real)
    requires scaleTo > 0.0 && ScaleAll(models, scaleTo).Success?
    ensures var alphas := Alphas(ScaleAll(models, scaleTo).value);
      && (forall q, j :: 0 <= q < |alphas| && 0 <= j < |alphas[q]| ==> alphas[q][j] <= scaleTo)
      && exists q, j :: 0 <= q < |alphas| && 0 <= j < |alphas[q]| && alphas[q][j] == scaleTo
  {
    var before := Alphas(models);
    ScaleAllAlphas(models, scaleTo);
    LargestBounds(before, 0, 0.0);
    var amax := LargestFrom(before, 0, 0.0).value;
    RescaledMaximum(before, Alphas(ScaleAll(models, scaleTo).value), amax, scaleTo);
  }

  /** Rescaling by the largest entry m, when m > 0, makes s the largest entry. */
  lemma RescaledMaximum(before: seq<seq<real>>, after: seq<seq<real>>, m: real, s: real)
    requires 0.0 < m && 0.0 < s && |after| == |before|
    requires forall q :: 0 <= q < |before| ==> after[q] == Rescaled(before[q], m, s)
    requires forall q, j :: 0 <= q < |before| && 0 <= j < |before[q]| ==> before[q][j] <= m
    requires exists q, j :: 0 <= q < |before| && 0 <= j < |before[q]| && before[q][j] == m
    ensures forall q, j :: 0 <= q < |after| && 0 <= j < |after[q]| ==> after[q][j] <= s
    ensures exists q, j :: 0 <= q < |after| && 0 <= j < |after[q]| && after[q][j] == s
  {
    forall q, j | 0 <= q < |after| && 0 <= j < |after[q]| ensures after[q][j] <= s {
      RescaledBelow(before[q], after[q], m, s, j);
    }
    var q, j :| 0 <= q < |before| && 0 <= j < |before[q]| && before[q][j] == m;
    RescaledReaches(before[q], after[q], m, s, j);
  }

  lemma RescaledBelow(a: seq<real>, b: seq<real>, m: real, s: real, j: nat)
    requires 0.0 < m && 0.0 < s && b == Rescaled(a, m, s) && j < |a| && a[j] <= m
    ensures b[j] <= s
  {
    DivideAtMostOne(a[j], m, s, b[j]);
  }

  lemma RescaledReaches(a: seq<real>, b: seq<real>, m: real, s: real, j: nat)
    requires 0.0 < m && b == Rescaled(a, m, s) && j < |a| && a[j] == m
    ensures j < |b| && b[j] == s
  {
    DivideSelf(m, s, b[j]);
  }

  lemma RescaledEntry(a: seq<real>, m: real, s: real, j: nat)
    requires m != 0.0 && j < |a|
    ensures Rescaled(a, m, s)[j] == a[j] / m * s
  {
  }

  lemma DivideSelf(m: real, s: real, y: real)
    requires m != 0.0 && y == m / m * s
    ensures y == s
  {
  }

  lemma DivideAtMostOne(x: real, m: real, s: real, y: real)
    requires 0.0 < m && x <= m && 0.0 < s && y == x / m * s
    ensures y <= s
  {
    assert x / m <= 1.0;
  }

  /**
   * Rescaling two alphas by the same alpha_max keeps the ratio between any
   * entry of one and any entry of the other.
   */
  lemma RescaledRatio(a: seq<real>, b: seq<real>, a': seq<real>, b': seq<real>, m: real, s: real, j: nat, l: nat)
    requires m != 0.0 && a' == Rescaled(a, m, s) && b' == Rescaled(b, m, s) && j < |a| && l < |b|
    ensures a'[j] * b[l] == b'[l] * a[j]
  {
    ProductsCommute(a[j], b[l], m, s, a'[j], b'[l]);
  }

  lemma ProductsCommute(x: real, y: real, m: real, s: real, x': real, y': real)
    requires m != 0.0 && x' == x / m * s && y' == y / m * s
    ensures x' * y == y' * x
  {
  }

  /** Scaling changes nothing but alphas: keys, order, and every other field stay. */
  lemma ScaleAllKeeps(models: Models, scaleTo: real, p: nat)
    requires ScaleAll(models, scaleTo).Success? && p < |models|
    ensures var after := ScaleAll(models, scaleTo).value;
      |after| == |models| && after[p].key == models[p].key && after[p].val == models[p].val.(alpha := after[p].val.alpha)
  {
  }

  /** The registry's failure cases: an empty alpha, and no positive alpha entry. */
  lemma ScaleAllFails(models: Models, scaleTo: real)
    ensures ScaleAll(models, scaleTo).Failure? <==>
      (exists q :: 0 <= q < |models| && |models[q].val.alpha| == 0)
      || forall q, j :: 0 <= q < |models| && 0 <= j < |models[q].val.alpha| ==> models[q].val.alpha[j] <= 0.0
  {
    var alphas := Alphas(models);
    LargestBounds(alphas, 0, 0.0);
    var r := LargestFrom(alphas, 0, 0.0);
    if r.Success? && r.value != 0.0 {
      var q, j :| 0 <= q < |alphas| && 0 <= j < |alphas[q]| && alphas[q][j] == r.value;
      assert models[q].val.alpha[j] > 0.0;
    }
    if exists q :: 0 <= q < |models| && |models[q].val.alpha| == 0 {
      var q :| 0 <= q < |models| && |models[q].val.alpha| == 0;
      assert |alphas[q]| == 0;
    }
  }

  // ---------------------------------------------------------------------
  // The class
  // ---------------------------------------------------------------------

  class SolarDisaggIndvHome {
    /** The `CSSS` this object is, as a subclass. */
    const core: CSSS
    var N: nat
    var M: nat
    var names: seq<string>
    var netloads: Dict<seq<real>>
    var solarRegressors: Regressor
    var loadRegressors: Regressor
    var trueValues: Dict<seq<real>>

    ghost predicate Valid()
      reads this, core
    {
      core.Valid() && N == core.N && UniqueKeys(trueValues)
    }

    /** Lines 16-31, once the net loads are stored. */
    constructor (core: CSSS, n: nat, m: nat, names: seq<string>, netloads: Dict<seq<real>>,
                 solar: Regressor, load: Regressor)
      ensures this.core == core && N == n && M == m && this.names == names && this.netloads == netloads
      ensures solarRegressors == solar && loadRegressors == load && trueValues == []
    {
      this.core := core;
      N, M := n, m;
      this.names := names;
      this.netloads := netloads;
      solarRegressors, loadRegressors := solar, load;
      trueValues := [];
    }

    /** Lines 5-43: `SolarDisagg_IndvHome(netloads, solarregressors, loadregressors, names)`. */
    static method Create(netloads: Matrix, solar: Regressor, load: Regressor, names: Option<seq<string>>)
      returns (r: Result<SolarDisaggIndvHome, InitError>)
      ensures var spec := Construct(netloads, solar, load, names);
        && (r.Success? <==> spec.Success?)
        && (r.Failure? ==> r.error == spec.error)
        && (r.Success? ==>
              var h := r.value;
              && fresh(h) && fresh(h.core) && h.Valid()
              && h.core.aggregateSignal == RowSums(netloads)
              && h.N == netloads.rows && h.M == netloads.cols && h.names == NamesOf(names, netloads.cols)
              && h.netloads == NetLoads(netloads, h.names, netloads.cols)
              && h.solarRegressors == solar && h.loadRegressors == load && h.trueValues == []
              && h.Reg() == spec.value)
    {
      var core := new CSSS(RowSums(netloads));
      var nm := NamesOf(names, netloads.cols);
      var nl := StoreNetLoads(netloads, nm);
      if nl.Failure? {
        return Failure(nl.error);
      }
      var h := new SolarDisaggIndvHome(core, netloads.rows, netloads.cols, nm, nl.value, solar, load);
      var added := h.AddSources();
      if added.Failure? {
        return Failure(added.error);
      }
      r := Success(h);
    }

    /** Lines 23-26. */
    static method StoreNetLoads(netloads: Matrix, names: seq<string>) returns (r: Result<Dict<seq<real>>, InitError>)
      ensures r == NetLoadDict(netloads, names)
    {
      var d: Dict<seq<real>> := [];
      var i := 0;
      while i < netloads.cols
        invariant i <= netloads.cols && i <= |names|
        invariant d == NetLoads(netloads, names, i)
      {
        if i >= |names| {
          return Failure(NameIndex);
        }
        d := Put(d, names[i], ColumnOf(netloads, i));
        i := i + 1;
      }
      r := Success(d);
    }

    /** The part of `core` that `__init__` fills in. */
    ghost function Reg(): Registry
      reads core
    {
      Registry(core.modelcounter, core.models, core.constraints)
    }

    /** Lines 34-43: one solar source per home with its two constraints, then the aggregate load. */
    method AddSources() returns (r: Result<(), InitError>)
      requires core.Valid() && N == core.N && Reg() == Registry(0, [], [])
      modifies core`modelcounter, core`models, core`constraints
      ensures core.Valid()
      ensures var spec := Populate(N, solarRegressors, loadRegressors, netloads, names);
        && (r.Success? <==> spec.Success?)
        && (r.Failure? ==> r.error == spec.error)
        && (r.Success? ==> Reg() == spec.value)
    {
      var i := 0;
      while i < |names|
        invariant i <= |names|
        invariant core.Valid() && N == core.N
        invariant HomesFrom(Reg(), N, solarRegressors, netloads, names, i)
               == HomesFrom(Registry(0, [], []), N, solarRegressors, netloads, names, 0)
      {
        var added := AddHomeSource(names[i]);
        if added.Failure? {
          return added;
        }
        i := i + 1;
      }
      r := AddLoadSource();
    }

    /**
     * Lines 35-36 and 42: `addSource` with every default but the name, then
     * the new source variable looked up under that name.
     */
    method AddDefaultSource(regressor: Regressor, name: string) returns (r: Result<Var, InitError>)
      requires core.Valid() && N == core.N
      modifies core`modelcounter, core`models
      ensures core.Valid()
      ensures var b := DefaultModel(old(core.modelcounter) + 1, name, N, regressor);
        && (r.Success? <==> b.Success?)
        && (r.Failure? ==> r.error == Source(b.error))
        && core.modelcounter == old(core.modelcounter) + 1
        && (r.Success? ==> core.models == Put(old(core.models), name, b.value) && r.value == b.value.source)
    {
      ghost var before := core.models;
      DefaultModelIsBuilt(core.modelcounter + 1, name, N, regressor);
      var added := core.AddSource(regressor, Some(name), "sse", [1.0], Named("None"), [1.0],
                                  Named("None"), [1.0], None, None);
      if added.Failure? {
        return Failure(Source(added.error));
      }
      PutGet(before, name, DefaultModel(core.modelcounter, name, N, regressor).value, name);
      r := Success(Get(core.models, name).value.source);
    }

    /** Lines 35-39, for one home. */
    method AddHomeSource(name: string) returns (r: Result<(), InitError>)
      requires core.Valid() && N == core.N
      modifies core`modelcounter, core`models, core`constraints
      ensures core.Valid()
      ensures var spec := AddHome(old(Reg()), N, solarRegressors, netloads, name);
        && (r.Success? <==> spec.Success?)
        && (r.Failure? ==> r.error == spec.error)
        && (r.Success? ==> Reg() == spec.value)
    {
      ghost var s := Reg();
      var source := AddDefaultSource(solarRegressors, name);
      if source.Failure? {
        return Failure(source.error);
      }
      var netload := Get(netloads, name);
      if netload.None? {
        return Failure(MissingNetLoad(name));
      }
      core.AddConstraint(Le(Variable(source.value), Const(netload.value)));
      core.AddConstraint(Le(Variable(source.value), Zero));
      AddHomeIs(s, N, solarRegressors, netloads, name, DefaultModel(s.counter + 1, name, N, solarRegressors).value, netload.value);
      r := Success(());
    }

    /** Lines 42-43. */
    method AddLoadSource() returns (r: Result<(), InitError>)
      requires core.Valid() && N == core.N
      modifies core`modelcounter, core`models, core`constraints
      ensures core.Valid()
      ensures var spec := AddLoad(old(Reg()), N, loadRegressors);
        && (r.Success? <==> spec.Success?)
        && (r.Failure? ==> r.error == spec.error)
        && (r.Success? ==> Reg() == spec.value)
    {
      var source := AddDefaultSource(loadRegressors, AggregateLoad);
      if source.Failure? {
        return Failure(source.error);
      }
      core.AddConstraint(Gt(Variable(source.value), Zero));
      r := Success(());
    }

    /**
     * Lines 45-58: store the squeezed array under a home's name or
     * "AggregateLoad", replacing what was there; refuse anything else.
     */
    method AddTrueValue(trueValue: NdArray, name: string) returns (r: Result<(), TrueValueError>)
      requires Valid()
      modifies this`trueValues
      ensures Valid()
      ensures r.Success? <==> Squeeze(trueValue.shape) == [N] && name in names + [AggregateLoad]
      ensures r.Failure? ==> trueValues == old(trueValues) && (r.error == BadShape <==> Squeeze(trueValue.shape) != [N])
      ensures r.Success? ==> trueValues == Put(old(trueValues), name, trueValue.data)
      ensures r.Success? ==> Get(trueValues, name) == Some(trueValue.data)
      ensures forall k :: k != name ==> Get(trueValues, k) == Get(old(trueValues), k)
    {
      var squeezed := NdArray(Squeeze(trueValue.shape), trueValue.data);
      if squeezed.shape != [N] {
        return Failure(BadShape);
      }
      if name !in names + [AggregateLoad] {
        return Failure(UnknownName);
      }
      ghost var before := trueValues;
      PutKeys(trueValues, name, squeezed.data);
      trueValues := Put(trueValues, name, squeezed.data);
      forall k ensures Get(trueValues, k) == if k == name then Some(squeezed.data) else Get(before, k) {
        PutGet(before, name, squeezed.data, k);
      }
      r := Success(());
    }

    /**
     * Lines 148-163: divide every alpha by the largest alpha entry (at least
     * 0) and multiply by `scale_to`.
     */
    method ScaleAlphas(scaleTo: real) returns (r: Result<(), ScaleError>)
      requires core.Valid()
      modifies core`models
      ensures core.Valid()
      ensures var spec := ScaleAll(old(core.models), scaleTo);
        && (r.Success? <==> spec.Success?)
        && (r.Failure? ==> r.error == spec.error && core.models == old(core.models))
        && (r.Success? ==> core.models == spec.value)
    {
      var alphaMax := 0.0;
      var p := 0;
      while p < |core.models|
        invariant p <= |core.models|
        invariant LargestFrom(Alphas(core.models), p, alphaMax) == LargestFrom(Alphas(core.models), 0, 0.0)
      {
        var alpha := core.models[p].val.alpha;
        if |alpha| == 0 {
          return Failure(EmptyAlpha(core.models[p].key));
        }
        if MaxOf(alpha) > alphaMax {
          alphaMax := MaxOf(alpha);
        }
        p := p + 1;
      }
      if alphaMax == 0.0 {
        return Failure(ZeroMaximum);
      }
      ghost var start := core.models;
      var ms := core.models;
      p := 0;
      while p < |ms|
        invariant p <= |ms| == |start|
        invariant forall q :: 0 <= q < p ==> ms[q] == ScaledModels(start, alphaMax, scaleTo)[q]
        invariant forall q :: p <= q < |ms| ==> ms[q] == start[q]
      {
        ms := ms[p := Entry(ms[p].key, ms[p].val.(alpha := Rescaled(ms[p].val.alpha, alphaMax, scaleTo)))];
        p := p + 1;
      }
      assert ms == ScaledModels(start, alphaMax, scaleTo);
      core.models := ms;
      r := Success(());
    }
  }
}

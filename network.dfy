/**
 * The estimator object NeuralNetwork: its attribute dictionary (__dict__), the optimiser table
 * consulted by __init__, get_params, set_params and setattr, and fit's resolution of the
 * architecture dict followed by encoding, initialisation and the optimiser call.
 *
 * The architecture is a dict from layer index to layer size. The user supplies the hidden
 * layers (by default {1: 25}); fit stores the input size under key 0 and the output size under
 * a new key equal to the number of keys. The other modules see the architecture as the
 * sequence of its sizes in key order, which exists when the keys are exactly 0 .. N.
 */
module Network {
  import opened Errors
  import opened Matrices
  import opened Codec
  import opened Labels

  /** The optimisers of the scipy_optimisers table. */
  datatype Optimiser = FminCg | FminBfgs

  /** The key of each optimiser in the scipy_optimisers table. */
  function OptimiserName(o: Optimiser): string {
    match o
    case FminCg => "fmin_cg"
    case FminBfgs => "fmin_bfgs"
  }

  /** scipy_optimisers[optimiser], where a missing key raises NotImplementedError. */
  function LookupOptimiser(name: string): (r: Result<Optimiser>)
    ensures r.Success? <==> exists o: Optimiser :: OptimiserName(o) == name
    ensures r.Success? ==> OptimiserName(r.value) == name
    ensures r.Failure? ==> r.error == NotImplemented
  {
    if name == "fmin_cg" then
      assert OptimiserName(FminCg) == name;
      Success(FminCg)
    else if name == "fmin_bfgs" then
      assert OptimiserName(FminBfgs) == name;
      Success(FminBfgs)
    else
      assert forall o: Optimiser :: OptimiserName(o) != name;
      Failure(NotImplemented)
  }

  /**
   * scipy_optimisers[optimiser] for any argument: only a string can be a key of the table, and
   * every other value, an unhashable one included, ends in the bare except and NotImplementedError.
   */
  function LookupOptimiserValue(optimiser: Value): (r: Result<Optimiser>)
    ensures r.Success? <==> optimiser.Text? && LookupOptimiser(optimiser.s).Success?
    ensures r.Success? ==> optimiser == Text(OptimiserName(r.value))
    ensures r.Failure? ==> r.error == NotImplemented
  {
    if optimiser.Text? then LookupOptimiser(optimiser.s) else Failure(NotImplemented)
  }

  /** Every optimiser is found under its own name. */
  lemma LookupOptimiserName(o: Optimiser)
    ensures LookupOptimiser(OptimiserName(o)) == Success(o)
  {
  }

  /** The values the attributes hold; Python lets setattr store any of them under any attribute. */
  datatype Value =
    | LayerSizes(sizes: map<int, nat>)   // a dict from layer index to layer size
    | Real(r: real)
    | Int(i: int)
    | Text(s: string)
    | OptimiserFunction(o: Optimiser)   // one of the scipy optimiser functions
    | Vector(v: seq<real>)              // a trained parameter vector
    | NoneValue                         // Python's None

  const ArchitectureName := "architecture"
  const LambdaName := "LAMBDA"
  const NeuronName := "neuron"
  const MaxiterName := "maxiter"
  const OptimiserAttribute := "optimiser"
  const TrainedParamsName := "_trainedParams"

  /** The keys of __dict__ after __init__: the five settings and the private _trainedParams. */
  const AttributeNames: set<string> :=
    {ArchitectureName, LambdaName, NeuronName, MaxiterName, OptimiserAttribute, TrainedParamsName}

  /** The names get_params reports, in its order. */
  const ParamNames: seq<string> := [ArchitectureName, LambdaName, NeuronName, OptimiserAttribute, MaxiterName]

  /** The attribute dictionary __init__ leaves behind. */
  function InitialAttributes(architecture: map<int, nat>, decay: real, neuron: string, optimiser: Optimiser, maxiter: int)
    : (d: map<string, Value>)
    ensures d.Keys == AttributeNames
    ensures d[TrainedParamsName] == NoneValue
  {
    map[ArchitectureName := LayerSizes(architecture), LambdaName := Real(decay), NeuronName := Text(neuron),
        MaxiterName := Int(maxiter), OptimiserAttribute := OptimiserFunction(optimiser), TrainedParamsName := NoneValue]
  }

  /**
   * setattr: store value under an existing attribute name; a name that is not already an
   * attribute raises AttributeError and changes nothing.
   */
  function Assign(d: map<string, Value>, name: string, value: Value): (r: (map<string, Value>, Outcome))
    ensures r.0.Keys == d.Keys
    ensures r.1 == Pass <==> name in d
    ensures name in d ==> r.0[name] == value && forall other :: other in d && other != name ==> r.0[other] == d[other]
    ensures name !in d ==> r.0 == d && r.1 == Fail(AttributeError(name))
  {
    if name in d then (d[name := value], Pass) else (d, Fail(AttributeError(name)))
  }

  /**
   * set_params: setattr for each (name, value) in order; the first unknown name raises, and
   * the settings before it stay applied.
   */
  function ApplySettings(d: map<string, Value>, items: seq<(string, Value)>): (map<string, Value>, Outcome) {
    if items == [] then (d, Pass)
    else
      var (before, outcome) := ApplySettings(d, items[..|items| - 1]);
      if outcome.Fail? then (before, outcome)
      else Assign(before, items[|items| - 1].0, items[|items| - 1].1)
  }

  /** set_params never adds or removes an attribute. */
  lemma {:induction false} SettingsKeepNames(d: map<string, Value>, items: seq<(string, Value)>)
    ensures ApplySettings(d, items).0.Keys == d.Keys
  {
    if items != [] {
      SettingsKeepNames(d, items[..|items| - 1]);
    }
  }

  /** set_params succeeds exactly when every name it is given is already an attribute. */
  lemma {:induction false} SettingsSucceedIff(d: map<string, Value>, items: seq<(string, Value)>)
    ensures ApplySettings(d, items).1 == Pass <==> forall i :: 0 <= i < |items| ==> items[i].0 in d
  {
    if items != [] {
      var front := items[..|items| - 1];
      SettingsSucceedIff(d, front);
      SettingsKeepNames(d, front);
      assert forall i :: 0 <= i < |front| ==> front[i] == items[i];
    }
  }

  /**
   * At the first unknown name set_params raises AttributeError for that name, leaving the
   * attributes as the settings before it made them.
   */
  lemma {:induction false} SettingsStopAtUnknown(d: map<string, Value>, items: seq<(string, Value)>, j: nat)
    requires j < |items| && items[j].0 !in d
    requires forall i :: 0 <= i < j ==> items[i].0 in d
    ensures ApplySettings(d, items) == (ApplySettings(d, items[..j]).0, Fail(AttributeError(items[j].0)))
  {
    var front := items[..|items| - 1];
    if j < |items| - 1 {
      assert front[..j] == items[..j];
      assert front[j] == items[j];
      SettingsStopAtUnknown(d, front, j);
    } else {
      assert front == items[..j];
      SettingsSucceedIff(d, front);
      SettingsKeepNames(d, front);
    }
  }

  /** The (name, value) pairs get_params reports, in its order. */
  function ParamItems(d: map<string, Value>): (items: seq<(string, Value)>)
    requires forall i :: 0 <= i < |ParamNames| ==> ParamNames[i] in d
  {
    seq(|ParamNames|, i requires 0 <= i < |ParamNames| => (ParamNames[i], d[ParamNames[i]]))
  }

  /** Once set_params has raised, later items change nothing. */
  lemma {:induction false} SettingsFailurePersists(d: map<string, Value>, items: seq<(string, Value)>, j: nat)
    requires j <= |items| && ApplySettings(d, items[..j]).1.Fail?
    ensures ApplySettings(d, items) == ApplySettings(d, items[..j])
  {
    if j < |items| {
      var front := items[..|items| - 1];
      assert front[..j] == items[..j];
      SettingsFailurePersists(d, front, j);
    } else {
      assert items[..j] == items;
    }
  }

  /** Storing every attribute's own value leaves the attributes unchanged. */
  lemma {:induction false} SettingsOwnValues(d: map<string, Value>, items: seq<(string, Value)>)
    requires forall i :: 0 <= i < |items| ==> items[i].0 in d && items[i].1 == d[items[i].0]
    ensures ApplySettings(d, items) == (d, Pass)
  {
    if items != [] {
      SettingsOwnValues(d, items[..|items| - 1]);
      var (name, value) := items[|items| - 1];
      assert d[name := value] == d;
    }
  }

  /** set_params(**get_params()) leaves the estimator as it was. */
  lemma SetParamsOfGetParams(d: map<string, Value>)
    requires AttributeNames <= d.Keys
    ensures ApplySettings(d, ParamItems(d)) == (d, Pass)
  {
    SettingsOwnValues(d, ParamItems(d));
  }

  /**
   * get_params reports the optimiser function, not its name, and __init__ refuses it: an estimator
   * cannot be rebuilt from the parameters a freshly built one reports.
   */
  lemma RebuildFromParamsFails(architecture: map<int, nat>, decay: real, neuron: string, o: Optimiser, maxiter: int)
    ensures InitialAttributes(architecture, decay, neuron, o, maxiter)[OptimiserAttribute] == OptimiserFunction(o)
    ensures LookupOptimiserValue(InitialAttributes(architecture, decay, neuron, o, maxiter)[OptimiserAttribute]) ==
              Failure(NotImplemented)
  {
  }

  /** The size of the output layer fit adds: one unit per label beyond two labels, one unit for two labels. */
  function OutputLayerSize(numLabels: nat): nat {
    if numLabels > 2 then numLabels else 1
  }

  /** len(architecture.keys()) once architecture[0] has been set: the key of the output layer. */
  function OutputKey(arch: map<int, nat>): (key: nat)
    ensures key >= 1
  {
    assert 0 in arch.Keys + {0};
    |arch.Keys + {0}|
  }

  /**
   * The architecture block of fit: architecture[0] = n; then, when there are at least two
   * distinct labels, the output size goes under the key len(architecture.keys()).
   */
  function ResolveArchitecture(arch: map<int, nat>, n: nat, numLabels: nat): (r: map<int, nat>)
    ensures 0 in r && r[0] == n
    ensures forall k :: k in r <==> k in arch || k == 0 || (numLabels >= 2 && k == OutputKey(arch))
    ensures numLabels >= 2 ==> r[OutputKey(arch)] == OutputLayerSize(numLabels)
    ensures forall k :: k in arch && k != 0 && (numLabels < 2 || k != OutputKey(arch)) ==> r[k] == arch[k]
  {
    var withInput := arch[0 := n];
    var key := OutputKey(arch);
    if numLabels >= 2 then withInput[key := OutputLayerSize(numLabels)] else withInput
  }

  /** The keys of arch are exactly the layer indices 0 .. |arch|-1. */
  predicate IsLayered(arch: map<int, nat>) {
    arch.Keys == Range(|arch.Keys|)
  }

  /** The layer sizes of a layered architecture, in index order. */
  function Layers(arch: map<int, nat>): (a: Architecture)
    requires IsLayered(arch)
    ensures |a| == |arch.Keys|
  {
    seq(|arch.Keys|, i requires 0 <= i < |arch.Keys| => arch[i])
  }

  /** A map whose keys are 0 .. |a|-1 and whose values are a's, in order, is layered with layers a. */
  lemma LayersOf(arch: map<int, nat>, a: Architecture)
    requires arch.Keys == Range(|a|)
    requires forall i :: 0 <= i < |a| ==> arch[i] == a[i]
    ensures IsLayered(arch) && Layers(arch) == a
  {
    RangeSize(|a|);
  }

  /** The hidden layers a user passes: sizes under the keys 1 .. |hidden|. */
  function HiddenLayers(hidden: seq<nat>): (arch: map<int, nat>)
    ensures forall i :: i in arch <==> 1 <= i <= |hidden|
    ensures forall i :: 1 <= i <= |hidden| ==> arch[i] == hidden[i - 1]
  {
    if hidden == [] then map[]
    else HiddenLayers(hidden[..|hidden| - 1])[|hidden| := hidden[|hidden| - 1]]
  }

  /** The keys 1 .. |hidden| with 0 added are Range(|hidden| + 1), so the output key is |hidden| + 1. */
  lemma HiddenKeys(hidden: seq<nat>)
    ensures HiddenLayers(hidden).Keys + {0} == Range(|hidden| + 1)
  {
    var keys := HiddenLayers(hidden).Keys + {0};
    forall k | k in keys
      ensures k in Range(|hidden| + 1)
    {
    }
    forall k | k in Range(|hidden| + 1)
      ensures k in keys
    {
    }
  }

  /** With hidden layers under the keys 1 .. |hidden|, the output layer goes under |hidden| + 1. */
  lemma HiddenOutputKey(hidden: seq<nat>)
    ensures OutputKey(HiddenLayers(hidden)) == |hidden| + 1
  {
    HiddenKeys(hidden);
    RangeSize(|hidden| + 1);
  }

  lemma HiddenEntry(hidden: seq<nat>, i: nat)
    requires 1 <= i <= |hidden|
    ensures i in HiddenLayers(hidden) && HiddenLayers(hidden)[i] == hidden[i - 1]
  {
  }

  /**
   * The layer sizes fit gives a user's hidden layers: the input size, the hidden sizes, then the
   * output size unless there is a single label.
   */
  function ResolvedLayers(hidden: seq<nat>, n: nat, numLabels: nat): Architecture {
    if numLabels >= 2 then [n] + hidden + [OutputLayerSize(numLabels)] else [n] + hidden
  }

  lemma ResolvedHiddenKeys(hidden: seq<nat>, n: nat, numLabels: nat)
    ensures ResolveArchitecture(HiddenLayers(hidden), n, numLabels).Keys == Range(|ResolvedLayers(hidden, n, numLabels)|)
  {
    var keys := ResolveArchitecture(HiddenLayers(hidden), n, numLabels).Keys;
    var size := |ResolvedLayers(hidden, n, numLabels)|;
    HiddenOutputKey(hidden);
    forall k | k in keys
      ensures k in Range(size)
    {
    }
    forall k | k in Range(size)
      ensures k in keys
    {
    }
  }

  lemma ResolvedHiddenEntry(hidden: seq<nat>, n: nat, numLabels: nat, i: nat)
    requires i < |ResolvedLayers(hidden, n, numLabels)|
    ensures i in ResolveArchitecture(HiddenLayers(hidden), n, numLabels)
    ensures ResolveArchitecture(HiddenLayers(hidden), n, numLabels)[i] == ResolvedLayers(hidden, n, numLabels)[i]
  {
    ResolvedLayersEntry(hidden, n, numLabels, i);
    if i == 0 {
    } else if i <= |hidden| {
      ResolvedHiddenMiddle(hidden, n, numLabels, i);
    } else {
      ResolvedHiddenOutput(hidden, n, numLabels);
    }
  }

  lemma ResolvedLayersEntry(hidden: seq<nat>, n: nat, numLabels: nat, i: nat)
    requires i < |ResolvedLayers(hidden, n, numLabels)|
    ensures i > |hidden| ==> numLabels >= 2 && i == |hidden| + 1
    ensures ResolvedLayers(hidden, n, numLabels)[i] ==
              if i == 0 then n else if i <= |hidden| then hidden[i - 1] else OutputLayerSize(numLabels)
  {
  }

  lemma ResolvedHiddenMiddle(hidden: seq<nat>, n: nat, numLabels: nat, i: nat)
    requires 1 <= i <= |hidden|
    ensures i in ResolveArchitecture(HiddenLayers(hidden), n, numLabels)
    ensures ResolveArchitecture(HiddenLayers(hidden), n, numLabels)[i] == hidden[i - 1]
  {
    HiddenEntry(hidden, i);
    HiddenOutputKey(hidden);
  }

  lemma ResolvedHiddenOutput(hidden: seq<nat>, n: nat, numLabels: nat)
    requires numLabels >= 2
    ensures |hidden| + 1 in ResolveArchitecture(HiddenLayers(hidden), n, numLabels)
    ensures ResolveArchitecture(HiddenLayers(hidden), n, numLabels)[|hidden| + 1] == OutputLayerSize(numLabels)
  {
    HiddenOutputKey(hidden);
  }

  /**
   * Resolving a user's hidden layers gives the layers [n] + hidden + [output size] when there
   * are at least two labels, and [n] + hidden, with no output layer, when there is one label.
   */
  lemma ResolveFromHidden(hidden: seq<nat>, n: nat, numLabels: nat)
    ensures IsLayered(ResolveArchitecture(HiddenLayers(hidden), n, numLabels))
    ensures Layers(ResolveArchitecture(HiddenLayers(hidden), n, numLabels)) == ResolvedLayers(hidden, n, numLabels)
  {
    var r := ResolveArchitecture(HiddenLayers(hidden), n, numLabels);
    var a := ResolvedLayers(hidden, n, numLabels);
    ResolvedHiddenKeys(hidden, n, numLabels);
    forall i | 0 <= i < |a|
      ensures r[i] == a[i]
    {
      ResolvedHiddenEntry(hidden, n, numLabels, i);
    }
    LayersOf(r, a);
  }

  /**
   * Resolving an architecture that is already layered, as fit leaves it, replaces the input
   * size and appends yet another output layer.
   */
  lemma ResolveAgainAppends(arch: map<int, nat>, n: nat, numLabels: nat)
    requires IsLayered(arch) && |arch.Keys| >= 1 && numLabels >= 2
    ensures IsLayered(ResolveArchitecture(arch, n, numLabels))
    ensures Layers(ResolveArchitecture(arch, n, numLabels)) == Layers(arch)[0 := n] + [OutputLayerSize(numLabels)]
  {
    var len := |arch.Keys|;
    var r := ResolveArchitecture(arch, n, numLabels);
    assert 0 in arch.Keys;
    assert OutputKey(arch) == len by {
      assert arch.Keys + {0} == arch.Keys;
    }
    var a := Layers(arch)[0 := n] + [OutputLayerSize(numLabels)];
    assert r.Keys == Range(len + 1);
    forall i | 0 <= i < |a|
      ensures r[i] == a[i]
    {
      if 1 <= i < len {
        assert i in arch;
      }
    }
    LayersOf(r, a);
  }

  /** A hidden-layer key that skips an index is overwritten by the output layer. */
  lemma ResolveOverwritesGap()
    ensures ResolveArchitecture(map[2 := 25], 4, 3) == map[0 := 4, 2 := 3]
  {
    var withInput := map[2 := 25][0 := 4];
    assert withInput.Keys == {0, 2};
    assert |withInput.Keys| == 2;
  }

  /** The layer sizes initialise and reshapeParams read: KeyError unless the keys are 0 .. N. */
  function ArchitectureLayers(arch: map<int, nat>): (r: Result<Architecture>)
    ensures r.Success? <==> IsLayered(arch)
    ensures r.Success? ==> |r.value| == |arch.Keys| && forall i :: 0 <= i < |r.value| ==> r.value[i] == arch[i]
  {
    if IsLayered(arch) then Success(Layers(arch)) else Failure(KeyError)
  }

  /**
   * The outcome of fit on the attributes d: the new attributes and whether fit completed.
   * optimise(o, x0, X, Y, maxiter) stands for the scipy optimiser o run from x0.
   */
  function Fitted(d: map<string, Value>, x: Matrix<real>, y: seq<int>, rng: (nat, nat, nat) -> real,
                  optimise: (Optimiser, seq<real>, Matrix<real>, Matrix<int>, Value) -> seq<real>)
    : (map<string, Value>, Outcome)
    requires AttributeNames <= d.Keys
  {
    if x.rows == 1 || x.cols == 1 then (d, Fail(ValueError))
    else
      match d[ArchitectureName]
      case LayerSizes(sizes) =>
        var resolved := ResolveArchitecture(sizes, x.cols, NumClasses(y));
        Trained(d[ArchitectureName := LayerSizes(resolved)], resolved, x, y, rng, optimise)
      case Vector(v) => FittedArray(d, v, x.cols, y)
      case _ => (d, Fail(TypeError))
  }

  /**
   * fit on an architecture that is a numpy array v: writing n to element 0 works when v is not
   * empty, but the array has no keys() to find the output layer's index, nor to list the layers
   * initialise visits; before that, initialise reads elements 0 and 1 and hands these floats to
   * np.random.rand as sizes.
   */
  function FittedArray(d: map<string, Value>, v: seq<real>, n: nat, y: seq<int>): (map<string, Value>, Outcome)
    requires AttributeNames <= d.Keys
  {
    if |v| == 0 then (d, Fail(IndexError))
    else
      var d1 := d[ArchitectureName := Vector(v[0 := n as real])];
      if NumClasses(y) >= 2 then (d1, Fail(AttributeError("keys")))
      else if OneHot(y).Failure? then (d1, Fail(OneHot(y).error))
      else if |v| < 2 then (d1, Fail(IndexError))
      else (d1, Fail(TypeError))
  }

  /**
   * The rest of fit once the resolved architecture is stored in d: encode the labels, draw the
   * initial vector, run the optimiser and store its result.
   */
  function Trained(d: map<string, Value>, resolved: map<int, nat>, x: Matrix<real>, y: seq<int>,
                   rng: (nat, nat, nat) -> real,
                   optimise: (Optimiser, seq<real>, Matrix<real>, Matrix<int>, Value) -> seq<real>)
    : (map<string, Value>, Outcome)
    requires AttributeNames <= d.Keys
  {
    var targets := OneHot(y);
    if targets.Failure? then (d, Fail(targets.error))
    else if !IsLayered(resolved) || |resolved.Keys| < 2 then (d, Fail(KeyError))
    else Optimised(d, Layers(resolved), x, targets.value, rng, optimise)
  }

  /**
   * The last steps of fit for layer sizes a with at least two layers: draw the initial vector, run
   * the optimiser, which must be a function, and store its result.
   */
  function Optimised(d: map<string, Value>, a: Architecture, x: Matrix<real>, targets: Matrix<int>,
                     rng: (nat, nat, nat) -> real,
                     optimise: (Optimiser, seq<real>, Matrix<real>, Matrix<int>, Value) -> seq<real>)
    : (map<string, Value>, Outcome)
    requires AttributeNames <= d.Keys && |a| >= 2
  {
    if !d[OptimiserAttribute].OptimiserFunction? then (d, Fail(TypeError))
    else
      var initial := Flatten(InitialThetas(a, rng));
      var params := optimise(d[OptimiserAttribute].o, initial, x, targets, d[MaxiterName]);
      (d[TrainedParamsName := Vector(params)], Pass)
  }

  /** fit never adds or removes an attribute. */
  lemma FittedKeepsNames(d: map<string, Value>, x: Matrix<real>, y: seq<int>, rng: (nat, nat, nat) -> real,
                         optimise: (Optimiser, seq<real>, Matrix<real>, Matrix<int>, Value) -> seq<real>)
    requires AttributeNames <= d.Keys
    ensures Fitted(d, x, y, rng, optimise).0.Keys == d.Keys
  {
  }

  /**
   * fit updates the architecture in place before anything can fail: when the labels cannot be
   * encoded the resolved architecture stays behind.
   */
  lemma FitFailureKeepsArchitecture(d: map<string, Value>, x: Matrix<real>, y: seq<int>, rng: (nat, nat, nat) -> real,
                                    optimise: (Optimiser, seq<real>, Matrix<real>, Matrix<int>, Value) -> seq<real>)
    requires AttributeNames <= d.Keys && x.rows != 1 && x.cols != 1
    requires d[ArchitectureName].LayerSizes? && OneHot(y).Failure?
    ensures Fitted(d, x, y, rng, optimise).1 == Fail(IndexError)
    ensures Fitted(d, x, y, rng, optimise).0[ArchitectureName] ==
              LayerSizes(ResolveArchitecture(d[ArchitectureName].sizes, x.cols, NumClasses(y)))
  {
  }

  /** An X with a single row or a single column loses an axis to np.squeeze and fit stops before changing anything. */
  lemma FitSqueezedInputFails(d: map<string, Value>, x: Matrix<real>, y: seq<int>, rng: (nat, nat, nat) -> real,
                              optimise: (Optimiser, seq<real>, Matrix<real>, Matrix<int>, Value) -> seq<real>)
    requires AttributeNames <= d.Keys && (x.rows == 1 || x.cols == 1)
    ensures Fitted(d, x, y, rng, optimise) == (d, Fail(ValueError))
  {
  }

  /**
   * fit never completes on an architecture that is a numpy array: element 0 of a non-empty
   * array is overwritten with the number of features, and with two or more labels the missing
   * keys() is what stops it.
   */
  lemma FitArrayArchitectureFails(d: map<string, Value>, x: Matrix<real>, y: seq<int>, rng: (nat, nat, nat) -> real,
                                  optimise: (Optimiser, seq<real>, Matrix<real>, Matrix<int>, Value) -> seq<real>)
    requires AttributeNames <= d.Keys && x.rows != 1 && x.cols != 1 && d[ArchitectureName].Vector?
    ensures Fitted(d, x, y, rng, optimise).1 != Pass
    ensures Fitted(d, x, y, rng, optimise).0.Keys == d.Keys
    ensures |d[ArchitectureName].v| > 0 ==>
              Fitted(d, x, y, rng, optimise).0[ArchitectureName] == Vector(d[ArchitectureName].v[0 := x.cols as real])
    ensures |d[ArchitectureName].v| > 0 && NumClasses(y) >= 2 ==>
              Fitted(d, x, y, rng, optimise).1 == Fail(AttributeError("keys"))
  {
  }

  /**
   * fit completes exactly when X keeps two axes after np.squeeze, the architecture is a dict,
   * the labels can be encoded, the resolved keys are the layer indices 0 .. N with N >= 1, and the
   * optimiser is a function.
   */
  lemma FitSucceedsIff(d: map<string, Value>, x: Matrix<real>, y: seq<int>, rng: (nat, nat, nat) -> real,
                       optimise: (Optimiser, seq<real>, Matrix<real>, Matrix<int>, Value) -> seq<real>)
    requires AttributeNames <= d.Keys
    ensures Fitted(d, x, y, rng, optimise).1 == Pass <==>
              && x.rows != 1 && x.cols != 1
              && d[ArchitectureName].LayerSizes?
              && OneHot(y).Success?
              && IsLayered(ResolveArchitecture(d[ArchitectureName].sizes, x.cols, NumClasses(y)))
              && |ResolveArchitecture(d[ArchitectureName].sizes, x.cols, NumClasses(y)).Keys| >= 2
              && d[OptimiserAttribute].OptimiserFunction?
  {
    if x.rows != 1 && x.cols != 1 && d[ArchitectureName].LayerSizes? {
      var resolved := ResolveArchitecture(d[ArchitectureName].sizes, x.cols, NumClasses(y));
      var d1 := d[ArchitectureName := LayerSizes(resolved)];
      assert d1[OptimiserAttribute] == d[OptimiserAttribute];
    }
  }

  /**
   * A successful fit trains from a vector with the layout of its resolved architecture: Total(a)
   * elements, which reshapeParams cuts into the initial weight matrices.
   */
  lemma FitTrainsFromInitialVector(d: map<string, Value>, x: Matrix<real>, y: seq<int>, rng: (nat, nat, nat) -> real,
                                   optimise: (Optimiser, seq<real>, Matrix<real>, Matrix<int>, Value) -> seq<real>,
                                   resolved: map<int, nat>)
    requires AttributeNames <= d.Keys && x.rows != 1 && x.cols != 1
    requires d[ArchitectureName].LayerSizes? && d[OptimiserAttribute].OptimiserFunction?
    requires resolved == ResolveArchitecture(d[ArchitectureName].sizes, x.cols, NumClasses(y))
    requires OneHot(y).Success? && IsLayered(resolved) && |resolved.Keys| >= 2
    ensures var a := Layers(resolved);
            var initial := Flatten(InitialThetas(a, rng));
            && |initial| == Total(a)
            && Unflatten(a, initial) == Success(InitialThetas(a, rng))
            && Fitted(d, x, y, rng, optimise) ==
                 (d[ArchitectureName := LayerSizes(resolved)]
                   [TrainedParamsName := Vector(optimise(d[OptimiserAttribute].o, initial, x, OneHot(y).value, d[MaxiterName]))],
                  Pass)
  {
    var a := Layers(resolved);
    UnflattenFlatten(a, InitialThetas(a, rng));
    var d1 := d[ArchitectureName := LayerSizes(resolved)];
    assert d1[OptimiserAttribute] == d[OptimiserAttribute] && d1[MaxiterName] == d[MaxiterName];
  }

  /** The estimator: its attributes are the entries of __dict__. */
  class NeuralNetwork {
    var attributes: map<string, Value>

    /** __dict__ holds exactly the attributes __init__ creates. */
    predicate Valid()
      reads this
    {
      attributes.Keys == AttributeNames
    }

    /** __init__ once the optimiser name has been found in the table. */
    constructor (architecture: map<int, nat>, decay: real, neuron: string, optimiser: Optimiser, maxiter: int)
      ensures Valid()
      ensures attributes == InitialAttributes(architecture, decay, neuron, optimiser, maxiter)
    {
      attributes := InitialAttributes(architecture, decay, neuron, optimiser, maxiter);
    }

    /** __init__: an optimiser argument that is not a name in the table raises NotImplementedError and no estimator results. */
    static method New(architecture: map<int, nat>, decay: real, neuron: string, optimiser: Value, maxiter: int)
      returns (r: Result<NeuralNetwork>)
      ensures r.Success? <==> LookupOptimiserValue(optimiser).Success?
      ensures r.Failure? ==> r.error == NotImplemented
      ensures r.Success? ==> fresh(r.value) && r.value.Valid()
      ensures r.Success? ==>
                r.value.attributes == InitialAttributes(architecture, decay, neuron, LookupOptimiserValue(optimiser).value, maxiter)
    {
      var found := LookupOptimiserValue(optimiser);
      if found.Failure? {
        return Failure(found.error);
      }
      var network := new NeuralNetwork(architecture, decay, neuron, found.value, maxiter);
      return Success(network);
    }

    /** get_params: the five settings by name; _trainedParams is not among them. */
    function GetParams(): (params: map<string, Value>)
      reads this
      requires Valid()
      ensures params.Keys == AttributeNames - {TrainedParamsName}
      ensures forall name :: name in params ==> params[name] == attributes[name]
    {
      map name | name in attributes && name != TrainedParamsName :: attributes[name]
    }

    /** setattr: overwrite an existing attribute; any other name raises AttributeError. */
    method SetAttr(parameter: string, value: Value) returns (outcome: Outcome)
      requires Valid()
      modifies this
      ensures Valid()
      ensures (attributes, outcome) == Assign(old(attributes), parameter, value)
    {
      if parameter in attributes {
        attributes := attributes[parameter := value];
        outcome := Pass;
      } else {
        outcome := Fail(AttributeError(parameter));
      }
    }

    /** set_params: setattr for each item in turn, stopping at the first that raises. */
    method SetParams(items: seq<(string, Value)>) returns (outcome: Outcome)
      requires Valid()
      modifies this
      ensures Valid()
      ensures (attributes, outcome) == ApplySettings(old(attributes), items)
    {
      for i := 0 to |items|
        invariant Valid()
        invariant (attributes, Pass) == ApplySettings(old(attributes), items[..i])
      {
        assert items[..i + 1][..i] == items[..i];
        outcome := SetAttr(items[i].0, items[i].1);
        if outcome.Fail? {
          SettingsFailurePersists(old(attributes), items, i + 1);
          return;
        }
      }
      assert items[..|items|] == items;
      outcome := Pass;
    }

    /**
     * fit: resolve the architecture and store it, encode the labels, draw the initial parameter
     * vector and hand it to the optimiser; the optimiser's result becomes _trainedParams.
     */
    method Fit(x: Matrix<real>, y: seq<int>, rng: (nat, nat, nat) -> real,
               optimise: (Optimiser, seq<real>, Matrix<real>, Matrix<int>, Value) -> seq<real>)
      returns (outcome: Outcome)
      requires Valid()
      modifies this
      ensures Valid()
      ensures (attributes, outcome) == Fitted(old(attributes), x, y, rng, optimise)
    {
      ghost var d := attributes;
      if x.rows == 1 || x.cols == 1 {
        return Fail(ValueError);
      }
      var architecture := attributes[ArchitectureName];
      if architecture.Vector? {
        var v := architecture.v;
        if |v| == 0 {
          return Fail(IndexError);
        }
        attributes := attributes[ArchitectureName := Vector(v[0 := x.cols as real])];
        if NumClasses(y) >= 2 {
          return Fail(AttributeError("keys"));
        }
        var targets := OneHotEncoding(y);
        if targets.Failure? {
          return Fail(targets.error);
        }
        if |v| < 2 {
          return Fail(IndexError);
        }
        return Fail(TypeError);
      }
      if !architecture.LayerSizes? {
        return Fail(TypeError);
      }
      var resolved := ResolveArchitecture(architecture.sizes, x.cols, NumClasses(y));
      attributes := attributes[ArchitectureName := LayerSizes(resolved)];
      assert Fitted(d, x, y, rng, optimise) == Trained(attributes, resolved, x, y, rng, optimise);
      outcome := Train(resolved, x, y, rng, optimise);
    }

    /** The rest of fit, once the resolved architecture is stored. */
    method Train(resolved: map<int, nat>, x: Matrix<real>, y: seq<int>, rng: (nat, nat, nat) -> real,
                 optimise: (Optimiser, seq<real>, Matrix<real>, Matrix<int>, Value) -> seq<real>)
      returns (outcome: Outcome)
      requires Valid()
      modifies this
      ensures Valid()
      ensures (attributes, outcome) == Trained(old(attributes), resolved, x, y, rng, optimise)
    {
      var targets := OneHotEncoding(y);
      if targets.Failure? {
        return Fail(targets.error);
      }
      var layers := ArchitectureLayers(resolved);
      if layers.Failure? {
        return Fail(layers.error);
      }
      if |layers.value| < 2 {
        return Fail(KeyError);
      }
      outcome := Optimise(layers.value, x, targets.value, rng, optimise);
    }

    /** Draw the initial vector for layer sizes a, run the optimiser from it and store its result. */
    method Optimise(a: Architecture, x: Matrix<real>, targets: Matrix<int>, rng: (nat, nat, nat) -> real,
                    optimise: (Optimiser, seq<real>, Matrix<real>, Matrix<int>, Value) -> seq<real>)
      returns (outcome: Outcome)
      requires Valid() && |a| >= 2
      modifies this
      ensures Valid()
      ensures (attributes, outcome) == Optimised(old(attributes), a, x, targets, rng, optimise)
    {
      var initial := Initialise(a, rng);
      var optimiser := attributes[OptimiserAttribute];
      if !optimiser.OptimiserFunction? {
        return Fail(TypeError);
      }
      var params := optimise(optimiser.o, initial.value, x, targets, attributes[MaxiterName]);
      attributes := attributes[TrainedParamsName := Vector(params)];
      outcome := Pass;
    }
  }
}

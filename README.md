# NeuralNet: a verified model of the network's discrete core

NeuralNet.py defines `NeuralNetwork`. It is a feed-forward classifier with a scikit-learn-style
estimator interface. This project models, in Dafny, the parts of it that are bookkeeping rather
than floating-point numerics, and proves properties of them:

- **Parameter codec** (`codec.dfy`, over `matrices.dfy`):
  - `reshapeParams` cuts one flat parameter vector into one weight matrix per pair of adjacent
    layers.
  - The flatten loops in `initialise` and `backProp` lay matrices out column by column and
    concatenate them.
  - Weight matrix k has shape (a[k+1], a[k]+1): one extra column for the bias unit. It starts at
    `Offset(a, k)`, the sum of the earlier block sizes. A vector for architecture `a` has
    `Total(a)` elements.
  - The codec is generic in the element type, because the layout does not depend on what is
    stored.
- **Label encoding** (`labels.dfy`): `oneHotEncoding` fills an m × k array of zeros with one 1
  per example and transposes it. Labels are used as 0-based row indices, with numpy's wrap-around
  for negative indices.
- **Numeric rules over `real`** (`regularisation.dfy`):
  - the regularisation-term accumulator of `feedForward`;
  - the exact 0/1 nudge of the hypothesis;
  - the gradient regularisation of `backProp`, which leaves the bias column alone.
- **The estimator object** (`network.dfy`):
  - the optimiser table consulted by `__init__`;
  - the attribute dictionary (`__dict__`) and the `get_params`, `set_params` and `setattr`
    operations on it;
  - `fit`'s resolution of the architecture dict (input size under key 0, output size under a new
    key);
  - the sequence of `fit` itself: encode, initialise, optimise, store.

Errors are values (`Errors.Result`, `Errors.Outcome`): `KeyError`, `ShapeError` (the `ValueError`
numpy's reshape raises for a slice of the wrong size, kept apart from the `ValueError` of `fit`), `IndexError`, `NotImplemented`, `AttributeError(name)`, `TypeError` and `ValueError`.

Two behaviours of the code are worth stating up front:

- **A parameter vector longer than the architecture needs** is accepted by `reshapeParams`, and
  the surplus is never read (`Codec.UnflattenIgnoresTail`). Only a vector that is too short
  fails (`Codec.ShortVectorFails`).
- **Labels are indexed from 0**, although the docstring of `oneHotEncoding` says they start at 1.
  Any label k or above, where k is the number of distinct labels, makes the encoder fail
  (`Labels.OneHotLabelTooLarge`); for example labels 1, 2, 3 fail on label 3
  (`Labels.OneBasedLabelsFail`).

## Model

| member | source | states |
|---|---|---|
| Matrices.ColumnMajorIndexIsProduct | NeuralNet.py:198-199 | numpy's `order="F"` position of entry (i, j) in a matrix with `rows` rows is j·rows + i |
| Matrices.RavelEntry | NeuralNet.py:289 | entry (i, j) of a rows × cols matrix sits at position `ColumnMajorIndex(i, j, rows, cols)` of `np.ravel(·, order="F")`, which is j·rows + i by `ColumnMajorIndexIsProduct` |
| Matrices.ReshapeRavel | NeuralNet.py:198-199 | reshaping a matrix's column-major layout to its own shape gives the matrix back |
| Matrices.RavelReshape | NeuralNet.py:198-199 | laying out column by column a column-major reshape of a vector gives the vector back |
| Codec.PySlice | NeuralNet.py:203-204 | a Python slice has its nominal length exactly when it does not run past the end of the vector |
| Codec.BlocksDisjoint | NeuralNet.py:201-206 | `lastIndex` only advances: a later block never starts before an earlier one ends |
| Codec.SliceThenReshape | NeuralNet.py:198-205 | slicing a block out of the vector and reshaping it with `order="F"` gives the column-major reshape of the block when the vector reaches the block's end, and a shape error when it stops short |
| Codec.UnflattenLayersStep | NeuralNet.py:202-206 | a successful cut of n blocks keeps the first n - 1 matrices of the shorter cut and adds block n - 1, reshaped, as the last |
| Codec.UnflattenLayersExtend | NeuralNet.py:202-206 | after a successful cut, a block that fits is appended as its reshape |
| Codec.UnflattenLayersSucceeds | NeuralNet.py:198-206 | cutting the first n blocks succeeds exactly when the vector reaches `Offset(a, n)`, and then gives n matrices |
| Codec.UnflattenLayersBlock | NeuralNet.py:198-206 | block k of a successful cut is the column-major reshape of `v[Offset(a,k) .. Offset(a,k+1)]` to (a[k+1], a[k]+1) |
| Codec.UnflattenEntries | NeuralNet.py:194-207 | `reshapeParams` succeeds iff `Total(a) <= |v|`; then it gives one matrix per layer pair, each of its layer's shape, with entry (i, j) read from element `Offset(a,k) + j·a[k+1] + i` |
| Codec.ShortVectorFails | NeuralNet.py:198-205 | a vector shorter than `Total(a)` makes `reshapeParams` fail with a shape error |
| Codec.ShortVectorFailsUpTo | NeuralNet.py:198-205 | a vector that ends before `Offset(a, n)` makes the cut of the first n blocks fail with a shape error |
| Codec.UnflattenIgnoresTail | NeuralNet.py:198-206 | elements beyond `Total(a)` never change the result of `reshapeParams` |
| Codec.FailurePersists | NeuralNet.py:202-206 | once a block fails to reshape, every longer cut fails with the same error |
| Codec.ReshapeParams | NeuralNet.py:194-207 | the loop over layers returns exactly the specified cut, including its error cases |
| Codec.FlattenLength | NeuralNet.py:184-191 | concatenating the layouts of matrices shaped for the first n layer pairs gives `Offset(a, n)` elements |
| Codec.FlattenBlock | NeuralNet.py:289-291 | in the concatenation, matrix k occupies exactly block k, as its own column-major layout |
| Codec.FlattenEntry | NeuralNet.py:289-291 | entry (i, j) of matrix k lands at position `Offset(a,k) + ColumnMajorIndex(i, j, a[k+1], a[k]+1)`, that is `Offset(a,k) + j·a[k+1] + i`, of the flat vector |
| Codec.FlattenLayout | NeuralNet.py:289-291 | the flat vector has `Offset(a, |ts|)` elements and holds each matrix's layout at its block |
| Codec.FlattenUnflatten | NeuralNet.py:194-207 | reshaping a vector of exactly `Total(a)` elements and flattening the matrices gives the vector back |
| Codec.UnflattenFlatten | NeuralNet.py:194-207 | flattening matrices of the architecture's shapes gives `Total(a)` elements, and `reshapeParams` gives the same matrices back |
| Codec.FlattenSnoc | NeuralNet.py:288-291 | concatenating one more matrix appends exactly its column-major layout |
| Codec.FlattenLayers | NeuralNet.py:289-291 | the ravel-and-concatenate loop computes the specified flattening |
| Codec.RandInitParams | NeuralNet.py:171-176 | a drawn weight matrix has shape (nOut, nIn+1) |
| Codec.InitialThetas | NeuralNet.py:178-192 | the matrices `initialise` draws are one per layer pair, each of its layer's shape |
| Codec.InitialLayout | NeuralNet.py:178-192 | the initial vector has `Total(a)` elements and `reshapeParams` cuts it back into the drawn matrices |
| Codec.Initialise | NeuralNet.py:178-192 | `initialise` fails with `KeyError` iff there are fewer than two layers; otherwise it returns the concatenated layouts of the drawn matrices, of length `Total(a)`, which `reshapeParams` inverts |
| Labels.NumClassesBounds | NeuralNet.py:233-234 | there are never more distinct labels than examples, and at least one when there is an example |
| Labels.OneHot | NeuralNet.py:233-243 | a successful encoding is a k × m matrix, where k is the number of distinct labels and m the number of examples |
| Labels.OneHotEncoding | NeuralNet.py:233-243 | the fill-and-transpose loop over an m × k array computes the specified encoding, including the `IndexError` at the first label that addresses no row |
| Labels.TransposedIsOneHot | NeuralNet.py:241-243 | once every example's row of the array is filled, its transpose is the encoding |
| Labels.WrapIndex | NeuralNet.py:241 | numpy's wrap-around of a negative index −k ≤ t < 0 addresses row t + k, which is t mod k |
| Labels.OneHotColumn | NeuralNet.py:239-243 | column i of the encoding is the basis vector of row `y[i] mod k`: a 1 there and 0 in every other row |
| Labels.OneHotLabelTooLarge | NeuralNet.py:241 | a label ≥ the number of distinct labels makes the encoder raise `IndexError` |
| Labels.NonNegativeLabelsSucceedIff | NeuralNet.py:233-243 | for non-negative labels the encoder succeeds iff the labels are exactly 0 .. k−1 |
| Labels.OneBasedLabelsFail | NeuralNet.py:209-241 | labels 1, 2, 3, numbered as the docstring describes, make the encoder raise `IndexError` |
| Labels.OneHotExample | NeuralNet.py:233-243 | labels 0, 1, 2, 1 encode to the 3 × 4 indicator matrix |
| Regularisation.SumSquares | NeuralNet.py:257 | a sum of squares is never negative |
| Regularisation.RowsPenalty | NeuralNet.py:257 | the sum of squared non-bias weights of some rows is never negative |
| Regularisation.LayerPenalty | NeuralNet.py:257 | one layer's regularisation term is never negative |
| Regularisation.Penalty | NeuralNet.py:254-258 | the regularisation term over all layers is never negative |
| Regularisation.AccumulateRegTerm | NeuralNet.py:254-258 | the loop over all but the last layer, followed by the last layer, adds each layer's term exactly once: the result is `regTerm + Penalty(thetas)`, never below `regTerm` |
| Regularisation.PenaltyAppend | NeuralNet.py:254-258 | the term of two runs of layers is the sum of their terms |
| Regularisation.RowsPenaltyIgnoresBias | NeuralNet.py:257 | rows that agree except for their bias weights have the same term |
| Regularisation.PenaltyIgnoresBias | NeuralNet.py:257-258 | the regularisation term does not depend on the bias column of any layer |
| Regularisation.Clamped | NeuralNet.py:263-269 | a hypothesis entry of exactly 1 becomes 1 − 1e-9, one of exactly 0 becomes 1e-9, every other value is unchanged, and no result is 0 or 1 |
| Regularisation.ClampedIdempotent | NeuralNet.py:263-269 | nudging twice is nudging once |
| Regularisation.Occurs | NeuralNet.py:263 | `target in hypothesis` is true iff some entry equals the target exactly |
| Regularisation.NudgeAll | NeuralNet.py:266 | every entry equal to the target moves by delta and every other entry is unchanged |
| Regularisation.ClampHypothesis | NeuralNet.py:263-269 | the two guarded updates of the hypothesis array leave each entry nudged, and no entry is 0 or 1 |
| Regularisation.RegularisedGradient | NeuralNet.py:286-287 | the regularised gradient has the weight matrix's shape; column 0 is the unregularised gradient; every other entry gains exactly (1/m)·LAMBDA·theta |
| Regularisation.ZeroLambdaIdentity | NeuralNet.py:287 | with LAMBDA = 0 regularisation changes no gradient |
| Regularisation.RegularisedLayers | NeuralNet.py:285-288 | each layer's regularised gradient has the shape of its weight matrix |
| Regularisation.BackPropGradients | NeuralNet.py:285-291 | the regularise-then-ravel loops return the flattening of the regularised gradients |
| Regularisation.RegularisedConforms | NeuralNet.py:285-288 | the regularised gradients have the architecture's shapes |
| Regularisation.GradientLayout | NeuralNet.py:285-291 | the gradient vector has `Total(a)` elements and `reshapeParams` cuts it into the regularised gradients |
| Regularisation.FlatBiasIgnoresLambda | NeuralNet.py:286-291 | in the flat gradient vector the bias gradient of unit i of layer k, at `Offset(a,k) + i`, is the unregularised one, whatever LAMBDA is |
| Network.LookupOptimiser | NeuralNet.py:55-65 | the optimiser table answers exactly for "fmin_cg" and "fmin_bfgs", with the optimiser of that name; any other name raises `NotImplementedError` |
| Network.LookupOptimiserValue | NeuralNet.py:55-65 | for an argument of any type, the table answers only a string that names one of its optimisers; every other value, a function included, raises `NotImplementedError` |
| Network.RebuildFromParamsFails | NeuralNet.py:62-65 | the optimiser attribute of a new estimator, which `get_params` reports, is the optimiser function, and passing it back to `__init__` raises `NotImplementedError` |
| Network.LookupOptimiserName | NeuralNet.py:55-63 | every optimiser is found under its own name |
| Network.InitialAttributes | NeuralNet.py:57-68 | `__init__` creates exactly the six attributes, with `_trainedParams` None |
| Network.Assign | NeuralNet.py:163-169 | `setattr` keeps the attribute names; it succeeds iff the name is already an attribute, overwriting that one only; otherwise it raises `AttributeError(name)` and changes nothing |
| Network.SettingsKeepNames | NeuralNet.py:159-169 | `set_params` never adds or removes an attribute |
| Network.SettingsSucceedIff | NeuralNet.py:159-169 | `set_params` succeeds iff every name it is given is an attribute, `_trainedParams` included |
| Network.SettingsStopAtUnknown | NeuralNet.py:159-169 | at the first unknown name `set_params` raises `AttributeError` for that name, and the settings before it stay applied |
| Network.SettingsFailurePersists | NeuralNet.py:159-161 | once a `setattr` has raised, later items change nothing |
| Network.SettingsOwnValues | NeuralNet.py:159-169 | storing each attribute's own value leaves the attributes unchanged |
| Network.SetParamsOfGetParams | NeuralNet.py:152-169 | `set_params(**get_params())` succeeds and leaves the estimator as it was |
| Network.OutputKey | NeuralNet.py:101-104 | the key of the output layer, `len(keys())` after key 0 is set, is at least 1, so it never overwrites the input size |
| Network.ResolveArchitecture | NeuralNet.py:98-104 | key 0 holds n; the output key is added iff there are at least two labels, holding k for more than two labels and 1 for two; other existing keys keep their sizes |
| Network.ResolveFromHidden | NeuralNet.py:98-104 | hidden layers under keys 1..h resolve to layers [n] + hidden + [output size], or [n] + hidden with no output layer when there is a single label |
| Network.ResolveAgainAppends | NeuralNet.py:98-104 | resolving an architecture a second time replaces the input size and appends another output layer |
| Network.ResolveOverwritesGap | NeuralNet.py:98-104 | with hidden key 2 and no key 1, the output layer overwrites layer 2: {2: 25} resolves to {0: n, 2: k} |
| Network.ArchitectureLayers | NeuralNet.py:184-205 | the layer lookups succeed iff the keys are exactly 0..N, and then read the sizes in index order |
| Network.FittedKeepsNames | NeuralNet.py:73-140 | `fit` never adds or removes an attribute |
| Network.FitSqueezedInputFails | NeuralNet.py:92-95 | an X with a single row or a single column loses an axis to `np.squeeze`, and unpacking its shape raises `ValueError` before any attribute changes |
| Network.FitArrayArchitectureFails | NeuralNet.py:98-105 | `fit` never completes on an architecture that is a numpy array: element 0 of a non-empty array is overwritten with the number of features, and with two or more labels the missing `keys()` raises `AttributeError` |
| Network.FitFailureKeepsArchitecture | NeuralNet.py:92-130 | when X keeps two axes and the labels cannot be encoded, `fit` raises `IndexError`, but the resolved architecture has already been stored |
| Network.FitTrainsFromInitialVector | NeuralNet.py:129-139 | when X keeps two axes after `np.squeeze`, the architecture is a dict, the labels encode, the resolved keys are 0 .. N with N ≥ 1 and the optimiser is a function, `fit` starts the optimiser from a vector of `Total(a)` elements that `reshapeParams` cuts back into the drawn matrices, and stores its result as `_trainedParams` next to the resolved architecture |
| Network.FitSucceedsIff | NeuralNet.py:92-139 | `fit` completes exactly when X keeps two axes after `np.squeeze` (neither one row nor one column), the architecture is a dict, every label encodes, the resolved keys are the layer indices 0 .. N with N ≥ 1, and the optimiser is a function |
| Network.NeuralNetwork.constructor | NeuralNet.py:52-68 | the new estimator holds the initial attributes |
| Network.NeuralNetwork.New | NeuralNet.py:52-68 | construction succeeds iff the optimiser argument is a name in the table; any other value, a function included, raises `NotImplementedError` |
| Network.NeuralNetwork.GetParams | NeuralNet.py:152-157 | `get_params` reports the five settings by name, with their current values, and not `_trainedParams` |
| Network.NeuralNetwork.SetAttr | NeuralNet.py:163-169 | the attributes and outcome are those `Assign` specifies |
| Network.NeuralNetwork.SetParams | NeuralNet.py:159-161 | the loop of `setattr` calls leaves the attributes and outcome that `ApplySettings` specifies, stopping at the first failure |
| Network.NeuralNetwork.Fit | NeuralNet.py:73-140 | `fit`, step by step, leaves the attributes and outcome that `Fitted` specifies: `ValueError` for an X that `np.squeeze` reduces, the in-place write and `AttributeError` for a numpy-array architecture, `TypeError` for any other non-dict, and otherwise the resolve, encode, initialise, optimise and store steps |
| Network.NeuralNetwork.Train | NeuralNet.py:129-139 | the encode and layer-lookup steps of `fit`, run on an already-resolved architecture, followed by `Optimise`, leave the attributes and outcome that `Trained` specifies |
| Network.NeuralNetwork.Optimise | NeuralNet.py:134-139 | drawing the initial vector, checking that the optimiser is a function, running it and storing its result leave the attributes and outcome that `Optimised` specifies |

## Left out

- Neuron.py is not part of this model. The sigmoid and tanh neurons, the matrix products of
  `feedForward` and `backProp`, the deltas, and the log-loss cost are floating-point numerics and
  are not modelled. `fit`'s choice of neuron changes nothing the model tracks.
- Random numbers: `rng(call, i, j)` is a parameter standing for the value drawn for entry (i, j)
  on the call-th draw. The range ±√6/√(nIn+nOut+1) is not modelled.
- The scipy optimiser: `optimise` is a parameter standing for the selected optimiser run from the
  initial vector. The cost and gradient callbacks handed to it are not modelled.
- `print`, `__repr__` and `predict` (an empty body) are not modelled.
- Python `float` is modelled as `real`. Rounding is not modelled. The 0/1 nudge is therefore exact,
  and labels are `int` rather than the result of `int(targets[i])`.
- Several names are not the ones the surrounding code defines. Each is modelled as the evidently
  meant name:
  - `fit` calls `oneHotEncoding(y)` (line 130) as the method;
  - `fit` calls `optimiser(...)` (line 136) as `self.optimiser`;
  - `initialise` reads `self._architecture` (line 187) as `self.architecture`;
  - `oneHotEncoding` reads `targets` as its parameter `y`;
  - the cost callbacks call `costFunction` with the wrong arguments.
- Dict insertion order is not modelled. Layers are taken in index order 0..N. In the source,
  `keys()` follows insertion order, so `fit` adding key 0 after the user's hidden keys changes
  which layers `initialise` (`keys()[1:-1]`) and `reshapeParams` (`keys()[2:]`) visit.
- Network.ArchitectureLayers: any architecture whose keys are not exactly 0..N is treated as a
  `KeyError`. The source fails only when one of the specific lookups it performs misses.
- The mutable default `{1: 25}` is not modelled: each estimator is given its own architecture
  map. In the source, estimators built with the default share one dict, and `fit` updates it in
  place.
- X is modelled as a two-dimensional matrix. `np.squeeze` followed by `m, n = np.shape(X)` is
  modelled as a `ValueError` for one row or one column and as "n is the number of columns"
  otherwise. Inputs given with three or more axes are not modelled.
- `np.squeeze(y)` is not modelled: y is a sequence of labels. A single label would become a 0-d
  array that `oneHotEncoding` cannot index, while the model encodes it as a 1 × 1 matrix. With a
  matching one-row X, `fit` has already stopped with `ValueError` by then.
- Regularisation.RegularisedGradient: requires m ≠ 0. With no examples the source divides by zero.
- Two labels: `fit` gives the output layer one unit, while `oneHotEncoding` gives two rows. The
  cost computation where these meet is not modelled.
- The error types `fit` raises are modelled as `Errors.Error` values. Python exceptions that the
  misnamed calls above would raise first are not modelled.

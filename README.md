# Keras built-in regularizers, modelled in Dafny

This project models the regularizers module of Keras (`keras/regularizers.py`).
A regularizer is a penalty computed from a tensor of weights or activations
and added to the training loss. The model covers:

- the base `Regularizer`, whose penalty is always zero;
- `L1L2`, with penalty `l1 * sum|x| + l2 * sum x^2`, and its configuration
  round trip through `get_config` / `from_config`;
- `EigenvalueRegularizer`, which takes a rank-2 tensor `x`, forms
  `C = x^T x`, and estimates the dominant eigenvalue of `C` with nine steps of
  the power method from the all-ones vector;
- `get`, which turns a user-supplied identifier into a regularizer;
- the legacy `WeightRegularizer` and `ActivityRegularizer` classes, which bind
  once to a parameter tensor or to a layer, and add their penalty to a loss
  only in the training phase;
- the module-level alias constructors.

Tensors are exact mathematical values over `real` (`backend.dfy`, module
`Backend`). A tensor is its shape plus its elements in row-major order. The
backend operations the module uses are functions on these values:
absolute value, square, sum, matrix product, transpose and the all-ones
vector. `backend.dfy` also proves the linear-algebra facts the eigenvalue
lemmas rest on. Examples are `x^T x` being positive semi-definite and
`Dot` being bilinear.

Python exceptions are `Err` values of a `Result` datatype. A method that
returns nothing or raises returns an `Outcome`. Configuration dictionaries
are `map<string, Entry>`. `from_config`, which is `cls(**config)`, is modelled
for each class by binding the dictionary to that constructor's keyword
parameters.

The eigenvalue estimate follows the code, `(Cv)^T v / (v^T v)` with
`v = C^9 1`. It does not use `(Cv)^T (Cv)`. The division is IEEE division
over exact reals: `0/0` is NaN and `x/0` is an infinity of the sign of `x`.

## Model

| member | source | states |
|---|---|---|
| Regularizers.Regularizer.Call | keras/regularizers.py:17-18 | the base penalty is 0 for every tensor, whatever its shape |
| Regularizers.Regularizer.FromConfig | keras/regularizers.py:20-22 | `Regularizer(**config)` succeeds exactly for the empty configuration; any keyword is a TypeError |
| Regularizers.FloatArgument | keras/regularizers.py:33-35 | an absent factor is 0; a number is taken as is; non-numeric text is a ValueError and a nested dictionary a TypeError; numeric text is a ValueError too (see Left out) |
| Regularizers.L1L2Arguments | keras/regularizers.py:33-35 | binding a configuration to `(l1=0., l2=0.)` succeeds iff its keys are among l1, l2 and its values are numbers; an unknown key is the unexpected-keyword TypeError; otherwise the first failing factor's conversion error (l1 before l2) comes back unchanged; a missing factor defaults to 0 |
| Regularizers.AddIfNonZero | keras/regularizers.py:39-42 | one `if coefficient:` step: the running total grows by `c * sum(xs)`, the skipped term for c = 0 adding exactly that |
| Regularizers.AccumulatePenalty | keras/regularizers.py:37-43 | adding the l1 term only when l1 is non-zero and the l2 term only when l2 is non-zero gives `start + l1*sum|x| + l2*sum x^2` |
| Regularizers.L1L2PenaltyNonNegative | keras/regularizers.py:37-43 | with non-negative factors the L1/L2 penalty is never negative |
| Regularizers.L1L2.Call | keras/regularizers.py:37-43 | the penalty of `x` is `l1*sum|x_i| + l2*sum x_i^2` |
| Regularizers.NullAgreesWithZeroCoefficients | keras/regularizers.py:17-43 | `L1L2(0, 0)` gives penalty 0 on every tensor, the same as the base regularizer |
| Regularizers.L1L2.GetConfig | keras/regularizers.py:45-47 | the configuration has exactly the keys l1 and l2, holding the two factors |
| Regularizers.L1L2.FromConfig | keras/regularizers.py:20-35 | `L1L2(**config)` succeeds iff the keyword binding does, and then carries the bound factors; otherwise the binding's error comes back unchanged |
| Regularizers.ConfigRoundTrip | keras/regularizers.py:20-47 | `from_config(get_config(r))` rebuilds `r`, so it has the same factors and the same penalty on every input |
| Regularizers.FromConfigDefaults | keras/regularizers.py:20-35 | an empty configuration gives `L1L2(0, 0)`; a configuration with only one factor leaves the other at 0 |
| Regularizers.L1AndL2 | keras/regularizers.py:61-62 | `l1_l2` builds an L1L2 with the given factors, both defaulting to 0.01 |
| Regularizers.NameConfig | keras/regularizers.py:82 | a class name stands for the configuration with exactly the keys class_name (the name) and config (empty) |
| Regularizers.Get | keras/regularizers.py:76-88 | None resolves to None and nothing else does; a dict is deserialized unchanged, and the deserializer's result or error comes back as is; a string is deserialized through its name configuration, again with its result or error passed through; a callable is returned as is; anything else is a ValueError whose message ends with the identifier's text; no other case fails |
| Regularizers.GetNameIsEmptyConfig | keras/regularizers.py:79-83 | resolving a name is the same as resolving the configuration `{'class_name': name, 'config': {}}` |
| Regularizers.Quotient | keras/regularizers.py:153-154 | a non-zero denominator gives the exact quotient; a zero denominator gives NaN exactly when the numerator is also zero, and otherwise the infinity of the numerator's sign |
| Regularizers.EigenvalueRegularizer.Call | keras/regularizers.py:137-154 | a tensor whose rank is not 2 is a ValueError, and only such a tensor is; otherwise the result is the gain k with the power-method estimate `(Cv)^T v / v^T v` for `C = x^T x` and `v = C^9 1` |
| Regularizers.EigenvalueRegularizer.FromConfig | keras/regularizers.py:20-22 | `EigenvalueRegularizer(**config)` succeeds iff the only key is k, holding a number; other keys are the unexpected-keyword TypeError; an empty configuration is the missing-argument TypeError; a k that is not a number gives its conversion error unchanged |
| Regularizers.EstimateNonNegative | keras/regularizers.py:141-156 | the estimate is either NaN or a non-negative value, never an infinity: `x^T x` is positive semi-definite, and a zero denominator `v^T v` makes v, and so the numerator, zero; the square root taken of a value is real |
| Regularizers.PowerMethodExactOnEigenvector | keras/regularizers.py:145-154 | when the all-ones start vector is an eigenvector of C for a non-zero eigenvalue lambda, the estimate is exactly lambda |
| Regularizers.AllOnesTwoByTwo | keras/regularizers.py:137-154 | for the 2 x 2 all-ones tensor, the estimate is 4, the dominant eigenvalue of its Gram matrix |
| Regularizers.DiagonalTwoByTwo | keras/regularizers.py:141-154 | for the tensor [[1, 0], [0, 2]] (Gram matrix diag(1, 4)) the estimate is exactly (1 + 4^19) / (1 + 4^18), the value of nine power steps: close to, but not, the eigenvalue 4 |
| Regularizers.WeightRegularizer.constructor | keras/regularizers.py:161-165 | a new instance holds the two factors, uses the learning phase and is unbound |
| Regularizers.WeightRegularizer.SetParam | keras/regularizers.py:167-171 | an unbound instance stores the parameter; a bound one raises the reuse Exception and keeps its parameter |
| Regularizers.WeightRegularizer.Call | keras/regularizers.py:173-188 | an unbound instance raises; in the training phase the result is the loss plus the L1/L2 penalty of the parameter, otherwise the loss unchanged |
| Regularizers.WeightRegularizer.GetConfig | keras/regularizers.py:190-193 | the configuration has exactly the keys name (the class name), l1 and l2 |
| Regularizers.WeightRegularizer.FromConfig | keras/regularizers.py:20-22 | `WeightRegularizer(**config)` succeeds iff the keyword binding does, and returns a fresh, unbound instance with the bound factors |
| Regularizers.WeightConfigNotReloadable | keras/regularizers.py:190-193 | the saved configuration cannot be read back: its name key is an unexpected keyword |
| Regularizers.NodesPenaltyNonNegative | keras/regularizers.py:214-221 | with non-negative factors, the penalty summed over a layer's outputs is never negative |
| Regularizers.ActivityRegularizer.constructor | keras/regularizers.py:198-202 | a new instance holds the two factors, uses the learning phase and is unbound |
| Regularizers.ActivityRegularizer.SetLayer | keras/regularizers.py:204-207 | an unbound instance stores the layer; a bound one raises the reuse Exception and keeps its layer |
| Regularizers.ActivityRegularizer.Call | keras/regularizers.py:209-221 | an unbound instance raises; in the training phase the result is the loss plus the L1/L2 penalty of the output at every inbound node (the loss itself with no nodes), otherwise the loss unchanged |
| Regularizers.ActivityRegularizer.GetConfig | keras/regularizers.py:223-226 | the configuration has exactly the keys name (the class name), l1 and l2 |
| Regularizers.ActivityRegularizer.FromConfig | keras/regularizers.py:20-22 | `ActivityRegularizer(**config)` succeeds iff the keyword binding does, and returns a fresh, unbound instance with the bound factors |
| Regularizers.ActivityConfigNotReloadable | keras/regularizers.py:223-226 | the saved configuration cannot be read back: its name key is an unexpected keyword |
| Regularizers.L1 | keras/regularizers.py:229-230 | `l1(l)` is a fresh, unbound WeightRegularizer with l1 = l (default 0.01) and l2 = 0 |
| Regularizers.L2 | keras/regularizers.py:233-234 | `l2(l)` is a fresh, unbound WeightRegularizer with l1 = 0 and l2 = l (default 0.01) |
| Regularizers.L1L2Legacy | keras/regularizers.py:237-238 | `l1l2` is a fresh, unbound WeightRegularizer with both factors, each defaulting to 0.01 |
| Regularizers.ActivityL1 | keras/regularizers.py:241-242 | `activity_l1(l)` is a fresh, unbound ActivityRegularizer with l1 = l (default 0.01) and l2 = 0 |
| Regularizers.ActivityL2 | keras/regularizers.py:245-246 | `activity_l2(l)` is a fresh, unbound ActivityRegularizer with l1 = 0 and l2 = l (default 0.01) |
| Regularizers.ActivityL1L2 | keras/regularizers.py:249-250 | `activity_l1l2` is a fresh, unbound ActivityRegularizer with both factors, each defaulting to 0.01 |

## Left out

- Float32 arithmetic: `K.cast_to_floatx` (keras/regularizers.py:34-35, 162-163, 199-200) and the backend's floating-point rounding. All arithmetic is exact over `real`, and no rounding behaviour is claimed.
- The training-phase switch `K.in_train_phase` (keras/regularizers.py:188, 221) reads ambient symbolic state. Here it is the explicit `training` parameter.
- EigenvalueRegularizer.Call: the final square root, the multiplication by k and `K.sum` (keras/regularizers.py:156-157) are not computed. The result carries the gain k beside the eigenvalue estimate. The estimate is proved non-negative, so the square root is real whenever the estimate is a finite value.
- EigenvalueRegularizer.Call: the estimate can be NaN, namely when `v = C^9 1` is the zero vector (for example, an all-zero tensor). The model keeps that case as `NotANumber`.
- `K.eval(K.shape(...))` (keras/regularizers.py:142) is just the matrix dimension, `x.shape[1]`.
- `serialize` and `deserialize` (keras/regularizers.py:65-73) call `serialize_keras_object` / `deserialize_keras_object` and look names up in the module's globals. Those helpers are not part of this model. `Get` takes `deserialize` as a function parameter. Custom-object precedence and the not-found error are not specified.
- The `L1L2`-returning `l1` and `l2` at keras/regularizers.py:53-58 are rebound by the later definitions at 229-234. Python keeps the last binding, so only the later ones are modelled.
- The triple-quoted block at keras/regularizers.py:97-133 is a string literal, not code.
- Layer internals: `layer.inbound_nodes` and `get_output_at` (keras/regularizers.py:215-216) belong to the layer object. A bound layer is modelled as the sequence of its output tensors, one per inbound node, fixed when the layer is bound.
- FloatArgument: text is always a ValueError, even numeric text such as "0.5", which the float conversion accepts; parsing strings into numbers is not modelled.
- L1L2Arguments: a configuration value must be a number. Text is always a ValueError, even a numeric string such as "0.5", which the float conversion would accept; string-to-number parsing is not modelled.
- EigenvalueRegularizer.FromConfig: k must be a number, and other values fail as in FloatArgument. The source stores whatever k it is given and would fail only when the penalty is computed.
- `uses_learning_phase` (keras/regularizers.py:164, 201) is recorded as a field but nothing reads it.
- Objects passed to `get` are classified by their Python type before the call. `str(identifier)` for the fall-through case is the given text.

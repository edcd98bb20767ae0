# A model of the ANT network core

This project models the network class `NNet_t`, its layer base `stratum_t`
and its softmax / maximum-likelihood output layer `SoftmaxMLE_t`, all from
the ANT neural-network trainer. The model is written in Dafny.

- Layers whose fields the C++ code updates in place are Dafny classes:
  - `Strata.Stratum` is the layer base;
  - `MLE.SoftmaxMLE` is the output layer, and holds its `stratum_t` part as the sub-object `layer`;
  - `NNm.NNet` is the network.
- The weight matrix `ml_W`, the gradient accumulator `ml_dL`, and the response and delta matrices are `array<real>`, stored row-major.
- The loops that fill these buffers through advancing pointers are `while` loops over the same index order, proved against specification functions:
  - the Glorot initialisation;
  - the outer-product accumulation of `_sAPI_bprop`;
  - the weight count and strata chain of the network constructor;
  - the normalisation table.

The modules are:

- `Support`:
  - `Ieee`: a double that can be finite, infinite or NaN;
  - `rand ()` draws in `[0, RAND_MAX]`;
  - sums of reals.
- `Linear`: row-major matrix algebra over `seq<real>`. It covers the dot product, matrix-vector and transposed products, and outer products. Its lemmas state the two facts back-propagation rests on:
  - the outer product is the gradient of `d . (W v)` with respect to `W`;
  - the transposed product is its adjoint.

  It also covers accumulation of outer products.
- `Strata`: `stratum_t`, plus the activation functions a build selects.
- `MLE`: `SoftmaxMLE_t`.
- `NNm`: `NNet_t`.

Doubles are modelled as follows:

- Weights and activations are `real`.
- The configuration fields that can hold NaN (`n_error`, `n_SGDn`, `n_halt`) are `Ieee`.
- `exp`, `log`, `sqrt` and `tanh` are function parameters.
- `rand ()` is a sequence of draws, consumed in call order.

## Model

| member | source | states |
|---|---|---|
| Support.Ieee.Negate | NNm/MLE.h:149-150 | Negation keeps a value finite exactly when it was finite. It flips the sign of an infinity and keeps NaN. |
| Support.UnitSample | NNm/stratum.h:130 | `rand () / RAND_MAX` lies in [0, 1]. It is 0 exactly for draw 0 and 1 exactly for draw RAND_MAX. |
| Strata.Stratum.FromShape | NNm/stratum.h:71-84 | The shape constructor's stratum has N nodes and `len ()` inputs. Its delta and response are fresh, all zero, and N * rows x columns in size. It is frozen and has no strategy. |
| Strata.Stratum.constructor | NNm/stratum.h:86-99 | The (N, Nin) constructor's stratum has N nodes and Nin inputs. Its delta and response are N x 1 and zeroed, and `N ()` returns N. It is frozen and has no strategy. |
| Strata.Stratum.Thaw | NNm/stratum.h:112-115 | Clears `frozen`. Nothing else may change, so repeating it changes nothing. |
| Strata.Stratum.Freeze | NNm/stratum.h:117-120 | Sets `frozen`. Nothing else may change, so repeating it changes nothing. |
| Strata.Stratum.InitLearnable | NNm/stratum.h:122-134 | Entry q < N becomes the unit sample of draw q, so it lies in [0, 1]. Every entry from N on keeps its old value. |
| Strata.Stratum.Strategy | NNm/stratum.h:145-149 | The default strategy hook delegates exactly once when a strategy is installed, and does nothing when `s_strat` is null. The call appends this stratum to the ghost log of strategy calls. |
| Strata.Stratum.Trainable | NNm/stratum.h:169-172 | A plain stratum has no learnable parameters. |
| Strata.Relu | NNm/stratum.h:45-46 | The rectifier is max (x, 0): it is never negative, never below x, and equals x or 0. |
| Strata.Logistic | NNm/stratum.h:39 | The sigmoid of any input lies strictly between 0 and 1. |
| Strata.Activate | NNm/stratum.h:42-54 | ACTIVATION_FN for each build choice: <br>- the sigmoid lies strictly in (0, 1); <br>- the rectifier is never negative and never below x; <br>- the identity returns x; <br>- tanh is the library's tanh. |
| Strata.Derivative | NNm/stratum.h:40-53 | DERIVATIVE_FN for each build choice, as a function of the activation's output y: <br>- the sigmoid's y (1 - y) never exceeds 1/4; <br>- tanh's 1 - y² never exceeds 1; <br>- the rectifier's is 0 or 1; <br>- the identity's is 1. |
| Strata.DerivativeAtActivation | NNm/stratum.h:42-54 | DERIVATIVE_FN, read at ACTIVATION_FN's output, lies in [0, 1], given that tanh stays in [-1, 1]. It is at most 1/4 for the sigmoid and a step at 0 for the rectifier. |
| Strata.ReluDerivativeAtOutput | NNm/stratum.h:45-50 | The ReLU derivative, read at the rectifier's output, is 1 exactly where the input was positive. The identity derivative is always 1. |
| Strata.DerivativeBounds | NNm/stratum.h:38-54 | On each activation's range, DERIVATIVE_FN lies in [0, 1]. For the sigmoid it lies in [0, 1/4]. |
| NNm.WeightCountAppend | NNm/NNm.h:108-113 | Adding a level of w nodes adds w * (width of the old top level + 1) trainable parameters: one weight per input and one bias per node. |
| NNm.WeightCountAgree | NNm/NNm.h:108-113 | The weight count of the first n levels depends only on their widths. |
| NNm.WeightCountNonNegative | NNm/NNm.h:108-113 | With no negative width, the count is non-negative and never shrinks as levels are added. |
| NNm.CountWeights | NNm/NNm.h:108-113 | The top-down loop of the constructor yields the bottom-up sum over the levels of width[i] * (width[i-1] + 1). |
| NNm.NewStratum | NNm/NNm.h:125-126 | Stratum i-1 is fresh. It has width[i] nodes and width[i-1] inputs. Its name, ID and strategy are the ones the allocation rule chose. It starts frozen with no strategy runs, and `init` received width[i+1] (its own width when it is the output level). |
| NNm.BuildStrata | NNm/NNm.h:115-127 | `n_width[s] == width[s+1]`. Strata s are fresh and distinct. Each is built from the rule's choice for stratum s and initialised as NewStratum states. |
| NNm.NNet.constructor | NNm/NNm.h:89-128 | The network's fields after construction: <br>- `n_Nin == width[0]`, `n_Nout == width[levels-1]`, `n_levels == levels-1`; <br>- the weight count as WeightCount; <br>- a valid chain in which each stratum is allocated with its predecessor's width as its input count (the rule's second argument); <br>- fresh width and strata arrays; <br>- each stratum's shape, the rule's name, ID and strategy, and its `init` argument; <br>- all the defaults (0 steps, halt 1e-5, error NaN, accuracy off, 5000 iterations, keep-alive 100, SGD off with fraction NaN, normalisation off, no tables). |
| NNm.NNet.SetMaxIterations | NNm/NNm.h:144-147 | Sets the iteration cap; the frame lets no other field change. |
| NNm.NNet.SetHalt | NNm/NNm.h:149-152 | Sets the target loss; the frame lets no other field change. |
| NNm.NNet.SetAccuracy | NNm/NNm.h:162-165 | Turns the accuracy halt on; the frame lets no other field change. |
| NNm.NNet.TurnOffAccuracy | NNm/NNm.h:167-170 | Turns the accuracy halt off; the frame lets no other field change. |
| NNm.NNet.SetSGD | NNm/NNm.h:172-176 | Sets both `n_useSGD` and the batch fraction, and nothing else. |
| NNm.NNet.SetKeepAlive | NNm/NNm.h:178-181 | Sets the reporting modulus; the frame lets no other field change. |
| NNm.NNet.UpdateWeights | NNm/NNm.h:194-198 | `Strategy ()` is called once on each stratum, in index order 0 .. n_levels-1: the call log grows by exactly the strata array. Each installed strategy runs exactly once, and the network stays valid. |
| NNm.NNet.SetNormalize | NNm/NNm.h:202-215 | Demands `S->Nin () == n_Nin` and sets `n_normalize`. It leaves fresh tables of 2 * Nin and Nin entries, where entry 2i is Mean (i) and entry 2i+1 is StdDev (i). |
| MLE.Augment | NNm/MLE.h:129-132 | The layer's input vector: 1 in the bias column, then x[j-1] in column j. |
| MLE.ClampLoss | NNm/MLE.h:149-151 | A NaN or infinite loss becomes the sentinel 1000000. A finite loss is kept. |
| MLE.SoftmaxIsDistribution | NNm/MLE.h:141 | The stable softmax of any logits is a probability distribution: entries in (0, 1] that sum to 1. |
| MLE.NormalizeIsDistribution | NNm/MLE.h:141 | Positive weights divided by their sum form a distribution. |
| MLE.ArgMax | NNm/MLE.h:141 | The guess is the first index of a largest probability. |
| MLE.Residual | NNm/MLE.h:153 | The softmax backward step writes p - onehot (answer). |
| MLE.LossDeltaBalanced | NNm/MLE.h:153 | On a distribution, that delta sums to 0 and lies in [-1, 1]. It is non-positive exactly at the answer. |
| MLE.GlorotSample | NNm/MLE.h:82-86 | A weight is the unit sample times r, negated when the second draw is odd, so its magnitude is at most r. |
| MLE.AccumulatedEntry | NNm/MLE.h:126-133 | After a backward pass, `dL[i*s_Nin] == old + delta[i]` and `dL[i*s_Nin+j] == old + delta[i]*x[j-1]` for 1 <= j < s_Nin. Here s_Nin is the stratum's input count, Nin + 1. |
| MLE.BackpropagatedDelta | NNm/MLE.h:103-107 | The delta passed back, W^T delta, is the derivative of `delta . (W [1, x])` with respect to [1, x]. Its bias component is the term that does not depend on x. |
| MLE.SoftmaxMLE.constructor | NNm/MLE.h:53-64 | The layer's stratum has K nodes and Nin + 1 inputs and is named "softmax". W and dL are both K x (Nin + 1). The strategy the rule builds is installed. The guess is -1. |
| MLE.SoftmaxMLE.Init | NNm/MLE.h:70-90 | Every weight, in memory order, is the Glorot sample of the next two draws, so its magnitude is at most sqrt (6 / (K + Nin + 1)), where Nin + 1 is the stratum's input count. The accumulator is zeroed. |
| MLE.SoftmaxMLE.InitRow | NNm/MLE.h:80-87 | The inner loop of `_sAPI_init` writes the next s_Nin (= Nin + 1, `ml_W.columns ()`) weights, each from the next two draws. Every entry of W after the row keeps its value. |
| MLE.SoftmaxMLE.Radius | NNm/MLE.h:72-75 | The Glorot radius sqrt (6 / (K + s_Nin)) over the K classes and the stratum's s_Nin inputs. It is never negative for a library sqrt. |
| MLE.SoftmaxMLE.Bprop | NNm/MLE.h:109-134 | dL becomes old dL + delta ⊗ [1, x]. Only dL may change. |
| MLE.SoftmaxMLE.BpropRow | NNm/MLE.h:128-132 | The inner loop of `_sAPI_bprop` adds row i of the outer product, leaving the rest of dL unchanged. |
| MLE.SoftmaxMLE.Gradient | NNm/MLE.h:103-107 | The predecessor's delta becomes W^T delta with the bias row dropped. Only that delta may change. |
| MLE.SoftmaxMLE.F | NNm/MLE.h:136-144 | The forward pass: <br>- the response is W [1, x]; <br>- the probabilities are its softmax, which form a distribution; <br>- `ml_guess` and the returned value are the first most probable class. |
| MLE.SoftmaxMLE.Loss | NNm/MLE.h:146-156 | Returns 1000000 when `-log P (answer)` is NaN or infinite, and `-log P (answer)` otherwise. The delta becomes p - onehot (answer) in both branches. |
| Linear.OuterIsGradient | NNm/MLE.h:117-125 | `d . (W v)` is the dot product of W with d ⊗ v, so the accumulated outer product is the weight gradient. |
| Linear.TransposeAdjoint | NNm/MLE.h:103-107 | `(W^T d) . v == d . (W v)`: the transposed product is the adjoint of the forward product. |
| Linear.AddOuterCommutes | NNm/MLE.h:126-133 | Two backward passes accumulate the same gradient in either order. |
| Linear.AddOuterSameInput | NNm/MLE.h:126-133 | Two passes on one input accumulate the outer product of the summed deltas. |
| Linear.OuterHasLayout | NNm/MLE.h:126-133 | Entry i * n + j of d ⊗ v is d[i] * v[j], the row-major layout the pointer walk follows. |

## Left out

- Training: `Train`, `Start`, `Compute`, `Loss`, `ComputeDerivative` and `ExposeGradient` are declared in NNm/NNm.h, but their bodies are in `NNm.tcc`, which is not part of this model.
- Strategy allocation:
  - The RPROP and ADAM strategies are not part of this model.
  - A strategy's work is recorded as a ghost count of runs (`strategyRuns`).
  - The `init (fanOut)` and `Strategy ()` members the network calls are not defined in stratum.h. Here `init` records its argument and `Strategy ()` is the default `_sAPI_strategy`.
- Collaborator assumptions:
  - `NeuralM_t`, `Softmax_t`, `shape_t` and `DataSet_t` are not part of this model.
  - The matrix products keep the bias in column 0, as `_sAPI_bprop` lays it out.
  - The transposed product drops the bias row.
  - `ComputeSoftmax` is the max-shifted softmax and returns its first argmax.
  - `Softmax_t::bprop` writes p - onehot.
  - A data set is its input width plus mean and standard-deviation functions.
- The default `stratum_t::_sAPI_Loss` fails an assertion. It has no model member, because a member no caller may reach states nothing.
- Output and memory: `printf`, the destructors, `strdup`/`free` of the name, and the arrays `SetNormalize` leaks when called twice are not modelled.
- `_sAPI_bprop` and `_sAPI_f` take an `activate` flag that they ignore; it is not modelled.
- Floating point:
  - Values are exact reals, so rounding, overflow to infinity and NaN creation inside arithmetic are not modelled.
  - `exp`, `log`, `sqrt` and `tanh` are parameters.
  - `1e-5` is the real 0.00001.
  - `RAND_MAX` is the GNU C library's 2147483647.
- NNm.NNet.constructor: widths and the weight count are unbounded integers, so `int` overflow of `n_Nweights` is not modelled. A caller's negative width is excluded by the precondition.
- MLE.SoftmaxMLE.Loss: the answer arrives as a double (`answers[0]`) used as a class index. The model takes an integer index in range, because `Softmax_t::P` is not part of this model and its behaviour out of range is not known.
- MLE.SoftmaxMLE.constructor: the initial probabilities of `ml_softm` are modelled as zeros.
- NNm.NNet.Steps and Strata.Stratum.N are plain accessors with no contract. The Stratum constructor states what `N ()` returns.
- NNm.NNet.constructor: the allocation rule (`Rule_t`) is not part of this model.
  - Its outcome for each stratum is an input: the name, ID and strategy it chooses.
  - The stratum is then built with the base (N, Nin) constructor, so the layer type the rule picks (such as `SoftmaxMLE_t`) is not captured.
  - `frozen` is promised because every `stratum_t` constructor sets it, and the one derived constructor shown leaves it alone.
  - `Stratum.nin == width[i-1]`, and the chain in `Valid` (each stratum's `nin` equals its predecessor's `nodes`), describe the rule's second argument. That is how a base stratum built with the (N, Nin) constructor would record it.
  - A rule that builds a `SoftmaxMLE_t` stores `s_Nin == width[i-1] + 1` instead (NNm/MLE.h:57), counting the bias column, as `MLE.SoftmaxMLE` does.
  - The model does not connect the two readings.
- The SGD sampler `n_SGDsamples` is not modelled. It starts as a null pointer and is used only by the training code.
- MLE.SoftmaxIsDistribution: `exp` is assumed positive, as it is over the reals. The C library's `exp` underflows to +0.0 for very negative inputs, which can make a probability exactly 0 and its `-log` infinite. That case is not modelled. Within the model the loss sentinel arises only from the `log` parameter.

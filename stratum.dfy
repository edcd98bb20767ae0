/**
 The layer base (`stratum_t`): a layer of `nodes` units reading `nin` inputs,
 owning a response matrix (the last forward pass) and a delta matrix (dL/dz
 of the last backward pass), an optional weight-update strategy, and a frozen
 flag.  Also the activation functions a build can select.
 */
module Strata {
  import opened Support

  /** The weight-update rules a strategy allocator can install. */
  datatype StrategyKind = Rprop | Adam

  /** The fields of `shape_t` a stratum is built from: `n` nodes, a matrix of
      `rows` x `columns` per node, and `len`, the input length `len ()` reports. */
  datatype Shape = Shape(n: int, rows: int, columns: int, len: int)

  class Stratum {
    const name: Option<string>
    const id: int
    const nodes: int
    const nin: int
    /** The response and delta matrices are `rows` x `columns`, row-major. */
    const rows: nat
    const columns: nat
    const delta: array<real>
    const response: array<real>
    /** `s_strat`; `None` is the null pointer. */
    var strat: Option<StrategyKind>
    var frozen: bool
    /** How many times the installed strategy has been run. */
    ghost var strategyRuns: nat
    /** The fan-out the network passed to `init`; `None` before that call. */
    ghost var initFanOut: Option<int>

    ghost predicate Valid()
      reads this
    {
      && delta != response
      && delta.Length == rows * columns
      && response.Length == rows * columns
    }

    /** A stratum of the given shape: N * rows x columns matrices, zeroed. */
    constructor FromShape(name: Option<string>, id: int, x: Shape)
      requires x.n >= 0 && x.rows >= 0 && x.columns >= 0
      ensures Valid() && fresh(delta) && fresh(response)
      ensures this.name == name && this.id == id
      ensures nodes == x.n && nin == x.len
      ensures rows == x.n * x.rows && columns == x.columns
      ensures forall q :: 0 <= q < delta.Length ==> delta[q] == 0.0
      ensures forall q :: 0 <= q < response.Length ==> response[q] == 0.0
      ensures frozen && strat == None
      ensures strategyRuns == 0 && initFanOut == None
    {
      this.name, this.id := name, id;
      nodes, nin := x.n, x.len;
      rows, columns := x.n * x.rows, x.columns;
      delta := new real[x.n * x.rows * x.columns](_ => 0.0);
      response := new real[x.n * x.rows * x.columns](_ => 0.0);
      strat := None;
      frozen := true;
      strategyRuns, initFanOut := 0, None;
    }

    /** A stratum of n nodes reading nin inputs: n x 1 matrices, zeroed. */
    constructor (name: Option<string>, id: int, n: int, nin: int)
      requires n >= 0
      ensures Valid() && fresh(delta) && fresh(response)
      ensures this.name == name && this.id == id
      ensures nodes == n && this.nin == nin && N() == n
      ensures rows == n && columns == 1 && delta.Length == n && response.Length == n
      ensures forall q :: 0 <= q < n ==> delta[q] == 0.0 && response[q] == 0.0
      ensures frozen && strat == None
      ensures strategyRuns == 0 && initFanOut == None
    {
      this.name, this.id := name, id;
      nodes, this.nin := n, nin;
      rows, columns := n, 1;
      delta := new real[n](_ => 0.0);
      response := new real[n](_ => 0.0);
      strat := None;
      frozen := true;
      strategyRuns, initFanOut := 0, None;
    }

    function N(): int {
      nodes
    }

    method Thaw()
      modifies this`frozen
      ensures !frozen
    {
      frozen := false;
    }

    method Freeze()
      modifies this`frozen
      ensures frozen
    {
      frozen := true;
    }

    /** Fills learnable[0 .. n) with samples of the unit interval, one `rand ()`
        draw each, in order; nothing else is written. */
    method InitLearnable(n: int, learnable: array<real>, draws: seq<int>)
      requires n <= learnable.Length && n <= |draws| && AreDraws(draws)
      modifies learnable
      ensures forall q :: 0 <= q < n ==> learnable[q] == UnitSample(draws[q])
      ensures forall q :: 0 <= q < n ==> 0.0 <= learnable[q] <= 1.0
      ensures forall q :: 0 <= q < learnable.Length && q >= n ==> learnable[q] == old(learnable[q])
    {
      var p := 0;
      var i := 0;
      while i < n
        invariant 0 <= i == p <= (if n < 0 then 0 else n)
        invariant forall q :: 0 <= q < p ==> learnable[q] == UnitSample(draws[q])
        invariant forall q :: p <= q < learnable.Length ==> learnable[q] == old(learnable[q])
      {
        var sample := draws[i] as real / RAND_MAX as real;
        learnable[p] := sample;
        p := p + 1;
        i := i + 1;
      }
    }

    /** The default `_sAPI_strategy`: run the installed strategy once, if any.
        `calls` is the log of strata whose strategy hook has been called; the
        log returned has this stratum appended. */
    method Strategy(ghost calls: seq<Stratum?>) returns (ghost calls': seq<Stratum?>)
      modifies this`strategyRuns
      ensures strategyRuns == old(strategyRuns) + (if strat.Some? then 1 else 0)
      ensures calls' == calls + [this]
    {
      calls' := calls + [this];
      if strat.Some? {
        strategyRuns := strategyRuns + 1;
      }
    }

    /** The network's `init (fanOut)` call; only its argument is recorded. */
    method Init(fanOut: int)
      modifies this`initFanOut
      ensures initFanOut == Some(fanOut)
    {
      initFanOut := Some(fanOut);
    }

    /** The default `_sAPI_Trainable`: a plain stratum has no learnable parameters. */
    function Trainable(): (r: int)
      ensures r == 0
    {
      0
    }
  }

  /** The activation functions a build selects (`__TANH_ACT_FN`, `__RELU`,
      `__IDENTITY`, or the sigmoid default). */
  datatype Activation = Sigmoid | Tanh | ReLU | Identity

  /** The rectifier `(X) < 0.0 ? 0.0 : (X)`: max (x, 0). */
  function Relu(x: real): (y: real)
    ensures y >= 0.0 && y >= x
    ensures y == x || y == 0.0
  {
    if x < 0.0 then 0.0 else x
  }

  /** The logistic function 1 / (1 + exp (-x)), given exp (-x). */
  function Logistic(expNegX: real): (y: real)
    requires expNegX > 0.0
    ensures 0.0 < y < 1.0
  {
    1.0 / (1.0 + expNegX)
  }

  /** ACTIVATION_FN; exp and tanh are the C library's, passed in. */
  function Activate(a: Activation, x: real, exp: real -> real, tanh: real -> real): (y: real)
    requires a == Sigmoid ==> exp(-x) > 0.0
    ensures a == Sigmoid ==> 0.0 < y < 1.0
    ensures a == ReLU ==> y >= 0.0 && y >= x
    ensures a == Identity ==> y == x
    ensures a == Tanh ==> y == tanh(x)
  {
    match a
    case Sigmoid => Logistic(exp(-x))
    case Tanh => tanh(x)
    case ReLU => Relu(x)
    case Identity => x
  }

  /** DERIVATIVE_FN, written in terms of the activation's output y. */
  function Derivative(a: Activation, y: real): (r: real)
    ensures a == Sigmoid ==> r <= 0.25
    ensures a == Tanh ==> r <= 1.0
    ensures a == ReLU ==> r == 0.0 || r == 1.0
    ensures a == Identity ==> r == 1.0
  {
    match a
    case Sigmoid =>
      assert 0.25 - y * (1.0 - y) == (y - 0.5) * (y - 0.5);
      y * (1.0 - y)
    case Tanh => 1.0 - y * y
    case ReLU => if y > 0.0 then 1.0 else 0.0
    case Identity => 1.0
  }

  /** At the output of the rectifier, its derivative is 1 exactly where the
      input was positive and 0 elsewhere; the identity's is always 1. */
  lemma ReluDerivativeAtOutput(x: real)
    ensures Derivative(ReLU, Relu(x)) == (if x > 0.0 then 1.0 else 0.0)
    ensures Derivative(Identity, x) == 1.0
  {
  }

  /** Within each activation's range, the derivative lies in [0, 1] (in
      [0, 1/4] for the sigmoid): the activation factor of a back-propagated
      delta never amplifies it. */
  lemma {:induction false} DerivativeBounds(a: Activation, y: real)
    requires a == Sigmoid ==> 0.0 <= y <= 1.0
    requires a == Tanh ==> -1.0 <= y <= 1.0
    ensures 0.0 <= Derivative(a, y) <= 1.0
    ensures a == Sigmoid ==> Derivative(a, y) <= 0.25
  {
    match a {
      case Sigmoid =>
        assert 0.25 - y * (1.0 - y) == (y - 0.5) * (y - 0.5);
        assert y * (1.0 - y) >= 0.0 by {
          assert y >= 0.0 && 1.0 - y >= 0.0;
        }
      case Tanh =>
        assert y * y <= 1.0 by {
          if y >= 0.0 {
            assert y * y <= y * 1.0;
          } else {
            assert y * y == (-y) * (-y) <= (-y) * 1.0;
          }
        }
      case ReLU =>
      case Identity =>
    }
  }

  /** DERIVATIVE_FN read at the output of ACTIVATION_FN, the way a layer
      applies it: in [0, 1] for every activation (given tanh's range), in
      [0, 1/4] for the sigmoid, and the step function for the rectifier. */
  lemma {:induction false} DerivativeAtActivation(a: Activation, x: real, exp: real -> real, tanh: real -> real)
    requires a == Sigmoid ==> exp(-x) > 0.0
    requires a == Tanh ==> -1.0 <= tanh(x) <= 1.0
    ensures 0.0 <= Derivative(a, Activate(a, x, exp, tanh)) <= 1.0
    ensures a == Sigmoid ==> Derivative(a, Activate(a, x, exp, tanh)) <= 0.25
    ensures a == ReLU ==> Derivative(a, Activate(a, x, exp, tanh)) == (if x > 0.0 then 1.0 else 0.0)
  {
    DerivativeBounds(a, Activate(a, x, exp, tanh));
  }
}

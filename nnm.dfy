/**
 The network (`NNet_t`): a chain of strata built from a width array, the count
 of trainable weights, the training configuration and its setters, the
 per-step weight update and the input-normalisation table.
 */
module NNm {
  import opened Support
  import opened Strata

  /** What the network asks of a data set (`DataSet_t`): its input width and
      the mean and standard deviation of each feature. */
  datatype DataSet = DataSet(nin: int, mean: int -> real, stdDev: int -> real)

  /** The trainable parameters of level i: width[i] nodes, each with
      width[i - 1] weights and one bias. */
  function LayerWeights(width: seq<int>, i: nat): int
    requires 1 <= i < |width|
  {
    width[i] * (width[i - 1] + 1)
  }

  /** The trainable parameters of levels 1 .. n - 1, summed bottom-up. */
  function WeightCount(width: seq<int>, n: nat): int
    requires n <= |width|
  {
    if n <= 1 then 0 else WeightCount(width, n - 1) + LayerWeights(width, n - 1)
  }

  /** The count of the first n levels depends on their widths only. */
  lemma {:induction false} WeightCountAgree(a: seq<int>, b: seq<int>, n: nat)
    requires n <= |a| && n <= |b| && a[..n] == b[..n]
    ensures WeightCount(a, n) == WeightCount(b, n)
  {
    if n > 1 {
      assert a[..n - 1] == a[..n][..n - 1] && b[..n - 1] == b[..n][..n - 1];
      assert a[n - 1] == a[..n][n - 1] && b[n - 1] == b[..n][n - 1];
      assert a[n - 2] == a[..n][n - 2] && b[n - 2] == b[..n][n - 2];
      WeightCountAgree(a, b, n - 1);
    }
  }

  /** Stacking a level of w nodes on a network adds w weights per node of the
      old top level plus w biases. */
  lemma {:induction false} WeightCountAppend(width: seq<int>, w: int)
    requires width != []
    ensures WeightCount(width + [w], |width| + 1)
         == WeightCount(width, |width|) + w * (width[|width| - 1] + 1)
  {
    var wider := width + [w];
    assert wider[..|width|] == width[..|width|];
    WeightCountAgree(wider, width, |width|);
  }

  /** With no negative width, no level has a negative weight count. */
  lemma {:induction false} WeightCountNonNegative(width: seq<int>, n: nat)
    requires n <= |width| && forall i :: 0 <= i < n ==> width[i] >= 0
    ensures WeightCount(width, n) >= 0
    ensures n >= 2 ==> WeightCount(width, n) >= WeightCount(width, n - 1)
  {
    if n > 1 {
      WeightCountNonNegative(width, n - 1);
      assert LayerWeights(width, n - 1) >= 0;
    }
  }

  /** What the allocation rule (`Rule_t`) decides for the stratum it builds
      from a (width, inputs) pair: its name, its ID and the strategy it
      installs. */
  datatype Allocation = Allocation(name: Option<string>, id: int, strat: Option<StrategyKind>)

  /** The weight count of the constructor, summed from the output level
      down to level 1. */
  method CountWeights(w: seq<int>, levels: int) returns (n: int)
    requires 1 <= levels <= |w|
    ensures n == WeightCount(w, levels)
  {
    n := 0;
    var i := levels - 1;
    while i > 0
      invariant 0 <= i <= levels - 1
      invariant n == WeightCount(w, levels) - WeightCount(w, i + 1)
    {
      n := n + w[i] * (w[i - 1] + 1);
      i := i - 1;
    }
  }

  /** Stratum i - 1 of the constructor, computing level i from level i - 1,
      built by the rule as `a` records and then told its fan-out. */
  method NewStratum(w: seq<int>, levels: int, i: int, a: Allocation) returns (s: Stratum)
    requires 1 <= i < levels <= |w|
    requires w[i] >= 0 && w[i - 1] >= 0
    ensures fresh(s)
    ensures s.nodes == w[i] && s.nin == w[i - 1]
    ensures s.name == a.name && s.id == a.id && s.strat == a.strat
    ensures s.frozen && s.strategyRuns == 0
    ensures s.initFanOut == Some(if i < levels - 1 then w[i + 1] else w[i])
  {
    s := new Stratum(a.name, a.id, w[i], w[i - 1]);
    s.strat := a.strat;
    s.Init(if i < levels - 1 then w[i + 1] else w[i]);
  }

  /** The width table and the strata of the constructor: stratum s computes
      level s + 1 from level s, is built as `alloc[s]` records, and is
      initialised with the width of the level it feeds, or its own width if
      it is the output. */
  method BuildStrata(w: seq<int>, levels: int, alloc: seq<Allocation>) returns (ws: array<int>, ss: array<Stratum?>)
    requires 1 <= levels <= |w| && |alloc| == levels - 1
    requires forall i :: 0 <= i < levels ==> w[i] >= 0
    ensures fresh(ws) && fresh(ss) && ws.Length == levels - 1 && ss.Length == levels - 1
    ensures forall s :: 0 <= s < levels - 1 ==> ws[s] == w[s + 1]
    ensures forall s {:trigger ss[s]} :: 0 <= s < levels - 1 ==>
      && ss[s] != null && fresh(ss[s])
      && ss[s].nodes == w[s + 1] && ss[s].nin == w[s]
      && ss[s].name == alloc[s].name && ss[s].id == alloc[s].id && ss[s].strat == alloc[s].strat
      && ss[s].frozen && ss[s].strategyRuns == 0
      && ss[s].initFanOut == Some(if s + 1 < levels - 1 then w[s + 2] else w[s + 1])
    ensures forall s, t :: 0 <= s < t < levels - 1 ==> ss[s] != ss[t]
  {
    ws := new int[levels - 1];
    ss := new Stratum?[levels - 1];
    var i := 1;
    while i <= levels - 1
      invariant 1 <= i <= levels
      invariant forall s :: 0 <= s < i - 1 ==> ws[s] == w[s + 1]
      invariant forall s {:trigger ss[s]} :: 0 <= s < i - 1 ==>
        && ss[s] != null && fresh(ss[s])
        && ss[s].nodes == w[s + 1] && ss[s].nin == w[s]
        && ss[s].name == alloc[s].name && ss[s].id == alloc[s].id && ss[s].strat == alloc[s].strat
        && ss[s].frozen && ss[s].strategyRuns == 0
        && ss[s].initFanOut == Some(if s + 1 < levels - 1 then w[s + 2] else w[s + 1])
      invariant forall s, t :: 0 <= s < t < i - 1 ==> ss[s] != ss[t]
    {
      ws[i - 1] := w[i];
      ss[i - 1] := NewStratum(w, levels, i, alloc[i - 1]);
      i := i + 1;
    }
  }

  class NNet {
    const nin: int
    const nout: int
    /** `n_levels`: the levels that hold a stratum; the input level has none. */
    const levels: nat
    /** `n_width[s]`, the width of the level stratum s computes. */
    const width: array<int>
    const strata: array<Stratum?>
    const nweights: int
    var steps: int
    /** The target loss. */
    var halt: Ieee
    /** The current loss. */
    var error: Ieee
    /** Halt training once every sample is classified correctly. */
    var accuracy: bool
    var maxIterations: int
    /** How often training reports its status. */
    var keepalive: int
    var useSGD: bool
    /** The fraction of the batch stochastic gradient descent samples. */
    var sgdFraction: Ieee
    var normalize: bool
    /** Mean and standard deviation of each input feature, interleaved;
        `null` until normalisation is set up. */
    var normParams: array?<real>
    var arg: array?<real>
    /** The strata whose `Strategy ()` has been called, in call order. */
    ghost var strategyCalls: seq<Stratum?>

    /** Every level has its own stratum, and each stratum reads as many
        inputs as its predecessor has nodes. */
    ghost predicate Valid()
      reads this, width, strata
    {
      && nin >= 0
      && width.Length == levels && strata.Length == levels
      && (forall s :: 0 <= s < levels ==> strata[s] != null && strata[s].nodes == width[s])
      && (forall s, t :: 0 <= s < t < levels ==> strata[s] != strata[t])
      && (levels > 0 ==> strata[0].nin == nin && width[levels - 1] == nout)
      && (forall s {:trigger strata[s].nin} :: 1 <= s < levels ==> strata[s].nin == strata[s - 1].nodes)
    }

    /**
     A network of `levels` levels of the given widths; level 0 is the input.
     Stratum i - 1 computes level i from level i - 1 and is told the width of
     the level it feeds (its own width for the output level).  `alloc[s]` is
     what the allocation rule decides for stratum s.
     */
    constructor (w: seq<int>, levels: int, alloc: seq<Allocation>)
      requires 1 <= levels <= |w| && |alloc| == levels - 1
      requires forall i :: 0 <= i < levels ==> w[i] >= 0
      ensures Valid() && fresh(width) && fresh(strata)
      ensures nin == w[0] && nout == w[levels - 1] && this.levels == levels - 1
      ensures nweights == WeightCount(w, levels)
      ensures forall s :: 0 <= s < levels - 1 ==> width[s] == w[s + 1]
      ensures forall s {:trigger strata[s]} :: 0 <= s < levels - 1 ==>
        && fresh(strata[s])
        && strata[s].nodes == w[s + 1] && strata[s].nin == w[s]
        && strata[s].name == alloc[s].name && strata[s].id == alloc[s].id && strata[s].strat == alloc[s].strat
        && strata[s].frozen && strata[s].strategyRuns == 0
        && strata[s].initFanOut == Some(if s + 1 < levels - 1 then w[s + 2] else w[s + 1])
      ensures steps == 0 && halt == Finite(0.00001) && error == NaN
      ensures !accuracy && maxIterations == 5000 && keepalive == 100
      ensures !useSGD && sgdFraction == NaN
      ensures !normalize && normParams == null && arg == null
      ensures strategyCalls == []
    {
      steps := 0;
      halt, error := Finite(0.00001), NaN;
      accuracy, maxIterations, keepalive := false, 5000, 100;
      useSGD, sgdFraction := false, NaN;
      normalize, normParams, arg := false, null, null;
      strategyCalls := [];
      nin, nout, this.levels := w[0], w[levels - 1], levels - 1;
      var n := CountWeights(w, levels);
      var ws, ss := BuildStrata(w, levels, alloc);
      nweights, width, strata := n, ws, ss;
    }

    method SetMaxIterations(maxIterations: int)
      modifies this`maxIterations
      ensures this.maxIterations == maxIterations
    {
      this.maxIterations := maxIterations;
    }

    method SetHalt(mse: Ieee)
      modifies this`halt
      ensures halt == mse
    {
      halt := mse;
    }

    function Steps(): int
      reads this
    {
      steps
    }

    method SetAccuracy()
      modifies this`accuracy
      ensures accuracy
    {
      accuracy := true;
    }

    method TurnOffAccuracy()
      modifies this`accuracy
      ensures !accuracy
    {
      accuracy := false;
    }

    /** Turns stochastic gradient descent on with the given batch fraction. */
    method SetSGD(percentage: Ieee)
      modifies this`useSGD, this`sgdFraction
      ensures useSGD && sgdFraction == percentage
    {
      useSGD := true;
      sgdFraction := percentage;
    }

    method SetKeepAlive(modulus: int)
      modifies this`keepalive
      ensures keepalive == modulus
    {
      keepalive := modulus;
    }

    /** Calls the strategy hook of every stratum once, from the first hidden
        level to the output. */
    method UpdateWeights()
      requires Valid()
      modifies (set s | 0 <= s < strata.Length :: strata[s])`strategyRuns, this`strategyCalls
      ensures Valid()
      ensures strategyCalls == old(strategyCalls) + strata[..]
      ensures forall s :: 0 <= s < levels ==>
        strata[s].strategyRuns == old(strata[s].strategyRuns) + (if strata[s].strat.Some? then 1 else 0)
    {
      var i := 0;
      while i < levels
        invariant 0 <= i <= levels
        invariant strategyCalls == old(strategyCalls) + strata[..i]
        invariant forall s :: 0 <= s < levels ==>
          strata[s].strategyRuns == old(strata[s].strategyRuns) + (if s < i && strata[s].strat.Some? then 1 else 0)
      {
        strategyCalls := strata[i].Strategy(strategyCalls);
        i := i + 1;
      }
    }

    /**
     Sets up input normalisation from a data set of the network's input
     width: entry 2i of the table is the mean of feature i, entry 2i + 1 its
     standard deviation.
     */
    method SetNormalize(S: DataSet)
      requires Valid() && S.nin == nin
      modifies this`normalize, this`normParams, this`arg
      ensures Valid()
      ensures normalize
      ensures normParams != null && fresh(normParams) && normParams.Length == 2 * nin
      ensures arg != null && fresh(arg) && arg.Length == nin
      ensures forall i :: 0 <= i < nin ==> normParams[2 * i] == S.mean(i) && normParams[2 * i + 1] == S.stdDev(i)
    {
      normalize := true;
      var table := new real[nin * 2];
      arg := new real[nin];
      var i := 0;
      while i < nin
        invariant 0 <= i <= nin
        invariant normalize && arg != null && fresh(arg) && arg.Length == nin
        invariant forall j :: 0 <= j < i ==> table[2 * j] == S.mean(j) && table[2 * j + 1] == S.stdDev(j)
      {
        table[i * 2] := S.mean(i);
        table[i * 2 + 1] := S.stdDev(i);
        i := i + 1;
      }
      normParams := table;
    }
  }
}

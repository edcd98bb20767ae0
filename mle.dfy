/**
 The softmax output layer trained by maximum likelihood (`SoftmaxMLE_t`):
 K nodes over Nin inputs plus a bias, a K x (Nin + 1) weight matrix W and a
 gradient accumulator dL of the same shape, both row-major with the bias in
 column 0, and the softmax of the last forward pass.
 */
module MLE {
  import opened Support
  import opened Linear
  import opened Strata

  /** The loss reported when -log P(answer) is NaN or infinite. */
  const LOSS_SENTINEL: real := 1000000.0

  /** The layer's view of an input: the constant 1 for the bias, then the
      first nin - 1 features. */
  function Augment(x: seq<real>, nin: nat): (v: seq<real>)
    requires 1 <= nin <= |x| + 1
    ensures |v| == nin && v[0] == 1.0
    ensures forall j :: 1 <= j < nin ==> v[j] == x[j - 1]
  {
    [1.0] + x[..nin - 1]
  }

  /** The loss clamp of `_sAPI_Loss`. */
  function ClampLoss(loss: Ieee): (r: real)
    ensures loss.NonFinite() ==> r == LOSS_SENTINEL
    ensures loss.Finite? ==> r == loss.value
  {
    if loss.NonFinite() then LOSS_SENTINEL else loss.value
  }

  /** exp over the reals: positive everywhere.  (The C library's exp
      underflows to +0.0 far below zero; that case is not modelled.) */
  ghost predicate PositiveExp(exp: real -> real) {
    forall t :: exp(t) > 0.0
  }

  predicate IsDistribution(p: seq<real>) {
    && Sum(p) == 1.0
    && forall q :: 0 <= q < |p| ==> 0.0 < p[q] <= 1.0
  }

  /** The largest logit. */
  function Max(z: seq<real>): (m: real)
    requires z != []
    ensures forall q :: 0 <= q < |z| ==> z[q] <= m
    ensures exists q :: 0 <= q < |z| && z[q] == m
  {
    if |z| == 1 then z[0]
    else
      var m' := Max(z[1..]);
      assert forall q :: 1 <= q < |z| ==> z[q] == z[1..][q - 1];
      if z[0] > m' then z[0] else m'
  }

  /** exp (z[q] - m) for every logit. */
  function Exps(z: seq<real>, m: real, exp: real -> real): (e: seq<real>)
    requires PositiveExp(exp)
    ensures |e| == |z| && AllPositive(e)
  {
    if z == [] then [] else [exp(z[0] - m)] + Exps(z[1..], m, exp)
  }

  /** The numerically stable softmax `ComputeSoftmax` evaluates: the logits
      are shifted by their maximum before exponentiation, then normalised. */
  function Softmax(z: seq<real>, exp: real -> real): (p: seq<real>)
    requires z != [] && PositiveExp(exp)
    ensures |p| == |z|
  {
    var e := Exps(z, Max(z), exp);
    SumOfPositives(e);
    Scale(e, Sum(e))
  }

  /** Every entry of a positive sequence is at most its sum. */
  lemma {:induction false} EntryBelowSum(e: seq<real>, q: nat)
    requires AllPositive(e) && q < |e|
    ensures e[q] <= Sum(e)
  {
    if q == 0 {
      if |e| > 1 {
        SumOfPositives(e[1..]);
      }
    } else {
      EntryBelowSum(e[1..], q - 1);
    }
  }

  /** Normalising positive weights by their sum gives a distribution. */
  lemma {:induction false} NormalizeIsDistribution(e: seq<real>)
    requires AllPositive(e) && e != []
    ensures Sum(e) > 0.0 && IsDistribution(Scale(e, Sum(e)))
  {
    SumOfPositives(e);
    var s := Sum(e);
    var p := Scale(e, s);
    SumScale(e, s);
    DivSelf(s);
    forall q | 0 <= q < |p|
      ensures 0.0 < p[q] <= 1.0
    {
      EntryBelowSum(e, q);
      FractionBounds(e[q], s);
    }
  }

  lemma DivSelf(s: real)
    requires s != 0.0
    ensures s / s == 1.0
  {
  }

  lemma FractionBounds(a: real, s: real)
    requires 0.0 < a <= s
    ensures 0.0 < a / s <= 1.0
  {
    var f := a / s;
    assert f * s == a;
    assert (1.0 - f) * s == s - a;
  }

  /** The softmax of any logits is a probability distribution. */
  lemma {:induction false} SoftmaxIsDistribution(z: seq<real>, exp: real -> real)
    requires z != [] && PositiveExp(exp)
    ensures IsDistribution(Softmax(z, exp))
  {
    NormalizeIsDistribution(Exps(z, Max(z), exp));
  }

  /** The class guessed: the first index of a largest probability. */
  function ArgMax(p: seq<real>): (r: nat)
    requires p != []
    ensures r < |p|
    ensures forall q :: 0 <= q < |p| ==> p[q] <= p[r]
    ensures forall q :: 0 <= q < r ==> p[q] < p[r]
  {
    if |p| == 1 then 0
    else
      var r := ArgMax(p[..|p| - 1]);
      assert forall q :: 0 <= q < |p| - 1 ==> p[q] == p[..|p| - 1][q];
      if p[|p| - 1] > p[r] then |p| - 1 else r
  }

  /** The softmax backward step: dL/dz = p - onehot (answer). */
  function Residual(p: seq<real>, answer: int): (d: seq<real>)
    ensures |d| == |p|
    ensures forall q {:trigger d[q]} :: 0 <= q < |p| ==> d[q] == p[q] - (if q == answer then 1.0 else 0.0)
  {
    if p == [] then []
    else
      var rest := Residual(p[1..], answer - 1);
      assert forall q :: 1 <= q < |p| ==> rest[q - 1] == p[q] - (if q == answer then 1.0 else 0.0);
      [p[0] - (if answer == 0 then 1.0 else 0.0)] + rest
  }

  lemma {:induction false} ResidualSum(p: seq<real>, answer: int)
    requires 0 <= answer < |p|
    ensures Sum(Residual(p, answer)) == Sum(p) - 1.0
  {
    if answer == 0 {
      ResidualSumNoHit(p[1..], -1);
      assert Residual(p, 0)[1..] == Residual(p[1..], -1);
    } else {
      ResidualSum(p[1..], answer - 1);
      assert Residual(p, answer)[1..] == Residual(p[1..], answer - 1);
    }
  }

  lemma {:induction false} ResidualSumNoHit(p: seq<real>, answer: int)
    requires answer < 0
    ensures Sum(Residual(p, answer)) == Sum(p)
  {
    if p != [] {
      ResidualSumNoHit(p[1..], answer - 1);
      assert Residual(p, answer)[1..] == Residual(p[1..], answer - 1);
    }
  }

  /** On a distribution, the delta the loss writes sums to zero, is negative
      only at the answer and lies in [-1, 1]. */
  lemma {:induction false} LossDeltaBalanced(p: seq<real>, answer: int)
    requires IsDistribution(p) && 0 <= answer < |p|
    ensures Sum(Residual(p, answer)) == 0.0
    ensures forall q :: 0 <= q < |p| ==> -1.0 <= Residual(p, answer)[q] <= 1.0
    ensures forall q :: 0 <= q < |p| ==> (Residual(p, answer)[q] <= 0.0 <==> q == answer)
  {
    ResidualSum(p, answer);
  }

  /** One Glorot weight: a unit sample scaled by r, negated when the second
      draw is odd. */
  function GlorotSample(magnitude: int, sign: int, r: real): (w: real)
    requires 0 <= magnitude <= RAND_MAX && 0 <= sign <= RAND_MAX && r >= 0.0
    ensures -r <= w <= r
    ensures sign % 2 == 0 ==> w == UnitSample(magnitude) * r
    ensures sign % 2 == 1 ==> w == -(UnitSample(magnitude) * r)
  {
    var u := UnitSample(magnitude);
    ScaledUnitBounds(u, r);
    var sample := u * r;
    if sign % 2 == 1 then -sample else sample
  }

  lemma ScaledUnitBounds(u: real, r: real)
    requires 0.0 <= u <= 1.0 && r >= 0.0
    ensures 0.0 <= u * r <= r
  {
    assert r - u * r == (1.0 - u) * r;
  }

  /** sqrt as the C library provides it: non-negative on non-negative input. */
  ghost predicate NonNegativeSqrt(sqrt: real -> real) {
    forall t :: t >= 0.0 ==> sqrt(t) >= 0.0
  }

  /** Entry (i, j) of a table laid out as delta ⊗ [1, x], for c = delta[i]:
      c in the bias column, c * x[j - 1] after it. */
  lemma {:induction false} AugmentedEntry(o: seq<real>, d: seq<real>, x: seq<real>, nin: nat, i: nat, j: nat, c: real)
    requires 1 <= nin <= |x| + 1 && OuterLayout(o, d, Augment(x, nin))
    requires i < |d| && j < nin && c == d[i]
    ensures Entry(i, j, nin) < |o|
    ensures o[Entry(i, j, nin)] == if j == 0 then c else c * x[j - 1]
  {
    var v := Augment(x, nin);
    assert o[Entry(i, j, |v|)] == Times(d[i], v)[j];
    assert Times(c, v)[j] == c * v[j];
  }

  /**
   The accumulator after one backward pass, entry by entry as `_sAPI_bprop`
   addresses it: row i starts at i * nin, its bias entry gains delta[i] and
   entry j >= 1 gains delta[i] * x[j - 1].
   */
  lemma {:induction false} AccumulatedEntry(acc: seq<real>, d: seq<real>, x: seq<real>, nin: nat, i: nat, j: nat)
    requires 1 <= nin <= |x| + 1 && |acc| == RowStart(|d|, nin)
    requires i < |d| && j < nin
    ensures i * nin + j < |acc|
    ensures AddOuter(acc, d, Augment(x, nin))[i * nin + j]
         == acc[i * nin + j] + (if j == 0 then d[i] else d[i] * x[j - 1])
  {
    var v := Augment(x, nin);
    var o := Outer(d, v);
    OuterHasLayout(d, v);
    RowStartIsProduct(i, nin);
    AugmentedEntry(o, d, x, nin, i, j, d[i]);
  }

  /**
   The delta passed back through W is the derivative of d . (W [1, x]) with
   respect to x: the bias column contributes a term that does not depend on
   x, and the rest is the transposed product the predecessor receives.
   */
  lemma {:induction false} BackpropagatedDelta(w: seq<real>, d: seq<real>, x: seq<real>)
    requires |w| == RowStart(|d|, |x| + 1)
    ensures |TransposeMul(w, |x| + 1, d)| == |x| + 1
    ensures Dot(d, MatVec(w, |d|, [1.0] + x))
         == TransposeMul(w, |x| + 1, d)[0] + Dot(TransposeMul(w, |x| + 1, d)[1..], x)
  {
    var t := TransposeMul(w, |x| + 1, d);
    TransposeAdjoint(w, d, [1.0] + x);
    assert Dot(t, [1.0] + x) == t[0] * 1.0 + Dot(t[1..], x);
  }

  /** A vector whose every entry is a[q] + b[q] is a + b. */
  lemma {:induction false} AddPointwise(a: seq<real>, b: seq<real>, c: seq<real>)
    requires |a| == |b| == |c|
    requires forall q :: 0 <= q < |c| ==> c[q] == a[q] + b[q]
    ensures c == Add(a, b)
  {
  }

  class SoftmaxMLE {
    /** The `stratum_t` part of the layer: K nodes, Nin + 1 inputs. */
    const layer: Stratum
    /** `ml_softm.K ()`, the number of classes. */
    const k: nat
    const W: array<real>
    const dL: array<real>
    /** The probabilities of the last forward pass. */
    var probs: seq<real>
    var guess: real

    ghost predicate Valid()
      reads this, layer
    {
      && layer.Valid()
      && k >= 1 && layer.nodes == k && layer.nin >= 1
      && layer.delta.Length == k && layer.response.Length == k
      && W.Length == RowStart(k, layer.nin) && dL.Length == RowStart(k, layer.nin)
      && W != dL
      && W != layer.delta && W != layer.response
      && dL != layer.delta && dL != layer.response
      && |probs| == k
    }

    /** A layer of K classes over Nin inputs; the strategy `rule` builds is
        installed over W and dL. */
    constructor (id: int, K: int, Nin: int, rule: StrategyKind)
      requires K >= 1 && Nin >= 0
      ensures Valid()
      ensures fresh(layer) && fresh(layer.delta) && fresh(layer.response) && fresh(W) && fresh(dL)
      ensures layer.name == Some("softmax") && layer.id == id
      ensures k == K && layer.nodes == K && layer.nin == Nin + 1
      ensures W.Length == K * (Nin + 1) && dL.Length == K * (Nin + 1)
      ensures forall q :: 0 <= q < K ==> layer.delta[q] == 0.0 && layer.response[q] == 0.0
      ensures layer.frozen && layer.strat == Some(rule)
      ensures guess == -1.0
    {
      var base := new Stratum(Some("softmax"), id, K, Nin + 1);
      base.strat := Some(rule);
      layer := base;
      k := K;
      RowStartIsProduct(K, Nin + 1);
      W := new real[K * (Nin + 1)];
      dL := new real[K * (Nin + 1)];
      probs := Zeros(K);
      guess := -1.0;
    }

    /** The Glorot bound sqrt (6 / (K + nin)), nin counting the bias column;
        it is a bound, never negative, for a library sqrt. */
    function Radius(sqrt: real -> real): (r: real)
      reads this, layer
      requires Valid()
      ensures NonNegativeSqrt(sqrt) ==> r >= 0.0
    {
      sqrt(6.0 / (k + layer.nin) as real)
    }

    /**
     `_sAPI_init`: every weight, in memory order, gets a Glorot sample built
     from the next two draws; the accumulator is zeroed.
     */
    method Init(draws: seq<int>, sqrt: real -> real)
      requires Valid() && NonNegativeSqrt(sqrt)
      requires AreDraws(draws) && |draws| >= 2 * W.Length
      modifies W, dL
      ensures Valid()
      ensures forall q :: 0 <= q < W.Length ==>
        W[q] == GlorotSample(draws[2 * q], draws[2 * q + 1], Radius(sqrt))
      ensures forall q :: 0 <= q < W.Length ==> -Radius(sqrt) <= W[q] <= Radius(sqrt)
      ensures forall q :: 0 <= q < dL.Length ==> dL[q] == 0.0
    {
      var r := sqrt(6.0 / (k + layer.nin) as real);
      var nin := layer.nin;
      var p := 0;
      var i := k - 1;
      while i >= 0
        invariant -1 <= i < k
        invariant p == RowStart(k - 1 - i, nin) <= W.Length
        invariant forall q :: 0 <= q < p ==> W[q] == GlorotSample(draws[2 * q], draws[2 * q + 1], r)
      {
        RowStartBound(k - 1 - i, k, nin);
        p := InitRow(p, draws, r);
        i := i - 1;
      }
      forall q | 0 <= q < dL.Length {
        dL[q] := 0.0;
      }
    }

    /** The inner loop of `_sAPI_init`: the nin weights of one row, from
        entry p on, each from the next two draws. */
    method InitRow(p: nat, draws: seq<int>, r: real) returns (p': nat)
      requires Valid() && p + layer.nin <= W.Length && r >= 0.0
      requires AreDraws(draws) && |draws| >= 2 * W.Length
      requires forall q :: 0 <= q < p ==> W[q] == GlorotSample(draws[2 * q], draws[2 * q + 1], r)
      modifies W
      ensures p' == p + layer.nin
      ensures forall q :: 0 <= q < p' ==> W[q] == GlorotSample(draws[2 * q], draws[2 * q + 1], r)
      ensures forall q :: p' <= q < W.Length ==> W[q] == old(W[q])
    {
      p' := p;
      var j := layer.nin - 1;
      while j >= 0
        invariant -1 <= j < layer.nin
        invariant p' == p + (layer.nin - 1 - j)
        invariant forall q :: 0 <= q < p' ==> W[q] == GlorotSample(draws[2 * q], draws[2 * q + 1], r)
        invariant forall q :: p' <= q < W.Length ==> W[q] == old(W[q])
      {
        var sample := draws[2 * p'] as real / RAND_MAX as real;
        sample := sample * r;
        if draws[2 * p' + 1] % 2 == 1 {
          sample := -sample;
        }
        W[p'] := sample;
        p' := p' + 1;
        j := j - 1;
      }
    }

    /**
     `_sAPI_bprop`: adds delta (x) [1, x] to the accumulator, row by row with
     the bias first; nothing but dL changes.
     */
    method Bprop(x: seq<real>)
      requires Valid() && layer.nin <= |x| + 1
      modifies dL
      ensures Valid()
      ensures dL[..] == AddOuter(old(dL[..]), layer.delta[..], Augment(x, layer.nin))
    {
      var nin := layer.nin;
      ghost var d := layer.delta[..];
      ghost var v := Augment(x, nin);
      ghost var o := OuterTable(d, v);
      ghost var before := dL[..];
      var p := 0;
      var i := 0;
      while i < k
        invariant 0 <= i <= k
        invariant p == RowStart(i, nin) <= RowStart(k, nin)
        invariant forall q :: 0 <= q < p ==> dL[q] == before[q] + o[q]
        invariant forall q :: p <= q < dL.Length ==> dL[q] == before[q]
      {
        RowStartBound(i, k, nin);
        p := BpropRow(i, p, x, o, before);
        i := i + 1;
      }
      LayoutIsOuter(o, d, v);
      OuterLength(d, v);
      AddPointwise(before, o, dL[..]);
    }

    /** The inner loop of `_sAPI_bprop`: row i of the accumulator, from entry
        p = i * nin on, gains delta[i] in the bias column and delta[i] * x[j - 1]
        in column j. */
    method BpropRow(i: nat, p: nat, x: seq<real>, ghost o: seq<real>, ghost before: seq<real>) returns (p': nat)
      requires Valid() && i < k && layer.nin <= |x| + 1
      requires p == RowStart(i, layer.nin) && p + layer.nin <= dL.Length
      requires OuterLayout(o, layer.delta[..], Augment(x, layer.nin)) && |before| == dL.Length
      requires forall q :: 0 <= q < p ==> dL[q] == before[q] + o[q]
      requires forall q :: p <= q < dL.Length ==> dL[q] == before[q]
      modifies dL
      ensures p' == RowStart(i + 1, layer.nin)
      ensures forall q :: 0 <= q < p' ==> dL[q] == before[q] + o[q]
      ensures forall q :: p' <= q < dL.Length ==> dL[q] == before[q]
    {
      var nin := layer.nin;
      ghost var d := layer.delta[..];
      var delta := layer.delta[i];
      AugmentedEntry(o, d, x, nin, i, 0, delta);
      dL[p] := dL[p] + delta;
      p' := p + 1;
      var j := 1;
      while j < nin
        invariant 1 <= j <= nin
        invariant p' == Entry(i, j, nin)
        invariant forall q :: 0 <= q < p' ==> dL[q] == before[q] + o[q]
        invariant forall q :: p' <= q < dL.Length ==> dL[q] == before[q]
      {
        AugmentedEntry(o, d, x, nin, i, j, delta);
        dL[p'] := dL[p'] + delta * x[j - 1];
        p' := p' + 1;
        j := j + 1;
      }
    }

    /**
     `_sAPI_gradient`: the predecessor's delta becomes W^T delta without the
     bias row; this layer is unchanged.
     */
    method Gradient(z: Stratum)
      requires Valid() && z.delta.Length == layer.nin - 1
      requires z.delta != W && z.delta != dL && z.delta != layer.delta && z.delta != layer.response
      modifies z.delta
      ensures |TransposeMul(W[..], layer.nin, layer.delta[..])| == layer.nin
      ensures z.delta[..] == TransposeMul(W[..], layer.nin, layer.delta[..])[1..]
    {
      var t := TransposeMul(W[..], layer.nin, layer.delta[..]);
      forall q | 0 <= q < z.delta.Length {
        z.delta[q] := t[q + 1];
      }
      assert W[..] == old(W[..]) && layer.delta[..] == old(layer.delta[..]);
      assert z.delta[..] == t[1..];
    }

    /**
     `_sAPI_f`: the response is W [1, x], the probabilities its softmax, and
     the guess (also returned) the first most probable class.
     */
    method F(x: seq<real>, exp: real -> real) returns (g: real)
      requires Valid() && layer.nin <= |x| + 1 && PositiveExp(exp)
      modifies layer.response, this`probs, this`guess
      ensures Valid()
      ensures layer.response[..] == MatVec(W[..], k, Augment(x, layer.nin))
      ensures probs == Softmax(layer.response[..], exp) && IsDistribution(probs)
      ensures g == guess && guess == ArgMax(probs) as real
      ensures 0.0 <= g < k as real
    {
      var z := MatVec(W[..], k, Augment(x, layer.nin));
      forall q | 0 <= q < k {
        layer.response[q] := z[q];
      }
      assert W[..] == old(W[..]);
      assert layer.response[..] == z;
      probs := Softmax(z, exp);
      SoftmaxIsDistribution(z, exp);
      guess := ArgMax(probs) as real;
      g := guess;
    }

    /**
     `_sAPI_Loss`: -log P(answer), clamped to the sentinel when not finite;
     the delta becomes the softmax residual for the answer.
     */
    method Loss(answer: int, log: real -> Ieee) returns (loss: real)
      requires Valid() && 0 <= answer < k
      modifies layer.delta
      ensures Valid()
      ensures loss == ClampLoss(log(probs[answer]).Negate())
      ensures log(probs[answer]).Negate().NonFinite() ==> loss == LOSS_SENTINEL
      ensures log(probs[answer]).Finite? ==> loss == -log(probs[answer]).value
      ensures layer.delta[..] == Residual(probs, answer)
    {
      var l := log(probs[answer]).Negate();
      loss := ClampLoss(l);
      var d := Residual(probs, answer);
      forall q | 0 <= q < k {
        layer.delta[q] := d[q];
      }
    }
  }
}

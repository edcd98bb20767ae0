/**
 The numeric vocabulary shared by the layers and the network: C doubles whose
 non-finite values matter, the C library's random source, and sums of reals.
 Every other double of the trainer (weights, activations, gradients) is a
 `real`; transcendental functions are passed in as parameters.
 */
module Support {

  datatype Option<T> = None | Some(value: T)

  /** A double as the C code observes it: a finite value, an infinity or NaN. */
  datatype Ieee = Finite(value: real) | Infinity(negative: bool) | NaN {

    /** `isnan (x) || isinf (x)` */
    predicate NonFinite() {
      !Finite?
    }

    /** Unary minus; it keeps NaN and flips the sign of an infinity. */
    function Negate(): (r: Ieee)
      ensures r.NonFinite() <==> NonFinite()
      ensures Finite? ==> r == Finite(-value)
      ensures Infinity? ==> r == Infinity(!negative)
      ensures NaN? ==> r == NaN
    {
      match this
      case Finite(v) => Finite(-v)
      case Infinity(n) => Infinity(!n)
      case NaN => NaN
    }
  }

  /** RAND_MAX of the GNU C library; `rand ()` returns a value in [0, RAND_MAX]. */
  const RAND_MAX: int := 2147483647

  /** A sequence of values returned by successive calls of `rand ()`. */
  predicate AreDraws(ds: seq<int>) {
    forall k :: 0 <= k < |ds| ==> 0 <= ds[k] <= RAND_MAX
  }

  /** `(IEEE_t) rand () / RAND_MAX`: a sample of the unit interval. */
  function UnitSample(d: int): (u: real)
    requires 0 <= d <= RAND_MAX
    ensures 0.0 <= u <= 1.0
    ensures u == 0.0 <==> d == 0
    ensures u == 1.0 <==> d == RAND_MAX
  {
    d as real / RAND_MAX as real
  }

  function Sum(s: seq<real>): real {
    if s == [] then 0.0 else s[0] + Sum(s[1..])
  }

  predicate AllPositive(s: seq<real>) {
    forall k :: 0 <= k < |s| ==> s[k] > 0.0
  }

  /** Every entry of `s` divided by `c`. */
  function Scale(s: seq<real>, c: real): (r: seq<real>)
    requires c != 0.0
    ensures |r| == |s|
    ensures forall k {:trigger r[k]} :: 0 <= k < |s| ==> r[k] == s[k] / c
  {
    if s == [] then [] else [s[0] / c] + Scale(s[1..], c)
  }

  lemma {:induction false} SumOfPositives(s: seq<real>)
    requires AllPositive(s) && s != []
    ensures Sum(s) > 0.0
  {
    if |s| > 1 {
      SumOfPositives(s[1..]);
    }
  }

  lemma {:induction false} SumScale(s: seq<real>, c: real)
    requires c != 0.0
    ensures Sum(Scale(s, c)) == Sum(s) / c
  {
    if s != [] {
      SumScale(s[1..], c);
      assert Scale(s, c)[1..] == Scale(s[1..], c);
    }
  }
}

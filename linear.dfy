/**
 The dense linear algebra the layers rely on (the `NeuralM_t` matrix class):
 a matrix of K rows and n columns is the flat row-major sequence of its K * n
 entries, as `sm_data` stores it.  Only the operations the layers call are
 modelled, by their mathematical meaning; the lemmas state the identities
 that make back-propagation through an affine layer correct.
 */
module Linear {

  /** Inner product of two vectors of equal length. */
  function Dot(a: seq<real>, b: seq<real>): real
    requires |a| == |b|
  {
    if a == [] then 0.0 else a[0] * b[0] + Dot(a[1..], b[1..])
  }

  /** The vector `v` multiplied by the scalar `c`. */
  function Times(c: real, v: seq<real>): (r: seq<real>)
    ensures |r| == |v|
    ensures forall j {:trigger r[j]} :: 0 <= j < |v| ==> r[j] == c * v[j]
  {
    if v == [] then [] else [c * v[0]] + Times(c, v[1..])
  }

  /** Entrywise sum of two vectors (or flattened matrices) of equal length. */
  function Add(a: seq<real>, b: seq<real>): (r: seq<real>)
    requires |a| == |b|
    ensures |r| == |a|
    ensures forall j {:trigger r[j]} :: 0 <= j < |a| ==> r[j] == a[j] + b[j]
  {
    if a == [] then [] else [a[0] + b[0]] + Add(a[1..], b[1..])
  }

  function Zeros(n: nat): (r: seq<real>)
    ensures |r| == n
    ensures forall j :: 0 <= j < n ==> r[j] == 0.0
  {
    if n == 0 then [] else [0.0] + Zeros(n - 1)
  }

  /** The outer product d ⊗ v, flattened row-major: row i is d[i] * v. */
  function Outer(d: seq<real>, v: seq<real>): seq<real>
  {
    if d == [] then [] else Times(d[0], v) + Outer(d[1..], v)
  }

  /** i * n, the offset of row i in a row-major matrix of n columns (and the
      size of a matrix of i rows), counted row by row; sizes and offsets are
      stated with it so that no proof has to reason about products. */
  function RowStart(i: nat, n: nat): nat
  {
    if i == 0 then 0 else RowStart(i - 1, n) + n
  }

  /** The row count agrees with the product: row i of an n-column matrix
      starts at entry i * n. */
  lemma {:induction false} RowStartIsProduct(i: nat, n: nat)
    ensures RowStart(i, n) == i * n
  {
    if i > 0 {
      RowStartIsProduct(i - 1, n);
    }
  }

  /** A row that is not the last ends at or before the start of row k. */
  lemma {:induction false} RowStartBound(i: nat, k: nat, n: nat)
    requires i < k
    ensures RowStart(i, n) + n <= RowStart(k, n)
  {
    if i + 1 < k {
      RowStartBound(i, k - 1, n);
    }
  }

  /** W · v for the K x |v| matrix W. */
  function MatVec(w: seq<real>, k: nat, v: seq<real>): (r: seq<real>)
    requires |w| == RowStart(k, |v|)
    ensures |r| == k
  {
    if k == 0 then [] else [Dot(w[..|v|], v)] + MatVec(w[|v|..], k - 1, v)
  }

  /** transpose (W) · d for the |d| x n matrix W: the sum of the rows of W
      weighted by the entries of d. */
  function TransposeMul(w: seq<real>, n: nat, d: seq<real>): (r: seq<real>)
    requires |w| == RowStart(|d|, n)
    ensures |r| == n
  {
    if d == [] then Zeros(n)
    else Add(Times(d[0], w[..n]), TransposeMul(w[n..], n, d[1..]))
  }

  lemma {:induction false} OuterLength(d: seq<real>, v: seq<real>)
    ensures |Outer(d, v)| == RowStart(|d|, |v|)
  {
    if d != [] {
      OuterLength(d[1..], v);
    }
  }

  /** The offset of entry (i, j) of a row-major matrix of n columns. */
  function Entry(i: nat, j: nat, n: nat): nat {
    RowStart(i, n) + j
  }

  /** o holds d ⊗ v row-major: entry (i, j) is Times (d[i], v)[j], that is
      d[i] * v[j]. */
  ghost predicate OuterLayout(o: seq<real>, d: seq<real>, v: seq<real>) {
    && |o| == RowStart(|d|, |v|)
    && forall i, j {:trigger Entry(i, j, |v|)} :: 0 <= i < |d| && 0 <= j < |v| ==>
         Entry(i, j, |v|) < |o| && o[Entry(i, j, |v|)] == Times(d[i], v)[j]
  }

  lemma {:induction false} OuterHead(d: seq<real>, v: seq<real>, j: nat)
    requires d != [] && j < |v|
    ensures j < |Outer(d, v)| && Outer(d, v)[j] == Times(d[0], v)[j]
  {
    assert Outer(d, v) == Times(d[0], v) + Outer(d[1..], v);
  }

  lemma {:induction false} OuterTail(d: seq<real>, v: seq<real>, q: nat)
    requires d != [] && q < |Outer(d[1..], v)|
    ensures |v| + q < |Outer(d, v)| && Outer(d, v)[|v| + q] == Outer(d[1..], v)[q]
  {
    assert Outer(d, v) == Times(d[0], v) + Outer(d[1..], v);
  }

  /** Entry (i, j) of the flattened outer product is Times (d[i], v)[j]. */
  lemma {:induction false} OuterAt(d: seq<real>, v: seq<real>, i: nat, j: nat)
    requires i < |d| && j < |v|
    ensures Entry(i, j, |v|) < |Outer(d, v)|
    ensures Outer(d, v)[Entry(i, j, |v|)] == Times(d[i], v)[j]
  {
    if i == 0 {
      OuterHead(d, v, j);
    } else {
      OuterAt(d[1..], v, i - 1, j);
      assert d[1..][i - 1] == d[i];
      OuterTail(d, v, Entry(i - 1, j, |v|));
    }
  }

  /** The flattened outer product has that layout. */
  lemma {:induction false} OuterHasLayout(d: seq<real>, v: seq<real>)
    ensures OuterLayout(Outer(d, v), d, v)
  {
    OuterLength(d, v);
    forall i, j | 0 <= i < |d| && 0 <= j < |v|
      ensures Entry(i, j, |v|) < |Outer(d, v)| && Outer(d, v)[Entry(i, j, |v|)] == Times(d[i], v)[j]
    {
      OuterAt(d, v, i, j);
    }
  }

  /** Every entry q of a k-row, n-column matrix lies in some row i, column j. */
  lemma {:induction false} RowOfEntry(q: nat, k: nat, n: nat) returns (i: nat, j: nat)
    requires q < RowStart(k, n)
    ensures i < k && j < n && q == Entry(i, j, n)
  {
    if q < RowStart(k - 1, n) {
      i, j := RowOfEntry(q, k - 1, n);
    } else {
      i, j := k - 1, q - RowStart(k - 1, n);
    }
  }

  /** Two tables with the layout of d ⊗ v agree entry by entry. */
  lemma {:induction false} LayoutsAgree(o: seq<real>, o': seq<real>, d: seq<real>, v: seq<real>, q: nat)
    requires OuterLayout(o, d, v) && OuterLayout(o', d, v) && q < |o|
    ensures o[q] == o'[q]
  {
    var i, j := RowOfEntry(q, |d|, |v|);
    assert o[Entry(i, j, |v|)] == Times(d[i], v)[j];
  }

  /** The layout determines the table: anything laid out as d ⊗ v is it. */
  lemma {:induction false} LayoutIsOuter(o: seq<real>, d: seq<real>, v: seq<real>)
    requires OuterLayout(o, d, v)
    ensures o == Outer(d, v)
  {
    var o' := Outer(d, v);
    OuterHasLayout(d, v);
    forall q | 0 <= q < |o|
      ensures o[q] == o'[q]
    {
      LayoutsAgree(o, o', d, v, q);
    }
  }

  /** A table with the layout of d ⊗ v, for callers that reason about its
      entries without unfolding Outer. */
  lemma {:induction false} OuterTable(d: seq<real>, v: seq<real>) returns (o: seq<real>)
    ensures OuterLayout(o, d, v)
  {
    o := Outer(d, v);
    OuterHasLayout(d, v);
  }

  lemma {:induction false} DotConcat(a1: seq<real>, a2: seq<real>, b1: seq<real>, b2: seq<real>)
    requires |a1| == |b1| && |a2| == |b2|
    ensures Dot(a1 + a2, b1 + b2) == Dot(a1, b1) + Dot(a2, b2)
  {
    if a1 != [] {
      assert (a1 + a2)[1..] == a1[1..] + a2;
      assert (b1 + b2)[1..] == b1[1..] + b2;
      DotConcat(a1[1..], a2, b1[1..], b2);
    } else {
      assert a1 + a2 == a2 && b1 + b2 == b2;
    }
  }

  lemma {:induction false} DotTimesRight(a: seq<real>, c: real, v: seq<real>)
    requires |a| == |v|
    ensures Dot(a, Times(c, v)) == c * Dot(a, v)
  {
    if a != [] {
      DotTimesRight(a[1..], c, v[1..]);
      assert Times(c, v)[1..] == Times(c, v[1..]);
    }
  }

  lemma {:induction false} DotTimesLeft(c: real, a: seq<real>, v: seq<real>)
    requires |a| == |v|
    ensures Dot(Times(c, a), v) == c * Dot(a, v)
  {
    if a != [] {
      DotTimesLeft(c, a[1..], v[1..]);
      assert Times(c, a)[1..] == Times(c, a[1..]);
    }
  }

  lemma {:induction false} DotAddLeft(a: seq<real>, b: seq<real>, v: seq<real>)
    requires |a| == |b| == |v|
    ensures Dot(Add(a, b), v) == Dot(a, v) + Dot(b, v)
  {
    if a != [] {
      DotAddLeft(a[1..], b[1..], v[1..]);
      assert Add(a, b)[1..] == Add(a[1..], b[1..]);
    }
  }

  lemma {:induction false} DotZerosLeft(n: nat, v: seq<real>)
    requires |v| == n
    ensures Dot(Zeros(n), v) == 0.0
  {
    if n > 0 {
      DotZerosLeft(n - 1, v[1..]);
      assert Zeros(n)[1..] == Zeros(n - 1);
    }
  }

  /** A vector split where its partner is a concatenation. */
  lemma {:induction false} DotSplit(w: seq<real>, t: seq<real>, u: seq<real>)
    requires |w| == |t| + |u|
    ensures Dot(w, t + u) == Dot(w[..|t|], t) + Dot(w[|t|..], u)
  {
    assert w == w[..|t|] + w[|t|..];
    DotConcat(w[..|t|], w[|t|..], t, u);
  }

  /** Row 0 of a matrix is followed by the remaining rows. */
  lemma {:induction false} MatVecCons(w: seq<real>, k: nat, v: seq<real>)
    requires k > 0 && |w| == RowStart(k, |v|)
    ensures |v| <= |w| && |w[|v|..]| == RowStart(k - 1, |v|)
    ensures MatVec(w, k, v) == [Dot(w[..|v|], v)] + MatVec(w[|v|..], k - 1, v)
  {
  }

  /** Pairing W with c * v followed by u: the first |v| entries of W meet
      c * v, the rest meet u. */
  lemma {:induction false} RowSplit(w: seq<real>, c: real, v: seq<real>, u: seq<real>)
    requires |w| == |v| + |u|
    ensures Dot(w, Times(c, v) + u) == c * Dot(w[..|v|], v) + Dot(w[|v|..], u)
  {
    DotSplit(w, Times(c, v), u);
    DotTimesRight(w[..|v|], c, v);
  }

  /** Row 0 of d ⊗ v is d[0] * v; the other rows follow. */
  lemma {:induction false} OuterCons(d: seq<real>, v: seq<real>)
    requires d != []
    ensures Outer(d, v) == Times(d[0], v) + Outer(d[1..], v)
  {
  }

  /** The first row of d ⊗ v pairs with the first row of W. */
  lemma {:induction false} GradientRight(w: seq<real>, d: seq<real>, v: seq<real>)
    requires d != [] && |w| == RowStart(|d|, |v|)
    ensures |v| <= |w| && |Outer(d[1..], v)| == |w| - |v|
    ensures Dot(w, Outer(d, v)) == d[0] * Dot(w[..|v|], v) + Dot(w[|v|..], Outer(d[1..], v))
  {
    MatVecCons(w, |d|, v);
    OuterLength(d[1..], v);
    OuterCons(d, v);
    RowSplit(w, d[0], v, Outer(d[1..], v));
  }

  /** The first entry of W v is the first row of W against v. */
  lemma {:induction false} GradientLeft(w: seq<real>, d: seq<real>, v: seq<real>)
    requires d != [] && |w| == RowStart(|d|, |v|)
    ensures |v| <= |w| && |w[|v|..]| == RowStart(|d| - 1, |v|)
    ensures Dot(d, MatVec(w, |d|, v)) == d[0] * Dot(w[..|v|], v) + Dot(d[1..], MatVec(w[|v|..], |d| - 1, v))
  {
    MatVecCons(w, |d|, v);
  }

  /** (c r + t) · v, expanded. */
  lemma {:induction false} RowCombine(c: real, r: seq<real>, t: seq<real>, v: seq<real>)
    requires |r| == |t| == |v|
    ensures Dot(Add(Times(c, r), t), v) == c * Dot(r, v) + Dot(t, v)
  {
    DotAddLeft(Times(c, r), t, v);
    DotTimesLeft(c, r, v);
  }

  /** transpose (W) d is d[0] times row 0 of W plus the rest, paired with v. */
  lemma {:induction false} TransposeCons(w: seq<real>, d: seq<real>, v: seq<real>)
    requires d != [] && |w| == RowStart(|d|, |v|)
    ensures |v| <= |w| && |w[|v|..]| == RowStart(|d| - 1, |v|)
    ensures Dot(TransposeMul(w, |v|, d), v) == d[0] * Dot(w[..|v|], v) + Dot(TransposeMul(w[|v|..], |v|, d[1..]), v)
  {
    MatVecCons(w, |d|, v);
    assert |d[1..]| == |d| - 1;
    RowCombine(d[0], w[..|v|], TransposeMul(w[|v|..], |v|, d[1..]), v);
  }

  /**
   The outer product d ⊗ v is the gradient of the scalar d · (W v) with
   respect to W: for every W, d · (W v) equals the Frobenius product of W with
   d ⊗ v.  This is why accumulating d ⊗ v is the weight gradient.
   */
  lemma {:induction false} OuterIsGradient(w: seq<real>, d: seq<real>, v: seq<real>)
    requires |w| == RowStart(|d|, |v|)
    ensures |Outer(d, v)| == |w| && Dot(d, MatVec(w, |d|, v)) == Dot(w, Outer(d, v))
  {
    OuterLength(d, v);
    if d != [] {
      GradientRight(w, d, v);
      GradientLeft(w, d, v);
      OuterIsGradient(w[|v|..], d[1..], v);
    }
  }

  /**
   transpose (W) is the adjoint of W: (transpose (W) d) · v == d · (W v).
   Propagating d backwards through W is therefore the derivative of
   d · (W v) with respect to the input v.
   */
  lemma {:induction false} TransposeAdjoint(w: seq<real>, d: seq<real>, v: seq<real>)
    requires |w| == RowStart(|d|, |v|)
    ensures Dot(TransposeMul(w, |v|, d), v) == Dot(d, MatVec(w, |d|, v))
  {
    if d == [] {
      DotZerosLeft(|v|, v);
    } else {
      TransposeCons(w, d, v);
      GradientLeft(w, d, v);
      TransposeAdjoint(w[|v|..], d[1..], v);
    }
  }

  lemma {:induction false} AddConcat(a1: seq<real>, a2: seq<real>, b1: seq<real>, b2: seq<real>)
    requires |a1| == |b1| && |a2| == |b2|
    ensures Add(a1 + a2, b1 + b2) == Add(a1, b1) + Add(a2, b2)
  {
    var l, r := Add(a1 + a2, b1 + b2), Add(a1, b1) + Add(a2, b2);
    assert |l| == |r|;
    forall j | 0 <= j < |l| ensures l[j] == r[j] {
      if j < |a1| {
        assert (a1 + a2)[j] == a1[j] && (b1 + b2)[j] == b1[j];
      } else {
        assert (a1 + a2)[j] == a2[j - |a1|] && (b1 + b2)[j] == b2[j - |a1|];
      }
    }
  }

  lemma {:induction false} TimesAdditive(a: real, b: real, v: seq<real>)
    ensures Times(a + b, v) == Add(Times(a, v), Times(b, v))
  {
    assert forall j :: 0 <= j < |v| ==> Times(a + b, v)[j] == Add(Times(a, v), Times(b, v))[j];
  }

  /** The outer product is additive in its first argument. */
  lemma {:induction false} OuterAdditive(d1: seq<real>, d2: seq<real>, v: seq<real>)
    requires |d1| == |d2|
    ensures |Outer(d1, v)| == |Outer(d2, v)| && Outer(Add(d1, d2), v) == Add(Outer(d1, v), Outer(d2, v))
  {
    OuterLength(d1, v);
    OuterLength(d2, v);
    if d1 != [] {
      OuterLength(d1[1..], v);
      OuterLength(d2[1..], v);
      var s := Add(d1, d2);
      assert s[1..] == Add(d1[1..], d2[1..]);
      calc {
        Outer(s, v);
        Times(s[0], v) + Outer(s[1..], v);
        { OuterAdditive(d1[1..], d2[1..], v); TimesAdditive(d1[0], d2[0], v); }
        Add(Times(d1[0], v), Times(d2[0], v)) + Add(Outer(d1[1..], v), Outer(d2[1..], v));
        { AddConcat(Times(d1[0], v), Outer(d1[1..], v), Times(d2[0], v), Outer(d2[1..], v)); }
        Add(Times(d1[0], v) + Outer(d1[1..], v), Times(d2[0], v) + Outer(d2[1..], v));
      }
    }
  }

  lemma {:induction false} AddCommutes(a: seq<real>, b: seq<real>)
    requires |a| == |b|
    ensures Add(a, b) == Add(b, a)
  {
    assert forall j :: 0 <= j < |a| ==> Add(a, b)[j] == Add(b, a)[j];
  }

  lemma {:induction false} AddAssociates(a: seq<real>, b: seq<real>, c: seq<real>)
    requires |a| == |b| == |c|
    ensures Add(Add(a, b), c) == Add(a, Add(b, c))
  {
    assert forall j :: 0 <= j < |a| ==> Add(Add(a, b), c)[j] == Add(a, Add(b, c))[j];
  }

  /** acc + d ⊗ v: the accumulator after one more outer product is added. */
  function AddOuter(acc: seq<real>, d: seq<real>, v: seq<real>): (r: seq<real>)
    requires |acc| == RowStart(|d|, |v|)
  {
    OuterLength(d, v);
    Add(acc, Outer(d, v))
  }

  /**
   Accumulating two outer products gives acc plus their sum, whichever is
   added first: gradient accumulation over a batch is order-independent.
   */
  lemma {:induction false} AddOuterCommutes(acc: seq<real>, d1: seq<real>, v1: seq<real>, d2: seq<real>, v2: seq<real>)
    requires |acc| == RowStart(|d1|, |v1|) == RowStart(|d2|, |v2|)
    ensures |Outer(d1, v1)| == |Outer(d2, v2)| == |acc|
    ensures AddOuter(AddOuter(acc, d1, v1), d2, v2) == Add(acc, Add(Outer(d1, v1), Outer(d2, v2)))
    ensures AddOuter(AddOuter(acc, d1, v1), d2, v2) == AddOuter(AddOuter(acc, d2, v2), d1, v1)
  {
    OuterLength(d1, v1);
    OuterLength(d2, v2);
    var o1, o2 := Outer(d1, v1), Outer(d2, v2);
    AddAssociates(acc, o1, o2);
    AddAssociates(acc, o2, o1);
    AddCommutes(o1, o2);
  }

  /** Two accumulations with the same input add the outer product of the
      summed deltas. */
  lemma {:induction false} AddOuterSameInput(acc: seq<real>, d1: seq<real>, d2: seq<real>, v: seq<real>)
    requires |d1| == |d2| && |acc| == RowStart(|d1|, |v|)
    ensures AddOuter(AddOuter(acc, d1, v), d2, v) == AddOuter(acc, Add(d1, d2), v)
  {
    OuterLength(d1, v);
    OuterAdditive(d1, d2, v);
    AddAssociates(acc, Outer(d1, v), Outer(d2, v));
  }
}

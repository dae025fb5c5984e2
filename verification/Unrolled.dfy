/** The recurrences written out: what the goldens compute, as sums of products
    of the entries of their operands. q, k, v, a and o stand for any functions
    that agree with those entries. */
module Unrolled {
  import opened Tensor
  import opened Gla
  import opened AllScan

  /** f gives the entries of the rows x cols matrix m. */
  ghost predicate Entries(m: Matrix, rows: int, cols: int, f: (int, int) -> real) {
    |m| == rows && (forall i | 0 <= i < rows :: |m[i]| == cols)
    && forall i, j | 0 <= i < rows && 0 <= j < cols :: m[i][j] == f(i, j)
  }

  ghost predicate Operands(x: Gla, q: (int, int) -> real, k: (int, int) -> real, v: (int, int) -> real,
                           a: (int, int) -> real) {
    Entries(x.Q, x.T, x.dk, q) && Entries(x.K, x.T, x.dk, k) && Entries(x.V, x.T, x.dv, v) && Entries(x.A, x.T, x.dk, a)
  }

  /** The accessors read their own matrix. */
  lemma AccessorsRead(x: Gla, q: (int, int) -> real, k: (int, int) -> real, v: (int, int) -> real,
                      a: (int, int) -> real)
    requires Operands(x, q, k, v, a)
    ensures forall t, i | 0 <= t < x.T && 0 <= i < x.dk ::
      x.q(t, i) == q(t, i) && x.k(t, i) == k(t, i) && x.a(t, i) == a(t, i)
    ensures forall t, j | 0 <= t < x.T && 0 <= j < x.dv :: x.v(t, j) == v(t, j)
  {}

  /** Sum over s < t of (a_{s+1} .. a_{t-1}) w_s. */
  function PastSum(w: int -> real, a: int -> real, t: int): real {
    Sum(0, t, s => Prod(s + 1, t, a) * w(s))
  }

  /** Sum over t <= s < T of (a_{t+1} .. a_s) w_s. */
  function FutureSum(w: int -> real, a: int -> real, T: int, t: int): real {
    Sum(t, T, s => Prod(t + 1, s + 1, a) * w(s))
  }

  lemma PastSumStep(w: int -> real, a: int -> real, t: int)
    requires 0 < t
    ensures PastSum(w, a, t) == a(t - 1) * PastSum(w, a, t - 1) + w(t - 1)
  {
    hide Sum, Prod;
    var f := (s: int) => Prod(s + 1, t - 1, a) * w(s);
    var g := (s: int) => Prod(s + 1, t, a) * w(s);
    forall s | 0 <= s < t - 1 ensures g(s) == a(t - 1) * f(s) {
      ProdLast(s + 1, t, a);
      Assoc(a(t - 1), Prod(s + 1, t - 1, a), w(s));
    }
    SumScale(0, t - 1, a(t - 1), f, g);
    SumLast(0, t, g);
    ProdEmpty(t, a);
  }

  lemma FutureSumStep(w: int -> real, a: int -> real, T: int, t: int)
    requires t < T
    ensures FutureSum(w, a, T, t) == w(t) + if t + 1 < T then a(t + 1) * FutureSum(w, a, T, t + 1) else 0.0
  {
    hide Sum, Prod;
    var g := (s: int) => Prod(t + 1, s + 1, a) * w(s);
    SumFirst(t, T, g);
    ProdEmpty(t + 1, a);
    if t + 1 < T {
      var f := (s: int) => Prod(t + 1 + 1, s + 1, a) * w(s);
      forall s | t + 1 <= s < T ensures g(s) == a(t + 1) * f(s) {
        ProdFirst(t + 1, s + 1, a);
        Assoc(a(t + 1), Prod(t + 1 + 1, s + 1, a), w(s));
      }
      SumScale(t + 1, T, a(t + 1), f, g);
    } else {
      SumZero(t + 1, T, g);
    }
  }

  // ---------------------------------------------------------------------
  // The goldens
  // ---------------------------------------------------------------------

  /** The state before token t: the sum of k_s v_s, each decayed to t. */
  function Past(k: (int, int) -> real, v: (int, int) -> real, a: (int, int) -> real, t: int, i: int, j: int): real {
    PastSum(s => k(s, i) * v(s, j), r => a(r, i), t)
  }

  /** The gradient of the state after token t: the sum of q_s dO_s from there on. */
  function Future(q: (int, int) -> real, o: (int, int) -> real, a: (int, int) -> real, T: int, t: int, i: int,
                  j: int): real {
    FutureSum(s => q(s, i) * o(s, j), r => a(r, i), T, t)
  }

  lemma PastStep(k: (int, int) -> real, v: (int, int) -> real, a: (int, int) -> real, t: int, i: int, j: int)
    requires 0 <= t
    ensures Past(k, v, a, 0, i, j) == 0.0
    ensures 0 < t ==> Past(k, v, a, t, i, j) == a(t - 1, i) * Past(k, v, a, t - 1, i, j) + k(t - 1, i) * v(t - 1, j)
  {
    if 0 < t { PastSumStep(s => k(s, i) * v(s, j), r => a(r, i), t); }
  }

  lemma FutureStep(q: (int, int) -> real, o: (int, int) -> real, a: (int, int) -> real, T: int, t: int, i: int, j: int)
    requires t < T
    ensures Future(q, o, a, T, t, i, j)
      == q(t, i) * o(t, j) + if t + 1 < T then a(t + 1, i) * Future(q, o, a, T, t + 1, i, j) else 0.0
  {
    hide FutureSum;
    FutureSumStep(s => q(s, i) * o(s, j), r => a(r, i), T, t);
  }

  lemma {:induction false} StateUnrolled(x: Gla, q: (int, int) -> real, k: (int, int) -> real, v: (int, int) -> real,
                                         a: (int, int) -> real, t: int, i: int, j: int)
    requires Operands(x, q, k, v, a) && 0 <= t <= x.T && 0 <= i < x.dk && 0 <= j < x.dv
    ensures State(x, 0, 0.0, t, i, j) == Past(k, v, a, t, i, j)
    decreases t
  {
    hide Past, Operands, Gla.k, Gla.v, Gla.a, State;
    AccessorsRead(x, q, k, v, a);
    PastStep(k, v, a, t, i, j);
    if 0 < t {
      StateUnrolled(x, q, k, v, a, t - 1, i, j);
      StateStep(x, 0, 0.0, t, i, j);
    } else {
      Edges(x, [], 0, 0.0, 0.0, i, j);
    }
  }

  lemma {:induction false} TotalUnrolled(x: Gla, dO: Matrix, q: (int, int) -> real, k: (int, int) -> real,
                                         v: (int, int) -> real, a: (int, int) -> real, o: (int, int) -> real, t: int,
                                         i: int, j: int)
    requires Operands(x, q, k, v, a) && Entries(dO, x.T, x.dv, o) && 0 <= t < x.T && 0 <= i < x.dk && 0 <= j < x.dv
    ensures Total(x, dO, x.T, 0.0, t, i, j) == Future(q, o, a, x.T, t, i, j)
    decreases x.T - t
  {
    hide Future, Operands, Gla.q, Gla.a, Adj, Total;
    AccessorsRead(x, q, k, v, a);
    FutureStep(q, o, a, x.T, t, i, j);
    AdjStep(x, dO, x.T, 0.0, t, i, j);
    if t + 1 < x.T {
      TotalUnrolled(x, dO, q, k, v, a, o, t + 1, i, j);
      AdjStep(x, dO, x.T, 0.0, t + 1, i, j);
    } else {
      Edges(x, dO, x.T, 0.0, 0.0, i, j);
    }
  }

  /** expected_gla: o_t is q_t against the decayed sum of k_s v_s, s <= t. */
  lemma OutUnrolled(x: Gla, q: (int, int) -> real, k: (int, int) -> real, v: (int, int) -> real, a: (int, int) -> real,
                    t: int, j: int)
    requires Operands(x, q, k, v, a) && 0 <= t < x.T && 0 <= j < x.dv
    ensures Out(x, NOTHING, t, j) == Sum(0, x.dk, i => q(t, i) * Past(k, v, a, t + 1, i, j))
  {
    hide State, Past, Operands, Gla.q;
    AccessorsRead(x, q, k, v, a);
    var f := (i: int) => x.q(t, i) * State(x, 0, At(NOTHING, i, j), t + 1, i, j);
    var g := (i: int) => q(t, i) * Past(k, v, a, t + 1, i, j);
    forall i | 0 <= i < x.dk ensures f(i) == g(i) { StateUnrolled(x, q, k, v, a, t + 1, i, j); }
    SumExt(0, x.dk, f, g);
  }

  /** expected_gla_backward: the gradients of q, k and a. */
  lemma KeyGradsUnrolled(x: Gla, dO: Matrix, q: (int, int) -> real, k: (int, int) -> real, v: (int, int) -> real,
                         a: (int, int) -> real, o: (int, int) -> real, t: int, i: int)
    requires Operands(x, q, k, v, a) && Entries(dO, x.T, x.dv, o) && 0 <= t < x.T && 0 <= i < x.dk
    ensures GradQ(x, dO, NOTHING, t, i) == Sum(0, x.dv, j => o(t, j) * Past(k, v, a, t + 1, i, j))
    ensures GradK(x, dO, NOTHING, t, i) == Sum(0, x.dv, j => v(t, j) * Future(q, o, a, x.T, t, i, j))
    ensures GradA(x, dO, NOTHING, NOTHING, t, i)
      == Sum(0, x.dv, j => Future(q, o, a, x.T, t, i, j) * Past(k, v, a, t, i, j))
  {
    hide State, Total, Past, Future, Operands, Gla.v, Sum;
    AccessorsRead(x, q, k, v, a);
    forall j | 0 <= j < x.dv
      ensures State(x, 0, At(NOTHING, i, j), t + 1, i, j) == Past(k, v, a, t + 1, i, j)
      ensures State(x, 0, At(NOTHING, i, j), t, i, j) == Past(k, v, a, t, i, j)
      ensures Total(x, dO, x.T, At(NOTHING, i, j), t, i, j) == Future(q, o, a, x.T, t, i, j)
      ensures At(dO, t, j) == o(t, j)
    {
      StateUnrolled(x, q, k, v, a, t + 1, i, j);
      StateUnrolled(x, q, k, v, a, t, i, j);
      TotalUnrolled(x, dO, q, k, v, a, o, t, i, j);
    }
    SumExt(0, x.dv, j => At(dO, t, j) * State(x, 0, At(NOTHING, i, j), t + 1, i, j),
      j => o(t, j) * Past(k, v, a, t + 1, i, j));
    SumExt(0, x.dv, j => x.v(t, j) * Total(x, dO, x.T, At(NOTHING, i, j), t, i, j),
      j => v(t, j) * Future(q, o, a, x.T, t, i, j));
    SumExt(0, x.dv, j => Total(x, dO, x.T, At(NOTHING, i, j), t, i, j) * State(x, 0, At(NOTHING, i, j), t, i, j),
      j => Future(q, o, a, x.T, t, i, j) * Past(k, v, a, t, i, j));
  }

  /** ... and of v. */
  lemma ValueGradUnrolled(x: Gla, dO: Matrix, q: (int, int) -> real, k: (int, int) -> real, v: (int, int) -> real,
                          a: (int, int) -> real, o: (int, int) -> real, t: int, j: int)
    requires Operands(x, q, k, v, a) && Entries(dO, x.T, x.dv, o) && 0 <= t < x.T && 0 <= j < x.dv
    ensures GradV(x, dO, NOTHING, t, j) == Sum(0, x.dk, i => k(t, i) * Future(q, o, a, x.T, t, i, j))
  {
    hide Total, Future, Operands, Gla.k, Sum;
    AccessorsRead(x, q, k, v, a);
    forall i | 0 <= i < x.dk ensures Total(x, dO, x.T, At(NOTHING, i, j), t, i, j) == Future(q, o, a, x.T, t, i, j) {
      TotalUnrolled(x, dO, q, k, v, a, o, t, i, j);
    }
    SumExt(0, x.dk, i => x.k(t, i) * Total(x, dO, x.T, At(NOTHING, i, j), t, i, j),
      i => k(t, i) * Future(q, o, a, x.T, t, i, j));
  }

  // ---------------------------------------------------------------------
  // The AllScan references
  // ---------------------------------------------------------------------

  /** s and g give the entries of P states and gammas. */
  ghost predicate RankEntries(S: seq<Matrix>, P: int, dk: int, dv: int, s: (int, int, int) -> real) {
    |S| == P && forall p | 0 <= p < P :: Entries(S[p], dk, dv, (i, j) => s(p, i, j))
  }

  ghost predicate GammaEntries(g: seq<Vector>, P: int, dk: int, e: (int, int) -> real) {
    |g| == P && forall p | 0 <= p < P :: |g[p]| == dk && forall i | 0 <= i < dk :: g[p][i] == e(p, i)
  }

  lemma RankReads(S: seq<Matrix>, P: int, dk: int, dv: int, s: (int, int, int) -> real, p: int, i: int, j: int)
    requires RankEntries(S, P, dk, dv, s) && 0 <= p < P && 0 <= i < dk && 0 <= j < dv
    ensures At(Mat(S, p), i, j) == s(p, i, j)
  {
    assert Entries(S[p], dk, dv, (i, j) => s(p, i, j));
  }

  lemma GammaReads(g: seq<Vector>, P: int, dk: int, e: (int, int) -> real, p: int, i: int)
    requires GammaEntries(g, P, dk, e) && 0 <= p < P && 0 <= i < dk
    ensures El(Vec(g, p), i) == e(p, i)
  {}

  lemma PastSumStart(w: int -> real, a: int -> real)
    ensures PastSum(w, a, 0) == 0.0
  {}

  /** expected_allscan: out[p] is the sum of the S[s], s <= p, each decayed to p. */
  lemma {:induction false} ScanUnrolled(S: seq<Matrix>, g: seq<Vector>, P: int, dk: int, dv: int,
                                        s: (int, int, int) -> real, e: (int, int) -> real, p: int, i: int, j: int)
    requires RankEntries(S, P, dk, dv, s) && GammaEntries(g, P, dk, e) && 0 <= p < P && 0 <= i < dk && 0 <= j < dv
    ensures Scan(S, g, p, i, j) == PastSum(r => s(r, i, j), r => e(r, i), p + 1)
    decreases p
  {
    hide RankEntries, GammaEntries, PastSum, At, El, Mat, Vec, Scan;
    var w, a := (r: int) => s(r, i, j), (r: int) => e(r, i);
    PastSumStep(w, a, p + 1);
    RankReads(S, P, dk, dv, s, p, i, j);
    GammaReads(g, P, dk, e, p, i);
    if 0 < p {
      ScanUnrolled(S, g, P, dk, dv, s, e, p - 1, i, j);
      ScanStep(S, g, p, i, j);
    } else {
      ScanFirst(S, g, i, j);
      PastSumStart(w, a);
    }
  }

  /** expected_allscan_backward: d[p] is the sum of the g_out[s], s >= p, each
      decayed from p. */
  lemma {:induction false} ScanAdjUnrolled(g: seq<Vector>, gout: seq<Matrix>, P: int, dk: int, dv: int,
                                           o: (int, int, int) -> real, e: (int, int) -> real, p: int, i: int, j: int)
    requires RankEntries(gout, P, dk, dv, o) && GammaEntries(g, P, dk, e) && 0 <= p < P && 0 <= i < dk && 0 <= j < dv
    ensures ScanAdj(g, gout, p, i, j) == FutureSum(r => o(r, i, j), r => e(r, i), P, p)
    decreases P - p
  {
    hide GammaEntries, FutureSum, At, El, Mat, Vec, ScanAdj, Entries;
    FutureSumStep(r => o(r, i, j), r => e(r, i), P, p);
    RankReads(gout, P, dk, dv, o, p, i, j);
    if p < P - 1 {
      ScanAdjUnrolled(g, gout, P, dk, dv, o, e, p + 1, i, j);
      ScanAdjStep(g, gout, p, i, j);
      GammaReads(g, P, dk, e, p + 1, i);
    } else {
      AdjLast(g, gout, i, j);
    }
  }

  /** ... and dgamma[p] the row sum of d[p] against out[p-1]. */
  lemma GammaGradUnrolled(g: seq<Vector>, outs: seq<Matrix>, gout: seq<Matrix>, P: int, dk: int, dv: int,
                          o: (int, int, int) -> real, u: (int, int, int) -> real, e: (int, int) -> real, p: int, i: int)
    requires RankEntries(gout, P, dk, dv, o) && RankEntries(outs, P, dk, dv, u) && GammaEntries(g, P, dk, e)
    requires 0 <= p < P && 0 <= i < dk
    ensures GammaGrad(g, outs, gout, dv, p, i)
      == if p == 0 then 0.0 else Sum(0, dv, j => FutureSum(r => o(r, i, j), r => e(r, i), P, p) * u(p - 1, i, j))
  {
    hide RankEntries, GammaEntries, FutureSum, At, Mat, ScanAdj, Sum;
    if 0 < p {
      forall j | 0 <= j < dv
        ensures ScanAdj(g, gout, p, i, j) == FutureSum(r => o(r, i, j), r => e(r, i), P, p)
        ensures At(Mat(outs, p - 1), i, j) == u(p - 1, i, j)
      {
        ScanAdjUnrolled(g, gout, P, dk, dv, o, e, p, i, j);
        RankReads(outs, P, dk, dv, u, p - 1, i, j);
      }
      SumExt(0, dv, j => ScanAdj(g, gout, p, i, j) * At(Mat(outs, p - 1), i, j),
        j => FutureSum(r => o(r, i, j), r => e(r, i), P, p) * u(p - 1, i, j));
    }
  }
}

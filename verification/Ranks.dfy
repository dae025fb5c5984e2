/** A sequence cut into one contiguous slice per rank, and the boundary
    quantities that make the per-rank computations agree with the whole. */
module Ranks {
  import opened Tensor
  import opened Gla
  import opened ChunkForward
  import opened AllScan

  /** Every rank holds L tokens. */
  ghost predicate Sliced(xs: seq<Gla>, L: nat, dk: nat, dv: nat) {
    0 < |xs| && forall p | 0 <= p < |xs| :: xs[p].Valid() && xs[p].T == L && xs[p].dk == dk && xs[p].dv == dv
  }

  function FlattenRows(ms: seq<Matrix>): Matrix {
    if ms == [] then [] else FlattenRows(ms[..|ms| - 1]) + ms[|ms| - 1]
  }

  /** flatten_seq of every operand: [P, L, d] to [P * L, d]. */
  function Flatten(xs: seq<Gla>, L: nat, dk: nat, dv: nat): Gla {
    Gla(|xs| * L, dk, dv,
      FlattenRows(seq(|xs|, p requires 0 <= p < |xs| => xs[p].Q)),
      FlattenRows(seq(|xs|, p requires 0 <= p < |xs| => xs[p].K)),
      FlattenRows(seq(|xs|, p requires 0 <= p < |xs| => xs[p].V)),
      FlattenRows(seq(|xs|, p requires 0 <= p < |xs| => xs[p].A)))
  }

  lemma {:induction false} FlattenLength(ms: seq<Matrix>, L: nat)
    requires forall p | 0 <= p < |ms| :: |ms[p]| == L
    ensures |FlattenRows(ms)| == |ms| * L
  {
    if ms != [] {
      FlattenLength(ms[..|ms| - 1], L);
      assert (|ms| - 1) * L + L == |ms| * L;
    }
  }

  /** Row l of rank p is row p * L + l of the whole. */
  lemma {:induction false} FlattenAt(ms: seq<Matrix>, L: nat, p: int, l: int, i: int)
    requires forall r | 0 <= r < |ms| :: |ms[r]| == L
    requires 0 <= p < |ms| && 0 <= l < L
    ensures At(FlattenRows(ms), p * L + l, i) == At(ms[p], l, i)
  {
    hide At;
    var n := |ms| - 1;
    var front := ms[..n];
    FlattenLength(front, L);
    if p < n {
      FlattenAt(front, L, p, l, i);
      RowBelow(n, L, p, l);
      AtFront(FlattenRows(front), ms[n], p * L + l, i);
    } else {
      AtBack(FlattenRows(front), ms[n], l, i);
    }
  }

  lemma RowBelow(n: int, L: int, p: int, l: int)
    requires 0 <= p < n && 0 <= l < L
    ensures 0 <= p * L + l < n * L
  {
    MulMono(p + 1, n, L);
    MulMono(0, p, L);
  }

  lemma AtFront(m: Matrix, rest: Matrix, r: int, i: int)
    requires 0 <= r < |m|
    ensures At(m + rest, r, i) == At(m, r, i)
  {}

  lemma AtBack(m: Matrix, rest: Matrix, l: int, i: int)
    requires 0 <= l < |rest|
    ensures At(m + rest, |m| + l, i) == At(rest, l, i)
  {}

  /** Row l of rank p, read from the sequences themselves. */
  lemma {:induction false} FlattenRow(ms: seq<Matrix>, L: nat, p: int, l: int)
    requires forall r | 0 <= r < |ms| :: |ms[r]| == L
    requires 0 <= p < |ms| && 0 <= l < L
    ensures 0 <= p * L + l < |ms| * L == |FlattenRows(ms)| && FlattenRows(ms)[p * L + l] == ms[p][l]
  {
    var n := |ms| - 1;
    FlattenLength(ms, L);
    FlattenLength(ms[..n], L);
    RowBelow(|ms|, L, p, l);
    if p < n {
      FlattenRow(ms[..n], L, p, l);
      RowBelow(n, L, p, l);
    }
  }

  /** The flattened operands are the ranks' rows, each in its own operand. */
  lemma FlattenOperands(xs: seq<Gla>, L: nat, dk: nat, dv: nat, p: int, l: int)
    requires Sliced(xs, L, dk, dv) && 0 <= p < |xs| && 0 <= l < L
    ensures var y, r := Flatten(xs, L, dk, dv), p * L + l;
      && 0 <= r < y.T == |y.Q| == |y.K| == |y.V| == |y.A|
      && y.Q[r] == xs[p].Q[l] && y.K[r] == xs[p].K[l] && y.V[r] == xs[p].V[l] && y.A[r] == xs[p].A[l]
  {
    hide FlattenRows;
    FlattenRow(seq(|xs|, r requires 0 <= r < |xs| => xs[r].Q), L, p, l);
    FlattenRow(seq(|xs|, r requires 0 <= r < |xs| => xs[r].K), L, p, l);
    FlattenRow(seq(|xs|, r requires 0 <= r < |xs| => xs[r].V), L, p, l);
    FlattenRow(seq(|xs|, r requires 0 <= r < |xs| => xs[r].A), L, p, l);
  }

  lemma FlattenEmbeds(xs: seq<Gla>, L: nat, dk: nat, dv: nat, p: int)
    requires Sliced(xs, L, dk, dv) && 0 <= p < |xs|
    ensures 0 <= p * L && p * L + L == (p + 1) * L <= |xs| * L
    ensures Embeds(xs[p], Flatten(xs, L, dk, dv), p * L)
  {
    hide FlattenRows, At;
    MulMono(p + 1, |xs|, L);
    var y := Flatten(xs, L, dk, dv);
    forall t, i | 0 <= t < L ensures xs[p].q(t, i) == y.q(p * L + t, i) && xs[p].k(t, i) == y.k(p * L + t, i)
      && xs[p].v(t, i) == y.v(p * L + t, i) && xs[p].a(t, i) == y.a(p * L + t, i)
    {
      FlattenAt(seq(|xs|, r requires 0 <= r < |xs| => xs[r].Q), L, p, t, i);
      FlattenAt(seq(|xs|, r requires 0 <= r < |xs| => xs[r].K), L, p, t, i);
      FlattenAt(seq(|xs|, r requires 0 <= r < |xs| => xs[r].V), L, p, t, i);
      FlattenAt(seq(|xs|, r requires 0 <= r < |xs| => xs[r].A), L, p, t, i);
    }
  }

  lemma FlattenEmbedsRows(dOs: seq<Matrix>, L: nat, dv: nat, p: int)
    requires 0 <= p < |dOs| && forall r | 0 <= r < |dOs| :: |dOs[r]| == L
    ensures EmbedsRows(dOs[p], FlattenRows(dOs), L, dv, p * L)
  {
    hide FlattenRows, At;
    forall t, j | 0 <= t < L ensures At(dOs[p], t, j) == At(FlattenRows(dOs), p * L + t, j) {
      FlattenAt(dOs, L, p, t, j);
    }
  }

  // ---------------------------------------------------------------------
  // Boundary states and boundary gradients
  // ---------------------------------------------------------------------

  /** What the local scans hand to AllScan. */
  ghost predicate LocalScans(xs: seq<Gla>, S: seq<Matrix>, g: seq<Vector>) {
    |S| == |g| == |xs| && forall p | 0 <= p < |xs| ::
      HoldsLocal(xs[p], S[p], xs[p].T) && HoldsDecay(xs[p], g[p], xs[p].T)
  }

  /** One rank extends the state of the whole by its own slice. */
  lemma RankState(x: Gla, y: Gla, off: int, S: Matrix, g: Vector, i: int, j: int)
    requires Embeds(x, y, off) && HoldsLocal(x, S, x.T) && HoldsDecay(x, g, x.T) && 0 <= i < x.dk && 0 <= j < x.dv
    ensures At(S, i, j) + El(g, i) * State(y, 0, 0.0, off, i, j) == State(y, 0, 0.0, off + x.T, i, j)
  {
    hide State, Decay, At, El;
    var s := State(y, 0, 0.0, off, i, j);
    StateResume(y, 0, off, 0.0, off + x.T, i, j);
    StateAffine(x, 0, s, x.T, i, j);
    StateShift(x, y, off, s, x.T, i, j);
  }

  /** AllScan's out[p] is the state of the whole after rank p's slice. */
  lemma {:induction false} BoundaryState(xs: seq<Gla>, L: nat, dk: nat, dv: nat, S: seq<Matrix>, g: seq<Vector>, p: int,
                                         i: int, j: int)
    requires Sliced(xs, L, dk, dv) && LocalScans(xs, S, g) && 0 <= p < |xs| && 0 <= i < dk && 0 <= j < dv
    ensures Scan(S, g, p, i, j) == State(Flatten(xs, L, dk, dv), 0, 0.0, (p + 1) * L, i, j)
    decreases p
  {
    hide State, Decay, At, El, Flatten, HoldsLocal, HoldsDecay, Embeds;
    FlattenEmbeds(xs, L, dk, dv, p);
    RankState(xs[p], Flatten(xs, L, dk, dv), p * L, S[p], g[p], i, j);
    if 0 < p {
      BoundaryState(xs, L, dk, dv, S, g, p - 1, i, j);
    } else {
      Edges(Flatten(xs, L, dk, dv), [], 0, 0.0, 0.0, i, j);
    }
  }

  /** dS_recv[p]: gradient of rank p's received boundary through its own outputs. */
  ghost predicate RecvGrads(xs: seq<Gla>, dOs: seq<Matrix>, dSrecv: seq<Matrix>) {
    |dSrecv| == |dOs| == |xs|
    && forall p, i, j | 0 <= p < |xs| && 0 <= i < xs[p].dk && 0 <= j < xs[p].dv ::
        At(dSrecv[p], i, j) == Adj(xs[p], dOs[p], xs[p].T, 0.0, 0, i, j)
  }

  /** g_out[p] = dS_recv[p+1], zero for the last rank. */
  ghost predicate ShiftedDown(dSrecv: seq<Matrix>, gout: seq<Matrix>) {
    |gout| == |dSrecv|
    && (forall p | 0 <= p < |gout| - 1 :: gout[p] == dSrecv[p + 1])
    && (|gout| > 0 ==> IsZero(gout[|gout| - 1]))
  }

  ghost predicate IsZero(m: Matrix) {
    forall i, j :: At(m, i, j) == 0.0
  }

  /** One rank pulls the gradient of the whole back over its own slice. */
  lemma RankAdj(x: Gla, y: Gla, off: int, dO: Matrix, dOy: Matrix, r: real, g: Vector, i: int, j: int)
    requires Embeds(x, y, off) && EmbedsRows(dO, dOy, x.T, x.dv, off) && HoldsDecay(x, g, x.T) && 0 <= i < x.dk
    requires 0 <= j < x.dv
    requires r == Adj(x, dO, x.T, 0.0, 0, i, j)
    ensures r + El(g, i) * Adj(y, dOy, y.T, 0.0, off + x.T, i, j) == Adj(y, dOy, y.T, 0.0, off, i, j)
  {
    hide Adj, Total, Decay, At, El, EmbedsRows;
    var e := Adj(y, dOy, y.T, 0.0, off + x.T, i, j);
    AdjAffine(x, dO, x.T, e, 0, i, j);
    AdjShift(x, y, off, dO, dOy, e, 0, i, j);
    AdjResume(y, dOy, y.T, off + x.T, 0.0, off, i, j);
  }

  /** The reverse ring's d[p] is the gradient of the state after rank p's slice. */
  lemma {:induction false} BoundaryAdj(xs: seq<Gla>, L: nat, dk: nat, dv: nat, S: seq<Matrix>, g: seq<Vector>,
                                       dOs: seq<Matrix>, dSrecv: seq<Matrix>, gout: seq<Matrix>, p: int, i: int, j: int)
    requires Sliced(xs, L, dk, dv) && LocalScans(xs, S, g) && RecvGrads(xs, dOs, dSrecv) && ShiftedDown(dSrecv, gout)
    requires forall r | 0 <= r < |dOs| :: |dOs[r]| == L
    requires 0 <= p < |xs| && 0 <= i < dk && 0 <= j < dv
    ensures ScanAdj(g, gout, p, i, j) == Adj(Flatten(xs, L, dk, dv), FlattenRows(dOs), |xs| * L, 0.0, (p + 1) * L, i, j)
    decreases |xs| - p
  {
    hide Adj, Total, State, Decay, At, El, Flatten, FlattenRows, HoldsLocal, HoldsDecay, Embeds, EmbedsRows;
    var y, dOy := Flatten(xs, L, dk, dv), FlattenRows(dOs);
    FlattenSize(xs, L, dk, dv);
    if p < |xs| - 1 {
      BoundaryAdj(xs, L, dk, dv, S, g, dOs, dSrecv, gout, p + 1, i, j);
      FlattenEmbeds(xs, L, dk, dv, p + 1);
      FlattenEmbedsRows(dOs, L, dv, p + 1);
      RankAdj(xs[p + 1], y, (p + 1) * L, dOs[p + 1], dOy, At(dSrecv[p + 1], i, j), g[p + 1], i, j);
    } else {
      Edges(y, dOy, |xs| * L, 0.0, 0.0, i, j);
    }
  }

  lemma FlattenSize(xs: seq<Gla>, L: nat, dk: nat, dv: nat)
    ensures Flatten(xs, L, dk, dv).T == |xs| * L && Flatten(xs, L, dk, dv).dk == dk && Flatten(xs, L, dk, dv).dv == dv
  {}

  // ---------------------------------------------------------------------
  // Per-rank outputs and gradients are those of the whole
  // ---------------------------------------------------------------------

  /** The boundary state and boundary gradient of a slice at offset off. */
  ghost predicate RightState(x: Gla, y: Gla, off: int, S0: Matrix) {
    forall i, j | 0 <= i < x.dk && 0 <= j < x.dv :: At(S0, i, j) == State(y, 0, 0.0, off, i, j)
  }

  ghost predicate RightAdj(x: Gla, y: Gla, off: int, dOy: Matrix, E1: Matrix) {
    forall i, j | 0 <= i < x.dk && 0 <= j < x.dv :: At(E1, i, j) == Adj(y, dOy, y.T, 0.0, off + x.T, i, j)
  }

  lemma SliceState(x: Gla, y: Gla, off: int, S0: Matrix, t: int, i: int, j: int)
    requires Embeds(x, y, off) && RightState(x, y, off, S0) && 0 <= t <= x.T && 0 <= i < x.dk && 0 <= j < x.dv
    ensures State(x, 0, At(S0, i, j), t, i, j) == State(y, 0, At(NOTHING, i, j), off + t, i, j)
  {
    hide State;
    StateShift(x, y, off, At(S0, i, j), t, i, j);
    StateResume(y, 0, off, 0.0, off + t, i, j);
  }

  lemma SliceTotal(x: Gla, y: Gla, off: int, dO: Matrix, dOy: Matrix, E1: Matrix, t: int, i: int, j: int)
    requires Embeds(x, y, off) && EmbedsRows(dO, dOy, x.T, x.dv, off) && RightAdj(x, y, off, dOy, E1)
    requires 0 <= t < x.T && 0 <= i < x.dk && 0 <= j < x.dv
    ensures Total(x, dO, x.T, At(E1, i, j), t, i, j) == Total(y, dOy, y.T, At(NOTHING, i, j), off + t, i, j)
  {
    hide Adj, Total, EmbedsRows;
    TotalShift(x, y, off, dO, dOy, At(E1, i, j), t, i, j);
    TotalResume(y, dOy, y.T, off + x.T, 0.0, off + t, i, j);
  }

  lemma SliceOut(x: Gla, y: Gla, off: int, S0: Matrix, t: int, j: int)
    requires Embeds(x, y, off) && RightState(x, y, off, S0) && 0 <= t < x.T && 0 <= j < x.dv
    ensures Out(x, S0, t, j) == Out(y, NOTHING, off + t, j)
  {
    hide State, Sum, RightState, At;
    var f := (i: int) => x.q(t, i) * State(x, 0, At(S0, i, j), t + 1, i, j);
    var h := (i: int) => y.q(off + t, i) * State(y, 0, At(NOTHING, i, j), off + t + 1, i, j);
    forall i | 0 <= i < x.dk ensures f(i) == h(i) { SliceState(x, y, off, S0, t + 1, i, j); }
    SumExt(0, x.dk, f, h);
  }

  lemma SliceGradQ(x: Gla, y: Gla, off: int, dO: Matrix, dOy: Matrix, S0: Matrix, t: int, i: int)
    requires Embeds(x, y, off) && EmbedsRows(dO, dOy, x.T, x.dv, off) && RightState(x, y, off, S0) && 0 <= t < x.T
    requires 0 <= i < x.dk
    ensures GradQ(x, dO, S0, t, i) == GradQ(y, dOy, NOTHING, off + t, i)
  {
    hide State, Sum, RightState, At;
    var f := (j: int) => At(dO, t, j) * State(x, 0, At(S0, i, j), t + 1, i, j);
    var h := (j: int) => At(dOy, off + t, j) * State(y, 0, At(NOTHING, i, j), off + t + 1, i, j);
    forall j | 0 <= j < x.dv ensures f(j) == h(j) { SliceState(x, y, off, S0, t + 1, i, j); }
    SumExt(0, x.dv, f, h);
  }

  lemma SliceGradK(x: Gla, y: Gla, off: int, dO: Matrix, dOy: Matrix, E1: Matrix, t: int, i: int)
    requires Embeds(x, y, off) && EmbedsRows(dO, dOy, x.T, x.dv, off) && RightAdj(x, y, off, dOy, E1) && 0 <= t < x.T
    requires 0 <= i < x.dk
    ensures GradK(x, dO, E1, t, i) == GradK(y, dOy, NOTHING, off + t, i)
  {
    hide Total, Sum, RightAdj, At, EmbedsRows;
    var f := (j: int) => x.v(t, j) * Total(x, dO, x.T, At(E1, i, j), t, i, j);
    var h := (j: int) => y.v(off + t, j) * Total(y, dOy, y.T, At(NOTHING, i, j), off + t, i, j);
    forall j | 0 <= j < x.dv ensures f(j) == h(j) { SliceTotal(x, y, off, dO, dOy, E1, t, i, j); }
    SumExt(0, x.dv, f, h);
  }

  lemma SliceGradV(x: Gla, y: Gla, off: int, dO: Matrix, dOy: Matrix, E1: Matrix, t: int, j: int)
    requires Embeds(x, y, off) && EmbedsRows(dO, dOy, x.T, x.dv, off) && RightAdj(x, y, off, dOy, E1) && 0 <= t < x.T
    requires 0 <= j < x.dv
    ensures GradV(x, dO, E1, t, j) == GradV(y, dOy, NOTHING, off + t, j)
  {
    hide Total, Sum, RightAdj, At, EmbedsRows;
    var f := (i: int) => x.k(t, i) * Total(x, dO, x.T, At(E1, i, j), t, i, j);
    var h := (i: int) => y.k(off + t, i) * Total(y, dOy, y.T, At(NOTHING, i, j), off + t, i, j);
    forall i | 0 <= i < x.dk ensures f(i) == h(i) { SliceTotal(x, y, off, dO, dOy, E1, t, i, j); }
    SumExt(0, x.dk, f, h);
  }

  lemma SliceGradA(x: Gla, y: Gla, off: int, dO: Matrix, dOy: Matrix, S0: Matrix, E1: Matrix, t: int, i: int)
    requires Embeds(x, y, off) && EmbedsRows(dO, dOy, x.T, x.dv, off) && RightState(x, y, off, S0)
    requires RightAdj(x, y, off, dOy, E1)
    requires 0 <= t < x.T && 0 <= i < x.dk
    ensures GradA(x, dO, S0, E1, t, i) == GradA(y, dOy, NOTHING, NOTHING, off + t, i)
  {
    hide Total, State, Sum, RightAdj, RightState, At, Embeds, EmbedsRows;
    var f := (j: int) => Total(x, dO, x.T, At(E1, i, j), t, i, j) * State(x, 0, At(S0, i, j), t, i, j);
    var h := (j: int) =>
      Total(y, dOy, y.T, At(NOTHING, i, j), off + t, i, j) * State(y, 0, At(NOTHING, i, j), off + t, i, j);
    forall j | 0 <= j < x.dv ensures f(j) == h(j) {
      SliceTotal(x, y, off, dO, dOy, E1, t, i, j);
      SliceState(x, y, off, S0, t, i, j);
    }
    EmbedsDims(x, y, off);
    SumExt(0, x.dv, f, h);
  }

  lemma EmbedsDims(x: Gla, y: Gla, off: int)
    requires Embeds(x, y, off)
    ensures x.dk == y.dk && x.dv == y.dv && 0 <= off && off + x.T <= y.T
  {}
}

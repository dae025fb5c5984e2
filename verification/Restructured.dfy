/** The backward as the device kernels restructure it (b4_math_check.py, and
    the fused program's gla_recompute / gla_grad_o / gla_grad_h): gamma pushed
    onto the state once, the gate gradient carried as db * b, the last-row
    update replaced by a whole-tile add after the reverse sum, and the carry
    update unguarded at the first chunk. */
module Restructured {
  import opened Tensor
  import opened Gla
  import opened Chunk
  import opened ChunkForward
  import opened ChunkGrad
  import opened ChunkBackward

  // ---------------------------------------------------------------------
  // k_recompute
  // ---------------------------------------------------------------------

  /** (s_run + (k / b)^T @ v) * gamma */
  function ScaledAdvance(x: Gla, ch: Chunk, s: Matrix, lo: int, C: nat): Matrix {
    Tab(x.dk, x.dv, (i, j) => (At(s, i, j) + KinDotV(x, ch, lo, C, i, j)) * El(ch.gamma, i))
  }

  function KinDotV(x: Gla, ch: Chunk, lo: int, C: nat, i: int, j: int): real {
    Sum(0, C, t => At(ch.kin, t, i) * x.v(lo + t, j))
  }

  lemma ScaledAdvanceHolds(x: Gla, s: Matrix, lo: int, C: nat)
    requires Chunked(x, C) && 0 <= lo && lo + C <= x.T && HoldsLocal(x, s, lo)
    ensures HoldsLocal(x, ScaledAdvance(x, Recompute(x, lo, C), s, lo, C), lo + C)
  {
    hide State, Decay, At, El, Recompute, KV, Sum;
    var ch := Recompute(x, lo, C);
    forall i, j | 0 <= i < x.dk && 0 <= j < x.dv
      ensures At(ScaledAdvance(x, ch, s, lo, C), i, j) == State(x, 0, 0.0, lo + C, i, j)
    {
      RecomputeAt(x, lo, C, 0, i);
      KinV(x, lo, C, C, i, j);
      StateClosed(x, lo, At(s, i, j), C, i, j);
      StateResume(x, 0, lo, 0.0, lo + C, i, j);
    }
  }

  // ---------------------------------------------------------------------
  // k_grad_o
  // ---------------------------------------------------------------------

  /** Log-domain gate gradient of the output stage: dQ * q - dKo * k. */
  function FlowOut(x: Gla, dO: Matrix, S0: Matrix, C: nat, t: int, i: int): real
    requires 0 < C
  {
    x.q(t, i) * GradQ(x, dO, S0, t, i) - x.k(t, i) * KIntraAt(x, dO, C, t, i)
  }

  // ---------------------------------------------------------------------
  // k_grad_h
  // ---------------------------------------------------------------------

  /** dSloc * gamma */
  function Pushed(x: Gla, ch: Chunk, dS: Matrix): Matrix {
    Tab(x.dk, x.dv, (i, j) => At(dS, i, j) * El(ch.gamma, i))
  }

  /** dV_h = (k / b) @ dSloc_p */
  function PushedV(x: Gla, ch: Chunk, dSp: Matrix, t: int, j: int): real {
    Sum(0, x.dk, i => At(ch.kin, t, i) * At(dSp, i, j))
  }

  /** dK_h = (v @ dSloc_p^T) / b */
  function PushedK(x: Gla, ch: Chunk, dSp: Matrix, lo: int, t: int, i: int): real {
    Quot(DKstate(x, dSp, lo, t, i), At(ch.b, t, i))
  }

  /** corr = rowsum(dSloc_p * S_prev) + dcvec_p * c_prev + colsum(dK_h * k) */
  function Correction(x: Gla, ch: Chunk, dSp: Matrix, Sprev: Matrix, dcp: real, cprev: real, lo: int, C: nat,
                      i: int): real {
    RowDot(dSp, Sprev, x.dv, i) + dcp * cprev + Sum(0, C, t => PushedK(x, ch, dSp, lo, t, i) * x.k(lo + t, i))
  }

  lemma PushedAt(x: Gla, ch: Chunk, dS: Matrix, i: int, j: int)
    requires 0 <= i < x.dk && 0 <= j < x.dv
    ensures At(Pushed(x, ch, dS), i, j) == At(dS, i, j) * El(ch.gamma, i)
  {
    hide At, El;
  }

  /** Pushing gamma onto the state commutes with the products. */
  lemma PushedVIs(x: Gla, dS: Matrix, lo: int, C: nat, t: int, j: int)
    requires 0 <= t < C && 0 <= j < x.dv
    ensures PushedV(x, Recompute(x, lo, C), Pushed(x, Recompute(x, lo, C), dS), t, j)
      == KstateDS(x, Recompute(x, lo, C), dS, t, j)
  {
    hide At, El, Sum, Recompute, Pushed, Decay, Inv, Gla.k;
    var ch := Recompute(x, lo, C);
    var f := (i: int) => At(ch.kin, t, i) * At(Pushed(x, ch, dS), i, j);
    var h := (i: int) => At(ch.kstate, t, i) * At(dS, i, j);
    forall i | 0 <= i < x.dk ensures f(i) == h(i) {
      PushedAt(x, ch, dS, i, j);
      RecomputeAt(x, lo, C, t, i);
      PushCell(x.k(lo + t, i), Inv(Decay(x, lo, lo + t + 1, i)), Decay(x, lo, lo + C, i), At(dS, i, j),
        At(ch.kin, t, i), At(Pushed(x, ch, dS), i, j), At(ch.kstate, t, i));
    }
    SumExt(0, x.dk, f, h);
  }

  lemma PushCell(k: real, y: real, g: real, d: real, kin: real, dp: real, kst: real)
    requires kin == k * y && dp == d * g && kst == k * (g * y)
    ensures kin * dp == kst * d
  {
    assert k * y * (d * g) == k * (g * y) * d;
  }

  lemma DKstatePushed(x: Gla, ch: Chunk, dS: Matrix, lo: int, t: int, i: int)
    requires 0 <= i < x.dk
    ensures DKstate(x, Pushed(x, ch, dS), lo, t, i) == El(ch.gamma, i) * DKstate(x, dS, lo, t, i)
  {
    hide At, El, Sum, Pushed, Gla.v;
    var f := (j: int) => x.v(lo + t, j) * At(Pushed(x, ch, dS), i, j);
    var h := (j: int) => x.v(lo + t, j) * At(dS, i, j);
    forall j | 0 <= j < x.dv ensures f(j) == El(ch.gamma, i) * h(j) {
      PushedAt(x, ch, dS, i, j);
    }
    SumScale(0, x.dv, El(ch.gamma, i), h, f);
  }

  lemma PushedKIs(x: Gla, dS: Matrix, lo: int, C: nat, t: int, i: int)
    requires 0 <= t < C && 0 <= i < x.dk
    ensures PushedK(x, Recompute(x, lo, C), Pushed(x, Recompute(x, lo, C), dS), lo, t, i) == KState(x, dS, lo, C, t, i)
  {
    hide At, El, Recompute, Pushed, DKstate, Inv;
    DKstatePushed(x, Recompute(x, lo, C), dS, lo, t, i);
  }

  lemma RowDotPushed(x: Gla, ch: Chunk, dS: Matrix, S: Matrix, i: int)
    requires 0 <= i < x.dk
    ensures RowDot(Pushed(x, ch, dS), S, x.dv, i) == El(ch.gamma, i) * RowDot(dS, S, x.dv, i)
  {
    hide At, El, Sum, Pushed;
    var f := (j: int) => At(Pushed(x, ch, dS), i, j) * At(S, i, j);
    var h := (j: int) => At(dS, i, j) * At(S, i, j);
    forall j | 0 <= j < x.dv ensures f(j) == El(ch.gamma, i) * h(j) {
      PushedAt(x, ch, dS, i, j);
      Assoc(El(ch.gamma, i), At(dS, i, j), At(S, i, j));
    }
    SumScale(0, x.dv, El(ch.gamma, i), h, f);
  }

  lemma PushedKDot(x: Gla, dS: Matrix, lo: int, C: nat, i: int)
    requires 0 <= i < x.dk
    ensures var ch := Recompute(x, lo, C);
      Sum(0, C, t => PushedK(x, ch, Pushed(x, ch, dS), lo, t, i) * x.k(lo + t, i))
        == El(ch.gamma, i) * KstateDot(x, dS, lo, C, i)
  {
    hide At, El, Sum, Recompute, Pushed, DKstate, KstateTerm, PushedK, Gla.k;
    var ch := Recompute(x, lo, C);
    var f := (t: int) => PushedK(x, ch, Pushed(x, ch, dS), lo, t, i) * x.k(lo + t, i);
    var h := (t: int) => KstateTerm(x, dS, lo, C, t, i);
    forall t | 0 <= t < C ensures f(t) == El(ch.gamma, i) * h(t) {
      PushedKTerm(x, dS, lo, C, t, i);
    }
    SumScale(0, C, El(ch.gamma, i), h, f);
  }

  lemma PushedKTerm(x: Gla, dS: Matrix, lo: int, C: nat, t: int, i: int)
    requires 0 <= t < C && 0 <= i < x.dk
    ensures var ch := Recompute(x, lo, C);
      PushedK(x, ch, Pushed(x, ch, dS), lo, t, i) * x.k(lo + t, i) == El(ch.gamma, i) * KstateTerm(x, dS, lo, C, t, i)
  {
    hide At, El, Recompute, Pushed, DKstate, Inv, Gla.k;
    DKstatePushed(x, Recompute(x, lo, C), dS, lo, t, i);
  }

  /** The three correction terms together are gamma * dgamma_n. */
  lemma CorrectionIs(x: Gla, dS: Matrix, Sprev: Matrix, dc: real, dcp: real, cprev: real, lo: int, C: nat, i: int)
    requires 0 <= i < x.dk && dcp == dc * El(Recompute(x, lo, C).gamma, i)
    ensures var ch := Recompute(x, lo, C);
      Correction(x, ch, Pushed(x, ch, dS), Sprev, dcp, cprev, lo, C, i)
      == El(ch.gamma, i) * DGamma(x, dS, Sprev, dc, cprev, lo, C, i)
  {
    hide At, El, Sum, Recompute, Pushed, RowDot, KstateDot, PushedK, Gla.k;
    var ch := Recompute(x, lo, C);
    RowDotPushed(x, ch, dS, Sprev, i);
    PushedKDot(x, dS, lo, C, i);
    CorrAlgebra(El(ch.gamma, i), RowDot(dS, Sprev, x.dv, i), dc, dcp, cprev, KstateDot(x, dS, lo, C, i));
  }

  lemma CorrAlgebra(g: real, r: real, dc: real, dcp: real, c: real, k: real)
    requires dcp == dc * g
    ensures g * r + dcp * c + g * k == g * (r + dc * c + k)
  {}

  // The two gate forms agree: a reverse sum whose last row carries dgamma, and
  // a reverse sum of the flow alone with gamma * dgamma added to every row.

  /** triu @ dgcs */
  function TriuSum(dgcs: Matrix, C: nat, t: int, i: int): real {
    Sum(0, C, s => (if t <= s then 1.0 else 0.0) * At(dgcs, s, i))
  }

  lemma TriuWindow(dgcs: Matrix, C: nat, t: int, i: int)
    requires 0 <= t < C
    ensures TriuSum(dgcs, C, t, i) == Sum(t, C, s => At(dgcs, s, i))
  {
    hide At, Sum;
    SumWindow(C, t, C, s => At(dgcs, s, i), s => (if t <= s then 1.0 else 0.0) * At(dgcs, s, i));
  }

  /** dgcso - dK_h * k, the conserved flow of each token of the chunk. */
  function FlowTile(x: Gla, dgcso: Matrix, ch: Chunk, dSp: Matrix, lo: int, C: nat): Matrix {
    Tab(C, x.dk, (t, i) => At(dgcso, t, i) - PushedK(x, ch, dSp, lo, t, i) * x.k(lo + t, i))
  }

  ghost predicate FlowRows(x: Gla, dO: Matrix, S0: Matrix, C: nat, lo: int, rows: Matrix)
    requires 0 < C
  {
    forall t, i | 0 <= t < C && 0 <= i < x.dk :: At(rows, t, i) == FlowOut(x, dO, S0, C, lo + t, i)
  }

  lemma FlowTileIs(x: Gla, dO: Matrix, S0: Matrix, E1: Matrix, C: nat, n: nat, lo: nat, rows: Matrix, dS: Matrix,
                   t: int, i: int)
    requires Chunked(x, C) && lo == n * C && lo + C <= x.T && 0 <= t < C && 0 <= i < x.dk
    requires FlowRows(x, dO, S0, C, lo, rows) && HoldsAdj(x, dO, E1, dS, lo + C)
    ensures var ch := Recompute(x, lo, C);
      At(FlowTile(x, rows, ch, Pushed(x, ch, dS), lo, C), t, i) == TokenFlow(x, dO, S0, E1, lo + t, i)
  {
    hide Recompute, Pushed, PushedK, KState, KIntra, KIntraAt, GradQ, GradK, HoldsAdj, Gla.q, Gla.k;
    IntraHalves(x, dO, C, n, t, i);
    ChunkDK(x, dO, E1, lo, C, dS, t, i);
    PushedKIs(x, dS, lo, C, t, i);
    FlowAlgebra(x.q(lo + t, i), GradQ(x, dO, S0, lo + t, i), x.k(lo + t, i), KIntra(x, dO, lo, C, t, i),
      KState(x, dS, lo, C, t, i), GradK(x, dO, E1, lo + t, i));
  }

  lemma FlowAlgebra(q: real, dq: real, k: real, ki: real, ks: real, dk: real)
    requires ki + ks == dk
    ensures q * dq - k * ki - ks * k == q * dq - k * dk
  {
    Distribute(k, ki, ks);
  }

  lemma GammaRow(x: Gla, dO: Matrix, S0: Matrix, E1: Matrix, dg: Vector, C: nat, lo: int,
                 dS: Matrix, Sprev: Matrix, dc: Vector, cprev: Vector, i: int)
    requires Chunked(x, C) && 0 <= lo && lo + C <= x.T && 0 <= i < x.dk
    requires HoldsLocal(x, Sprev, lo) && HoldsDecay(x, cprev, lo)
    requires HoldsAdj(x, dO, E1, dS, lo + C) && HoldsDc(x, S0, E1, dg, dS, dc, lo + C)
    ensures El(Recompute(x, lo, C).gamma, i) * DGamma(x, dS, Sprev, El(dc, i), El(cprev, i), lo, C, i)
      == LaterFlow(x, dO, S0, E1, dg, lo + C, i)
  {
    hide At, El, Recompute, DGamma, LaterFlow, HoldsLocal, HoldsDecay, HoldsAdj, HoldsDc, Decay;
    LastRow(x, dO, S0, E1, dg, C, lo, dS, Sprev, dc, cprev, i);
    RecomputeAt(x, lo, C, C - 1, i);
    assert lo + (C - 1) + 1 == lo + C;
  }

  /** (triu @ dgcs + corr) / a is the gate gradient of gla_chunk_backward. */
  lemma KernelGate(x: Gla, dO: Matrix, S0: Matrix, E1: Matrix, dg: Vector, C: nat, n: nat, lo: nat, rows: Matrix,
                   dS: Matrix, Sprev: Matrix, dc: Vector, dcp: real, cprev: Vector, t: int, i: int)
    requires Chunked(x, C) && lo == n * C && lo + C <= x.T && 0 <= t < C && 0 <= i < x.dk
    requires FlowRows(x, dO, S0, C, lo, rows) && HoldsLocal(x, Sprev, lo) && HoldsDecay(x, cprev, lo)
    requires HoldsAdj(x, dO, E1, dS, lo + C) && HoldsDc(x, S0, E1, dg, dS, dc, lo + C)
    requires dcp == El(dc, i) * El(Recompute(x, lo, C).gamma, i)
    ensures var ch := Recompute(x, lo, C); var dSp := Pushed(x, ch, dS);
      KernelGateAt(x, ch, rows, dSp, Sprev, dcp, El(cprev, i), lo, C, t, i) == GateGrad(x, dO, S0, E1, dg, lo + t, i)
  {
    hide Recompute, Pushed, At, El, Sum, FlowTile, TriuSum, Correction, DGamma, TokenFlow, LaterFlow, GateFlow,
      GateGrad, Quot, HoldsLocal, HoldsDecay, HoldsAdj, HoldsDc, FlowRows;
    var ch := Recompute(x, lo, C);
    var tile := FlowTile(x, rows, ch, Pushed(x, ch, dS), lo, C);
    var flow := (s: int) => TokenFlow(x, dO, S0, E1, s, i);
    TriuWindow(tile, C, t, i);
    forall s | t <= s < C
      ensures At(tile, s, i) == flow(s + lo)
    {
      FlowTileIs(x, dO, S0, E1, C, n, lo, rows, dS, s, i);
    }
    SumShift(t, C, lo, flow, s => At(tile, s, i));
    CorrectionIs(x, dS, Sprev, El(dc, i), dcp, El(cprev, i), lo, C, i);
    GammaRow(x, dO, S0, E1, dg, C, lo, dS, Sprev, dc, cprev, i);
    FlowFrom(x, dO, S0, E1, dg, lo + t, lo + C, i, flow);
    GateFlowDivided(x, dO, S0, E1, dg, lo + t, i,
      TriuSum(tile, C, t, i) + Correction(x, ch, Pushed(x, ch, dS), Sprev, dcp, El(cprev, i), lo, C, i));
  }

  /** (triu @ (dgcso - dK_h * k) + corr) / a */
  function KernelGateAt(x: Gla, ch: Chunk, rows: Matrix, dSp: Matrix, Sprev: Matrix, dcp: real, cprev: real,
                        lo: int, C: nat, t: int, i: int): real {
    Quot(TriuSum(FlowTile(x, rows, ch, dSp, lo, C), C, t, i) + Correction(x, ch, dSp, Sprev, dcp, cprev, lo, C, i),
      x.a(lo + t, i))
  }

  // The reverse walk. The carry is updated at every chunk, the first included.

  function Plus(x: Gla, m: Matrix, d: Matrix): Matrix {
    Tab(x.dk, x.dv, (i, j) => At(m, i, j) + At(d, i, j))
  }

  /** dcvec * gamma */
  function PushedDecay(x: Gla, ch: Chunk, dc: Vector): Vector {
    TabV(x.dk, i => El(dc, i) * El(ch.gamma, i))
  }

  function PlusV(x: Gla, v: Vector, d: Vector): Vector {
    TabV(x.dk, i => El(v, i) + El(d, i))
  }

  /** dSloc_p + dH and dcvec_p + dcprev are the carries of gla_chunk_backward. */
  lemma CarryIs(x: Gla, ch: Chunk, dS: Matrix, dc: Vector, dHn: Matrix, dcn: Vector)
    ensures Plus(x, Pushed(x, ch, dS), dHn) == BackState(x, ch, dS, dHn)
    ensures PlusV(x, PushedDecay(x, ch, dc), dcn) == BackDecay(x, ch, dc, dcn)
  {
    hide At, El, Recompute;
    SameMatrix(Plus(x, Pushed(x, ch, dS), dHn), BackState(x, ch, dS, dHn), x.dk, x.dv);
    SameVector(PlusV(x, PushedDecay(x, ch, dc), dcn), BackDecay(x, ch, dc, dcn));
  }
}

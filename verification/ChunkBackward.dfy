/** gla_chunk_backward: one device's explicit chunk-parallel backward. */
module ChunkBackward {
  import opened Tensor
  import opened Gla
  import opened Chunk
  import opened ChunkForward
  import opened ChunkGrad

  // ---------------------------------------------------------------------
  // Output stage: one pass over the chunks in forward order
  // ---------------------------------------------------------------------

  /** Intra-chunk halves of dK and dV, by token. */
  function KIntraAt(x: Gla, dO: Matrix, C: nat, t: int, i: int): real
    requires 0 < C
  {
    var lo := ChunkStart(C, t);
    KIntra(x, dO, lo, C, t - lo, i)
  }

  function VIntraAt(x: Gla, dO: Matrix, C: nat, t: int, j: int): real
    requires 0 < C
  {
    var lo := ChunkStart(C, t);
    ScoresDO(Recompute(x, lo, C), dO, lo, C, t - lo, j)
  }

  lemma IntraHalves(x: Gla, dO: Matrix, C: nat, n: int, t: int, i: int)
    requires 0 < C && 0 <= t < C
    ensures KIntraAt(x, dO, C, n * C + t, i) == KIntra(x, dO, n * C, C, t, i)
    ensures VIntraAt(x, dO, C, n * C + t, i) == ScoresDO(Recompute(x, n * C, C), dO, n * C, C, t, i)
  {
    hide KIntra, ScoresDO, Recompute;
    ChunkIndex(C, n, n * C + t);
  }

  ghost predicate DoneQ(x: Gla, dO: Matrix, S0: Matrix, dQ: array2<real>, hi: int)
    requires dQ.Length0 == x.T && dQ.Length1 == x.dk
    reads dQ
  {
    forall t, i | 0 <= t < x.T && 0 <= i < x.dk :: dQ[t, i] == if t < hi then GradQ(x, dO, S0, t, i) else 0.0
  }

  ghost predicate DoneKIntra(x: Gla, dO: Matrix, C: nat, dK: array2<real>, hi: int)
    requires 0 < C && dK.Length0 == x.T && dK.Length1 == x.dk
    reads dK
  {
    forall t, i | 0 <= t < x.T && 0 <= i < x.dk :: dK[t, i] == if t < hi then KIntraAt(x, dO, C, t, i) else 0.0
  }

  ghost predicate DoneVIntra(x: Gla, dO: Matrix, C: nat, dV: array2<real>, hi: int)
    requires 0 < C && dV.Length0 == x.T && dV.Length1 == x.dv
    reads dV
  {
    forall t, j | 0 <= t < x.T && 0 <= j < x.dv :: dV[t, j] == if t < hi then VIntraAt(x, dO, C, t, j) else 0.0
  }

  /** dQ[lo:hi] += dQt * b */
  method AddDQ(x: Gla, dO: Matrix, S0: Matrix, C: nat, lo: nat, H: Matrix, dQ: array2<real>)
    requires Chunked(x, C) && lo + C <= x.T && HoldsState(x, S0, H, lo)
    requires dQ.Length0 == x.T && dQ.Length1 == x.dk && DoneQ(x, dO, S0, dQ, lo)
    modifies dQ
    ensures DoneQ(x, dO, S0, dQ, lo + C)
  {
    hide Recompute, Dscores, GradQ, HoldsState, DQt, At;
    var ch, dsc := Recompute(x, lo, C), Dscores(x, dO, lo, C);
    var blk := Tab(C, x.dk, (t, i) => DQt(x, dO, ch, H, dsc, lo, C, t, i) * At(ch.b, t, i));
    AddRows(dQ, lo, blk);
    forall t, i | lo <= t < lo + C && 0 <= i < x.dk ensures At(blk, t - lo, i) == GradQ(x, dO, S0, t, i) {
      ChunkDQ(x, dO, S0, lo, C, H, t - lo, i);
    }
  }

  /** dK[lo:hi] += dKintra / b */
  method AddDKIntra(x: Gla, dO: Matrix, C: nat, n: nat, lo: nat, dK: array2<real>)
    requires 0 < C && lo == n * C && lo + C <= x.T
    requires dK.Length0 == x.T && dK.Length1 == x.dk && DoneKIntra(x, dO, C, dK, lo)
    modifies dK
    ensures DoneKIntra(x, dO, C, dK, lo + C)
  {
    hide KIntra, KIntraAt, At;
    var blk := Tab(C, x.dk, (t, i) => KIntra(x, dO, lo, C, t, i));
    AddRows(dK, lo, blk);
    forall t, i | lo <= t < lo + C && 0 <= i < x.dk ensures At(blk, t - lo, i) == KIntraAt(x, dO, C, t, i) {
      IntraHalves(x, dO, C, n, t - lo, i);
    }
  }

  /** dV[lo:hi] += scores^T @ dO_n */
  method AddDVIntra(x: Gla, dO: Matrix, C: nat, n: nat, lo: nat, dV: array2<real>)
    requires 0 < C && lo == n * C && lo + C <= x.T
    requires dV.Length0 == x.T && dV.Length1 == x.dv && DoneVIntra(x, dO, C, dV, lo)
    modifies dV
    ensures DoneVIntra(x, dO, C, dV, lo + C)
  {
    hide ScoresDO, Recompute, VIntraAt, At;
    var ch := Recompute(x, lo, C);
    var blk := Tab(C, x.dv, (t, j) => ScoresDO(ch, dO, lo, C, t, j));
    AddRows(dV, lo, blk);
    forall t, j | lo <= t < lo + C && 0 <= j < x.dv ensures At(blk, t - lo, j) == VIntraAt(x, dO, C, t, j) {
      IntraHalves(x, dO, C, n, t - lo, j);
    }
  }

  /** acc holds the gradient of the received boundary through the outputs of
      tokens 0 .. lo - 1. */
  ghost predicate HoldsRecvGrad(x: Gla, dO: Matrix, acc: Matrix, lo: int) {
    IsMatrix(acc, x.dk, x.dv)
    && forall i, j | 0 <= i < x.dk && 0 <= j < x.dv :: At(acc, i, j) == Adj(x, dO, lo, 0.0, 0, i, j)
  }

  /** dS_recv + c_prev[n] * dH */
  function AddRecv(x: Gla, acc: Matrix, c: Vector, dH: Matrix): Matrix {
    Tab(x.dk, x.dv, (i, j) => At(acc, i, j) + El(c, i) * At(dH, i, j))
  }

  /** dH_n = Qt^T @ dO_n */
  function QtDOMatrix(x: Gla, dO: Matrix, lo: int, C: nat): Matrix {
    var ch := Recompute(x, lo, C);
    Tab(x.dk, x.dv, (i, j) => QtDO(ch, dO, lo, C, i, j))
  }

  lemma AddRecvHolds(x: Gla, dO: Matrix, acc: Matrix, c: Vector, lo: int, C: nat)
    requires 0 <= lo && lo + C <= x.T && 0 < C && HoldsRecvGrad(x, dO, acc, lo) && HoldsDecay(x, c, lo)
    ensures HoldsRecvGrad(x, dO, AddRecv(x, acc, c, QtDOMatrix(x, dO, lo, C)), lo + C)
  {
    hide Adj, Total, Decay, At, El, Recompute, QdO, Sum;
    var dH := QtDOMatrix(x, dO, lo, C);
    forall i, j | 0 <= i < x.dk && 0 <= j < x.dv
      ensures At(AddRecv(x, acc, c, dH), i, j) == Adj(x, dO, lo + C, 0.0, 0, i, j)
    {
      QtDOTail(x, dO, lo, C, 0, i, j);
      AdjClosed(x, dO, lo, C, 0.0, 0, i, j);
      Edges(x, dO, lo, 0.0, 0.0, i, j);
      AdjResume(x, dO, lo + C, lo, 0.0, 0, i, j);
      AdjAffine(x, dO, lo, Adj(x, dO, lo + C, 0.0, lo, i, j), 0, i, j);
    }
  }

  function DbOutMatrix(x: Gla, dO: Matrix, H: Matrix, lo: int, C: nat): Matrix {
    Tab(C, x.dk, (t, i) => DbOut(x, dO, H, lo, C, t, i))
  }

  function DcPrev(x: Gla, dH: Matrix, Srecv: Matrix): Vector {
    TabV(x.dk, i => RowDot(dH, Srecv, x.dv, i))
  }

  /** What the output stage hands to the state stage, per chunk. */
  ghost predicate OutputStage(x: Gla, dO: Matrix, Srecv: Matrix, C: nat, Sprev: seq<Matrix>, cprev: seq<Vector>,
                              db: seq<Matrix>, dH: seq<Matrix>, dc: seq<Vector>, N: nat) {
    && |db| == |dH| == |dc| == N <= |Sprev| && |Sprev| == |cprev|
    && forall n | 0 <= n < N ::
        && db[n] == DbOutMatrix(x, dO, History(x, Sprev[n], cprev[n], Srecv), n * C, C)
        && dH[n] == QtDOMatrix(x, dO, n * C, C)
        && dc[n] == DcPrev(x, dH[n], Srecv)
  }

  method GradO(x: Gla, C: nat, Sprev: seq<Matrix>, cprev: seq<Vector>, Srecv: Matrix, dO: Matrix,
               dQ: array2<real>, dK: array2<real>, dV: array2<real>)
    returns (db: seq<Matrix>, dH: seq<Matrix>, dc: seq<Vector>, dSrecv: Matrix)
    requires Chunked(x, C) && Snapshots(x, C, Sprev, cprev, x.T / C)
    requires dQ.Length0 == x.T && dQ.Length1 == x.dk && dK.Length0 == x.T && dK.Length1 == x.dk
    requires dV.Length0 == x.T && dV.Length1 == x.dv && dQ != dK && dQ != dV && dK != dV
    requires DoneQ(x, dO, Srecv, dQ, 0) && DoneKIntra(x, dO, C, dK, 0) && DoneVIntra(x, dO, C, dV, 0)
    modifies dQ, dK, dV
    ensures DoneQ(x, dO, Srecv, dQ, x.T) && DoneKIntra(x, dO, C, dK, x.T) && DoneVIntra(x, dO, C, dV, x.T)
    ensures OutputStage(x, dO, Srecv, C, Sprev, cprev, db, dH, dc, x.T / C)
    ensures HoldsRecvGrad(x, dO, dSrecv, x.T)
  {
    hide DoneQ, DoneKIntra, DoneVIntra, HoldsRecvGrad, HoldsState, HoldsLocal, HoldsDecay, AddRecv, QtDOMatrix,
      DbOutMatrix, DcPrev, History;
    db, dH, dc, dSrecv := [], [], [], Zeros(x.dk, x.dv);
    var lo, N := 0, x.T / C;
    ChunksCover(x.T, C);
    RecvStart(x, dO, dSrecv);
    for n := 0 to N
      invariant lo == n * C
      invariant DoneQ(x, dO, Srecv, dQ, lo) && DoneKIntra(x, dO, C, dK, lo) && DoneVIntra(x, dO, C, dV, lo)
      invariant OutputStage(x, dO, Srecv, C, Sprev, cprev, db, dH, dc, n)
      invariant HoldsRecvGrad(x, dO, dSrecv, lo)
    {
      ChunkBounds(x.T, C, n);
      var H := History(x, Sprev[n], cprev[n], Srecv);
      HistoryHolds(x, Sprev[n], cprev[n], Srecv, lo);
      AddDQ(x, dO, Srecv, C, lo, H, dQ);
      AddDKIntra(x, dO, C, n, lo, dK);
      AddDVIntra(x, dO, C, n, lo, dV);
      var dHn := QtDOMatrix(x, dO, lo, C);
      AddRecvHolds(x, dO, dSrecv, cprev[n], lo, C);
      dSrecv := AddRecv(x, dSrecv, cprev[n], dHn);
      db, dH, dc := db + [DbOutMatrix(x, dO, H, lo, C)], dH + [dHn], dc + [DcPrev(x, dHn, Srecv)];
      lo := lo + C;
    }
  }

  lemma RecvStart(x: Gla, dO: Matrix, acc: Matrix)
    requires acc == Zeros(x.dk, x.dv)
    ensures HoldsRecvGrad(x, dO, acc, 0)
  {}

  // ---------------------------------------------------------------------
  // State stage: the chunks in reverse order
  // ---------------------------------------------------------------------

  ghost predicate DoneK(x: Gla, dO: Matrix, E1: Matrix, C: nat, dK: array2<real>, lo: int)
    requires 0 < C && dK.Length0 == x.T && dK.Length1 == x.dk
    reads dK
  {
    forall t, i | 0 <= t < x.T && 0 <= i < x.dk ::
      dK[t, i] == if lo <= t then GradK(x, dO, E1, t, i) else KIntraAt(x, dO, C, t, i)
  }

  ghost predicate DoneV(x: Gla, dO: Matrix, E1: Matrix, C: nat, dV: array2<real>, lo: int)
    requires 0 < C && dV.Length0 == x.T && dV.Length1 == x.dv
    reads dV
  {
    forall t, j | 0 <= t < x.T && 0 <= j < x.dv ::
      dV[t, j] == if lo <= t then GradV(x, dO, E1, t, j) else VIntraAt(x, dO, C, t, j)
  }

  /** dK[lo:hi] += dKstate * (gamma / b) */
  method AddDKState(x: Gla, dO: Matrix, E1: Matrix, C: nat, n: nat, lo: nat, dS: Matrix, dK: array2<real>)
    requires Chunked(x, C) && lo == n * C && lo + C <= x.T && HoldsAdj(x, dO, E1, dS, lo + C)
    requires dK.Length0 == x.T && dK.Length1 == x.dk && DoneK(x, dO, E1, C, dK, lo + C)
    modifies dK
    ensures DoneK(x, dO, E1, C, dK, lo)
  {
    hide KState, KIntra, KIntraAt, GradK, HoldsAdj, At;
    var blk := Tab(C, x.dk, (t, i) => KState(x, dS, lo, C, t, i));
    AddRows(dK, lo, blk);
    forall t, i | lo <= t < lo + C && 0 <= i < x.dk
      ensures KIntraAt(x, dO, C, t, i) + At(blk, t - lo, i) == GradK(x, dO, E1, t, i)
    {
      IntraHalves(x, dO, C, n, t - lo, i);
      ChunkDK(x, dO, E1, lo, C, dS, t - lo, i);
    }
  }

  /** dV[lo:hi] += Kstate @ dSloc */
  method AddDVState(x: Gla, dO: Matrix, E1: Matrix, C: nat, n: nat, lo: nat, dS: Matrix, dV: array2<real>)
    requires Chunked(x, C) && lo == n * C && lo + C <= x.T && HoldsAdj(x, dO, E1, dS, lo + C)
    requires dV.Length0 == x.T && dV.Length1 == x.dv && DoneV(x, dO, E1, C, dV, lo + C)
    modifies dV
    ensures DoneV(x, dO, E1, C, dV, lo)
  {
    hide KstateDS, ScoresDO, VIntraAt, GradV, HoldsAdj, Recompute, At;
    var ch := Recompute(x, lo, C);
    var blk := Tab(C, x.dv, (t, j) => KstateDS(x, ch, dS, t, j));
    AddRows(dV, lo, blk);
    forall t, j | lo <= t < lo + C && 0 <= j < x.dv
      ensures VIntraAt(x, dO, C, t, j) + At(blk, t - lo, j) == GradV(x, dO, E1, t, j)
    {
      IntraHalves(x, dO, C, n, t - lo, j);
      ChunkDV(x, dO, E1, lo, C, dS, t - lo, j);
    }
  }

  /** dcvec holds rowsum(dSloc * S_recv), plus what the caller's dg_total had
      over that, decayed from the end of the device. */
  ghost predicate HoldsDc(x: Gla, Srecv: Matrix, E1: Matrix, dg: Vector, dS: Matrix, dc: Vector, hi: int) {
    forall i | 0 <= i < x.dk ::
      El(dc, i) == RowDot(dS, Srecv, x.dv, i) + Decay(x, hi, x.T, i) * Gap(x, Srecv, E1, dg, i)
  }

  /** gamma * dSloc + dSprev_l[n] */
  function BackState(x: Gla, ch: Chunk, dS: Matrix, dH: Matrix): Matrix {
    Tab(x.dk, x.dv, (i, j) => El(ch.gamma, i) * At(dS, i, j) + At(dH, i, j))
  }

  /** dcvec * gamma + dcprev_l[n] */
  function BackDecay(x: Gla, ch: Chunk, dc: Vector, dcp: Vector): Vector {
    TabV(x.dk, i => El(dc, i) * El(ch.gamma, i) + El(dcp, i))
  }

  lemma BackStep(x: Gla, dO: Matrix, Srecv: Matrix, E1: Matrix, dg: Vector, lo: int, C: nat, dS: Matrix, dc: Vector)
    requires 0 <= lo && lo + C <= x.T && 0 < C
    requires HoldsAdj(x, dO, E1, dS, lo + C) && HoldsDc(x, Srecv, E1, dg, dS, dc, lo + C)
    ensures var ch, dH := Recompute(x, lo, C), QtDOMatrix(x, dO, lo, C);
      && HoldsAdj(x, dO, E1, BackState(x, ch, dS, dH), lo)
      && HoldsDc(x, Srecv, E1, dg, BackState(x, ch, dS, dH), BackDecay(x, ch, dc, DcPrev(x, dH, Srecv)), lo)
  {
    hide Adj, Total, Decay, At, El, Recompute, Sum, QtDO, Gap, RowDot;
    var ch, dH := Recompute(x, lo, C), QtDOMatrix(x, dO, lo, C);
    var next := BackState(x, ch, dS, dH);
    forall i, j | 0 <= i < x.dk && 0 <= j < x.dv
      ensures At(next, i, j) == Adj(x, dO, x.T, At(E1, i, j), lo, i, j)
    {
      StateGradientStep(x, dO, lo, C, At(E1, i, j), At(dS, i, j), i, j);
    }
    forall i | 0 <= i < x.dk
      ensures El(BackDecay(x, ch, dc, DcPrev(x, dH, Srecv)), i)
           == RowDot(next, Srecv, x.dv, i) + Decay(x, lo, x.T, i) * Gap(x, Srecv, E1, dg, i)
    {
      RecomputeAt(x, lo, C, 0, i);
      DecaySplit(x, lo, lo + C, x.T, i);
      RowDotStep(x, ch, dS, dH, next, Srecv, i);
      DcAlgebra(Decay(x, lo, lo + C, i), RowDot(dS, Srecv, x.dv, i), Decay(x, lo + C, x.T, i), Gap(x, Srecv, E1, dg, i),
        Decay(x, lo, x.T, i));
    }
  }

  lemma DcAlgebra(g: real, r: real, d: real, gap: real, gd: real)
    requires gd == g * d
    ensures (r + d * gap) * g == g * r + gd * gap
  {}

  lemma RowDotStep(x: Gla, ch: Chunk, dS: Matrix, dH: Matrix, next: Matrix, Srecv: Matrix, i: int)
    requires 0 <= i < x.dk && next == BackState(x, ch, dS, dH)
    ensures RowDot(next, Srecv, x.dv, i) == El(ch.gamma, i) * RowDot(dS, Srecv, x.dv, i) + RowDot(dH, Srecv, x.dv, i)
  {
    hide At, El, Sum;
    var f := (j: int) => At(next, i, j) * At(Srecv, i, j);
    var g := (j: int) => At(dS, i, j) * At(Srecv, i, j);
    var h := (j: int) => At(dH, i, j) * At(Srecv, i, j);
    var zero := (j: int) => 0.0;
    forall j | 0 <= j < x.dv ensures f(j) == El(ch.gamma, i) * g(j) + 1.0 * h(j) + 0.0 * zero(j) {
      RowDotCell(El(ch.gamma, i), At(dS, i, j), At(dH, i, j), At(Srecv, i, j));
    }
    SumThree(x.dv, f, El(ch.gamma, i), g, 1.0, h, 0.0, zero);
  }

  lemma RowDotCell(g: real, d: real, h: real, s: real)
    ensures (g * d + h) * s == g * (d * s) + h * s
  {}

  // ---------------------------------------------------------------------
  // Gate
  // ---------------------------------------------------------------------

  /** db after both stages; the last row also collects dgamma_n. */
  function DbFull(x: Gla, db: Matrix, dS: Matrix, Sprev: Matrix, dc: Vector, cprev: Vector, lo: int, C: nat): Matrix {
    Tab(C, x.dk, (t, i) => At(db, t, i) + DbState(x, dS, lo, C, t, i)
      + if t == C - 1 then DGamma(x, dS, Sprev, El(dc, i), El(cprev, i), lo, C, i) else 0.0)
  }

  /** db * b, row by row: the conserved flow, and in the last row everything
      that arrives from later chunks. */
  ghost predicate GateReady(x: Gla, dO: Matrix, S0: Matrix, E1: Matrix, dg: Vector, C: nat, lo: int, db: Matrix) {
    forall t, i | 0 <= t < C && 0 <= i < x.dk ::
      At(db, t, i) * At(Recompute(x, lo, C).b, t, i)
      == TokenFlow(x, dO, S0, E1, lo + t, i) + if t == C - 1 then LaterFlow(x, dO, S0, E1, dg, lo + C, i) else 0.0
  }

  function LaterFlow(x: Gla, dO: Matrix, S0: Matrix, E1: Matrix, dg: Vector, hi: int, i: int): real {
    StateGrad(x, dO, S0, E1, hi, i) + Decay(x, 0, x.T, i) * Gap(x, S0, E1, dg, i)
  }

  lemma DbFullReady(x: Gla, dO: Matrix, S0: Matrix, E1: Matrix, dg: Vector, C: nat, lo: int, H: Matrix,
                    dS: Matrix, Sprev: Matrix, dc: Vector, cprev: Vector)
    requires Chunked(x, C) && 0 <= lo && lo + C <= x.T
    requires HoldsState(x, S0, H, lo) && HoldsLocal(x, Sprev, lo) && HoldsDecay(x, cprev, lo)
    requires HoldsAdj(x, dO, E1, dS, lo + C) && HoldsDc(x, S0, E1, dg, dS, dc, lo + C)
    ensures GateReady(x, dO, S0, E1, dg, C, lo, DbFull(x, DbOutMatrix(x, dO, H, lo, C), dS, Sprev, dc, cprev, lo, C))
  {
    hide At, El, Recompute, DbOut, DbState, DGamma, TokenFlow, LaterFlow, HoldsState, HoldsLocal, HoldsDecay, HoldsAdj,
      HoldsDc;
    var b := Recompute(x, lo, C).b;
    forall t, i | 0 <= t < C && 0 <= i < x.dk
      ensures At(DbFull(x, DbOutMatrix(x, dO, H, lo, C), dS, Sprev, dc, cprev, lo, C), t, i) * At(b, t, i)
           == TokenFlow(x, dO, S0, E1, lo + t, i) + if t == C - 1 then LaterFlow(x, dO, S0, E1, dg, lo + C, i) else 0.0
    {
      DbRow(x, dO, S0, E1, lo, C, H, dS, t, i);
      if t == C - 1 {
        LastRow(x, dO, S0, E1, dg, C, lo, dS, Sprev, dc, cprev, i);
        Distribute(At(b, t, i), DbOut(x, dO, H, lo, C, t, i) + DbState(x, dS, lo, C, t, i),
          DGamma(x, dS, Sprev, El(dc, i), El(cprev, i), lo, C, i));
      }
    }
  }

  lemma LastRow(x: Gla, dO: Matrix, S0: Matrix, E1: Matrix, dg: Vector, C: nat, lo: int,
                dS: Matrix, Sprev: Matrix, dc: Vector, cprev: Vector, i: int)
    requires Chunked(x, C) && 0 <= lo && lo + C <= x.T && 0 <= i < x.dk
    requires HoldsLocal(x, Sprev, lo) && HoldsDecay(x, cprev, lo)
    requires HoldsAdj(x, dO, E1, dS, lo + C) && HoldsDc(x, S0, E1, dg, dS, dc, lo + C)
    ensures At(Recompute(x, lo, C).b, C - 1, i) * DGamma(x, dS, Sprev, El(dc, i), El(cprev, i), lo, C, i)
         == LaterFlow(x, dO, S0, E1, dg, lo + C, i)
  {
    hide At, El, Recompute, DGamma, Decay, RowDot, Gap, StateGrad, State, HoldsAdj;
    var over := Decay(x, lo + C, x.T, i) * Gap(x, S0, E1, dg, i);
    DGammaClosed(x, dO, S0, E1, lo, C, dS, Sprev, El(dc, i), El(cprev, i), over, i);
    RecomputeAt(x, lo, C, C - 1, i);
    assert lo + (C - 1) + 1 == lo + C;
    DecaySplit(x, 0, lo + C, x.T, i);
    Assoc(Decay(x, 0, lo + C, i), Decay(x, lo + C, x.T, i), Gap(x, S0, E1, dg, i));
  }

  /** sum of db * b over the rows t .. C - 1 */
  function ReverseSum(b: Matrix, db: Matrix, C: nat, t: int, i: int): real {
    Sum(t, C, s => At(db, s, i) * At(b, s, i))
  }

  /** a_t dA_t, plus what dg_total has over the row sum. */
  function GateFlow(x: Gla, dO: Matrix, S0: Matrix, E1: Matrix, dg: Vector, t: int, i: int): real {
    x.a(t, i) * GradA(x, dO, S0, E1, t, i) + Decay(x, 0, x.T, i) * Gap(x, S0, E1, dg, i)
  }

  /** The reverse cumulative sum is a_t dA_t. */
  lemma ReverseSumClosed(x: Gla, dO: Matrix, S0: Matrix, E1: Matrix, dg: Vector, C: nat, lo: int, db: Matrix, t: int,
                         i: int)
    requires 0 <= lo && lo + C <= x.T && 0 <= t < C && 0 <= i < x.dk && GateReady(x, dO, S0, E1, dg, C, lo, db)
    ensures ReverseSum(Recompute(x, lo, C).b, db, C, t, i) == GateFlow(x, dO, S0, E1, dg, lo + t, i)
  {
    hide At, Recompute, TokenFlow, LaterFlow, GateFlow, Sum;
    var b := Recompute(x, lo, C).b;
    var prod := (s: int) => At(db, s, i) * At(b, s, i);
    var flow := (s: int) => TokenFlow(x, dO, S0, E1, s, i);
    var local := (s: int) => TokenFlow(x, dO, S0, E1, lo + s, i);
    assert ReverseSum(b, db, C, t, i) == Sum(t, C, prod) by { SumExt(t, C, s => At(db, s, i) * At(b, s, i), prod); }
    SumLast(t, C, prod);
    SumLast(t, C, local);
    SumExt(t, C - 1, prod, local);
    SumShift(t, C, lo, flow, local);
    assert prod(C - 1) == local(C - 1) + LaterFlow(x, dO, S0, E1, dg, lo + C, i);
    assert Sum(t, C, prod) == Sum(lo + t, lo + C, flow) + LaterFlow(x, dO, S0, E1, dg, lo + C, i);
    FlowFrom(x, dO, S0, E1, dg, lo + t, lo + C, i, flow);
  }

  /** The flow of a window and all that comes later is a_t dA_t. */
  lemma FlowFrom(x: Gla, dO: Matrix, S0: Matrix, E1: Matrix, dg: Vector, t: int, hi: int, i: int, flow: int -> real)
    requires 0 <= t < hi <= x.T && 0 <= i < x.dk && forall s | t <= s < hi :: flow(s) == TokenFlow(x, dO, S0, E1, s, i)
    ensures Sum(t, hi, flow) + LaterFlow(x, dO, S0, E1, dg, hi, i) == GateFlow(x, dO, S0, E1, dg, t, i)
  {
    hide At, TokenFlow, StateGrad, GradA, Gap, Decay, Sum, Gla.a;
    SumExt(t, hi, flow, s => TokenFlow(x, dO, S0, E1, s, i));
    WindowConservation(x, dO, S0, E1, t, hi, i);
    GateGradient(x, dO, S0, E1, t, i);
  }

  ghost predicate DoneA(x: Gla, dO: Matrix, S0: Matrix, E1: Matrix, dg: Vector, dA: array2<real>, hi: int)
    requires dA.Length0 == x.T && dA.Length1 == x.dk
    reads dA
  {
    forall t, i | 0 <= t < hi && t < x.T && 0 <= i < x.dk :: dA[t, i] == GateGrad(x, dO, S0, E1, dg, t, i)
  }

  /** Gradient of gate (t, i). dg_total's row sum dS_total * S_recv is the
      decay's share in carrying S_recv to the end of the slice, which GradA
      contains; the second term is what dg_total has beyond it, for every gate
      of the device enters the total decay the same way. */
  function GateGrad(x: Gla, dO: Matrix, S0: Matrix, E1: Matrix, dg: Vector, t: int, i: int): real {
    GradA(x, dO, S0, E1, t, i) + GateExcess(x, S0, E1, dg, t, i)
  }

  function GateExcess(x: Gla, S0: Matrix, E1: Matrix, dg: Vector, t: int, i: int): real {
    Quot(Decay(x, 0, x.T, i) * Gap(x, S0, E1, dg, i), x.a(t, i))
  }

  /** dA[lo:hi] = reverse_cumsum(db * b) / a */
  method WriteDA(x: Gla, dO: Matrix, S0: Matrix, E1: Matrix, dg: Vector, C: nat, lo: nat, db: Matrix, dA: array2<real>)
    requires Chunked(x, C) && lo + C <= x.T && GateReady(x, dO, S0, E1, dg, C, lo, db)
    requires dA.Length0 == x.T && dA.Length1 == x.dk && DoneA(x, dO, S0, E1, dg, dA, lo)
    modifies dA
    ensures DoneA(x, dO, S0, E1, dg, dA, lo + C)
  {
    hide Recompute, GateReady, GateFlow, GateGrad, ReverseSum, Quot, At;
    var b := Recompute(x, lo, C).b;
    var blk := Tab(C, x.dk, (t, i) => Quot(ReverseSum(b, db, C, t, i), x.a(lo + t, i)));
    WriteRows(dA, lo, blk);
    forall t, i | lo <= t < lo + C && 0 <= i < x.dk ensures At(blk, t - lo, i) == GateGrad(x, dO, S0, E1, dg, t, i) {
      ReverseSumClosed(x, dO, S0, E1, dg, C, lo, db, t - lo, i);
      GateFlowDivided(x, dO, S0, E1, dg, t, i, ReverseSum(b, db, C, t - lo, i));
    }
  }

  lemma GateFlowDivided(x: Gla, dO: Matrix, S0: Matrix, E1: Matrix, dg: Vector, t: int, i: int, sum: real)
    requires x.a(t, i) != 0.0 && sum == GateFlow(x, dO, S0, E1, dg, t, i)
    ensures Quot(sum, x.a(t, i)) == GateGrad(x, dO, S0, E1, dg, t, i)
  {
    hide GradA, Gap, Decay, Inv, Gla.a;
    DivideOut(x.a(t, i), GradA(x, dO, S0, E1, t, i), Decay(x, 0, x.T, i) * Gap(x, S0, E1, dg, i), sum);
  }

  lemma DivideOut(a: real, g: real, r: real, s: real)
    requires a != 0.0 && s == a * g + r
    ensures Quot(s, a) == g + Quot(r, a)
  {
    hide Inv;
    InvCancel(a);
    assert (a * g + r) * Inv(a) == g * (a * Inv(a)) + r * Inv(a);
  }

  // ---------------------------------------------------------------------
  // The whole backward
  // ---------------------------------------------------------------------

  /** The reverse walk over the chunks. */
  method GradH(x: Gla, C: nat, Sprev: seq<Matrix>, cprev: seq<Vector>, Srecv: Matrix, dO: Matrix, dStot: Matrix,
               dg: Vector, dbOut: seq<Matrix>, dH: seq<Matrix>, dc: seq<Vector>, dK: array2<real>, dV: array2<real>)
    returns (db: seq<Matrix>)
    requires Chunked(x, C) && Snapshots(x, C, Sprev, cprev, x.T / C)
    requires OutputStage(x, dO, Srecv, C, Sprev, cprev, dbOut, dH, dc, x.T / C)
    requires dK.Length0 == x.T && dK.Length1 == x.dk && dV.Length0 == x.T && dV.Length1 == x.dv && dK != dV
    requires DoneK(x, dO, dStot, C, dK, x.T) && DoneV(x, dO, dStot, C, dV, x.T)
    modifies dK, dV
    ensures DoneK(x, dO, dStot, C, dK, 0) && DoneV(x, dO, dStot, C, dV, 0)
    ensures |db| == x.T / C && forall n | 0 <= n < x.T / C :: GateReady(x, dO, Srecv, dStot, dg, C, n * C, db[n])
  {
    hide DoneK, DoneV, HoldsState, HoldsLocal, HoldsDecay, DbOutMatrix, QtDOMatrix, DcPrev, History, Recompute,
      BackState, BackDecay, HoldsAdj, HoldsDc, GateReady, DbFull;
    var dSloc, dcvec := dStot, dg;
    var N := x.T / C;
    var lo := N * C;
    BackStart(x, dO, Srecv, dStot, dg);
    db := dbOut;
    for n := N downto 0
      invariant lo == n * C && |db| == N
      invariant DoneK(x, dO, dStot, C, dK, lo) && DoneV(x, dO, dStot, C, dV, lo)
      invariant n > 0 ==> HoldsAdj(x, dO, dStot, dSloc, lo) && HoldsDc(x, Srecv, dStot, dg, dSloc, dcvec, lo)
      invariant forall m | 0 <= m < n :: db[m] == dbOut[m]
      invariant forall m | n <= m < N :: GateReady(x, dO, Srecv, dStot, dg, C, m * C, db[m])
    {
      ChunkBounds(x.T, C, n);
      lo := lo - C;
      var ch := Recompute(x, lo, C);
      var H := History(x, Sprev[n], cprev[n], Srecv);
      HistoryHolds(x, Sprev[n], cprev[n], Srecv, lo);
      AddDVState(x, dO, dStot, C, n, lo, dSloc, dV);
      AddDKState(x, dO, dStot, C, n, lo, dSloc, dK);
      DbFullReady(x, dO, Srecv, dStot, dg, C, lo, H, dSloc, Sprev[n], dcvec, cprev[n]);
      db := db[n := DbFull(x, db[n], dSloc, Sprev[n], dcvec, cprev[n], lo, C)];
      if n > 0 {
        BackStep(x, dO, Srecv, dStot, dg, lo, C, dSloc, dcvec);
        dSloc, dcvec := BackState(x, ch, dSloc, dH[n]), BackDecay(x, ch, dcvec, dc[n]);
      }
    }
  }

  lemma BackStart(x: Gla, dO: Matrix, Srecv: Matrix, E1: Matrix, dg: Vector)
    ensures HoldsAdj(x, dO, E1, E1, x.T) && HoldsDc(x, Srecv, E1, dg, E1, dg, x.T)
  {
    hide RowDot;
  }

  /** gla_chunk_backward, for any gradients dO, dStot and dg of the device's
      outputs, end state and total decay. */
  method GlaChunkBackward(x: Gla, C: nat, Srecv: Matrix, dO: Matrix, dStot: Matrix, dg: Vector)
    returns (dQ: array2<real>, dK: array2<real>, dV: array2<real>, dA: array2<real>, dSrecv: Matrix)
    requires Chunked(x, C)
    ensures fresh(dQ) && dQ.Length0 == x.T && dQ.Length1 == x.dk
    ensures fresh(dK) && dK.Length0 == x.T && dK.Length1 == x.dk
    ensures fresh(dV) && dV.Length0 == x.T && dV.Length1 == x.dv
    ensures fresh(dA) && dA.Length0 == x.T && dA.Length1 == x.dk
    ensures forall t, i | 0 <= t < x.T && 0 <= i < x.dk :: dQ[t, i] == GradQ(x, dO, Srecv, t, i)
    ensures forall t, i | 0 <= t < x.T && 0 <= i < x.dk :: dK[t, i] == GradK(x, dO, dStot, t, i)
    ensures forall t, j | 0 <= t < x.T && 0 <= j < x.dv :: dV[t, j] == GradV(x, dO, dStot, t, j)
    ensures forall t, i | 0 <= t < x.T && 0 <= i < x.dk :: dA[t, i] == GateGrad(x, dO, Srecv, dStot, dg, t, i)
    ensures forall i, j | 0 <= i < x.dk && 0 <= j < x.dv :: At(dSrecv, i, j) == Adj(x, dO, x.T, 0.0, 0, i, j)
  {
    hide GradQ, GradK, GradV, GateGrad, KIntraAt, VIntraAt, OutputStage, GateReady, Snapshots;
    dQ := new real[x.T, x.dk]((_, _) => 0.0);
    dK := new real[x.T, x.dk]((_, _) => 0.0);
    dV := new real[x.T, x.dv]((_, _) => 0.0);
    dA := new real[x.T, x.dk]((_, _) => 0.0);
    var Sprev, cprev, _, _, _ := GlaChunkScan(x, C);
    var db, dH, dc;
    db, dH, dc, dSrecv := GradO(x, C, Sprev, cprev, Srecv, dO, dQ, dK, dV);
    db := GradH(x, C, Sprev, cprev, Srecv, dO, dStot, dg, db, dH, dc, dK, dV);
    Gates(x, dO, Srecv, dStot, dg, C, db, dA);
  }

  method Gates(x: Gla, dO: Matrix, S0: Matrix, E1: Matrix, dg: Vector, C: nat, db: seq<Matrix>, dA: array2<real>)
    requires Chunked(x, C) && |db| == x.T / C
    requires forall n | 0 <= n < x.T / C :: GateReady(x, dO, S0, E1, dg, C, n * C, db[n])
    requires dA.Length0 == x.T && dA.Length1 == x.dk
    modifies dA
    ensures DoneA(x, dO, S0, E1, dg, dA, x.T)
  {
    hide GateReady, GateGrad;
    var lo, N := 0, x.T / C;
    ChunksCover(x.T, C);
    for n := 0 to N
      invariant lo == n * C && DoneA(x, dO, S0, E1, dg, dA, lo)
    {
      ChunkBounds(x.T, C, n);
      WriteDA(x, dO, S0, E1, dg, C, lo, db[n], dA);
      lo := lo + C;
    }
  }
}

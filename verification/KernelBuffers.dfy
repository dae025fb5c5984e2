/** k_recompute, k_grad_o and k_grad_h of b4_math_check.py, chunk by chunk on
    the buffers they fill. What a buffer ends up with is also given as a tensor
    of LocalKernels. */
module KernelBuffers {
  import opened Tensor
  import opened Gla
  import opened Chunk
  import opened ChunkForward
  import opened ChunkGrad
  import opened ChunkBackward
  import opened Snapshot
  import opened Restructured
  import opened AllScan
  import opened LocalKernels

  // ---------------------------------------------------------------------
  // k_recompute
  // ---------------------------------------------------------------------

  /** The snapshot buffers hold, for each chunk below N, its pre-state and decay. */
  ghost predicate SnapshotsIn(x: Gla, C: nat, Ssnap: array2<real>, Cprev: array2<real>, N: nat)
    reads Ssnap, Cprev
  {
    && 0 < C && Ssnap.Length0 == Cprev.Length0 == x.T / C * x.dk && Ssnap.Length1 == x.dv && Cprev.Length1 == 1
    && forall n | 0 <= n < N && HasBlock(Ssnap.Length0, n, x.dk) ::
        HoldsLocal(x, BlockOf(Ssnap, n, x.dk), n * C) && HoldsDecay(x, Entries(BlockOf(Cprev, n, x.dk)), n * C)
  }

  method StoreSnapshot(x: Gla, C: nat, Ssnap: array2<real>, Cprev: array2<real>, n: nat, s: Matrix, c: Vector)
    requires 0 < C && n < x.T / C && Ssnap != Cprev && SnapshotsIn(x, C, Ssnap, Cprev, n)
    requires IsMatrix(s, x.dk, x.dv) && |c| == x.dk && HoldsLocal(x, s, n * C) && HoldsDecay(x, c, n * C)
    modifies Ssnap, Cprev
    ensures SnapshotsIn(x, C, Ssnap, Cprev, n + 1)
  {
    hide State, Decay, At, El;
    BlockFits(x.T / C, n, x.dk);
    StoreBlock(Ssnap, n, x.dk, s);
    StoreBlock(Cprev, n, x.dk, Column(c));
  }

  method NewSnapshots(x: Gla, C: nat) returns (Ssnap: array2<real>, Cprev: array2<real>)
    requires 0 < C
    ensures fresh(Ssnap) && fresh(Cprev) && Ssnap != Cprev && SnapshotsIn(x, C, Ssnap, Cprev, 0)
  {
    var rows: nat := x.T / C * x.dk;
    Ssnap := new real[rows, x.dv]((_, _) => 0.0);
    Cprev := new real[rows, 1]((_, _) => 0.0);
  }

  /** What the walk carries before token lo. */
  ghost predicate Walks(x: Gla, s: Matrix, c: Vector, lo: int) {
    IsMatrix(s, x.dk, x.dv) && |c| == x.dk && HoldsLocal(x, s, lo) && HoldsDecay(x, c, lo)
  }

  lemma WalkStart(x: Gla, s: Matrix, c: Vector)
    requires s == Zeros(x.dk, x.dv) && c == TabV(x.dk, _ => 1.0)
    ensures Walks(x, s, c, 0)
  {}

  lemma WalkEnd(x: Gla, s: Matrix, c: Vector)
    ensures Walks(x, s, c, x.T) ==> HoldsLocal(x, s, x.T) && IsMatrix(s, x.dk, x.dv)
  {}

  /** One chunk: snapshot, then advance. */
  method RecomputeChunk(x: Gla, C: nat, Ssnap: array2<real>, Cprev: array2<real>, n: nat, lo: nat, s: Matrix, c: Vector)
    returns (s': Matrix, c': Vector)
    requires Chunked(x, C) && n < x.T / C && lo == n * C && lo + C <= x.T && Walks(x, s, c, lo)
    requires Ssnap != Cprev && SnapshotsIn(x, C, Ssnap, Cprev, n)
    modifies Ssnap, Cprev
    ensures SnapshotsIn(x, C, Ssnap, Cprev, n + 1) && Walks(x, s', c', lo + C)
  {
    hide HoldsLocal, HoldsDecay, Recompute, ScaledAdvance, AdvanceDecay, SnapshotsIn, Gla.Valid, Gla.GatesNonZero;
    var ch := Recompute(x, lo, C);
    StoreSnapshot(x, C, Ssnap, Cprev, n, s, c);
    ScaledAdvanceHolds(x, s, lo, C);
    AdvanceLocal(x, s, c, lo, C);
    ShapeKept(x, ch, s, c, lo, C);
    s', c' := ScaledAdvance(x, ch, s, lo, C), AdvanceDecay(x, ch, c);
  }

  /** k_recompute */
  method KRecompute(x: Gla, C: nat) returns (Ssnap: array2<real>, Cprev: array2<real>, Stot: Matrix)
    requires Chunked(x, C)
    ensures fresh(Ssnap) && fresh(Cprev) && Ssnap != Cprev && SnapshotsIn(x, C, Ssnap, Cprev, x.T / C)
    ensures HoldsLocal(x, Stot, x.T)
    ensures RecomputeIs(x, C, Ssnap, Cprev, Stot)
  {
    hide Walks, HoldsLocal, SnapshotsIn;
    Ssnap, Cprev := NewSnapshots(x, C);
    var s, c := Zeros(x.dk, x.dv), TabV(x.dk, _ => 1.0);
    WalkStart(x, s, c);
    var lo, N := 0, x.T / C;
    ChunksCover(x.T, C);
    for n := 0 to N
      invariant lo == n * C && SnapshotsIn(x, C, Ssnap, Cprev, n) && Walks(x, s, c, lo)
    {
      ChunkBounds(x.T, C, n);
      s, c := RecomputeChunk(x, C, Ssnap, Cprev, n, lo, s, c);
      lo := lo + C;
    }
    WalkEnd(x, s, c);
    Stot := s;
    RecomputeStored(x, C, Ssnap, Cprev, Stot);
  }

  /** The three results are the tensors of gla_recompute. */
  ghost predicate RecomputeIs(x: Gla, C: nat, Ssnap: array2<real>, Cprev: array2<real>, Stot: Matrix)
    requires 0 < C
    reads Ssnap, Cprev
  {
    var rec := RecomputeTensors(x, C);
    BufferIs(Ssnap, Mat(rec, 0)) && BufferIs(Cprev, Mat(rec, 1)) && Stot == Mat(rec, 2)
  }

  lemma RecomputeStored(x: Gla, C: nat, Ssnap: array2<real>, Cprev: array2<real>, Stot: Matrix)
    requires Chunked(x, C) && SnapshotsIn(x, C, Ssnap, Cprev, x.T / C)
    requires HoldsLocal(x, Stot, x.T) && IsMatrix(Stot, x.dk, x.dv)
    ensures RecomputeIs(x, C, Ssnap, Cprev, Stot)
  {
    hide State, Decay, At, El, BlockOf, Entries, Stacked;
    var rec, N := RecomputeTensors(x, C), x.T / C;
    ChunksCover(x.T, C);
    RecomputeRight(x, C);
    RecomputeShapes(x, C);
    forall r, j | 0 <= r < Ssnap.Length0 && 0 <= j < x.dv ensures Ssnap[r, j] == At(Mat(rec, 0), r, j) {
      RowInBlock(N, x.dk, r);
      BlockFits(N, r / x.dk, x.dk);
      assert At(SnapState(x, rec, r / x.dk), r % x.dk, j) == At(Mat(rec, 0), r, j);
      assert At(BlockOf(Ssnap, r / x.dk, x.dk), r % x.dk, j) == Ssnap[r, j];
    }
    forall r | 0 <= r < Cprev.Length0 ensures Cprev[r, 0] == At(Mat(rec, 1), r, 0) {
      RowInBlock(N, x.dk, r);
      BlockFits(N, r / x.dk, x.dk);
      assert El(SnapDecay(x, rec, r / x.dk), r % x.dk) == At(Mat(rec, 1), r, 0);
      EntryOf(Cprev, r / x.dk, x.dk, r % x.dk);
    }
    SameMatrix(Stot, Mat(rec, 2), x.dk, x.dv);
  }

  lemma EntryOf(buf: array2<real>, n: int, d: int, i: int)
    requires HasBlock(buf.Length0, n, d) && buf.Length1 == 1 && 0 <= i < d
    ensures El(Entries(BlockOf(buf, n, d)), i) == buf[n * d + i, 0]
  {
    hide El, At;
    assert At(BlockOf(buf, n, d), i, 0) == buf[n * d + i, 0];
  }

  lemma RecomputeShapes(x: Gla, C: nat)
    requires 0 < C
    ensures var rec := RecomputeTensors(x, C);
      && IsMatrix(Mat(rec, 0), x.T / C * x.dk, x.dv) && IsMatrix(Mat(rec, 1), x.T / C * x.dk, 1)
      && IsMatrix(Mat(rec, 2), x.dk, x.dv)
  {}

  lemma ShapeKept(x: Gla, ch: Chunk, s: Matrix, c: Vector, lo: int, C: nat)
    ensures IsMatrix(ScaledAdvance(x, ch, s, lo, C), x.dk, x.dv) && |AdvanceDecay(x, ch, c)| == x.dk
  {}

  // ---------------------------------------------------------------------
  // k_grad_o
  // ---------------------------------------------------------------------

  ghost predicate DoneFlow(x: Gla, dO: Matrix, S0: Matrix, C: nat, dg: array2<real>, hi: int)
    requires 0 < C && dg.Length0 == x.T && dg.Length1 == x.dk
    reads dg
  {
    forall t, i | 0 <= t < hi && t < x.T && 0 <= i < x.dk :: dg[t, i] == FlowOut(x, dO, S0, C, t, i)
  }

  ghost predicate HandedOn(x: Gla, dO: Matrix, Srecv: Matrix, C: nat, dH: array2<real>, dc: array2<real>, N: nat)
    reads dH, dc
  {
    && 0 < C && dH.Length0 == dc.Length0 == x.T / C * x.dk && dH.Length1 == x.dv && dc.Length1 == 1
    && (forall n, i, j | 0 <= n < N && HasBlock(dH.Length0, n, x.dk) && 0 <= i < x.dk && 0 <= j < x.dv ::
          At(BlockOf(dH, n, x.dk), i, j) == At(QtDOMatrix(x, dO, n * C, C), i, j))
    && (forall n, i | 0 <= n < N && HasBlock(dH.Length0, n, x.dk) && 0 <= i < x.dk ::
          At(BlockOf(dc, n, x.dk), i, 0) == El(DcPrev(x, QtDOMatrix(x, dO, n * C, C), Srecv), i))
  }

  /** dgcso[lo:hi] = dQ_n * q - dKo_n * k, from the rows just stored */
  method WriteFlow(x: Gla, dO: Matrix, S0: Matrix, C: nat, lo: nat, dQ: array2<real>, dKo: array2<real>,
                   dg: array2<real>)
    requires 0 < C && lo + C <= x.T && dg != dQ && dg != dKo
    requires dQ.Length0 == x.T && dQ.Length1 == x.dk && DoneQ(x, dO, S0, dQ, lo + C)
    requires dKo.Length0 == x.T && dKo.Length1 == x.dk && DoneKIntra(x, dO, C, dKo, lo + C)
    requires dg.Length0 == x.T && dg.Length1 == x.dk && DoneFlow(x, dO, S0, C, dg, lo)
    modifies dg
    ensures DoneFlow(x, dO, S0, C, dg, lo + C)
  {
    hide GradQ, KIntraAt, At;
    forall t, i | lo <= t < lo + C && 0 <= i < x.dk {
      dg[t, i] := x.q(t, i) * dQ[t, i] - x.k(t, i) * dKo[t, i];
    }
  }

  method StoreHandedOn(x: Gla, dO: Matrix, Srecv: Matrix, C: nat, dH: array2<real>, dc: array2<real>, n: nat,
                       dHn: Matrix)
    requires 0 < C && n < x.T / C && dH != dc && HandedOn(x, dO, Srecv, C, dH, dc, n)
    requires dHn == QtDOMatrix(x, dO, n * C, C)
    modifies dH, dc
    ensures HandedOn(x, dO, Srecv, C, dH, dc, n + 1)
  {
    hide At, El, RowDot, QtDO, Recompute;
    BlockFits(x.T / C, n, x.dk);
    StoreBlock(dH, n, x.dk, dHn);
    var col := DcPrev(x, dHn, Srecv);
    StoreBlock(dc, n, x.dk, Column(col));
    assert forall i | 0 <= i < x.dk :: At(Column(col), i, 0) == El(col, i);
  }

  /** The six buffers of the output stage: rows [T, .] and chunk blocks [N * dk, .]. */
  datatype OutBuffers = OutBuffers(dQ: array2<real>, dKo: array2<real>, dVo: array2<real>, dgcso: array2<real>,
                                   dH: array2<real>, dc: array2<real>)

  ghost predicate Shaped(x: Gla, C: nat, o: OutBuffers)
    requires 0 < C
  {
    && o.dQ.Length0 == o.dKo.Length0 == o.dVo.Length0 == o.dgcso.Length0 == x.T
    && o.dQ.Length1 == o.dKo.Length1 == o.dgcso.Length1 == x.dk && o.dVo.Length1 == x.dv
    && o.dH.Length0 == o.dc.Length0 == x.T / C * x.dk && o.dH.Length1 == x.dv && o.dc.Length1 == 1
    && o.dQ != o.dKo && o.dQ != o.dVo && o.dQ != o.dgcso && o.dQ != o.dH && o.dQ != o.dc && o.dKo != o.dVo
    && o.dKo != o.dgcso
    && o.dKo != o.dH && o.dKo != o.dc && o.dVo != o.dgcso && o.dVo != o.dH && o.dVo != o.dc && o.dgcso != o.dH
    && o.dgcso != o.dc
    && o.dH != o.dc
  }

  /** Everything the output stage stores for the chunks below n (tokens below lo). */
  ghost predicate OutDone(x: Gla, C: nat, dO: Matrix, Srecv: Matrix, o: OutBuffers, lo: int, n: nat)
    requires 0 < C
    reads o.dQ, o.dKo, o.dVo, o.dgcso, o.dH, o.dc
  {
    && Shaped(x, C, o)
    && DoneQ(x, dO, Srecv, o.dQ, lo) && DoneKIntra(x, dO, C, o.dKo, lo) && DoneVIntra(x, dO, C, o.dVo, lo)
    && DoneFlow(x, dO, Srecv, C, o.dgcso, lo) && HandedOn(x, dO, Srecv, C, o.dH, o.dc, n)
  }

  method GradOChunk(x: Gla, C: nat, dO: Matrix, Srecv: Matrix, H: Matrix, o: OutBuffers, n: nat, lo: nat, dHn: Matrix)
    requires Chunked(x, C) && n < x.T / C && lo == n * C && lo + C <= x.T && HoldsState(x, Srecv, H, lo)
    requires OutDone(x, C, dO, Srecv, o, lo, n) && dHn == QtDOMatrix(x, dO, lo, C)
    modifies o.dQ, o.dKo, o.dVo, o.dgcso, o.dH, o.dc
    ensures OutDone(x, C, dO, Srecv, o, lo + C, n + 1)
  {
    hide DoneQ, DoneKIntra, DoneVIntra, DoneFlow, HandedOn, HoldsState, QtDOMatrix;
    AddDQ(x, dO, Srecv, C, lo, H, o.dQ);
    AddDKIntra(x, dO, C, n, lo, o.dKo);
    AddDVIntra(x, dO, C, n, lo, o.dVo);
    WriteFlow(x, dO, Srecv, C, lo, o.dQ, o.dKo, o.dgcso);
    StoreHandedOn(x, dO, Srecv, C, o.dH, o.dc, n, dHn);
  }

  method NewOutBuffers(x: Gla, C: nat, dO: Matrix, Srecv: Matrix) returns (o: OutBuffers)
    requires 0 < C
    ensures fresh(o.dQ) && fresh(o.dKo) && fresh(o.dVo) && fresh(o.dgcso) && fresh(o.dH) && fresh(o.dc)
    ensures OutDone(x, C, dO, Srecv, o, 0, 0)
  {
    hide GradQ, KIntraAt, VIntraAt, FlowOut;
    var dQ := new real[x.T, x.dk]((_, _) => 0.0);
    var dKo := new real[x.T, x.dk]((_, _) => 0.0);
    var dVo := new real[x.T, x.dv]((_, _) => 0.0);
    var dgcso := new real[x.T, x.dk]((_, _) => 0.0);
    var dH := new real[x.T / C * x.dk, x.dv]((_, _) => 0.0);
    var dc := new real[x.T / C * x.dk, 1]((_, _) => 0.0);
    o := OutBuffers(dQ, dKo, dVo, dgcso, dH, dc);
  }

  /** k_grad_o: H from the snapshots, the output-stage halves, and the
      gradient of the received boundary. */
  method KGradO(x: Gla, C: nat, dO: Matrix, Ssnap: array2<real>, Cprev: array2<real>, Srecv: Matrix)
    returns (o: OutBuffers, acc: Matrix)
    requires Chunked(x, C) && SnapshotsIn(x, C, Ssnap, Cprev, x.T / C)
    ensures fresh(o.dQ) && fresh(o.dKo) && fresh(o.dVo) && fresh(o.dgcso) && fresh(o.dH) && fresh(o.dc)
    ensures OutDone(x, C, dO, Srecv, o, x.T, x.T / C) && HoldsRecvGrad(x, dO, acc, x.T)
    ensures OutputIs(x, C, dO, Srecv, o, acc)
  {
    hide OutDone, SnapshotsIn, HoldsRecvGrad, HoldsState, HoldsLocal, HoldsDecay, AddRecv, QtDOMatrix, History;
    o := NewOutBuffers(x, C, dO, Srecv);
    acc := Zeros(x.dk, x.dv);
    RecvStart(x, dO, acc);
    var lo, N := 0, x.T / C;
    ChunksCover(x.T, C);
    for n := 0 to N
      invariant lo == n * C && SnapshotsIn(x, C, Ssnap, Cprev, N)
      invariant OutDone(x, C, dO, Srecv, o, lo, n) && HoldsRecvGrad(x, dO, acc, lo) && IsMatrix(acc, x.dk, x.dv)
    {
      ChunkBounds(x.T, C, n);
      var sprev, cprev := LoadSnapshot(x, C, Ssnap, Cprev, n);
      var H := History(x, sprev, cprev, Srecv);
      HistoryHolds(x, sprev, cprev, Srecv, lo);
      var dHn := QtDOMatrix(x, dO, lo, C);
      GradOChunk(x, C, dO, Srecv, H, o, n, lo, dHn);
      AddRecvHolds(x, dO, acc, cprev, lo, C);
      RecvShape(x, acc, cprev, dHn);
      acc := AddRecv(x, acc, cprev, dHn);
      lo := lo + C;
    }
    OutputStored(x, C, dO, Srecv, o, acc);
  }

  lemma RecvShape(x: Gla, acc: Matrix, c: Vector, dH: Matrix)
    ensures IsMatrix(AddRecv(x, acc, c, dH), x.dk, x.dv)
  {}

  /** The seven results are the tensors of gla_grad_o on those of gla_recompute. */
  ghost predicate OutputIs(x: Gla, C: nat, dO: Matrix, Srecv: Matrix, o: OutBuffers, acc: Matrix)
    requires 0 < C
    reads o.dQ, o.dKo, o.dVo, o.dgcso, o.dH, o.dc
  {
    var ts := GradOTensors(x, C, dO, RecomputeTensors(x, C), Srecv);
    && BufferIs(o.dQ, Mat(ts, 0)) && BufferIs(o.dKo, Mat(ts, 1)) && BufferIs(o.dVo, Mat(ts, 2))
    && BufferIs(o.dgcso, Mat(ts, 3))
    && BufferIs(o.dH, Mat(ts, 4)) && BufferIs(o.dc, Mat(ts, 5)) && acc == Mat(ts, 6)
  }

  lemma OutputShapes(x: Gla, C: nat, dO: Matrix, rec: seq<Matrix>, Srecv: Matrix)
    requires 0 < C
    ensures var ts := GradOTensors(x, C, dO, rec, Srecv);
      && IsMatrix(Mat(ts, 0), x.T, x.dk) && IsMatrix(Mat(ts, 1), x.T, x.dk) && IsMatrix(Mat(ts, 2), x.T, x.dv)
      && IsMatrix(Mat(ts, 3), x.T, x.dk) && IsMatrix(Mat(ts, 4), x.T / C * x.dk, x.dv)
      && IsMatrix(Mat(ts, 5), x.T / C * x.dk, 1) && IsMatrix(Mat(ts, 6), x.dk, x.dv)
  {
    hide QAt, KIntraAt, VIntraAt, FlowAt, QtDOMatrix, DcPrev;
  }

  lemma OutputStored(x: Gla, C: nat, dO: Matrix, Srecv: Matrix, o: OutBuffers, acc: Matrix)
    requires Chunked(x, C) && OutDone(x, C, dO, Srecv, o, x.T, x.T / C) && HoldsRecvGrad(x, dO, acc, x.T)
    requires IsMatrix(acc, x.dk, x.dv)
    ensures OutputIs(x, C, dO, Srecv, o, acc)
  {
    hide GradQ, KIntraAt, VIntraAt, FlowOut, Adj, At, RightRecompute, RightHanded, RecomputeTensors, GradOTensors,
      HandedOn;
    var rec := RecomputeTensors(x, C);
    var ts := GradOTensors(x, C, dO, rec, Srecv);
    RecomputeRight(x, C);
    GradORight(x, C, dO, rec, Srecv);
    OutputShapes(x, C, dO, rec, Srecv);
    HandedStored(x, C, dO, Srecv, o, ts);
    SameMatrix(acc, Mat(ts, 6), x.dk, x.dv);
  }

  lemma HandedStored(x: Gla, C: nat, dO: Matrix, Srecv: Matrix, o: OutBuffers, ts: seq<Matrix>)
    requires Chunked(x, C) && HandedOn(x, dO, Srecv, C, o.dH, o.dc, x.T / C) && RightHanded(x, C, dO, Srecv, ts)
    requires IsMatrix(Mat(ts, 4), x.T / C * x.dk, x.dv) && IsMatrix(Mat(ts, 5), x.T / C * x.dk, 1)
    ensures BufferIs(o.dH, Mat(ts, 4)) && BufferIs(o.dc, Mat(ts, 5))
  {
    hide At, El, BlockOf, QtDOMatrix, DcPrev;
    var N := x.T / C;
    forall r, j | 0 <= r < o.dH.Length0 && 0 <= j < x.dv ensures o.dH[r, j] == At(Mat(ts, 4), r, j) {
      RowInBlock(N, x.dk, r);
      BlockFits(N, r / x.dk, x.dk);
      assert At(HandedState(x, ts, r / x.dk), r % x.dk, j) == At(Mat(ts, 4), r, j);
      assert At(BlockOf(o.dH, r / x.dk, x.dk), r % x.dk, j) == o.dH[r, j];
    }
    forall r | 0 <= r < o.dc.Length0 ensures o.dc[r, 0] == At(Mat(ts, 5), r, 0) {
      RowInBlock(N, x.dk, r);
      BlockFits(N, r / x.dk, x.dk);
      assert El(HandedDecay(x, ts, r / x.dk), r % x.dk) == At(Mat(ts, 5), r, 0);
      assert At(BlockOf(o.dc, r / x.dk, x.dk), r % x.dk, 0) == o.dc[r, 0];
    }
  }

  method LoadSnapshot(x: Gla, C: nat, Ssnap: array2<real>, Cprev: array2<real>, n: nat) returns (s: Matrix, c: Vector)
    requires 0 < C && n < x.T / C && SnapshotsIn(x, C, Ssnap, Cprev, x.T / C)
    ensures HoldsLocal(x, s, n * C) && HoldsDecay(x, c, n * C)
  {
    hide HoldsLocal, HoldsDecay;
    BlockFits(x.T / C, n, x.dk);
    s, c := BlockOf(Ssnap, n, x.dk), Entries(BlockOf(Cprev, n, x.dk));
  }

  // ---------------------------------------------------------------------
  // k_grad_h
  // ---------------------------------------------------------------------

  /** dV[lo:hi] = dVo + dV_h */
  method WriteDV(x: Gla, ghost dO: Matrix, ghost E1: Matrix, C: nat, n: nat, lo: nat, dS: Matrix, dVo: array2<real>,
                 dV: array2<real>)
    requires Chunked(x, C) && lo == n * C && lo + C <= x.T && HoldsAdj(x, dO, E1, dS, lo + C) && dV != dVo
    requires dVo.Length0 == x.T && dVo.Length1 == x.dv && DoneVIntra(x, dO, C, dVo, x.T)
    requires dV.Length0 == x.T && dV.Length1 == x.dv && SetV(x, dO, E1, dV, lo + C)
    modifies dV
    ensures SetV(x, dO, E1, dV, lo)
  {
    hide Recompute, Pushed, PushedV, KstateDS, ScoresDO, VIntraAt, GradV, HoldsAdj;
    var ch := Recompute(x, lo, C);
    var dSp := Pushed(x, ch, dS);
    forall t, j | lo <= t < lo + C && 0 <= j < x.dv {
      dV[t, j] := dVo[t, j] + PushedV(x, ch, dSp, t - lo, j);
    }
    forall t, j | lo <= t < lo + C && 0 <= j < x.dv ensures dV[t, j] == GradV(x, dO, E1, t, j) {
      IntraHalves(x, dO, C, n, t - lo, j);
      PushedVIs(x, dS, lo, C, t - lo, j);
      ChunkDV(x, dO, E1, lo, C, dS, t - lo, j);
    }
  }

  /** dK[lo:hi] = dKo + dK_h */
  method WriteDK(x: Gla, ghost dO: Matrix, ghost E1: Matrix, C: nat, n: nat, lo: nat, dS: Matrix, dKo: array2<real>,
                 dK: array2<real>)
    requires Chunked(x, C) && lo == n * C && lo + C <= x.T && HoldsAdj(x, dO, E1, dS, lo + C) && dK != dKo
    requires dKo.Length0 == x.T && dKo.Length1 == x.dk && DoneKIntra(x, dO, C, dKo, x.T)
    requires dK.Length0 == x.T && dK.Length1 == x.dk && SetK(x, dO, E1, dK, lo + C)
    modifies dK
    ensures SetK(x, dO, E1, dK, lo)
  {
    hide Recompute, Pushed, PushedK, KState, KIntra, KIntraAt, GradK, HoldsAdj;
    var ch := Recompute(x, lo, C);
    var dSp := Pushed(x, ch, dS);
    forall t, i | lo <= t < lo + C && 0 <= i < x.dk {
      dK[t, i] := dKo[t, i] + PushedK(x, ch, dSp, lo, t - lo, i);
    }
    forall t, i | lo <= t < lo + C && 0 <= i < x.dk ensures dK[t, i] == GradK(x, dO, E1, t, i) {
      IntraHalves(x, dO, C, n, t - lo, i);
      PushedKIs(x, dS, lo, C, t - lo, i);
      ChunkDK(x, dO, E1, lo, C, dS, t - lo, i);
    }
  }

  ghost predicate SetK(x: Gla, dO: Matrix, E1: Matrix, dK: array2<real>, lo: int)
    requires dK.Length0 == x.T && dK.Length1 == x.dk
    reads dK
  {
    forall t, i | 0 <= t < x.T && lo <= t && 0 <= i < x.dk :: dK[t, i] == GradK(x, dO, E1, t, i)
  }

  ghost predicate SetV(x: Gla, dO: Matrix, E1: Matrix, dV: array2<real>, lo: int)
    requires dV.Length0 == x.T && dV.Length1 == x.dv
    reads dV
  {
    forall t, j | 0 <= t < x.T && lo <= t && 0 <= j < x.dv :: dV[t, j] == GradV(x, dO, E1, t, j)
  }

  ghost predicate SetA(x: Gla, dO: Matrix, S0: Matrix, E1: Matrix, dg: Vector, dA: array2<real>, lo: int)
    requires dA.Length0 == x.T && dA.Length1 == x.dk
    reads dA
  {
    forall t, i | 0 <= t < x.T && lo <= t && 0 <= i < x.dk :: dA[t, i] == GateGrad(x, dO, S0, E1, dg, t, i)
  }

  /** dA[lo:hi] = (triu @ dgcs + corr) / a */
  method WriteKernelGate(x: Gla, ghost dO: Matrix, ghost S0: Matrix, ghost E1: Matrix, ghost dg: Vector, C: nat, n: nat,
                         lo: nat, rows: Matrix, dS: Matrix, Sprev: Matrix, dc: Vector, cprev: Vector, dA: array2<real>)
    requires Chunked(x, C) && lo == n * C && lo + C <= x.T
    requires FlowRows(x, dO, S0, C, lo, rows) && HoldsLocal(x, Sprev, lo) && HoldsDecay(x, cprev, lo)
    requires HoldsAdj(x, dO, E1, dS, lo + C) && HoldsDc(x, S0, E1, dg, dS, dc, lo + C)
    requires dA.Length0 == x.T && dA.Length1 == x.dk && SetA(x, dO, S0, E1, dg, dA, lo + C)
    modifies dA
    ensures SetA(x, dO, S0, E1, dg, dA, lo)
  {
    hide Recompute, Pushed, At, El, KernelGateAt, GateGrad, HoldsLocal, HoldsDecay, HoldsAdj, HoldsDc, FlowRows;
    var ch := Recompute(x, lo, C);
    var dSp, dcp := Pushed(x, ch, dS), PushedDecay(x, ch, dc);
    forall t, i | lo <= t < lo + C && 0 <= i < x.dk {
      dA[t, i] := KernelGateAt(x, ch, rows, dSp, Sprev, El(dcp, i), El(cprev, i), lo, C, t - lo, i);
    }
    forall t, i | lo <= t < lo + C && 0 <= i < x.dk ensures dA[t, i] == GateGrad(x, dO, S0, E1, dg, t, i) {
      KernelGate(x, dO, S0, E1, dg, C, n, lo, rows, dS, Sprev, dc, El(dcp, i), cprev, t - lo, i);
    }
  }

  method LoadHandedOn(x: Gla, ghost dO: Matrix, ghost Srecv: Matrix, C: nat, n: nat, dH: array2<real>,
                      dcprev: array2<real>)
    returns (dHn: Matrix, dcn: Vector)
    requires 0 < C && n < x.T / C && HandedOn(x, dO, Srecv, C, dH, dcprev, x.T / C)
    ensures dHn == QtDOMatrix(x, dO, n * C, C) && dcn == DcPrev(x, dHn, Srecv)
  {
    hide Recompute, At, El, QtDO, RowDot;
    BlockFits(x.T / C, n, x.dk);
    dHn, dcn := BlockOf(dH, n, x.dk), Entries(BlockOf(dcprev, n, x.dk));
    var want := QtDOMatrix(x, dO, n * C, C);
    assert IsMatrix(want, x.dk, x.dv);
    SameMatrix(dHn, want, x.dk, x.dv);
    SameVector(dcn, DcPrev(x, dHn, Srecv));
  }

  /** The carries before chunk n, from what the output stage left for chunk n. */
  method Retreat(x: Gla, ghost dO: Matrix, ghost Srecv: Matrix, ghost E1: Matrix, ghost dg: Vector, C: nat, n: nat,
                 lo: nat, dH: array2<real>, dcprev: array2<real>, dS: Matrix, dc: Vector)
    returns (dS': Matrix, dc': Vector)
    requires Chunked(x, C) && n < x.T / C && lo == n * C && lo + C <= x.T
    requires HandedOn(x, dO, Srecv, C, dH, dcprev, x.T / C)
    requires HoldsAdj(x, dO, E1, dS, lo + C) && HoldsDc(x, Srecv, E1, dg, dS, dc, lo + C)
    ensures HoldsAdj(x, dO, E1, dS', lo) && HoldsDc(x, Srecv, E1, dg, dS', dc', lo)
  {
    hide Recompute, Pushed, PushedDecay, BackState, BackDecay, Plus, PlusV, HoldsAdj, HoldsDc, QtDOMatrix, DcPrev,
      HandedOn;
    var ch := Recompute(x, lo, C);
    var dHn, dcn := LoadHandedOn(x, dO, Srecv, C, n, dH, dcprev);
    BackStep(x, dO, Srecv, E1, dg, lo, C, dS, dc);
    CarryIs(x, ch, dS, dc, dHn, dcn);
    dS', dc' := Plus(x, Pushed(x, ch, dS), dHn), PlusV(x, PushedDecay(x, ch, dc), dcn);
  }

  method LoadFlow(x: Gla, ghost dO: Matrix, ghost S0: Matrix, C: nat, n: nat, lo: nat, dgcso: array2<real>)
    returns (rows: Matrix)
    requires 0 < C && lo == n * C && lo + C <= x.T && dgcso.Length0 == x.T && dgcso.Length1 == x.dk
    requires DoneFlow(x, dO, S0, C, dgcso, x.T)
    ensures FlowRows(x, dO, S0, C, lo, rows)
  {
    hide FlowOut;
    rows := BlockOf(dgcso, n, C);
  }

  ghost predicate GradientsFrom(x: Gla, dO: Matrix, S0: Matrix, E1: Matrix, dg: Vector, dK: array2<real>,
                                dV: array2<real>, dA: array2<real>, lo: int)
    reads dK, dV, dA
  {
    && dK.Length0 == dV.Length0 == dA.Length0 == x.T && dK.Length1 == dA.Length1 == x.dk && dV.Length1 == x.dv
    && SetK(x, dO, E1, dK, lo) && SetV(x, dO, E1, dV, lo) && SetA(x, dO, S0, E1, dg, dA, lo)
  }

  method GradHChunk(x: Gla, ghost dO: Matrix, ghost Srecv: Matrix, ghost E1: Matrix, ghost dg: Vector, C: nat, n: nat,
                    lo: nat, Sprev: Matrix, cprev: Vector, o: OutBuffers, dS: Matrix, dc: Vector, dK: array2<real>,
                    dV: array2<real>, dA: array2<real>)
    requires Chunked(x, C) && lo == n * C && lo + C <= x.T && HoldsLocal(x, Sprev, lo) && HoldsDecay(x, cprev, lo)
    requires OutDone(x, C, dO, Srecv, o, x.T, x.T / C)
    requires HoldsAdj(x, dO, E1, dS, lo + C) && HoldsDc(x, Srecv, E1, dg, dS, dc, lo + C)
    requires dK != dV && dK != dA && dV != dA && {dK, dV, dA} !! {o.dKo, o.dVo, o.dgcso}
    requires GradientsFrom(x, dO, Srecv, E1, dg, dK, dV, dA, lo + C)
    modifies dK, dV, dA
    ensures GradientsFrom(x, dO, Srecv, E1, dg, dK, dV, dA, lo)
  {
    hide DoneQ, DoneKIntra, DoneVIntra, DoneFlow, HandedOn, HoldsLocal, HoldsDecay, HoldsAdj, HoldsDc, SetK, SetV, SetA,
      FlowRows;
    var rows := LoadFlow(x, dO, Srecv, C, n, lo, o.dgcso);
    WriteKernelGate(x, dO, Srecv, E1, dg, C, n, lo, rows, dS, Sprev, dc, cprev, dA);
    WriteDK(x, dO, E1, C, n, lo, dS, o.dKo, dK);
    WriteDV(x, dO, E1, C, n, lo, dS, o.dVo, dV);
  }

  method NewGradients(x: Gla, ghost dO: Matrix, ghost S0: Matrix, ghost E1: Matrix, ghost dg: Vector)
    returns (dK: array2<real>, dV: array2<real>, dA: array2<real>)
    ensures fresh(dK) && fresh(dV) && fresh(dA) && dK != dV && dK != dA && dV != dA
    ensures GradientsFrom(x, dO, S0, E1, dg, dK, dV, dA, x.T)
  {
    dK := new real[x.T, x.dk]((_, _) => 0.0);
    dV := new real[x.T, x.dv]((_, _) => 0.0);
    dA := new real[x.T, x.dk]((_, _) => 0.0);
  }

  /** One turn of the reverse walk: the rows of chunk n, then the carries. */
  method GradHTurn(x: Gla, ghost dO: Matrix, ghost Srecv: Matrix, ghost E1: Matrix, ghost dg: Vector, C: nat, n: nat,
                   lo: nat, Ssnap: array2<real>, Cprev: array2<real>, o: OutBuffers, dS: Matrix, dc: Vector,
                   dK: array2<real>, dV: array2<real>, dA: array2<real>)
    returns (dS': Matrix, dc': Vector)
    requires Chunked(x, C) && n < x.T / C && lo == n * C && lo + C <= x.T
    requires SnapshotsIn(x, C, Ssnap, Cprev, x.T / C) && OutDone(x, C, dO, Srecv, o, x.T, x.T / C)
    requires HoldsAdj(x, dO, E1, dS, lo + C) && HoldsDc(x, Srecv, E1, dg, dS, dc, lo + C)
    requires dK != dV && dK != dA && dV != dA && {dK, dV, dA} !! {o.dKo, o.dVo, o.dgcso, o.dH, o.dc}
    requires GradientsFrom(x, dO, Srecv, E1, dg, dK, dV, dA, lo + C)
    modifies dK, dV, dA
    ensures GradientsFrom(x, dO, Srecv, E1, dg, dK, dV, dA, lo)
    ensures HoldsAdj(x, dO, E1, dS', lo) && HoldsDc(x, Srecv, E1, dg, dS', dc', lo)
  {
    hide HoldsLocal, HoldsDecay, HoldsAdj, HoldsDc, HandedOn, SnapshotsIn, GradientsFrom, DoneQ, DoneKIntra, DoneVIntra,
      DoneFlow;
    var sprev, cprev := LoadSnapshot(x, C, Ssnap, Cprev, n);
    dS', dc' := Retreat(x, dO, Srecv, E1, dg, C, n, lo, o.dH, o.dc, dS, dc);
    GradHChunk(x, dO, Srecv, E1, dg, C, n, lo, sprev, cprev, o, dS, dc, dK, dV, dA);
  }

  /** k_grad_h: the reverse walk, n = N - 1 - m. */
  method KGradH(x: Gla, C: nat, ghost dO: Matrix, ghost Srecv: Matrix, Ssnap: array2<real>, Cprev: array2<real>,
                o: OutBuffers, dStot: Matrix, dgam: Vector)
    returns (dK: array2<real>, dV: array2<real>, dA: array2<real>)
    requires Chunked(x, C) && SnapshotsIn(x, C, Ssnap, Cprev, x.T / C) && OutDone(x, C, dO, Srecv, o, x.T, x.T / C)
    ensures fresh(dK) && fresh(dV) && fresh(dA) && GradientsFrom(x, dO, Srecv, dStot, dgam, dK, dV, dA, 0)
    ensures StateIs(x, C, dO, Srecv, dStot, dgam, dK, dV, dA)
  {
    hide GradientsFrom, OutDone, SnapshotsIn, HoldsAdj, HoldsDc;
    dK, dV, dA := NewGradients(x, dO, Srecv, dStot, dgam);
    var dSloc, dcvec := dStot, dgam;
    BackStart(x, dO, Srecv, dStot, dgam);
    var N := x.T / C;
    var n, hi := N, x.T;
    ChunksCover(x.T, C);
    for m := 0 to N
      invariant n == N - m && hi == n * C && GradientsFrom(x, dO, Srecv, dStot, dgam, dK, dV, dA, hi)
      invariant SnapshotsIn(x, C, Ssnap, Cprev, N) && OutDone(x, C, dO, Srecv, o, x.T, N)
      invariant HoldsAdj(x, dO, dStot, dSloc, hi) && HoldsDc(x, Srecv, dStot, dgam, dSloc, dcvec, hi)
    {
      n := n - 1;
      ChunkBounds(x.T, C, n);
      dSloc, dcvec := GradHTurn(x, dO, Srecv, dStot, dgam, C, n, hi - C, Ssnap, Cprev, o, dSloc, dcvec, dK, dV, dA);
      hi := hi - C;
    }
    StateStored(x, C, dO, Srecv, dStot, dgam, dK, dV, dA);
  }

  /** The three results are the tensors of gla_grad_h on those of the first two
      kernels. */
  ghost predicate StateIs(x: Gla, C: nat, dO: Matrix, Srecv: Matrix, dStot: Matrix, dgam: Vector,
                          dK: array2<real>, dV: array2<real>, dA: array2<real>)
    requires 0 < C
    reads dK, dV, dA
  {
    var rec := RecomputeTensors(x, C);
    var ts := GradHTensors(x, C, rec, GradOTensors(x, C, dO, rec, Srecv), dStot, Column(dgam));
    BufferIs(dK, Mat(ts, 0)) && BufferIs(dV, Mat(ts, 1)) && BufferIs(dA, Mat(ts, 2))
  }

  lemma SameGate(x: Gla, dO: Matrix, S0: Matrix, E1: Matrix, dg: Vector, t: int, i: int)
    requires 0 <= i < x.dk
    ensures GateGrad(x, dO, S0, E1, RowBlockV(Column(dg), 0, x.dk), t, i) == GateGrad(x, dO, S0, E1, dg, t, i)
  {
    hide GradA, RowDot, Decay, Inv;
    assert 0 * x.dk == 0;
    assert El(RowBlockV(Column(dg), 0, x.dk), i) == At(Column(dg), i, 0);
    assert Gap(x, S0, E1, RowBlockV(Column(dg), 0, x.dk), i) == Gap(x, S0, E1, dg, i);
  }

  lemma StateStored(x: Gla, C: nat, dO: Matrix, Srecv: Matrix, dStot: Matrix, dgam: Vector,
                    dK: array2<real>, dV: array2<real>, dA: array2<real>)
    requires Chunked(x, C) && GradientsFrom(x, dO, Srecv, dStot, dgam, dK, dV, dA, 0)
    ensures StateIs(x, C, dO, Srecv, dStot, dgam, dK, dV, dA)
  {
    hide GradK, GradV, GateGrad, At, RightRecompute, RightRows, RightHanded, RecomputeTensors, GradOTensors,
      HoldsRecvGrad, KAt, VAt, AAt, Column, RowBlockV;
    var rec := RecomputeTensors(x, C);
    var o := GradOTensors(x, C, dO, rec, Srecv);
    RecomputeRight(x, C);
    GradORight(x, C, dO, rec, Srecv);
    GradHRight(x, C, dO, rec, Srecv, o, dStot, Column(dgam));
    forall t, i | 0 <= t < x.T && 0 <= i < x.dk
      ensures GateGrad(x, dO, Srecv, dStot, RowBlockV(Column(dgam), 0, x.dk), t, i)
        == GateGrad(x, dO, Srecv, dStot, dgam, t, i)
    {
      SameGate(x, dO, Srecv, dStot, dgam, t, i);
    }
  }
}

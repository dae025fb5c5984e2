/** gla_recompute, gla_grad_o and gla_grad_h of the fused program as functions
    from the tensors they load to the tensors they store, for the dispatch
    machine. A tensor of [N * d, c] holds one block of d rows per chunk. */
module LocalKernels {
  import opened Tensor
  import opened Gla
  import opened Chunk
  import opened ChunkForward
  import opened ChunkGrad
  import opened ChunkBackward
  import opened Snapshot
  import opened AllScan
  import opened Restructured

  // ---------------------------------------------------------------------
  // Blocks of rows
  // ---------------------------------------------------------------------

  /** m[n * d : n * d + d, 0] */
  function RowBlockV(m: Matrix, n: int, d: nat): Vector {
    TabV(d, i => At(m, n * d + i, 0))
  }

  /** The tensor whose n-th block of d rows is f(n), for N blocks. */
  function Stacked(N: nat, d: nat, cols: nat, f: int -> Matrix): Matrix {
    Tab(N * d, cols, (row, j) => StackedAt(d, f, row, j))
  }

  function StackedAt(d: nat, f: int -> Matrix, row: int, j: int): real {
    if d == 0 then 0.0 else At(f(row / d), row % d, j)
  }

  lemma StackedBlock(N: nat, d: nat, cols: nat, f: int -> Matrix, n: int, i: int, j: int)
    requires 0 <= n < N && 0 <= i < d && 0 <= j < cols
    ensures At(Stacked(N, d, cols, f), n * d + i, j) == At(f(n), i, j)
  {
    hide At;
    MulMono(n + 1, N, d);
    MulMono(0, n, d);
    ChunkIndex(d, n, n * d + i);
    assert (n * d + i) % d == i;
  }

  lemma TokenChunk(T: nat, C: nat, t: int)
    requires 0 < C && T % C == 0 && 0 <= t < T
    ensures 0 <= t / C < T / C && 0 <= t - t / C * C < C && 0 <= t / C * C && t / C * C + C <= T
  {
    ChunksCover(T, C);
    RowInBlock(T / C, C, t);
    ChunkBounds(T, C, t / C);
  }

  // ---------------------------------------------------------------------
  // gla_recompute: [Ssnap, Cprev, Stot]
  // ---------------------------------------------------------------------

  function RunState(x: Gla, C: nat, n: int): Matrix
    decreases n
  {
    if n <= 0 then Zeros(x.dk, x.dv)
      else ScaledAdvance(x, Recompute(x, (n - 1) * C, C), RunState(x, C, n - 1), (n - 1) * C, C)
  }

  function RunDecay(x: Gla, C: nat, n: int): Vector
    decreases n
  {
    if n <= 0 then TabV(x.dk, _ => 1.0) else AdvanceDecay(x, Recompute(x, (n - 1) * C, C), RunDecay(x, C, n - 1))
  }

  function RecomputeTensors(x: Gla, C: nat): seq<Matrix>
    requires 0 < C
  {
    [Stacked(x.T / C, x.dk, x.dv, n => RunState(x, C, n)),
     Stacked(x.T / C, x.dk, 1, n => Column(RunDecay(x, C, n))),
     RunState(x, C, x.T / C)]
  }

  function SnapState(x: Gla, rec: seq<Matrix>, n: int): Matrix {
    Rows(Mat(rec, 0), n * x.dk, x.dk, x.dv)
  }

  function SnapDecay(x: Gla, rec: seq<Matrix>, n: int): Vector {
    RowBlockV(Mat(rec, 1), n, x.dk)
  }

  ghost predicate RightRecompute(x: Gla, C: nat, rec: seq<Matrix>)
    requires 0 < C
  {
    && (forall n | 0 <= n < x.T / C :: HoldsLocal(x, SnapState(x, rec, n), n * C))
    && (forall n | 0 <= n < x.T / C :: HoldsDecay(x, SnapDecay(x, rec, n), n * C))
    && HoldsLocal(x, Mat(rec, 2), x.T)
  }

  lemma {:induction false} RunHolds(x: Gla, C: nat, n: int)
    requires Chunked(x, C) && 0 <= n <= x.T / C
    ensures HoldsLocal(x, RunState(x, C, n), n * C) && HoldsDecay(x, RunDecay(x, C, n), n * C)
    ensures |RunDecay(x, C, n)| == x.dk
    decreases n
  {
    hide HoldsLocal, HoldsDecay, Recompute, ScaledAdvance;
    if 0 < n {
      RunHolds(x, C, n - 1);
      ChunkBounds(x.T, C, n - 1);
      ScaledAdvanceHolds(x, RunState(x, C, n - 1), (n - 1) * C, C);
      AdvanceLocal(x, RunState(x, C, n - 1), RunDecay(x, C, n - 1), (n - 1) * C, C);
    } else {
      ScanStart(x, C, RunState(x, C, n), RunDecay(x, C, n));
    }
  }

  lemma RecomputeRight(x: Gla, C: nat)
    requires Chunked(x, C)
    ensures RightRecompute(x, C, RecomputeTensors(x, C))
  {
    hide State, Decay, At, El, RunState, RunDecay, Stacked;
    var rec := RecomputeTensors(x, C);
    ChunksCover(x.T, C);
    RunHolds(x, C, x.T / C);
    forall n | 0 <= n < x.T / C
      ensures HoldsLocal(x, SnapState(x, rec, n), n * C) && HoldsDecay(x, SnapDecay(x, rec, n), n * C)
    {
      RunHolds(x, C, n);
      forall i, j | 0 <= i < x.dk && 0 <= j < x.dv
        ensures At(SnapState(x, rec, n), i, j) == At(RunState(x, C, n), i, j)
      {
        StackedBlock(x.T / C, x.dk, x.dv, m => RunState(x, C, m), n, i, j);
      }
      forall i | 0 <= i < x.dk ensures El(SnapDecay(x, rec, n), i) == El(RunDecay(x, C, n), i) {
        StackedBlock(x.T / C, x.dk, 1, m => Column(RunDecay(x, C, m)), n, i, 0);
      }
    }
  }

  // ---------------------------------------------------------------------
  // gla_grad_o: [dQ, dKo, dVo, dgcso, dH, dCp, dSrecv]
  // ---------------------------------------------------------------------

  function HistoryOf(x: Gla, rec: seq<Matrix>, Srecv: Matrix, n: int): Matrix {
    History(x, SnapState(x, rec, n), SnapDecay(x, rec, n), Srecv)
  }

  function QAt(x: Gla, C: nat, dO: Matrix, rec: seq<Matrix>, Srecv: Matrix, t: int, i: int): real
    requires 0 < C
  {
    var n, lo := t / C, t / C * C;
    var ch := Recompute(x, lo, C);
    DQt(x, dO, ch, HistoryOf(x, rec, Srecv, n), Dscores(x, dO, lo, C), lo, C, t - lo, i) * At(ch.b, t - lo, i)
  }

  function FlowAt(x: Gla, C: nat, dO: Matrix, rec: seq<Matrix>, Srecv: Matrix, t: int, i: int): real
    requires 0 < C
  {
    x.q(t, i) * QAt(x, C, dO, rec, Srecv, t, i) - x.k(t, i) * KIntraAt(x, dO, C, t, i)
  }

  /** The dS_recv accumulator after n chunks. */
  function RecvSum(x: Gla, C: nat, dO: Matrix, rec: seq<Matrix>, n: int): Matrix
    decreases n
  {
    if n <= 0 then Zeros(x.dk, x.dv)
    else AddRecv(x, RecvSum(x, C, dO, rec, n - 1), SnapDecay(x, rec, n - 1), QtDOMatrix(x, dO, (n - 1) * C, C))
  }

  function GradOTensors(x: Gla, C: nat, dO: Matrix, rec: seq<Matrix>, Srecv: Matrix): seq<Matrix>
    requires 0 < C
  {
    [Tab(x.T, x.dk, (t, i) => QAt(x, C, dO, rec, Srecv, t, i)),
     Tab(x.T, x.dk, (t, i) => KIntraAt(x, dO, C, t, i)),
     Tab(x.T, x.dv, (t, j) => VIntraAt(x, dO, C, t, j)),
     Tab(x.T, x.dk, (t, i) => FlowAt(x, C, dO, rec, Srecv, t, i)),
     Stacked(x.T / C, x.dk, x.dv, n => QtDOMatrix(x, dO, n * C, C)),
     Stacked(x.T / C, x.dk, 1, n => Column(DcPrev(x, QtDOMatrix(x, dO, n * C, C), Srecv))),
     RecvSum(x, C, dO, rec, x.T / C)]
  }

  /** What gla_grad_h relies on, per chunk. */
  function HandedState(x: Gla, o: seq<Matrix>, n: int): Matrix {
    Rows(Mat(o, 4), n * x.dk, x.dk, x.dv)
  }

  function HandedDecay(x: Gla, o: seq<Matrix>, n: int): Vector {
    RowBlockV(Mat(o, 5), n, x.dk)
  }

  ghost predicate RightRows(x: Gla, C: nat, dO: Matrix, Srecv: Matrix, o: seq<Matrix>)
    requires 0 < C
  {
    && (forall t, i | 0 <= t < x.T && 0 <= i < x.dk :: At(Mat(o, 0), t, i) == GradQ(x, dO, Srecv, t, i))
    && (forall t, i | 0 <= t < x.T && 0 <= i < x.dk :: At(Mat(o, 1), t, i) == KIntraAt(x, dO, C, t, i))
    && (forall t, j | 0 <= t < x.T && 0 <= j < x.dv :: At(Mat(o, 2), t, j) == VIntraAt(x, dO, C, t, j))
    && (forall t, i | 0 <= t < x.T && 0 <= i < x.dk :: At(Mat(o, 3), t, i) == FlowOut(x, dO, Srecv, C, t, i))
  }

  ghost predicate RightHanded(x: Gla, C: nat, dO: Matrix, Srecv: Matrix, o: seq<Matrix>)
    requires 0 < C
  {
    forall n | 0 <= n < x.T / C ::
      HandedState(x, o, n) == QtDOMatrix(x, dO, n * C, C)
        && HandedDecay(x, o, n) == DcPrev(x, QtDOMatrix(x, dO, n * C, C), Srecv)
  }

  lemma QAtIs(x: Gla, C: nat, dO: Matrix, rec: seq<Matrix>, Srecv: Matrix, t: int, i: int)
    requires Chunked(x, C) && RightRecompute(x, C, rec) && 0 <= t < x.T && 0 <= i < x.dk
    ensures QAt(x, C, dO, rec, Srecv, t, i) == GradQ(x, dO, Srecv, t, i)
  {
    hide GradQ, DQt, Dscores, Recompute, SnapState, SnapDecay, HoldsLocal, HoldsDecay, HoldsState, History, At;
    TokenChunk(x.T, C, t);
    var n, lo := t / C, t / C * C;
    HistoryHolds(x, SnapState(x, rec, n), SnapDecay(x, rec, n), Srecv, lo);
    ChunkDQ(x, dO, Srecv, lo, C, HistoryOf(x, rec, Srecv, n), t - lo, i);
  }

  lemma RowsRight(x: Gla, C: nat, dO: Matrix, rec: seq<Matrix>, Srecv: Matrix)
    requires Chunked(x, C) && RightRecompute(x, C, rec)
    ensures RightRows(x, C, dO, Srecv, GradOTensors(x, C, dO, rec, Srecv))
  {
    hide QAt, GradQ, KIntraAt, VIntraAt, RightRecompute, At, Gla.q, Gla.k;
    forall t, i | 0 <= t < x.T && 0 <= i < x.dk ensures QAt(x, C, dO, rec, Srecv, t, i) == GradQ(x, dO, Srecv, t, i) {
      QAtIs(x, C, dO, rec, Srecv, t, i);
    }
  }

  lemma HandedRight(x: Gla, C: nat, dO: Matrix, rec: seq<Matrix>, Srecv: Matrix, n: int)
    requires 0 < C && 0 <= n < x.T / C
    ensures HandedState(x, GradOTensors(x, C, dO, rec, Srecv), n) == QtDOMatrix(x, dO, n * C, C)
    ensures HandedDecay(x, GradOTensors(x, C, dO, rec, Srecv), n) == DcPrev(x, QtDOMatrix(x, dO, n * C, C), Srecv)
  {
    hide At, El, QtDO, RowDot, Recompute, Stacked;
    var o := GradOTensors(x, C, dO, rec, Srecv);
    var dH := QtDOMatrix(x, dO, n * C, C);
    var dc := DcPrev(x, dH, Srecv);
    forall i, j | 0 <= i < x.dk && 0 <= j < x.dv ensures At(HandedState(x, o, n), i, j) == At(dH, i, j) {
      StackedBlock(x.T / C, x.dk, x.dv, m => QtDOMatrix(x, dO, m * C, C), n, i, j);
    }
    SameMatrix(HandedState(x, o, n), dH, x.dk, x.dv);
    forall i | 0 <= i < x.dk ensures El(HandedDecay(x, o, n), i) == El(dc, i) {
      StackedBlock(x.T / C, x.dk, 1, m => Column(DcPrev(x, QtDOMatrix(x, dO, m * C, C), Srecv)), n, i, 0);
    }
    SameVector(HandedDecay(x, o, n), dc);
  }

  lemma {:induction false} RecvSumHolds(x: Gla, C: nat, dO: Matrix, rec: seq<Matrix>, n: int)
    requires Chunked(x, C) && RightRecompute(x, C, rec) && 0 <= n <= x.T / C
    ensures HoldsRecvGrad(x, dO, RecvSum(x, C, dO, rec, n), n * C)
    decreases n
  {
    hide HoldsRecvGrad, HoldsLocal, HoldsDecay, AddRecv, QtDOMatrix, SnapDecay;
    if 0 < n {
      RecvSumHolds(x, C, dO, rec, n - 1);
      ChunkBounds(x.T, C, n - 1);
      AddRecvHolds(x, dO, RecvSum(x, C, dO, rec, n - 1), SnapDecay(x, rec, n - 1), (n - 1) * C, C);
    } else {
      RecvStart(x, dO, RecvSum(x, C, dO, rec, n));
    }
  }

  lemma GradORight(x: Gla, C: nat, dO: Matrix, rec: seq<Matrix>, Srecv: Matrix)
    requires Chunked(x, C) && RightRecompute(x, C, rec)
    ensures RightRows(x, C, dO, Srecv, GradOTensors(x, C, dO, rec, Srecv))
    ensures RightHanded(x, C, dO, Srecv, GradOTensors(x, C, dO, rec, Srecv))
    ensures HoldsRecvGrad(x, dO, Mat(GradOTensors(x, C, dO, rec, Srecv), 6), x.T)
  {
    hide RightRows, HandedState, HandedDecay, QtDOMatrix, DcPrev, HoldsRecvGrad, RightRecompute, QAt, FlowAt, KIntraAt,
      VIntraAt, Stacked;
    RowsRight(x, C, dO, rec, Srecv);
    forall n | 0 <= n < x.T / C
      ensures HandedState(x, GradOTensors(x, C, dO, rec, Srecv), n) == QtDOMatrix(x, dO, n * C, C)
      ensures HandedDecay(x, GradOTensors(x, C, dO, rec, Srecv), n) == DcPrev(x, QtDOMatrix(x, dO, n * C, C), Srecv)
    {
      HandedRight(x, C, dO, rec, Srecv, n);
    }
    ChunksCover(x.T, C);
    RecvSumHolds(x, C, dO, rec, x.T / C);
  }

  // ---------------------------------------------------------------------
  // gla_grad_h: [dK, dV, dA]
  // ---------------------------------------------------------------------

  /** The carries before chunk n of the reverse walk. */
  function CarryState(x: Gla, C: nat, o: seq<Matrix>, dStot: Matrix, n: int): Matrix
    requires 0 < C
    decreases x.T / C - n
  {
    if x.T / C <= n then dStot
    else Plus(x, Pushed(x, Recompute(x, n * C, C), CarryState(x, C, o, dStot, n + 1)), HandedState(x, o, n))
  }

  function CarryDecay(x: Gla, C: nat, o: seq<Matrix>, dgam: Vector, n: int): Vector
    requires 0 < C
    decreases x.T / C - n
  {
    if x.T / C <= n then dgam
    else PlusV(x, PushedDecay(x, Recompute(x, n * C, C), CarryDecay(x, C, o, dgam, n + 1)), HandedDecay(x, o, n))
  }

  function KAt(x: Gla, C: nat, o: seq<Matrix>, dStot: Matrix, t: int, i: int): real
    requires 0 < C
  {
    var n, lo := t / C, t / C * C;
    var ch := Recompute(x, lo, C);
    At(Mat(o, 1), t, i) + PushedK(x, ch, Pushed(x, ch, CarryState(x, C, o, dStot, n + 1)), lo, t - lo, i)
  }

  function VAt(x: Gla, C: nat, o: seq<Matrix>, dStot: Matrix, t: int, j: int): real
    requires 0 < C
  {
    var n, lo := t / C, t / C * C;
    var ch := Recompute(x, lo, C);
    At(Mat(o, 2), t, j) + PushedV(x, ch, Pushed(x, ch, CarryState(x, C, o, dStot, n + 1)), t - lo, j)
  }

  function AAt(x: Gla, C: nat, rec: seq<Matrix>, o: seq<Matrix>, dStot: Matrix, dgam: Vector, t: int, i: int): real
    requires 0 < C
  {
    var n, lo := t / C, t / C * C;
    var ch := Recompute(x, lo, C);
    KernelGateAt(x, ch, Rows(Mat(o, 3), n * C, C, x.dk), Pushed(x, ch, CarryState(x, C, o, dStot, n + 1)),
      SnapState(x, rec, n), El(PushedDecay(x, ch, CarryDecay(x, C, o, dgam, n + 1)), i), El(SnapDecay(x, rec, n), i),
      lo, C, t - lo, i)
  }

  /** dgam arrives as a [dk, 1] tensor. */
  function GradHTensors(x: Gla, C: nat, rec: seq<Matrix>, o: seq<Matrix>, dStot: Matrix, dgam: Matrix): seq<Matrix>
    requires 0 < C
  {
    var dg := RowBlockV(dgam, 0, x.dk);
    [Tab(x.T, x.dk, (t, i) => KAt(x, C, o, dStot, t, i)),
     Tab(x.T, x.dv, (t, j) => VAt(x, C, o, dStot, t, j)),
     Tab(x.T, x.dk, (t, i) => AAt(x, C, rec, o, dStot, dg, t, i))]
  }

  lemma {:induction false} CarryHolds(x: Gla, C: nat, dO: Matrix, Srecv: Matrix, o: seq<Matrix>, dStot: Matrix,
                                      dg: Vector, n: int)
    requires Chunked(x, C) && RightHanded(x, C, dO, Srecv, o) && 0 <= n <= x.T / C
    ensures HoldsAdj(x, dO, dStot, CarryState(x, C, o, dStot, n), n * C)
    ensures HoldsDc(x, Srecv, dStot, dg, CarryState(x, C, o, dStot, n), CarryDecay(x, C, o, dg, n), n * C)
    decreases x.T / C - n
  {
    hide HoldsAdj, HoldsDc, Recompute, Pushed, PushedDecay, Plus, PlusV, QtDOMatrix, DcPrev, HandedState, HandedDecay,
      BackState, BackDecay;
    ChunksCover(x.T, C);
    if n < x.T / C {
      CarryHolds(x, C, dO, Srecv, o, dStot, dg, n + 1);
      ChunkBounds(x.T, C, n);
      var dS, dc := CarryState(x, C, o, dStot, n + 1), CarryDecay(x, C, o, dg, n + 1);
      BackStep(x, dO, Srecv, dStot, dg, n * C, C, dS, dc);
      CarryIs(x, Recompute(x, n * C, C), dS, dc, HandedState(x, o, n), HandedDecay(x, o, n));
    } else {
      BackStart(x, dO, Srecv, dStot, dg);
    }
  }

  /** The carry that chunk t / C of the reverse walk starts from. */
  lemma CarryAt(x: Gla, C: nat, dO: Matrix, Srecv: Matrix, o: seq<Matrix>, dStot: Matrix, dg: Vector, t: int)
    requires Chunked(x, C) && RightHanded(x, C, dO, Srecv, o) && 0 <= t < x.T
    ensures HoldsAdj(x, dO, dStot, CarryState(x, C, o, dStot, t / C + 1), t / C * C + C)
    ensures HoldsDc(x, Srecv, dStot, dg, CarryState(x, C, o, dStot, t / C + 1), CarryDecay(x, C, o, dg, t / C + 1),
      t / C * C + C)
  {
    hide HoldsAdj, HoldsDc, RightHanded, CarryState, CarryDecay;
    TokenChunk(x.T, C, t);
    CarryHolds(x, C, dO, Srecv, o, dStot, dg, t / C + 1);
    ChunkBounds(x.T, C, t / C);
  }

  lemma KAtIs(x: Gla, C: nat, dO: Matrix, Srecv: Matrix, o: seq<Matrix>, dStot: Matrix, t: int, i: int)
    requires Chunked(x, C) && RightRows(x, C, dO, Srecv, o) && RightHanded(x, C, dO, Srecv, o) && 0 <= t < x.T
    requires 0 <= i < x.dk
    ensures KAt(x, C, o, dStot, t, i) == GradK(x, dO, dStot, t, i)
  {
    hide GradQ, GradK, FlowOut, VIntraAt, Recompute, Pushed, PushedK, KState, KIntra, KIntraAt, HoldsAdj, HoldsDc,
      CarryState, CarryDecay, RightHanded, At;
    TokenChunk(x.T, C, t);
    var n, lo := t / C, t / C * C;
    var dS := CarryState(x, C, o, dStot, n + 1);
    CarryAt(x, C, dO, Srecv, o, dStot, [], t);
    IntraHalves(x, dO, C, n, t - lo, i);
    PushedKIs(x, dS, lo, C, t - lo, i);
    ChunkDK(x, dO, dStot, lo, C, dS, t - lo, i);
  }

  lemma VAtIs(x: Gla, C: nat, dO: Matrix, Srecv: Matrix, o: seq<Matrix>, dStot: Matrix, t: int, j: int)
    requires Chunked(x, C) && RightRows(x, C, dO, Srecv, o) && RightHanded(x, C, dO, Srecv, o) && 0 <= t < x.T
    requires 0 <= j < x.dv
    ensures VAt(x, C, o, dStot, t, j) == GradV(x, dO, dStot, t, j)
  {
    hide GradQ, GradV, FlowOut, KIntraAt, Recompute, Pushed, PushedV, KstateDS, ScoresDO, VIntraAt, HoldsAdj, HoldsDc,
      CarryState, CarryDecay, RightHanded, At;
    TokenChunk(x.T, C, t);
    var n, lo := t / C, t / C * C;
    var dS := CarryState(x, C, o, dStot, n + 1);
    CarryAt(x, C, dO, Srecv, o, dStot, [], t);
    IntraHalves(x, dO, C, n, t - lo, j);
    PushedVIs(x, dS, lo, C, t - lo, j);
    ChunkDV(x, dO, dStot, lo, C, dS, t - lo, j);
  }

  lemma FlowBlock(x: Gla, C: nat, dO: Matrix, Srecv: Matrix, o: seq<Matrix>, n: int)
    requires 0 < C && RightRows(x, C, dO, Srecv, o) && 0 <= n * C && n * C + C <= x.T
    ensures FlowRows(x, dO, Srecv, C, n * C, Rows(Mat(o, 3), n * C, C, x.dk))
  {
    hide GradQ, FlowOut, KIntraAt, VIntraAt, At;
  }

  lemma AAtIs(x: Gla, C: nat, dO: Matrix, rec: seq<Matrix>, Srecv: Matrix, o: seq<Matrix>, dStot: Matrix, dg: Vector,
              t: int, i: int)
    requires Chunked(x, C) && RightRecompute(x, C, rec) && RightRows(x, C, dO, Srecv, o)
    requires RightHanded(x, C, dO, Srecv, o)
    requires 0 <= t < x.T && 0 <= i < x.dk
    ensures AAt(x, C, rec, o, dStot, dg, t, i) == GateGrad(x, dO, Srecv, dStot, dg, t, i)
  {
    hide GateGrad, Recompute, Pushed, KernelGateAt, HoldsAdj, HoldsDc, HoldsLocal, HoldsDecay, FlowRows, CarryState,
      CarryDecay, RightHanded, RightRows, Rows, SnapState, SnapDecay, El;
    TokenChunk(x.T, C, t);
    var n, lo := t / C, t / C * C;
    var ch := Recompute(x, lo, C);
    var dS, dc := CarryState(x, C, o, dStot, n + 1), CarryDecay(x, C, o, dg, n + 1);
    CarryAt(x, C, dO, Srecv, o, dStot, dg, t);
    FlowBlock(x, C, dO, Srecv, o, n);
    KernelGate(x, dO, Srecv, dStot, dg, C, n, lo, Rows(Mat(o, 3), n * C, C, x.dk), dS, SnapState(x, rec, n), dc,
      El(PushedDecay(x, ch, dc), i), SnapDecay(x, rec, n), t - lo, i);
  }

  /** The state stage, on right tensors from the two kernels before it, stores
      the gradients of gla_chunk_backward. */
  lemma GradHRight(x: Gla, C: nat, dO: Matrix, rec: seq<Matrix>, Srecv: Matrix, o: seq<Matrix>, dStot: Matrix,
                   dgam: Matrix)
    requires Chunked(x, C) && RightRecompute(x, C, rec) && RightRows(x, C, dO, Srecv, o)
    requires RightHanded(x, C, dO, Srecv, o)
    ensures var h := GradHTensors(x, C, rec, o, dStot, dgam); var dg := RowBlockV(dgam, 0, x.dk);
      && (forall t, i | 0 <= t < x.T && 0 <= i < x.dk :: At(Mat(h, 0), t, i) == GradK(x, dO, dStot, t, i))
      && (forall t, j | 0 <= t < x.T && 0 <= j < x.dv :: At(Mat(h, 1), t, j) == GradV(x, dO, dStot, t, j))
      && (forall t, i | 0 <= t < x.T && 0 <= i < x.dk :: At(Mat(h, 2), t, i) == GateGrad(x, dO, Srecv, dStot, dg, t, i))
  {
    hide RightRecompute, RightRows, RightHanded, KAt, VAt, AAt, GradK, GradV, GateGrad, RowBlockV, At;
    var dg := RowBlockV(dgam, 0, x.dk);
    forall t, i | 0 <= t < x.T && 0 <= i < x.dk
      ensures KAt(x, C, o, dStot, t, i) == GradK(x, dO, dStot, t, i)
      ensures AAt(x, C, rec, o, dStot, dg, t, i) == GateGrad(x, dO, Srecv, dStot, dg, t, i)
    {
      KAtIs(x, C, dO, Srecv, o, dStot, t, i);
      AAtIs(x, C, dO, rec, Srecv, o, dStot, dg, t, i);
    }
    forall t, j | 0 <= t < x.T && 0 <= j < x.dv ensures VAt(x, C, o, dStot, t, j) == GradV(x, dO, dStot, t, j) {
      VAtIs(x, C, dO, Srecv, o, dStot, t, j);
    }
  }
}

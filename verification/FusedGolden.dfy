/** The fused program computes the gradients of the whole sequence: its rings
    hand grad_h the right boundary state and boundary gradients, and with the
    program's own kernels every run that is through has stored, rank by rank,
    the slices of expected_gla_backward. */
module FusedGolden {
  import opened Tensor
  import opened Gla
  import opened ChunkForward
  import opened ChunkBackward
  import opened AllScan
  import opened Ranks
  import opened Zeco
  import opened RestructuredRun
  import opened Boundaries
  import opened LocalKernels
  import opened FusedProgram
  import opened FusedSchedule
  import M = Machine

  /** The first two kernels are right, the second one for any boundary. */
  ghost predicate RightKernels(x: Params, xs: seq<Gla>, L: nat, C: nat, dOs: seq<Matrix>) {
    && x.Valid() && |xs| == |dOs| == x.P && Config(xs, L, C, x.Dk(), x.dv)
    && LocalScans(xs, LocalStates(x), x.g)
    && (forall r | 0 <= r < x.P :: IsMatrix(dOs[r], L, x.dv))
    && forall r, b: Matrix | 0 <= r < x.P :: RightGradO(x, xs[r], dOs[r], r, b)
  }

  ghost predicate RightGradO(x: Params, xr: Gla, dO: Matrix, r: int, b: Matrix) {
    HoldsRecvGrad(xr, dO, Mat(x.ker.gradO(r, x.ker.recompute(r), b), DSRECV), xr.T)
  }

  lemma RecvGradsRight(x: Params, xs: seq<Gla>, L: nat, C: nat, dOs: seq<Matrix>)
    requires RightKernels(x, xs, L, C, dOs)
    ensures RecvGrads(xs, dOs, RecvGradients(x))
  {
    hide Adj, At, LocalScans, IsMatrix;
    forall r | 0 <= r < x.P ensures HoldsRecvGrad(xs[r], dOs[r], RecvGradients(x)[r], xs[r].T) {
      assert RightGradO(x, xs[r], dOs[r], r, Boundary(x, r));
      assert RecvGradients(x)[r] == Mat(FusedProgram.GradO(x, r), DSRECV);
    }
    RecvGradsHold(xs, dOs, RecvGradients(x));
  }

  /** The dgam blocks of the program are that boundary gradient. */
  lemma DgamIs(x: Params, r: int, i: int)
    requires x.Valid() && 0 <= r < x.P && 0 <= i < x.Dk()
    ensures DgamAt(x, r, i) == El(DecayGradient(LocalStates(x), RecvGradients(x), x.g, x.Dk(), x.dv, r), i)
  {
    hide El, At, ScanAdj, Shifted, Boundary, RecvGradients, RecvState;
    FusedProgram.RecvCount(x);
    if r == x.P - 1 {
      LastIsZero(LocalStates(x), RecvGradients(x), x.g, x.Dk(), x.dv, i);
    } else if 0 < r {
      var d, s := StateGradient(RecvGradients(x), x.g, x.Dk(), x.dv, r),
        RecvState(LocalStates(x), x.g, x.Dk(), x.dv, r);
      BoundaryIs(x, r);
      SumExt(0, x.dv, j => At(d, i, j) * At(s, i, j), j => D(x, r, i, j) * At(Boundary(x, r), i, j));
    }
  }

  lemma BoundaryIs(x: Params, r: int)
    ensures Boundary(x, r) == RecvState(LocalStates(x), x.g, x.Dk(), x.dv, r)
  {}

  lemma DStotIs(x: Params, r: int)
    ensures DStot(x, r) == StateGradient(RecvGradients(x), x.g, x.Dk(), x.dv, r)
  {
    hide At, ScanAdj, Shifted, RecvGradients;
    SameMatrix(DStot(x, r), StateGradient(RecvGradients(x), x.g, x.Dk(), x.dv, r), x.Dk(), x.dv);
  }

  /** Every rank's grad_h runs on the right boundary of the flattened sequence. */
  lemma FusedBoundaries(x: Params, xs: seq<Gla>, L: nat, C: nat, dOs: seq<Matrix>, r: nat, dgam: Vector)
    requires RightKernels(x, xs, L, C, dOs) && r < x.P
    requires |dgam| == x.Dk() && forall i | 0 <= i < x.Dk() :: El(dgam, i) == At(Dgam(x, r), i, 0)
    ensures RightState(xs[r], Flatten(xs, L, x.Dk(), x.dv), r * L, Boundary(x, r))
    ensures RightAdj(xs[r], Flatten(xs, L, x.Dk(), x.dv), r * L, FlattenRows(dOs), DStot(x, r))
    ensures NoGap(xs[r], Boundary(x, r), DStot(x, r), dgam)
  {
    hide RightState, RightAdj, NoGap, Flatten, FlattenRows, LocalScans, RecvGrads, IsMatrix, Boundary, DStot, RecvState,
      StateGradient, DecayGradient, DgamAt, El, At, RightGradO;
    RecvGradsRight(x, xs, L, C, dOs);
    BoundariesRight(xs, L, C, x.Dk(), x.dv, dOs, LocalStates(x), x.g, RecvGradients(x), r);
    BoundaryIs(x, r);
    DStotIs(x, r);
    var e := DecayGradient(LocalStates(x), RecvGradients(x), x.g, x.Dk(), x.dv, r);
    DecayShape(LocalStates(x), RecvGradients(x), x.g, x.Dk(), x.dv, r);
    forall i | 0 <= i < |e| ensures El(dgam, i) == El(e, i) { DgamIs(x, r, i); }
    SameVector(dgam, e);
  }

  lemma DecayShape(S: seq<Matrix>, dSrecv: seq<Matrix>, g: seq<Vector>, dk: nat, dv: nat, r: int)
    ensures |DecayGradient(S, dSrecv, g, dk, dv, r)| == dk
  {}

  // ---------------------------------------------------------------------
  // With the program's own kernels
  // ---------------------------------------------------------------------

  /** The three kernels on the slices xs and output gradients dOs. */
  function KernelsOf(xs: seq<Gla>, C: nat, dOs: seq<Matrix>): Kernels
    requires 0 < C
  {
    Kernels(
      r => if 0 <= r < |xs| then RecomputeTensors(xs[r], C) else [],
      (r, rec, boundary) => if 0 <= r < |xs| then GradOTensors(xs[r], C, Mat(dOs, r), rec, boundary) else [],
      (r, rec, o, dStot, dgam) => if 0 <= r < |xs| then GradHTensors(xs[r], C, rec, o, dStot, dgam) else [])
  }

  function Job(xs: seq<Gla>, C: nat, dOs: seq<Matrix>, K: nat, h: nat, dv: nat, token: bool): (x: Params)
    requires 0 < C
    ensures x.P == |xs| && x.K == K && x.h == h && x.dv == dv && x.token == token
  {
    Params(|xs|, K, h, dv, Gammas(xs), KernelsOf(xs, C, dOs), token)
  }

  ghost predicate JobOk(xs: seq<Gla>, L: nat, C: nat, dOs: seq<Matrix>, K: nat, h: nat, dv: nat) {
    && 2 <= |xs| == |dOs| && 1 <= K && 0 < h && 0 < C && Config(xs, L, C, K * h, dv)
    && forall r | 0 <= r < |xs| :: IsMatrix(dOs[r], L, dv)
  }

  lemma LocalTotals(xs: seq<Gla>, L: nat, C: nat, dOs: seq<Matrix>, K: nat, h: nat, dv: nat, token: bool)
    requires JobOk(xs, L, C, dOs, K, h, dv)
    ensures LocalScans(xs, LocalStates(Job(xs, C, dOs, K, h, dv, token)), Gammas(xs))
  {
    hide HoldsLocal, Decay, RecomputeTensors, El, IsMatrix;
    var x := Job(xs, C, dOs, K, h, dv, token);
    forall r | 0 <= r < |xs|
      ensures HoldsLocal(xs[r], LocalStates(x)[r], xs[r].T) && HoldsDecay(xs[r], Gammas(xs)[r], xs[r].T)
    {
      RecomputeRight(xs[r], C);
      assert LocalStates(x)[r] == Mat(RecomputeTensors(xs[r], C), STOT);
    }
  }

  lemma KernelsAt(xs: seq<Gla>, C: nat, dOs: seq<Matrix>, r: int, boundary: Matrix, dStot: Matrix, dgam: Matrix)
    requires 0 < C && 0 <= r < |xs| == |dOs|
    ensures var ker := KernelsOf(xs, C, dOs);
      var rec := RecomputeTensors(xs[r], C);
      var o := GradOTensors(xs[r], C, dOs[r], rec, boundary);
      ker.recompute(r) == rec && ker.gradO(r, rec, boundary) == o
        && ker.gradH(r, rec, o, dStot, dgam) == GradHTensors(xs[r], C, rec, o, dStot, dgam)
  {
    hide RecomputeTensors, GradOTensors, GradHTensors;
    var ker := KernelsOf(xs, C, dOs);
    assert Mat(dOs, r) == dOs[r];
    var rec := ker.recompute(r);
    assert rec == RecomputeTensors(xs[r], C);
    var o := ker.gradO(r, rec, boundary);
    assert o == GradOTensors(xs[r], C, dOs[r], rec, boundary);
    assert ker.gradH(r, rec, o, dStot, dgam) == GradHTensors(xs[r], C, rec, o, dStot, dgam);
  }

  /** The program's kernels are right kernels. */
  lemma JobRight(xs: seq<Gla>, L: nat, C: nat, dOs: seq<Matrix>, K: nat, h: nat, dv: nat, token: bool)
    requires JobOk(xs, L, C, dOs, K, h, dv)
    ensures RightKernels(Job(xs, C, dOs, K, h, dv, token), xs, L, C, dOs)
  {
    hide LocalScans, LocalStates, Gammas, RecomputeTensors, GradOTensors, RightRecompute, RightRows, RightHanded,
      HoldsRecvGrad, IsMatrix, KernelsOf;
    var x := Job(xs, C, dOs, K, h, dv, token);
    LocalTotals(xs, L, C, dOs, K, h, dv, token);
    forall r, b: Matrix | 0 <= r < x.P ensures RightGradO(x, xs[r], dOs[r], r, b) {
      RecomputeRight(xs[r], C);
      GradORight(xs[r], C, dOs[r], RecomputeTensors(xs[r], C), b);
      KernelsAt(xs, C, dOs, r, b, [], []);
    }
  }

  /** dQ and h = [dK, dV, dA] are the rows off .. off + L of the golden gradients. */
  ghost predicate GoldenRows(y: Gla, dOy: Matrix, L: nat, dQ: Matrix, h: Tensors, off: int) {
    && (forall l, i | 0 <= l < L && 0 <= i < y.dk :: At(dQ, l, i) == GradQ(y, dOy, NOTHING, off + l, i))
    && (forall l, i | 0 <= l < L && 0 <= i < y.dk :: At(Mat(h, 0), l, i) == GradK(y, dOy, NOTHING, off + l, i))
    && (forall l, j | 0 <= l < L && 0 <= j < y.dv :: At(Mat(h, 1), l, j) == GradV(y, dOy, NOTHING, off + l, j))
    && (forall l, i | 0 <= l < L && 0 <= i < y.dk :: At(Mat(h, 2), l, i) == GradA(y, dOy, NOTHING, NOTHING, off + l, i))
  }

  /** The five phases in order give every rank its slice of the golden gradients. */
  lemma RankRows(xs: seq<Gla>, L: nat, C: nat, dOs: seq<Matrix>, K: nat, h: nat, dv: nat, token: bool, r: nat)
    requires JobOk(xs, L, C, dOs, K, h, dv) && r < |xs|
    ensures var x := Job(xs, C, dOs, K, h, dv, token);
      GoldenRows(Flatten(xs, L, K * h, dv), FlattenRows(dOs), L, Mat(FusedProgram.GradO(x, r), 0),
        FusedProgram.GradH(x, r), r * L)
  {
    hide Flatten, FlattenRows, RightKernels, RightState, RightAdj, NoGap, RightRecompute, RightRows, RightHanded,
      HoldsRecvGrad, RecomputeTensors, GradOTensors, GradHTensors, GradQ, GradK, GradV, GradA, GateGrad, At, El,
      Boundary, DStot, Dgam, IsMatrix, Gammas, KernelsOf;
    var x, xr := Job(xs, C, dOs, K, h, dv, token), xs[r];
    var dgam := RowBlockV(Dgam(x, r), 0, xr.dk);
    JobRight(xs, L, C, dOs, K, h, dv, token);
    FusedBoundaries(x, xs, L, C, dOs, r, dgam);
    RankIsSlice(xs, L, C, K * h, dv, dOs, r, Boundary(x, r), DStot(x, r), dgam);
    FlattenSize(xs, L, K * h, dv);
    KernelsAt(xs, C, dOs, r, Boundary(x, r), DStot(x, r), Dgam(x, r));
    RowsOfKernels(xr, C, dOs[r], Boundary(x, r), DStot(x, r), Dgam(x, r), Flatten(xs, L, K * h, dv), FlattenRows(dOs),
      r * L);
  }

  lemma RowsOfKernels(xr: Gla, C: nat, dO: Matrix, Srecv: Matrix, dStot: Matrix, dgam: Matrix, y: Gla, dOy: Matrix,
                      off: int)
    requires Chunked(xr, C) && xr.dk == y.dk && xr.dv == y.dv
    requires LocalIsSlice(xr, y, off, dO, dOy, Srecv, dStot, RowBlockV(dgam, 0, xr.dk))
    ensures var rec := RecomputeTensors(xr, C); var o := GradOTensors(xr, C, dO, rec, Srecv);
      GoldenRows(y, dOy, xr.T, Mat(o, 0), GradHTensors(xr, C, rec, o, dStot, dgam), off)
  {
    hide RightRecompute, RightHanded, HoldsRecvGrad, RecomputeTensors, GradOTensors, GradHTensors, GradQ, GradK, GradV,
      GradA, GateGrad, RowBlockV, At, KIntraAt, VIntraAt;
    var rec := RecomputeTensors(xr, C);
    RecomputeRight(xr, C);
    GradORight(xr, C, dO, rec, Srecv);
    LocalKernels.GradHRight(xr, C, dO, rec, Srecv, GradOTensors(xr, C, dO, rec, Srecv), dStot, dgam);
  }

  /** The whole program, on any interleaving: if it is through, dQ, dK, dV and
      dA of every rank are its slice of the golden gradients of the flattened
      sequence; and with the ordering token it gets there on every schedule. */
  lemma FusedGradients(xs: seq<Gla>, L: nat, C: nat, dOs: seq<Matrix>, K: nat, h: nat, dv: nat, token: bool,
                       win: map<M.Cell, Tensors>, mem: M.Mem<Tensors>, acts: seq<M.Act>)
    requires JobOk(xs, L, C, dOs, K, h, dv)
    requires var p := Fused(Job(xs, C, dOs, K, h, dv, token)); M.After(p, M.Initial(p, win, mem), acts).Some?
    ensures var p := Fused(Job(xs, C, dOs, K, h, dv, token)); var s := M.After(p, M.Initial(p, win, mem), acts).value;
      && M.Shape(p, s) && |acts| <= |xs| * (5 * (5 * K + 1))
      && (M.Complete(p, s) ==> AllGolden(xs, L, dOs, K * h, dv, s))
      && (token ==> (M.Complete(p, s) <==> forall a: M.Act :: M.After(p, M.Initial(p, win, mem), acts + [a]).None?))
    ensures token ==> var p := Fused(Job(xs, C, dOs, K, h, dv, token));
      exists all: seq<M.Act> :: acts <= all && M.Finishes(p, M.Initial(p, win, mem), all)
  {
    hide M.After, M.Initial, M.Complete, M.Enabled, M.Terminal, JumpsAhead, Fused, KernelsOf, Gammas, GoldenRows,
      FusedProgram.GradO, FusedProgram.GradH, Flatten, FlattenRows, Config, IsMatrix;
    var x := Job(xs, C, dOs, K, h, dv, token);
    var s := M.After(Fused(x), M.Initial(Fused(x), win, mem), acts).value;
    Outcome(x, win, mem, acts);
    if token { TokenedFinishes(x, win, mem, acts); }
    if M.Complete(Fused(x), s) {
      forall r | 0 <= r < |xs|
        ensures GoldenRows(Flatten(xs, L, K * h, dv), FlattenRows(dOs), L,
          Mat(Stored(s.mem.out, M.Cell(r, GRAD_O, 0)), 0), Stored(s.mem.out, M.Cell(r, GRAD_H, 0)), r * L)
      {
        RankRows(xs, L, C, dOs, K, h, dv, token, r);
      }
    }
  }

  /** What every rank's grad_o and grad_h left in the global tensors. */
  ghost predicate AllGolden(xs: seq<Gla>, L: nat, dOs: seq<Matrix>, dk: nat, dv: nat, s: M.State<Tensors>) {
    forall r | 0 <= r < |xs| ::
      GoldenRows(Flatten(xs, L, dk, dv), FlattenRows(dOs), L, Mat(Stored(s.mem.out, M.Cell(r, GRAD_O, 0)), 0),
        Stored(s.mem.out, M.Cell(r, GRAD_H, 0)), r * L)
  }
}

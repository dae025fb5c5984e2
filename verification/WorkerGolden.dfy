/** The torch.distributed workers on the slices of a sequence: every run of the
    forward processes ends with the golden outputs, every run of the backward
    processes with the golden gradients. */
module WorkerGolden {
  import opened Tensor
  import opened Gla
  import opened Chunk
  import opened ChunkForward
  import opened ChunkBackward
  import opened AllScan
  import opened Ranks
  import opened Zeco
  import opened Boundaries
  import opened LocalKernels
  import opened Rendezvous

  /** S after n chunks of gla_chunk_scan. */
  function ScanState(x: Gla, C: nat, n: int): Matrix
    decreases n
  {
    if n <= 0 then Zeros(x.dk, x.dv)
    else AdvanceState(x, Recompute(x, (n - 1) * C, C), ScanState(x, C, n - 1), (n - 1) * C, C)
  }

  lemma {:induction false} ScanHolds(x: Gla, C: nat, n: int)
    requires Chunked(x, C) && 0 <= n <= x.T / C
    ensures HoldsLocal(x, ScanState(x, C, n), n * C) && HoldsDecay(x, RunDecay(x, C, n), n * C)
    decreases n
  {
    hide HoldsLocal, HoldsDecay, Recompute, AdvanceState;
    if 0 < n {
      ScanHolds(x, C, n - 1);
      ChunkBounds(x.T, C, n - 1);
      AdvanceLocal(x, ScanState(x, C, n - 1), RunDecay(x, C, n - 1), (n - 1) * C, C);
    } else {
      ScanStart(x, C, ScanState(x, C, n), RunDecay(x, C, n));
    }
  }

  /** The stage-C adjoint: the sum over the chunks of c_prev * (Qt^T @ dO). */
  function StageC(x: Gla, C: nat, dO: Matrix): Matrix
    requires 0 < C
  {
    RecvSum(x, C, dO, RecomputeTensors(x, C), x.T / C)
  }

  /** The workers on the slices xs with output gradients dOs. */
  function Workers(xs: seq<Gla>, C: nat, dOs: seq<Matrix>, K: nat, h: nat, dv: nat): Params
    requires 0 < C
  {
    Params(|xs|, K, h, dv,
      seq(|xs|, r requires 0 <= r < |xs| => ScanState(xs[r], C, xs[r].T / C)),
      seq(|xs|, r requires 0 <= r < |xs| => RunDecay(xs[r], C, xs[r].T / C)),
      (r, _) => if 0 <= r < |xs| then StageC(xs[r], C, Mat(dOs, r)) else [])
  }

  ghost predicate WorkersOk(xs: seq<Gla>, L: nat, C: nat, dOs: seq<Matrix>, K: nat, h: nat, dv: nat) {
    && 1 <= |xs| == |dOs| && 1 <= K && 0 < C && Config(xs, L, C, K * h, dv)
    && forall r | 0 <= r < |xs| :: IsMatrix(dOs[r], L, dv)
  }

  lemma LocalTotals(xs: seq<Gla>, L: nat, C: nat, dOs: seq<Matrix>, K: nat, h: nat, dv: nat)
    requires WorkersOk(xs, L, C, dOs, K, h, dv)
    ensures var x := Workers(xs, C, dOs, K, h, dv); LocalScans(xs, x.S, x.g)
  {
    hide HoldsLocal, HoldsDecay, ScanState, RunDecay, StageC, IsMatrix;
    var x := Workers(xs, C, dOs, K, h, dv);
    forall r | 0 <= r < |xs| ensures HoldsLocal(xs[r], x.S[r], xs[r].T) && HoldsDecay(xs[r], x.g[r], xs[r].T) {
      ChunksCover(xs[r].T, C);
      ScanHolds(xs[r], C, xs[r].T / C);
    }
  }

  lemma StageCHolds(x: Gla, C: nat, dO: Matrix)
    requires Chunked(x, C)
    ensures HoldsRecvGrad(x, dO, StageC(x, C, dO), x.T)
  {
    hide HoldsRecvGrad, RecomputeTensors, RightRecompute;
    ChunksCover(x.T, C);
    RecomputeRight(x, C);
    RecvSumHolds(x, C, dO, RecomputeTensors(x, C), x.T / C);
  }

  /** The workers' own scans and adjoints are right workers. */
  lemma WorkersRight(xs: seq<Gla>, L: nat, C: nat, dOs: seq<Matrix>, K: nat, h: nat, dv: nat)
    requires WorkersOk(xs, L, C, dOs, K, h, dv)
    ensures RightWorkers(Workers(xs, C, dOs, K, h, dv), xs, L, C, dOs)
  {
    hide LocalScans, HoldsRecvGrad, ScanState, RunDecay, StageC, IsMatrix;
    var x := Workers(xs, C, dOs, K, h, dv);
    LocalTotals(xs, L, C, dOs, K, h, dv);
    forall r, b: Matrix | 0 <= r < x.P ensures HoldsRecvGrad(xs[r], dOs[r], x.recvGrad(r, b), xs[r].T) {
      StageCHolds(xs[r], C, dOs[r]);
      assert Mat(dOs, r) == dOs[r];
    }
  }

  /** What the finished workers differentiate is their slice of the whole. */
  ghost predicate GoldenGradients(xs: seq<Gla>, L: nat, dOs: seq<Matrix>, x: Params, s: seq<Worker>) {
    |s| == |xs| == |dOs| && forall r | 0 <= r < |xs| ::
      LocalIsSlice(xs[r], Flatten(xs, L, x.Dk(), x.dv), r * L, dOs[r], FlattenRows(dOs),
        s[r].srecv, Joined(x, s[r].dS), JoinedV(x, s[r].dgamma))
  }

  /** The backward processes, on every interleaving of their rendezvous: finite,
      never stuck, and at the end every rank's gradients are its slice of the
      golden gradients of the flattened sequence. */
  lemma BackwardRuns(xs: seq<Gla>, L: nat, C: nat, dOs: seq<Matrix>, K: nat, h: nat, dv: nat, acts: seq<Act>)
    requires WorkersOk(xs, L, C, dOs, K, h, dv) && After(Workers(xs, C, dOs, K, h, dv), acts).Some?
    ensures var x := Workers(xs, C, dOs, K, h, dv); var s := After(x, acts).value;
      && |acts| <= |xs| * (4 + 2 * K)
      && ((exists a: Act :: After(x, acts + [a]).Some?) || (Finished(x, s) && GoldenGradients(xs, L, dOs, x, s)))
    ensures var x := Workers(xs, C, dOs, K, h, dv);
      exists all: seq<Act> ::
        acts <= all && After(x, all).Some? && Finished(x, After(x, all).value)
          && GoldenGradients(xs, L, dOs, x, After(x, all).value)
  {
    hide Enabled, After, Finished, RightWorkers, LocalIsSlice, Flatten, FlattenRows, Joined, JoinedV, ScanState,
      RunDecay, StageC, IsMatrix;
    var x := Workers(xs, C, dOs, K, h, dv);
    WorkersRight(xs, L, C, dOs, K, h, dv);
    EveryRunFinishes(x, acts);
    if Finished(x, After(x, acts).value) { FinishedIsGolden(xs, L, C, dOs, K, h, dv, After(x, acts).value); }
    var all: seq<Act> :| acts <= all && After(x, all).Some? && Finished(x, After(x, all).value);
    FinishedIsGolden(xs, L, C, dOs, K, h, dv, After(x, all).value);
  }

  lemma FinishedIsGolden(xs: seq<Gla>, L: nat, C: nat, dOs: seq<Matrix>, K: nat, h: nat, dv: nat, s: seq<Worker>)
    requires WorkersOk(xs, L, C, dOs, K, h, dv) && Finished(Workers(xs, C, dOs, K, h, dv), s)
    ensures GoldenGradients(xs, L, dOs, Workers(xs, C, dOs, K, h, dv), s)
  {
    hide Finished, RightWorkers, LocalIsSlice, Flatten, FlattenRows, Joined, JoinedV, ScanState, RunDecay, StageC,
      IsMatrix;
    var x := Workers(xs, C, dOs, K, h, dv);
    WorkersRight(xs, L, C, dOs, K, h, dv);
    FinishedCount(x, s);
    forall r | 0 <= r < |xs|
      ensures LocalIsSlice(xs[r], Flatten(xs, L, x.Dk(), x.dv), r * L, dOs[r], FlattenRows(dOs),
        s[r].srecv, Joined(x, s[r].dS), JoinedV(x, s[r].dgamma))
    {
      WorkerGradients(x, s, xs, L, C, dOs, r);
    }
  }

  lemma FinishedCount(x: Params, s: seq<Worker>)
    requires Finished(x, s)
    ensures |s| == x.P
  {}

  /** The output that rank r reconstructs is its slice of the golden output. */
  ghost predicate GoldenOutput(xs: seq<Gla>, L: nat, dk: nat, dv: nat, r: int, Srecv: Matrix)
    requires 0 <= r < |xs|
  {
    forall l, j | 0 <= l < L && 0 <= j < dv ::
      Out(xs[r], Srecv, l, j) == Out(Flatten(xs, L, dk, dv), NOTHING, r * L + l, j)
  }

  lemma ReceivedIsGolden(xs: seq<Gla>, L: nat, C: nat, dOs: seq<Matrix>, K: nat, h: nat, dv: nat, r: int)
    requires WorkersOk(xs, L, C, dOs, K, h, dv) && 0 <= r < |xs|
    ensures GoldenOutput(xs, L, K * h, dv, r, Srecv(Workers(xs, C, dOs, K, h, dv), r))
  {
    hide Out, RightState, LocalScans, Flatten, FlattenRows, ScanState, RunDecay, StageC, Embeds, RecvState, RecvGrads,
      StateGradient, DecayGradient, RightAdj, NoGap;
    var x := Workers(xs, C, dOs, K, h, dv);
    LocalTotals(xs, L, C, dOs, K, h, dv);
    StateRight(xs, L, C, K * h, dv, x.S, x.g, r);
    FlattenEmbeds(xs, L, K * h, dv, r);
    forall l, j | 0 <= l < L && 0 <= j < dv
      ensures Out(xs[r], Srecv(x, r), l, j) == Out(Flatten(xs, L, K * h, dv), NOTHING, r * L + l, j)
    {
      SliceOut(xs[r], Flatten(xs, L, K * h, dv), r * L, Srecv(x, r), l, j);
    }
  }

  /** The forward processes, which stop after the forward exchange, on every
      interleaving: finite, never stuck, and every worker that has received its
      boundary reconstructs its slice of the golden output. */
  lemma ForwardRuns(xs: seq<Gla>, L: nat, C: nat, dOs: seq<Matrix>, K: nat, h: nat, dv: nat, acts: seq<Act>)
    requires WorkersOk(xs, L, C, dOs, K, h, dv) && After(Workers(xs, C, dOs, K, h, dv), acts).Some?
    requires StillForward(After(Workers(xs, C, dOs, K, h, dv), acts).value)
    ensures var x := Workers(xs, C, dOs, K, h, dv); var s := After(x, acts).value;
      && |acts| <= |xs| * 2 && |s| == |xs|
      && (forall r | 0 <= r < |xs| && s[r].pc > 0 :: GoldenOutput(xs, L, K * h, dv, r, s[r].srecv))
      && ((exists a: Act :: After(x, acts + [a]).Some? && StillForward(After(x, acts + [a]).value))
          || (forall r | 0 <= r < |xs| :: s[r].pc == 2))
    ensures var x := Workers(xs, C, dOs, K, h, dv);
      exists all: seq<Act> ::
        && acts <= all && After(x, all).Some? && |After(x, all).value| == |xs|
        && forall r | 0 <= r < |xs| ::
          After(x, all).value[r].pc == 2 && GoldenOutput(xs, L, K * h, dv, r, After(x, all).value[r].srecv)
  {
    hide StillForward, After, GoldenOutput, Srecv, ScanState, RunDecay, StageC, IsMatrix, Config;
    var x := Workers(xs, C, dOs, K, h, dv);
    ForwardFinishes(x, acts);
    var s := After(x, acts).value;
    forall r | 0 <= r < |xs| && s[r].pc > 0 ensures GoldenOutput(xs, L, K * h, dv, r, s[r].srecv) {
      ReceivedIsGolden(xs, L, C, dOs, K, h, dv, r);
    }
    var all := ForwardCompletes(x, acts);
    AllStillForward(x, all);
    ForwardFinishes(x, all);
    forall r | 0 <= r < |xs| ensures GoldenOutput(xs, L, K * h, dv, r, After(x, all).value[r].srecv) {
      ReceivedIsGolden(xs, L, C, dOs, K, h, dv, r);
    }
  }

  lemma AllStillForward(x: Params, all: seq<Act>)
    requires After(x, all).Some? && |After(x, all).value| == x.P
    requires forall r | 0 <= r < x.P :: After(x, all).value[r].pc == 2
    ensures StillForward(After(x, all).value)
  {}
}

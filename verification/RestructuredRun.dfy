/** The restructured backward end to end (b4_math_check.py, run): recompute,
    forward ring, grad_o, the fused reverse ring, grad_h. */
module RestructuredRun {
  import opened Tensor
  import opened Gla
  import opened ChunkForward
  import opened ChunkBackward
  import opened AllScan
  import opened Ranks
  import opened Zeco
  import opened KernelBuffers

  // ---------------------------------------------------------------------
  // The fused reverse ring
  // ---------------------------------------------------------------------

  /** The g_out of the standalone AllScan backward: dS_recv shifted down by one rank. */
  function Shifted(dSrecv: seq<Matrix>, dk: nat, dv: nat): seq<Matrix> {
    if dSrecv == [] then [] else dSrecv[1..] + [Zeros(dk, dv)]
  }

  /** The fused message dS_recv[p] + gamma[p] * d[p] is the d[p-1] of the
      standalone backward, so no host-side shift is needed. */
  lemma FusedMessage(dSrecv: seq<Matrix>, g: seq<Vector>, dk: nat, dv: nat, p: int, i: int, j: int)
    requires 0 < p < |dSrecv|
    ensures At(dSrecv[p], i, j) + El(Vec(g, p), i) * ScanAdj(g, Shifted(dSrecv, dk, dv), p, i, j)
         == ScanAdj(g, Shifted(dSrecv, dk, dv), p - 1, i, j)
  {
    hide At, El;
    var gout := Shifted(dSrecv, dk, dv);
    assert Mat(gout, p - 1) == dSrecv[p];
  }

  lemma SourceZero(dSrecv: seq<Matrix>, g: seq<Vector>, dk: nat, dv: nat, i: int, j: int)
    requires 0 < |dSrecv|
    ensures ScanAdj(g, Shifted(dSrecv, dk, dv), |dSrecv| - 1, i, j) == 0.0
  {
    assert Mat(Shifted(dSrecv, dk, dv), |dSrecv| - 1) == Zeros(dk, dv);
  }

  /** dS_recv[p] + d_p * gammas[p] */
  function Message(dSrecv: Matrix, gamma: Vector, d: Matrix, dk: nat, dv: nat): Matrix {
    Tab(dk, dv, (i, j) => At(dSrecv, i, j) + At(d, i, j) * El(gamma, i))
  }

  lemma MessageShape(dSrecv: Matrix, gamma: Vector, d: Matrix, dk: nat, dv: nat)
    ensures IsMatrix(Message(dSrecv, gamma, d, dk, dv), dk, dv)
  {}

  ghost predicate RingHolds(dSrecv: seq<Matrix>, g: seq<Vector>, Srecvs: seq<Matrix>, dk: nat, dv: nat, p: int,
                            d: Matrix, e: Vector)
  {
    && (forall i, j | 0 <= i < dk && 0 <= j < dv :: At(d, i, j) == ScanAdj(g, Shifted(dSrecv, dk, dv), p, i, j))
    && (forall i | 0 <= i < dk :: El(e, i) == if p == 0 then 0.0 else RowDot(d, Mat(Srecvs, p), dv, i))
  }

  /** ring_backward: the source starts from zero, and rank 0 keeps a zero
      gradient for its unused gamma. */
  method RingBackward(dSrecv: seq<Matrix>, g: seq<Vector>, Srecvs: seq<Matrix>, P: nat, dk: nat, dv: nat)
    returns (dStot: seq<Matrix>, dgam: seq<Vector>)
    requires |dSrecv| == |g| == |Srecvs| == P
    ensures |dStot| == |dgam| == P
    ensures forall p | 0 <= p < P :: RingHolds(dSrecv, g, Srecvs, dk, dv, p, dStot[p], dgam[p])
    ensures forall p | 0 <= p < P :: IsMatrix(dStot[p], dk, dv) && |dgam[p]| == dk
  {
    hide At, El, ScanAdj, Shifted, RowDot, Message;
    var zero, none := Zeros(dk, dv), TabV(dk, _ => 0.0);
    dStot, dgam := seq(P, _ => zero), seq(P, _ => none);
    var msg := zero;
    var p := P;
    while p > 0
      invariant 0 <= p <= P && |dStot| == |dgam| == P && IsMatrix(msg, dk, dv)
      invariant forall r | 0 <= r < P :: IsMatrix(dStot[r], dk, dv) && |dgam[r]| == dk
      invariant 0 < p < P ==> Arrives(dSrecv, g, dk, dv, p - 1, msg)
      invariant forall r | p <= r < P :: RingHolds(dSrecv, g, Srecvs, dk, dv, r, dStot[r], dgam[r])
    {
      p := p - 1;
      var d := if p == P - 1 then zero else msg;
      var e := if p == P - 1 || p == 0 then none else TabV(dk, i => RowDot(d, Srecvs[p], dv, i));
      RankHolds(dSrecv, g, Srecvs, dk, dv, p, d, e);
      dStot, dgam := dStot[p := d], dgam[p := e];
      if p > 0 {
        MessageArrives(dSrecv, g, Srecvs, dk, dv, p, d, e);
        MessageShape(dSrecv[p], g[p], d, dk, dv);
        msg := Message(dSrecv[p], g[p], d, dk, dv);
      }
    }
  }

  ghost predicate Arrives(dSrecv: seq<Matrix>, g: seq<Vector>, dk: nat, dv: nat, p: int, msg: Matrix) {
    forall i, j | 0 <= i < dk && 0 <= j < dv :: At(msg, i, j) == ScanAdj(g, Shifted(dSrecv, dk, dv), p, i, j)
  }

  lemma MessageArrives(dSrecv: seq<Matrix>, g: seq<Vector>, Srecvs: seq<Matrix>, dk: nat, dv: nat, p: int, d: Matrix,
                       e: Vector)
    requires 0 < p < |dSrecv| == |g| && RingHolds(dSrecv, g, Srecvs, dk, dv, p, d, e)
    ensures Arrives(dSrecv, g, dk, dv, p - 1, Message(dSrecv[p], g[p], d, dk, dv))
  {
    hide At, El, ScanAdj, Shifted;
    forall i, j | 0 <= i < dk && 0 <= j < dv
      ensures At(Message(dSrecv[p], g[p], d, dk, dv), i, j) == ScanAdj(g, Shifted(dSrecv, dk, dv), p - 1, i, j)
    {
      FusedMessage(dSrecv, g, dk, dv, p, i, j);
    }
  }

  lemma RankHolds(dSrecv: seq<Matrix>, g: seq<Vector>, Srecvs: seq<Matrix>, dk: nat, dv: nat, p: int, d: Matrix,
                  e: Vector)
    requires 0 <= p < |dSrecv| == |Srecvs|
    requires if p == |dSrecv| - 1 then d == Zeros(dk, dv) else Arrives(dSrecv, g, dk, dv, p, d)
    requires forall i | 0 <= i < dk ::
      El(e, i) == if p == |dSrecv| - 1 || p == 0 then 0.0 else RowDot(d, Srecvs[p], dv, i)
    ensures RingHolds(dSrecv, g, Srecvs, dk, dv, p, d, e)
  {
    hide El, ScanAdj, Shifted;
    if p == |dSrecv| - 1 {
      forall i, j | 0 <= i < dk && 0 <= j < dv ensures At(d, i, j) == ScanAdj(g, Shifted(dSrecv, dk, dv), p, i, j) {
        SourceZero(dSrecv, g, dk, dv, i, j);
      }
      forall i | 0 <= i < dk ensures RowDot(d, Mat(Srecvs, p), dv, i) == 0.0 {
        SumZero(0, dv, j => At(d, i, j) * At(Mat(Srecvs, p), i, j));
      }
    }
  }

  /** Against the rank's own received boundary, the fused ring gives the
      dgamma of the standalone backward. */
  lemma FusedGamma(dSrecv: seq<Matrix>, g: seq<Vector>, Srecvs: seq<Matrix>, outs: seq<Matrix>, dk: nat, dv: nat,
                   p: int, d: Matrix, e: Vector, i: int)
    requires 0 <= p < |dSrecv| == |Srecvs| == |outs| && ReceivedFrom(outs, Srecvs, |outs|) && 0 <= i < dk
    requires RingHolds(dSrecv, g, Srecvs, dk, dv, p, d, e)
    ensures El(e, i) == GammaGrad(g, outs, Shifted(dSrecv, dk, dv), dv, p, i)
  {
    hide At, El, ScanAdj, Shifted;
    if 0 < p {
      assert Mat(outs, p - 1) == Srecvs[p];
      SumExt(0, dv, j => At(d, i, j) * At(Mat(Srecvs, p), i, j),
        j => ScanAdj(g, Shifted(dSrecv, dk, dv), p, i, j) * At(Mat(outs, p - 1), i, j));
    }
  }

  // ---------------------------------------------------------------------
  // The five phases
  // ---------------------------------------------------------------------

  datatype Snaps = Snaps(S: array2<real>, c: array2<real>)

  /** A[p].prod(dim=0) */
  method GateProduct(x: Gla) returns (g: Vector)
    ensures HoldsDecay(x, g, x.T)
  {
    hide El, Gla.a;
    g := TabV(x.dk, _ => 1.0);
    for t := 0 to x.T
      invariant |g| == x.dk && forall i | 0 <= i < x.dk :: El(g, i) == Decay(x, 0, t, i)
    {
      g := TabV(x.dk, i => x.a(t, i) * El(g, i));
    }
  }

  method Phase1(xs: seq<Gla>, L: nat, C: nat, dk: nat, dv: nat)
    returns (snaps: seq<Snaps>, S: seq<Matrix>, g: seq<Vector>)
    requires Config(xs, L, C, dk, dv)
    ensures LocalScans(xs, S, g) && |snaps| == |xs|
    ensures forall p | 0 <= p < |xs| ::
      fresh(snaps[p].S) && fresh(snaps[p].c) && SnapshotsIn(xs[p], C, snaps[p].S, snaps[p].c, xs[p].T / C)
  {
    hide RecomputeIs, SnapshotsIn, HoldsLocal, HoldsDecay;
    snaps, S, g := [], [], [];
    for p := 0 to |xs|
      invariant |snaps| == |S| == |g| == p
      invariant forall r | 0 <= r < p :: HoldsLocal(xs[r], S[r], xs[r].T) && HoldsDecay(xs[r], g[r], xs[r].T)
      invariant forall r | 0 <= r < p ::
        fresh(snaps[r].S) && fresh(snaps[r].c) && SnapshotsIn(xs[r], C, snaps[r].S, snaps[r].c, xs[r].T / C)
    {
      var Ssnap, Cprev, Stot := KRecompute(xs[p], C);
      var gp := GateProduct(xs[p]);
      snaps, S, g := snaps + [Snaps(Ssnap, Cprev)], S + [Stot], g + [gp];
    }
  }

  /** The forward ring: run_out visits the ranks in order. */
  method Phase2(S: seq<Matrix>, g: seq<Vector>, P: nat, dk: nat, dv: nat)
    returns (Srecvs: seq<Matrix>, ghost outs: seq<Matrix>)
    requires |S| == |g| == P
    ensures |outs| == P && Outputs(S, g, outs, P, dk, dv) && ReceivedFrom(outs, Srecvs, P)
    ensures |Srecvs| == P && (0 < P ==> IsZero(Srecvs[0]))
    ensures forall p, i, j | 0 < p < P && 0 <= i < dk && 0 <= j < dv :: At(Srecvs[p], i, j) == Scan(S, g, p - 1, i, j)
  {
    hide At, El;
    Srecvs, outs := [], [];
    var runOut := Zeros(dk, dv);
    for p := 0 to P
      invariant |Srecvs| == |outs| == p && ReceivedFrom(outs, Srecvs, p) && Outputs(S, g, outs, p, dk, dv)
      invariant if p == 0 then IsZero(runOut) else runOut == outs[p - 1]
    {
      Srecvs := Srecvs + [runOut];
      var next := Tab(dk, dv, (i, j) => At(S[p], i, j) + El(g[p], i) * At(runOut, i, j));
      OutputAdded(S, g, outs, p, dk, dv, runOut, next);
      runOut := next;
      outs := outs + [runOut];
    }
    forall p, i, j | 0 < p < P && 0 <= i < dk && 0 <= j < dv ensures At(Srecvs[p], i, j) == Scan(S, g, p - 1, i, j) {
      assert Mat(outs, p - 1) == Srecvs[p];
    }
  }

  lemma OutputAdded(S: seq<Matrix>, g: seq<Vector>, outs: seq<Matrix>, p: int, dk: nat, dv: nat, prev: Matrix,
                    next: Matrix)
    requires 0 <= p < |S| == |g| && |outs| == p && Outputs(S, g, outs, p, dk, dv)
    requires if p == 0 then IsZero(prev) else prev == outs[p - 1]
    requires forall i, j | 0 <= i < dk && 0 <= j < dv :: At(next, i, j) == At(S[p], i, j) + El(g[p], i) * At(prev, i, j)
    ensures Outputs(S, g, outs + [next], p + 1, dk, dv)
  {
    hide At, El;
    forall r, i, j | 0 <= r < p + 1 && 0 <= i < dk && 0 <= j < dv
      ensures At(Mat(outs + [next], r), i, j) == Scan(S, g, r, i, j)
    {
      if r < p {
        assert Mat(outs + [next], r) == Mat(outs, r);
      } else if 0 < p {
        assert Mat(outs, p - 1) == prev;
      }
    }
  }

  method Phase3(xs: seq<Gla>, L: nat, C: nat, dk: nat, dv: nat, dOs: seq<Matrix>, snaps: seq<Snaps>,
                Srecvs: seq<Matrix>)
    returns (os: seq<OutBuffers>, dSrecv: seq<Matrix>)
    requires Config(xs, L, C, dk, dv) && |dOs| == |snaps| == |Srecvs| == |xs|
    requires forall p | 0 <= p < |xs| :: SnapshotsIn(xs[p], C, snaps[p].S, snaps[p].c, xs[p].T / C)
    ensures RecvGrads(xs, dOs, dSrecv) && |os| == |xs|
    ensures forall p | 0 <= p < |xs| :: fresh(os[p].dQ) && fresh(os[p].dKo) && fresh(os[p].dVo)
    ensures forall p | 0 <= p < |xs| :: fresh(os[p].dgcso) && fresh(os[p].dH) && fresh(os[p].dc)
    ensures forall p | 0 <= p < |xs| :: OutDone(xs[p], C, dOs[p], Srecvs[p], os[p], xs[p].T, xs[p].T / C)
  {
    hide OutputIs, SnapshotsIn, OutDone, HoldsRecvGrad;
    os, dSrecv := [], [];
    for p := 0 to |xs|
      invariant |os| == |dSrecv| == p
      invariant forall r | 0 <= r < p :: HoldsRecvGrad(xs[r], dOs[r], dSrecv[r], xs[r].T)
      invariant forall r | 0 <= r < p :: fresh(os[r].dQ) && fresh(os[r].dKo) && fresh(os[r].dVo)
      invariant forall r | 0 <= r < p :: fresh(os[r].dgcso) && fresh(os[r].dH) && fresh(os[r].dc)
      invariant forall r | 0 <= r < p :: OutDone(xs[r], C, dOs[r], Srecvs[r], os[r], xs[r].T, xs[r].T / C)
    {
      var o, acc := KGradO(xs[p], C, dOs[p], snaps[p].S, snaps[p].c, Srecvs[p]);
      os, dSrecv := os + [o], dSrecv + [acc];
    }
    RecvGradsHold(xs, dOs, dSrecv);
  }

  lemma RecvGradsHold(xs: seq<Gla>, dOs: seq<Matrix>, dSrecv: seq<Matrix>)
    requires |dSrecv| == |dOs| == |xs| && forall r | 0 <= r < |xs| :: HoldsRecvGrad(xs[r], dOs[r], dSrecv[r], xs[r].T)
    ensures RecvGrads(xs, dOs, dSrecv)
  {
    hide Adj, At;
  }

  method Phase4(xs: seq<Gla>, L: nat, C: nat, dk: nat, dv: nat, dOs: seq<Matrix>, ghost S: seq<Matrix>, g: seq<Vector>,
                Srecvs: seq<Matrix>, ghost outs: seq<Matrix>, dSrecv: seq<Matrix>)
    returns (dStot: seq<Matrix>, dgam: seq<Vector>)
    requires Config(xs, L, C, dk, dv) && |dOs| == |Srecvs| == |outs| == |xs| && LocalScans(xs, S, g)
    requires RecvGrads(xs, dOs, dSrecv)
    requires ReceivedFrom(outs, Srecvs, |xs|) && forall p | 0 <= p < |xs| :: IsMatrix(dOs[p], L, dv)
    ensures |dStot| == |dgam| == |xs|
    ensures forall p | 0 <= p < |xs| :: RightAdj(xs[p], Flatten(xs, L, dk, dv), p * L, FlattenRows(dOs), dStot[p])
    ensures forall p | 0 <= p < |xs| :: NoGap(xs[p], Srecvs[p], dStot[p], dgam[p])
  {
    hide RightAdj, NoGap, Flatten, FlattenRows, RingHolds, IsMatrix, ReceivedFrom;
    var P := |xs|;
    dStot, dgam := RingBackward(dSrecv, g, Srecvs, P, dk, dv);
    forall p | 0 <= p < P
      ensures RightAdj(xs[p], Flatten(xs, L, dk, dv), p * L, FlattenRows(dOs), dStot[p])
      ensures NoGap(xs[p], Srecvs[p], dStot[p], dgam[p])
    {
      RingRight(xs, L, C, dk, dv, dOs, S, g, Srecvs, outs, dSrecv, p, dStot[p], dgam[p]);
    }
  }

  lemma RingRight(xs: seq<Gla>, L: nat, C: nat, dk: nat, dv: nat, dOs: seq<Matrix>, S: seq<Matrix>, g: seq<Vector>,
                  Srecvs: seq<Matrix>, outs: seq<Matrix>, dSrecv: seq<Matrix>, p: nat, d: Matrix, e: Vector)
    requires Config(xs, L, C, dk, dv) && |dOs| == |Srecvs| == |outs| == |xs| && LocalScans(xs, S, g)
    requires RecvGrads(xs, dOs, dSrecv)
    requires ReceivedFrom(outs, Srecvs, |xs|) && forall r | 0 <= r < |xs| :: IsMatrix(dOs[r], L, dv)
    requires p < |xs| && RingHolds(dSrecv, g, Srecvs, dk, dv, p, d, e)
    ensures RightAdj(xs[p], Flatten(xs, L, dk, dv), p * L, FlattenRows(dOs), d) && NoGap(xs[p], Srecvs[p], d, e)
  {
    hide RightAdj, NoGap, Flatten, FlattenRows, ScanAdj, GammaGrad, At, El, IsMatrix, ReceivedFrom;
    var gout := Shifted(dSrecv, dk, dv);
    forall i | 0 <= i < dk ensures El(e, i) == GammaGrad(g, outs, gout, dv, p, i) {
      FusedGamma(dSrecv, g, Srecvs, outs, dk, dv, p, d, e, i);
    }
    AdjRight(xs, L, C, dk, dv, dOs, S, g, dSrecv, gout, p, d);
    GapClosed(xs, L, C, dk, dv, g, outs, gout, Srecvs, p, d, e);
  }

  /** grad_h of one rank, and its gradients as a slice of the whole. */
  method FinishRank(xs: seq<Gla>, L: nat, C: nat, dk: nat, dv: nat, ghost dOs: seq<Matrix>, p: nat, snap: Snaps,
                    o: OutBuffers, ghost Srecv: Matrix, dS: Matrix, dg: Vector)
    returns (dK: array2<real>, dV: array2<real>, dA: array2<real>)
    requires p < |xs| == |dOs| && Config(xs, L, C, dk, dv) && forall r | 0 <= r < |xs| :: IsMatrix(dOs[r], L, dv)
    requires SnapshotsIn(xs[p], C, snap.S, snap.c, xs[p].T / C)
    requires OutDone(xs[p], C, dOs[p], Srecv, o, xs[p].T, xs[p].T / C)
    requires RightState(xs[p], Flatten(xs, L, dk, dv), p * L, Srecv)
    requires RightAdj(xs[p], Flatten(xs, L, dk, dv), p * L, FlattenRows(dOs), dS) && NoGap(xs[p], Srecv, dS, dg)
    ensures fresh(dK) && fresh(dV) && fresh(dA)
    ensures SliceQ(Flatten(xs, L, dk, dv), FlattenRows(dOs), L, o.dQ, p * L)
    ensures SliceK(Flatten(xs, L, dk, dv), FlattenRows(dOs), L, dK, p * L)
    ensures SliceV(Flatten(xs, L, dk, dv), FlattenRows(dOs), L, dV, p * L)
    ensures SliceA(Flatten(xs, L, dk, dv), FlattenRows(dOs), L, dA, p * L)
  {
    hide StateIs, SnapshotsIn, RightState, RightAdj, NoGap, Flatten, FlattenRows, SliceQ, SliceK, SliceV, SliceA, GradQ,
      GradK, GradV, GateGrad, DoneKIntra, DoneVIntra, DoneFlow, HandedOn;
    dK, dV, dA := KGradH(xs[p], C, dOs[p], Srecv, snap.S, snap.c, o, dS, dg);
    SlicesRight(xs, L, C, dk, dv, dOs, p, Srecv, dS, dg, o.dQ, dK, dV, dA);
  }

  lemma TotalsCount(xs: seq<Gla>, S: seq<Matrix>, g: seq<Vector>)
    requires LocalScans(xs, S, g)
    ensures |S| == |g| == |xs|
  {}

  /** run: the gradients of the token recurrence over the whole sequence, for
      every number of ranks, one included. */
  method Run(xs: seq<Gla>, L: nat, C: nat, dk: nat, dv: nat, dOs: seq<Matrix>) returns (d: Grads)
    requires Config(xs, L, C, dk, dv) && |dOs| == |xs| && forall p | 0 <= p < |xs| :: IsMatrix(dOs[p], L, dv)
    ensures fresh(d.dQ) && fresh(d.dK) && fresh(d.dV) && fresh(d.dA)
    ensures Whole(Flatten(xs, L, dk, dv), FlattenRows(dOs), |xs|, L, d, |xs|)
  {
    hide SnapshotsIn, OutDone, RightState, RightAdj, NoGap, Flatten, FlattenRows, Whole, LocalScans, RecvGrads, Outputs,
      ReceivedFrom, SliceQ, SliceK, SliceV, SliceA, IsMatrix;
    var P := |xs|;
    var snaps, S, g := Phase1(xs, L, C, dk, dv);
    TotalsCount(xs, S, g);
    var Srecvs, outs := Phase2(S, g, P, dk, dv);
    ReceivedRight(xs, L, C, dk, dv, S, g, outs, Srecvs);
    var os, dSrecv := Phase3(xs, L, C, dk, dv, dOs, snaps, Srecvs);
    var dStot, dgam := Phase4(xs, L, C, dk, dv, dOs, S, g, Srecvs, outs, dSrecv);
    d := Phase5(xs, L, C, dk, dv, dOs, snaps, os, Srecvs, dStot, dgam);
  }

  method FinishRanks(xs: seq<Gla>, L: nat, C: nat, dk: nat, dv: nat, ghost dOs: seq<Matrix>, snaps: seq<Snaps>,
                     os: seq<OutBuffers>, ghost Srecvs: seq<Matrix>, dStot: seq<Matrix>, dgam: seq<Vector>)
    returns (ks: seq<array2<real>>, vs: seq<array2<real>>, gs: seq<array2<real>>)
    requires Config(xs, L, C, dk, dv) && |dOs| == |snaps| == |os| == |Srecvs| == |dStot| == |dgam| == |xs|
    requires forall p | 0 <= p < |xs| :: IsMatrix(dOs[p], L, dv)
    requires forall p | 0 <= p < |xs| :: SnapshotsIn(xs[p], C, snaps[p].S, snaps[p].c, xs[p].T / C)
    requires forall p | 0 <= p < |xs| :: OutDone(xs[p], C, dOs[p], Srecvs[p], os[p], xs[p].T, xs[p].T / C)
    requires forall p | 0 <= p < |xs| :: RightState(xs[p], Flatten(xs, L, dk, dv), p * L, Srecvs[p])
    requires forall p | 0 <= p < |xs| :: RightAdj(xs[p], Flatten(xs, L, dk, dv), p * L, FlattenRows(dOs), dStot[p])
    requires forall p | 0 <= p < |xs| :: NoGap(xs[p], Srecvs[p], dStot[p], dgam[p])
    ensures |ks| == |vs| == |gs| == |xs|
    ensures forall p | 0 <= p < |xs| ::
      RankSlices(Flatten(xs, L, dk, dv), FlattenRows(dOs), L, os[p].dQ, ks[p], vs[p], gs[p], p * L)
  {
    hide SnapshotsIn, OutDone, RightState, RightAdj, NoGap, Flatten, FlattenRows, SliceQ, SliceK, SliceV, SliceA,
      IsMatrix;
    ghost var y, dOy := Flatten(xs, L, dk, dv), FlattenRows(dOs);
    assert forall r | 0 <= r < |xs| :: allocated(os[r].dQ) && allocated(os[r].dKo) && allocated(os[r].dVo);
    assert forall r | 0 <= r < |xs| :: allocated(os[r].dgcso) && allocated(os[r].dH) && allocated(os[r].dc);
    ks, vs, gs := [], [], [];
    for p := 0 to |xs|
      invariant |ks| == |vs| == |gs| == p
      invariant forall r | 0 <= r < p :: allocated(ks[r]) && allocated(vs[r]) && allocated(gs[r])
      invariant forall r | 0 <= r < p :: RankSlices(y, dOy, L, os[r].dQ, ks[r], vs[r], gs[r], r * L)
      invariant forall r | p <= r < |xs| :: SnapshotsIn(xs[r], C, snaps[r].S, snaps[r].c, xs[r].T / C)
      invariant forall r | p <= r < |xs| :: OutDone(xs[r], C, dOs[r], Srecvs[r], os[r], xs[r].T, xs[r].T / C)
    {
      var k, v, a := FinishRank(xs, L, C, dk, dv, dOs, p, snaps[p], os[p], Srecvs[p], dStot[p], dgam[p]);
      ks, vs, gs := ks + [k], vs + [v], gs + [a];
    }
  }

  ghost predicate RankSlices(y: Gla, dO: Matrix, L: nat, q: array2<real>, k: array2<real>, v: array2<real>,
                             a: array2<real>, off: int)
    reads q, k, v, a
  {
    SliceQ(y, dO, L, q, off) && SliceK(y, dO, L, k, off) && SliceV(y, dO, L, v, off) && SliceA(y, dO, L, a, off)
  }

  method Phase5(xs: seq<Gla>, L: nat, C: nat, dk: nat, dv: nat, ghost dOs: seq<Matrix>, snaps: seq<Snaps>,
                os: seq<OutBuffers>, ghost Srecvs: seq<Matrix>, dStot: seq<Matrix>, dgam: seq<Vector>)
    returns (d: Grads)
    requires Config(xs, L, C, dk, dv) && |dOs| == |snaps| == |os| == |Srecvs| == |dStot| == |dgam| == |xs|
    requires forall p | 0 <= p < |xs| :: IsMatrix(dOs[p], L, dv)
    requires forall p | 0 <= p < |xs| :: SnapshotsIn(xs[p], C, snaps[p].S, snaps[p].c, xs[p].T / C)
    requires forall p | 0 <= p < |xs| :: OutDone(xs[p], C, dOs[p], Srecvs[p], os[p], xs[p].T, xs[p].T / C)
    requires forall p | 0 <= p < |xs| :: RightState(xs[p], Flatten(xs, L, dk, dv), p * L, Srecvs[p])
    requires forall p | 0 <= p < |xs| :: RightAdj(xs[p], Flatten(xs, L, dk, dv), p * L, FlattenRows(dOs), dStot[p])
    requires forall p | 0 <= p < |xs| :: NoGap(xs[p], Srecvs[p], dStot[p], dgam[p])
    ensures fresh(d.dQ) && fresh(d.dK) && fresh(d.dV) && fresh(d.dA)
    ensures Whole(Flatten(xs, L, dk, dv), FlattenRows(dOs), |xs|, L, d, |xs|)
  {
    hide SnapshotsIn, OutDone, RightState, RightAdj, NoGap, Flatten, FlattenRows, Whole, SliceQ, SliceK, SliceV, SliceA,
      IsMatrix;
    ghost var y, dOy := Flatten(xs, L, dk, dv), FlattenRows(dOs);
    FlattenSize(xs, L, dk, dv);
    var ks, vs, gs := FinishRanks(xs, L, C, dk, dv, dOs, snaps, os, Srecvs, dStot, dgam);
    d := NewGrads(y, dOy, |xs|, L, dk, dv);
    for p := 0 to |xs|
      invariant Whole(y, dOy, |xs|, L, d, p)
      invariant forall r | p <= r < |xs| :: RankSlices(y, dOy, L, os[r].dQ, ks[r], vs[r], gs[r], r * L)
    {
      PutRank(y, dOy, |xs|, L, d, p, os[p].dQ, ks[p], vs[p], gs[p]);
    }
  }
}

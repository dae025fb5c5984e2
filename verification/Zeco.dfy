/** TorchZeCo: the sequence-parallel operator, forward and backward, composed
    of the per-rank chunk computations and the AllScan of the boundary. */
module Zeco {
  import opened Tensor
  import opened Gla
  import opened ChunkForward
  import opened ChunkBackward
  import opened ChunkGrad
  import opened AllScan
  import opened TorchAllScan
  import opened Ranks

  /** Row p of [P, d], as a value. */
  function RowOf(buf: array2<real>, p: int): (v: Vector)
    requires 0 <= p < buf.Length0
    reads buf
    ensures |v| == buf.Length1
    ensures forall i | 0 <= i < buf.Length1 :: El(v, i) == buf[p, i]
  {
    seq(buf.Length1, i requires 0 <= i < buf.Length1 reads buf => buf[p, i])
  }

  /** dst[p] = src */
  method CopyPlane(src: array2<real>, dst: array3<real>, p: nat)
    requires p < dst.Length0 && src.Length0 == dst.Length1 && src.Length1 == dst.Length2
    modifies dst
    ensures forall r, i, j | 0 <= r < dst.Length0 && 0 <= i < dst.Length1 && 0 <= j < dst.Length2 ::
      dst[r, i, j] == if r == p then src[i, j] else old(dst[r, i, j])
  {
    forall i, j | 0 <= i < dst.Length1 && 0 <= j < dst.Length2 {
      dst[p, i, j] := src[i, j];
    }
  }

  /** What every rank's stage A needs of its slice. */
  ghost predicate Config(xs: seq<Gla>, L: nat, C: nat, dk: nat, dv: nat) {
    Sliced(xs, L, dk, dv) && forall p | 0 <= p < |xs| :: Chunked(xs[p], C)
  }

  /** Stage A of all ranks. */
  datatype Cache = Cache(Sprev: seq<Matrix>, cprev: seq<Vector>, Ointra: array2<real>)

  ghost predicate HoldsCache(x: Gla, C: nat, c: Cache)
    requires 0 < C
    reads c.Ointra
  {
    && Snapshots(x, C, c.Sprev, c.cprev, x.T / C)
    && c.Ointra.Length0 == x.T && c.Ointra.Length1 == x.dv && HoldsIntra(x, C, c.Ointra, x.T)
  }

  method StageA(xs: seq<Gla>, L: nat, C: nat, dk: nat, dv: nat)
    returns (S: seq<Matrix>, g: seq<Vector>, caches: seq<Cache>)
    requires Config(xs, L, C, dk, dv)
    ensures LocalScans(xs, S, g)
    ensures |caches| == |xs| && forall p | 0 <= p < |xs| :: fresh(caches[p].Ointra) && HoldsCache(xs[p], C, caches[p])
  {
    hide Snapshots, HoldsIntra, HoldsLocal, HoldsDecay;
    S, g, caches := [], [], [];
    for p := 0 to |xs|
      invariant |S| == |g| == |caches| == p
      invariant forall r | 0 <= r < p :: HoldsLocal(xs[r], S[r], xs[r].T) && HoldsDecay(xs[r], g[r], xs[r].T)
      invariant forall r | 0 <= r < p :: fresh(caches[r].Ointra) && HoldsCache(xs[r], C, caches[r])
    {
      var Sprev, cprev, Ointra, Stot, gtot := GlaChunkScan(xs[p], C);
      S, g, caches := S + [Stot], g + [gtot], caches + [Cache(Sprev, cprev, Ointra)];
    }
  }

  /** The boundary state that enters each rank: out[p-1], zeros for rank 0. */
  ghost predicate ReceivedFrom(outs: seq<Matrix>, Srecv: seq<Matrix>, P: nat) {
    |Srecv| == |outs| == P
    && forall p | 0 <= p < P :: if p == 0 then IsZero(Srecv[p]) else Srecv[p] == outs[p - 1]
  }

  /** Each rank receives the state of the whole sequence before its slice. */
  lemma ReceivedRight(xs: seq<Gla>, L: nat, C: nat, dk: nat, dv: nat, S: seq<Matrix>, g: seq<Vector>, outs: seq<Matrix>,
                      Srecv: seq<Matrix>)
    requires Config(xs, L, C, dk, dv) && LocalScans(xs, S, g)
    requires |outs| == |xs| && Outputs(S, g, outs, |xs|, dk, dv) && ReceivedFrom(outs, Srecv, |xs|)
    ensures |Srecv| == |xs| && forall p | 0 <= p < |xs| :: RightState(xs[p], Flatten(xs, L, dk, dv), p * L, Srecv[p])
  {
    hide State, Scan, Flatten, At, LocalScans;
    forall p, i, j | 0 <= p < |xs| && 0 <= i < dk && 0 <= j < dv
      ensures At(Srecv[p], i, j) == State(Flatten(xs, L, dk, dv), 0, 0.0, p * L, i, j)
    {
      if p == 0 {
        Edges(Flatten(xs, L, dk, dv), [], 0, 0.0, 0.0, i, j);
      } else {
        BoundaryState(xs, L, dk, dv, S, g, p - 1, i, j);
        assert (p - 1 + 1) * L == p * L && Mat(outs, p - 1) == outs[p - 1];
      }
    }
  }

  /** d holds the gradient of the whole sequence, for the ranks below hi. */
  ghost predicate WholeQ(y: Gla, dO: Matrix, P: nat, L: nat, dQ: array3<real>, hi: int)
    reads dQ
  {
    dQ.Length0 == P && dQ.Length1 == L && dQ.Length2 == y.dk
    && forall p, l, i | 0 <= p < hi && p < P && 0 <= l < L && 0 <= i < y.dk ::
         dQ[p, l, i] == GradQ(y, dO, NOTHING, p * L + l, i)
  }

  ghost predicate SliceQ(y: Gla, dO: Matrix, L: nat, src: array2<real>, off: int)
    reads src
  {
    src.Length0 == L && src.Length1 == y.dk
    && forall l, i | 0 <= l < L && 0 <= i < y.dk :: src[l, i] == GradQ(y, dO, NOTHING, off + l, i)
  }

  method PutQ(ghost y: Gla, ghost dO: Matrix, ghost P: nat, ghost L: nat, src: array2<real>, dQ: array3<real>, p: nat)
    requires p < P && WholeQ(y, dO, P, L, dQ, p) && SliceQ(y, dO, L, src, p * L)
    modifies dQ
    ensures WholeQ(y, dO, P, L, dQ, p + 1)
  {
    hide GradQ;
    CopyPlane(src, dQ, p);
  }

  ghost predicate WholeK(y: Gla, dO: Matrix, P: nat, L: nat, dK: array3<real>, hi: int)
    reads dK
  {
    dK.Length0 == P && dK.Length1 == L && dK.Length2 == y.dk
    && forall p, l, i | 0 <= p < hi && p < P && 0 <= l < L && 0 <= i < y.dk ::
         dK[p, l, i] == GradK(y, dO, NOTHING, p * L + l, i)
  }

  ghost predicate SliceK(y: Gla, dO: Matrix, L: nat, src: array2<real>, off: int)
    reads src
  {
    src.Length0 == L && src.Length1 == y.dk
    && forall l, i | 0 <= l < L && 0 <= i < y.dk :: src[l, i] == GradK(y, dO, NOTHING, off + l, i)
  }

  method PutK(ghost y: Gla, ghost dO: Matrix, ghost P: nat, ghost L: nat, src: array2<real>, dK: array3<real>, p: nat)
    requires p < P && WholeK(y, dO, P, L, dK, p) && SliceK(y, dO, L, src, p * L)
    modifies dK
    ensures WholeK(y, dO, P, L, dK, p + 1)
  {
    hide GradK;
    CopyPlane(src, dK, p);
  }

  ghost predicate WholeV(y: Gla, dO: Matrix, P: nat, L: nat, dV: array3<real>, hi: int)
    reads dV
  {
    dV.Length0 == P && dV.Length1 == L && dV.Length2 == y.dv
    && forall p, l, i | 0 <= p < hi && p < P && 0 <= l < L && 0 <= i < y.dv ::
         dV[p, l, i] == GradV(y, dO, NOTHING, p * L + l, i)
  }

  ghost predicate SliceV(y: Gla, dO: Matrix, L: nat, src: array2<real>, off: int)
    reads src
  {
    src.Length0 == L && src.Length1 == y.dv
    && forall l, i | 0 <= l < L && 0 <= i < y.dv :: src[l, i] == GradV(y, dO, NOTHING, off + l, i)
  }

  method PutV(ghost y: Gla, ghost dO: Matrix, ghost P: nat, ghost L: nat, src: array2<real>, dV: array3<real>, p: nat)
    requires p < P && WholeV(y, dO, P, L, dV, p) && SliceV(y, dO, L, src, p * L)
    modifies dV
    ensures WholeV(y, dO, P, L, dV, p + 1)
  {
    hide GradV;
    CopyPlane(src, dV, p);
  }

  ghost predicate WholeA(y: Gla, dO: Matrix, P: nat, L: nat, dA: array3<real>, hi: int)
    reads dA
  {
    dA.Length0 == P && dA.Length1 == L && dA.Length2 == y.dk
    && forall p, l, i | 0 <= p < hi && p < P && 0 <= l < L && 0 <= i < y.dk ::
         dA[p, l, i] == GradA(y, dO, NOTHING, NOTHING, p * L + l, i)
  }

  ghost predicate SliceA(y: Gla, dO: Matrix, L: nat, src: array2<real>, off: int)
    reads src
  {
    src.Length0 == L && src.Length1 == y.dk
    && forall l, i | 0 <= l < L && 0 <= i < y.dk :: src[l, i] == GradA(y, dO, NOTHING, NOTHING, off + l, i)
  }

  method PutA(ghost y: Gla, ghost dO: Matrix, ghost P: nat, ghost L: nat, src: array2<real>, dA: array3<real>, p: nat)
    requires p < P && WholeA(y, dO, P, L, dA, p) && SliceA(y, dO, L, src, p * L)
    modifies dA
    ensures WholeA(y, dO, P, L, dA, p + 1)
  {
    hide GradA;
    CopyPlane(src, dA, p);
  }

  /** The four gradient buffers of a run, complete for the ranks below hi. */
  datatype Grads = Grads(dQ: array3<real>, dK: array3<real>, dV: array3<real>, dA: array3<real>)

  ghost predicate Whole(y: Gla, dO: Matrix, P: nat, L: nat, d: Grads, hi: int)
    reads d.dQ, d.dK, d.dV, d.dA
  {
    && d.dQ != d.dK && d.dQ != d.dV && d.dQ != d.dA && d.dK != d.dV && d.dK != d.dA && d.dV != d.dA
    && WholeQ(y, dO, P, L, d.dQ, hi) && WholeK(y, dO, P, L, d.dK, hi) && WholeV(y, dO, P, L, d.dV, hi)
    && WholeA(y, dO, P, L, d.dA, hi)
  }

  method NewGrads(ghost y: Gla, ghost dO: Matrix, P: nat, L: nat, dk: nat, dv: nat) returns (d: Grads)
    requires y.dk == dk && y.dv == dv
    ensures fresh(d.dQ) && fresh(d.dK) && fresh(d.dV) && fresh(d.dA) && Whole(y, dO, P, L, d, 0)
  {
    hide GradQ, GradK, GradV, GradA;
    var dQ := new real[P, L, dk]((_, _, _) => 0.0);
    var dK := new real[P, L, dk]((_, _, _) => 0.0);
    var dV := new real[P, L, dv]((_, _, _) => 0.0);
    var dA := new real[P, L, dk]((_, _, _) => 0.0);
    d := Grads(dQ, dK, dV, dA);
  }

  /** d[p] = the gradients of rank p */
  method PutRank(ghost y: Gla, ghost dO: Matrix, ghost P: nat, ghost L: nat, d: Grads, p: nat,
                 q: array2<real>, k: array2<real>, v: array2<real>, a: array2<real>)
    requires p < P && Whole(y, dO, P, L, d, p)
    requires SliceQ(y, dO, L, q, p * L) && SliceK(y, dO, L, k, p * L) && SliceV(y, dO, L, v, p * L)
    requires SliceA(y, dO, L, a, p * L)
    modifies d.dQ, d.dK, d.dV, d.dA
    ensures Whole(y, dO, P, L, d, p + 1)
  {
    hide WholeQ, WholeK, WholeV, WholeA, SliceQ, SliceK, SliceV, SliceA;
    PutQ(y, dO, P, L, q, d.dQ, p);
    PutK(y, dO, P, L, k, d.dK, p);
    PutV(y, dO, P, L, v, d.dV, p);
    PutA(y, dO, P, L, a, d.dA, p);
  }

  class TorchZeCo {
    var P: nat
    var L: nat
    var C: nat
    var dk: nat
    var dv: nat
    var allscan: TorchAllscan

    ghost predicate Valid()
      reads this, allscan
    {
      allscan.P == P && allscan.K == 1
    }

    /** build: the composed AllScan runs with a single pipeline block. */
    constructor (P: nat, L: nat, C: nat, dk: nat, dv: nat)
      ensures Valid() && this.P == P && this.L == L && this.C == C && this.dk == dk && this.dv == dv && fresh(allscan)
    {
      this.P, this.L, this.C, this.dk, this.dv := P, L, C, dk, dv;
      allscan := new TorchAllscan();
      new;
      allscan.Build(dk, dv, 1, P);
    }

    /** AllScan of the local states. */
    method Boundary(S: seq<Matrix>, g: seq<Vector>) returns (outs: seq<Matrix>, Srecv: seq<Matrix>)
      requires Valid() && 0 < P
      ensures |outs| == P && Outputs(S, g, outs, P, dk, dv) && ReceivedFrom(outs, Srecv, P)
    {
      hide Scan;
      var buf := new real[P, dk, dv]((_, _, _) => 0.0);
      allscan.Run(S, g, buf);
      outs, Srecv := [], [];
      for p := 0 to P
        invariant |outs| == |Srecv| == p && ReceivedFrom(outs, Srecv, p) && Outputs(S, g, outs, p, dk, dv)
        invariant forall r, i, j | 0 <= r < P && 0 <= i < dk && 0 <= j < dv :: buf[r, i, j] == Scan(S, g, r, i, j)
      {
        Srecv := Srecv + [if p == 0 then Zeros(dk, dv) else outs[p - 1]];
        outs := outs + [Plane(buf, p)];
      }
    }

    /** forward: the output of the token recurrence over the whole sequence. */
    method Forward(xs: seq<Gla>) returns (O: array3<real>)
      requires Valid() && |xs| == P && Config(xs, L, C, dk, dv)
      ensures fresh(O) && O.Length0 == P && O.Length1 == L && O.Length2 == dv
      ensures forall p, l, j | 0 <= p < P && 0 <= l < L && 0 <= j < dv ::
        O[p, l, j] == Out(Flatten(xs, L, dk, dv), NOTHING, p * L + l, j)
    {
      hide Out, Outputs, Flatten, LocalScans, HoldsCache, ReceivedFrom, RightState;
      var S, g, caches := StageA(xs, L, C, dk, dv);
      var outs, Srecv := Boundary(S, g);
      ReceivedRight(xs, L, C, dk, dv, S, g, outs, Srecv);
      O := new real[P, L, dv]((_, _, _) => 0.0);
      for p := 0 to P
        invariant forall r, l, j | 0 <= r < p && 0 <= l < L && 0 <= j < dv ::
          O[r, l, j] == Out(Flatten(xs, L, dk, dv), NOTHING, r * L + l, j)
        invariant forall r | p <= r < P :: HoldsCache(xs[r], C, caches[r])
      {
        var Op := ForwardRank(xs, p, caches[p], Srecv[p]);
        CopyPlane(Op, O, p);
      }
    }

    method ForwardRank(xs: seq<Gla>, p: nat, c: Cache, Srecv: Matrix) returns (Op: array2<real>)
      requires p < P == |xs| && Config(xs, L, C, dk, dv) && HoldsCache(xs[p], C, c)
      requires RightState(xs[p], Flatten(xs, L, dk, dv), p * L, Srecv)
      ensures fresh(Op) && Op.Length0 == L && Op.Length1 == dv
      ensures forall l, j | 0 <= l < L && 0 <= j < dv :: Op[l, j] == Out(Flatten(xs, L, dk, dv), NOTHING, p * L + l, j)
    {
      hide Out, Flatten, RightState, Snapshots, HoldsIntra, Embeds;
      Op := GlaReconstruct(xs[p], C, c.Sprev, c.cprev, Srecv, c.Ointra);
      FlattenEmbeds(xs, L, dk, dv, p);
      forall l, j | 0 <= l < L && 0 <= j < dv ensures Op[l, j] == Out(Flatten(xs, L, dk, dv), NOTHING, p * L + l, j) {
        SliceOut(xs[p], Flatten(xs, L, dk, dv), p * L, Srecv, l, j);
      }
    }

    /** backward, with gla_chunk_backward as the local adjoint: the gradients
        of the token recurrence over the whole sequence. */
    method Backward(xs: seq<Gla>, dOs: seq<Matrix>)
      returns (d: Grads)
      requires Valid() && |xs| == |dOs| == P && Config(xs, L, C, dk, dv)
      requires forall p | 0 <= p < P :: IsMatrix(dOs[p], L, dv)
      ensures fresh(d.dQ) && fresh(d.dK) && fresh(d.dV) && fresh(d.dA)
      ensures Whole(Flatten(xs, L, dk, dv), FlattenRows(dOs), P, L, d, P)
    {
      hide Whole, Outputs, LocalScans, HoldsCache, ReceivedFrom, RightState, RightAdj, RecvGrads, NoGap, Flatten,
        FlattenRows;
      var S, g, _ := StageA(xs, L, C, dk, dv);
      var outs, Srecv := Boundary(S, g);
      ReceivedRight(xs, L, C, dk, dv, S, g, outs, Srecv);
      var dSrecv := RecvGradients(xs, dOs, Srecv);
      var dS, dg := BoundaryBackward(xs, dOs, S, g, outs, Srecv, dSrecv);
      d := InputGradients(xs, dOs, Srecv, dS, dg);
    }

    /** Phase 3: the input gradients of every rank. */
    method InputGradients(xs: seq<Gla>, dOs: seq<Matrix>, Srecv: seq<Matrix>, dS: seq<Matrix>, dg: seq<Vector>)
      returns (d: Grads)
      requires Valid() && |xs| == |dOs| == |Srecv| == |dS| == |dg| == P && Config(xs, L, C, dk, dv)
      requires forall p | 0 <= p < P :: IsMatrix(dOs[p], L, dv)
      requires forall p | 0 <= p < P :: RightState(xs[p], Flatten(xs, L, dk, dv), p * L, Srecv[p])
      requires forall p | 0 <= p < P :: RightAdj(xs[p], Flatten(xs, L, dk, dv), p * L, FlattenRows(dOs), dS[p])
      requires forall p | 0 <= p < P :: NoGap(xs[p], Srecv[p], dS[p], dg[p])
      ensures fresh(d.dQ) && fresh(d.dK) && fresh(d.dV) && fresh(d.dA)
      ensures Whole(Flatten(xs, L, dk, dv), FlattenRows(dOs), P, L, d, P)
    {
      hide Whole, SliceQ, SliceK, SliceV, SliceA, Config, IsMatrix, FlattenRows, Flatten, RightState, RightAdj, NoGap;
      ghost var y, dOy := Flatten(xs, L, dk, dv), FlattenRows(dOs);
      FlattenSize(xs, L, dk, dv);
      d := NewGrads(y, dOy, P, L, dk, dv);
      for p := 0 to P
        invariant Whole(y, dOy, P, L, d, p)
      {
        var q, k, v, a := BackwardRank(xs, dOs, p, Srecv[p], dS[p], dg[p]);
        PutRank(y, dOy, P, L, d, p, q, k, v, a);
      }
    }

    /** Phase 1: how each rank's outputs depend on its received boundary. */
    method RecvGradients(xs: seq<Gla>, dOs: seq<Matrix>, Srecv: seq<Matrix>) returns (dSrecv: seq<Matrix>)
      requires Valid() && |xs| == |dOs| == |Srecv| == P && Config(xs, L, C, dk, dv)
      ensures RecvGrads(xs, dOs, dSrecv)
    {
      hide Adj;
      dSrecv := [];
      for p := 0 to P
        invariant |dSrecv| == p
        invariant forall r, i, j | 0 <= r < p && 0 <= i < xs[r].dk && 0 <= j < xs[r].dv ::
          At(dSrecv[r], i, j) == Adj(xs[r], dOs[r], xs[r].T, 0.0, 0, i, j)
      {
        var _, _, _, _, d := GlaChunkBackward(xs[p], C, Srecv[p], dOs[p], Zeros(dk, dv), TabV(dk, _ => 0.0));
        dSrecv := dSrecv + [d];
      }
    }

    /** Phase 2: the reverse ring over g_out[p] = dS_recv[p+1]. */
    method BoundaryBackward(xs: seq<Gla>, dOs: seq<Matrix>, S: seq<Matrix>, g: seq<Vector>, outs: seq<Matrix>,
                            Srecv: seq<Matrix>, dSrecv: seq<Matrix>)
      returns (dS: seq<Matrix>, dg: seq<Vector>)
      requires Valid() && |xs| == |dOs| == P && Config(xs, L, C, dk, dv) && LocalScans(xs, S, g)
      requires forall p | 0 <= p < P :: IsMatrix(dOs[p], L, dv)
      requires |outs| == |Srecv| == P && ReceivedFrom(outs, Srecv, P) && RecvGrads(xs, dOs, dSrecv)
      ensures |dS| == |dg| == P
      ensures forall p | 0 <= p < P :: RightAdj(xs[p], Flatten(xs, L, dk, dv), p * L, FlattenRows(dOs), dS[p])
      ensures forall p | 0 <= p < P :: NoGap(xs[p], Srecv[p], dS[p], dg[p])
    {
      hide ScanAdj, GammaGrad, RecvGrads, LocalScans, ReceivedFrom, Flatten, FlattenRows, RightAdj, NoGap;
      RecvCount(xs, dOs, dSrecv);
      var gout := dSrecv[1..] + [Zeros(dk, dv)];
      var dSbuf := new real[P, dk, dv]((_, _, _) => 0.0);
      var dgbuf := new real[P, dk]((_, _) => 0.0);
      allscan.RunBackward(gout, g, outs, dSbuf, dgbuf);
      dS, dg := [], [];
      for p := 0 to P
        invariant |dS| == |dg| == p
        invariant forall r, i, j | 0 <= r < P && 0 <= i < dk && 0 <= j < dv ::
          dSbuf[r, i, j] == ScanAdj(g, gout, r, i, j)
        invariant forall r, i | 0 <= r < P && 0 <= i < dk :: dgbuf[r, i] == GammaGrad(g, outs, gout, dv, r, i)
        invariant forall r | 0 <= r < p :: RightAdj(xs[r], Flatten(xs, L, dk, dv), r * L, FlattenRows(dOs), dS[r])
        invariant forall r | 0 <= r < p :: NoGap(xs[r], Srecv[r], dS[r], dg[r])
      {
        var d, e := Plane(dSbuf, p), RowOf(dgbuf, p);
        AdjRight(xs, L, C, dk, dv, dOs, S, g, dSrecv, gout, p, d);
        GapClosed(xs, L, C, dk, dv, g, outs, gout, Srecv, p, d, e);
        dS, dg := dS + [d], dg + [e];
      }
    }

    /** Phase 3, one rank. */
    method BackwardRank(xs: seq<Gla>, dOs: seq<Matrix>, p: nat, Srecv: Matrix, dS: Matrix, dg: Vector)
      returns (dQ: array2<real>, dK: array2<real>, dV: array2<real>, dA: array2<real>)
      requires p < P == |xs| == |dOs| && Config(xs, L, C, dk, dv)
      requires forall r | 0 <= r < P :: IsMatrix(dOs[r], L, dv)
      requires RightState(xs[p], Flatten(xs, L, dk, dv), p * L, Srecv)
      requires RightAdj(xs[p], Flatten(xs, L, dk, dv), p * L, FlattenRows(dOs), dS) && NoGap(xs[p], Srecv, dS, dg)
      ensures fresh(dQ) && fresh(dK) && fresh(dV) && fresh(dA)
      ensures SliceQ(Flatten(xs, L, dk, dv), FlattenRows(dOs), L, dQ, p * L)
      ensures SliceK(Flatten(xs, L, dk, dv), FlattenRows(dOs), L, dK, p * L)
      ensures SliceV(Flatten(xs, L, dk, dv), FlattenRows(dOs), L, dV, p * L)
      ensures SliceA(Flatten(xs, L, dk, dv), FlattenRows(dOs), L, dA, p * L)
    {
      hide GradQ, GradK, GradV, GradA, GateGrad, Adj, Flatten, FlattenRows, RightState, RightAdj, NoGap, SliceQ, SliceK,
        SliceV, SliceA;
      var dSrecv;
      dQ, dK, dV, dA, dSrecv := GlaChunkBackward(xs[p], C, Srecv, dOs[p], dS, dg);
      SlicesRight(xs, L, C, dk, dv, dOs, p, Srecv, dS, dg, dQ, dK, dV, dA);
    }
  }

  /** The local gradients of one slice of a longer sequence, with boundary
      values S0, E1 and dg, are that slice of the whole gradients. */
  ghost predicate LocalIsSlice(x: Gla, y: Gla, off: int, dO: Matrix, dOy: Matrix, S0: Matrix, E1: Matrix, dg: Vector) {
    && (forall t, i | 0 <= t < x.T && 0 <= i < x.dk :: GradQ(x, dO, S0, t, i) == GradQ(y, dOy, NOTHING, off + t, i))
    && (forall t, i | 0 <= t < x.T && 0 <= i < x.dk :: GradK(x, dO, E1, t, i) == GradK(y, dOy, NOTHING, off + t, i))
    && (forall t, j | 0 <= t < x.T && 0 <= j < x.dv :: GradV(x, dO, E1, t, j) == GradV(y, dOy, NOTHING, off + t, j))
    && (forall t, i | 0 <= t < x.T && 0 <= i < x.dk ::
         GateGrad(x, dO, S0, E1, dg, t, i) == GradA(y, dOy, NOTHING, NOTHING, off + t, i))
  }

  /** With the right boundary on both sides, one rank's gradients are its
      slice of the gradients of the whole sequence. */
  lemma RankIsSlice(xs: seq<Gla>, L: nat, C: nat, dk: nat, dv: nat, dOs: seq<Matrix>, p: nat, Srecv: Matrix, dS: Matrix,
                    dg: Vector)
    requires p < |xs| == |dOs| && Config(xs, L, C, dk, dv)
    requires forall r | 0 <= r < |xs| :: IsMatrix(dOs[r], L, dv)
    requires RightState(xs[p], Flatten(xs, L, dk, dv), p * L, Srecv)
    requires RightAdj(xs[p], Flatten(xs, L, dk, dv), p * L, FlattenRows(dOs), dS) && NoGap(xs[p], Srecv, dS, dg)
    ensures LocalIsSlice(xs[p], Flatten(xs, L, dk, dv), p * L, dOs[p], FlattenRows(dOs), Srecv, dS, dg)
  {
    hide GradQ, GradK, GradV, GradA, GateGrad, Adj, Flatten, FlattenRows, RightState, RightAdj, NoGap, Embeds,
      EmbedsRows;
    var x, y, dOy := xs[p], Flatten(xs, L, dk, dv), FlattenRows(dOs);
    FlattenEmbeds(xs, L, dk, dv, p);
    FlattenEmbedsRows(dOs, L, dv, p);
    forall l, i | 0 <= l < x.T && 0 <= i < x.dk
      ensures GradQ(x, dOs[p], Srecv, l, i) == GradQ(y, dOy, NOTHING, p * L + l, i)
      ensures GradK(x, dOs[p], dS, l, i) == GradK(y, dOy, NOTHING, p * L + l, i)
      ensures GateGrad(x, dOs[p], Srecv, dS, dg, l, i) == GradA(y, dOy, NOTHING, NOTHING, p * L + l, i)
    {
      SliceGradQ(x, y, p * L, dOs[p], dOy, Srecv, l, i);
      SliceGradK(x, y, p * L, dOs[p], dOy, dS, l, i);
      SliceGradA(x, y, p * L, dOs[p], dOy, Srecv, dS, l, i);
      GateExact(x, dOs[p], Srecv, dS, dg, l, i);
    }
    forall l, j | 0 <= l < x.T && 0 <= j < x.dv
      ensures GradV(x, dOs[p], dS, l, j) == GradV(y, dOy, NOTHING, p * L + l, j)
    {
      SliceGradV(x, y, p * L, dOs[p], dOy, dS, l, j);
    }
  }

  /** So are the buffers that hold them. */
  lemma SlicesRight(xs: seq<Gla>, L: nat, C: nat, dk: nat, dv: nat, dOs: seq<Matrix>, p: nat, Srecv: Matrix, dS: Matrix,
                    dg: Vector, dQ: array2<real>, dK: array2<real>, dV: array2<real>, dA: array2<real>)
    requires p < |xs| == |dOs| && Config(xs, L, C, dk, dv)
    requires forall r | 0 <= r < |xs| :: IsMatrix(dOs[r], L, dv)
    requires RightState(xs[p], Flatten(xs, L, dk, dv), p * L, Srecv)
    requires RightAdj(xs[p], Flatten(xs, L, dk, dv), p * L, FlattenRows(dOs), dS) && NoGap(xs[p], Srecv, dS, dg)
    requires dQ.Length0 == dK.Length0 == dV.Length0 == dA.Length0 == L && dQ.Length1 == dK.Length1 == dA.Length1 == dk
    requires dV.Length1 == dv
    requires forall l, i | 0 <= l < L && 0 <= i < dk :: dQ[l, i] == GradQ(xs[p], dOs[p], Srecv, l, i)
    requires forall l, i | 0 <= l < L && 0 <= i < dk :: dK[l, i] == GradK(xs[p], dOs[p], dS, l, i)
    requires forall l, j | 0 <= l < L && 0 <= j < dv :: dV[l, j] == GradV(xs[p], dOs[p], dS, l, j)
    requires forall l, i | 0 <= l < L && 0 <= i < dk :: dA[l, i] == GateGrad(xs[p], dOs[p], Srecv, dS, dg, l, i)
    ensures SliceQ(Flatten(xs, L, dk, dv), FlattenRows(dOs), L, dQ, p * L)
    ensures SliceK(Flatten(xs, L, dk, dv), FlattenRows(dOs), L, dK, p * L)
    ensures SliceV(Flatten(xs, L, dk, dv), FlattenRows(dOs), L, dV, p * L)
    ensures SliceA(Flatten(xs, L, dk, dv), FlattenRows(dOs), L, dA, p * L)
  {
    hide GradQ, GradK, GradV, GradA, GateGrad, Flatten, FlattenRows, RightState, RightAdj, NoGap;
    FlattenSize(xs, L, dk, dv);
    RankIsSlice(xs, L, C, dk, dv, dOs, p, Srecv, dS, dg);
  }

  lemma RecvCount(xs: seq<Gla>, dOs: seq<Matrix>, dSrecv: seq<Matrix>)
    requires RecvGrads(xs, dOs, dSrecv)
    ensures |dSrecv| == |dOs| == |xs|
  {}

  /** The decay gradient a rank gets is the row sum dS_total * S_recv. */
  ghost predicate NoGap(x: Gla, Srecv: Matrix, dS: Matrix, dg: Vector) {
    forall i | 0 <= i < x.dk :: Gap(x, Srecv, dS, dg, i) == 0.0
  }

  /** dA of gla_chunk_backward is the gate gradient of the recurrence that
      enters with S_recv and leaves with dS_total, that is of the whole
      sequence, if and only if dg_total is the row sum dS_total * S_recv. */
  lemma GateExact(x: Gla, dO: Matrix, S0: Matrix, E1: Matrix, dg: Vector, t: int, i: int)
    requires x.GatesNonZero() && 0 <= t < x.T && 0 <= i < x.dk
    ensures GateGrad(x, dO, S0, E1, dg, t, i) == GradA(x, dO, S0, E1, t, i) <==> Gap(x, S0, E1, dg, i) == 0.0
    ensures NoGap(x, S0, E1, dg) ==> GateGrad(x, dO, S0, E1, dg, t, i) == GradA(x, dO, S0, E1, t, i)
  {
    hide GradA, Gap, Decay;
    DecayNonZero(x, 0, x.T, i);
    var d, gap, r := Decay(x, 0, x.T, i), Gap(x, S0, E1, dg, i), Inv(x.a(t, i));
    assert r != 0.0;
    if gap != 0.0 { assert d * gap != 0.0; assert d * gap * r != 0.0; }
  }

  lemma AdjRight(xs: seq<Gla>, L: nat, C: nat, dk: nat, dv: nat, dOs: seq<Matrix>, S: seq<Matrix>, g: seq<Vector>,
                 dSrecv: seq<Matrix>, gout: seq<Matrix>, p: nat, d: Matrix)
    requires Config(xs, L, C, dk, dv) && LocalScans(xs, S, g) && RecvGrads(xs, dOs, dSrecv) && p < |xs| == |dOs|
    requires forall r | 0 <= r < |dOs| :: IsMatrix(dOs[r], L, dv)
    requires gout == dSrecv[1..] + [Zeros(dk, dv)]
    requires forall i, j | 0 <= i < dk && 0 <= j < dv :: At(d, i, j) == ScanAdj(g, gout, p, i, j)
    ensures RightAdj(xs[p], Flatten(xs, L, dk, dv), p * L, FlattenRows(dOs), d)
  {
    hide ScanAdj, Adj, Flatten, FlattenRows, At, LocalScans, RecvGrads;
    RecvCount(xs, dOs, dSrecv);
    ZeroLast(dSrecv, gout, dk, dv);
    FlattenSize(xs, L, dk, dv);
    forall i, j | 0 <= i < dk && 0 <= j < dv
      ensures At(d, i, j) == Adj(Flatten(xs, L, dk, dv), FlattenRows(dOs), |xs| * L, 0.0, p * L + L, i, j)
    {
      BoundaryAdj(xs, L, dk, dv, S, g, dOs, dSrecv, gout, p, i, j);
      assert (p + 1) * L == p * L + L;
    }
  }

  lemma ZeroLast(dSrecv: seq<Matrix>, gout: seq<Matrix>, dk: nat, dv: nat)
    requires 0 < |dSrecv| && gout == dSrecv[1..] + [Zeros(dk, dv)]
    ensures ShiftedDown(dSrecv, gout)
  {
    assert gout[|gout| - 1] == Zeros(dk, dv);
  }

  lemma GapClosed(xs: seq<Gla>, L: nat, C: nat, dk: nat, dv: nat, g: seq<Vector>, outs: seq<Matrix>, gout: seq<Matrix>,
                  Srecv: seq<Matrix>, p: nat, d: Matrix, e: Vector)
    requires Config(xs, L, C, dk, dv) && p < |xs| && |outs| == |xs| && ReceivedFrom(outs, Srecv, |xs|)
    requires forall i, j | 0 <= i < dk && 0 <= j < dv :: At(d, i, j) == ScanAdj(g, gout, p, i, j)
    requires forall i | 0 <= i < dk :: El(e, i) == GammaGrad(g, outs, gout, dv, p, i)
    ensures NoGap(xs[p], Srecv[p], d, e)
  {
    hide ScanAdj, At, El;
    forall i | 0 <= i < dk ensures El(e, i) == RowDot(d, Srecv[p], dv, i) {
      var f := (j: int) => At(d, i, j) * At(Srecv[p], i, j);
      if p == 0 {
        SumZero(0, dv, f);
      } else {
        assert Mat(outs, p - 1) == Srecv[p];
        SumExt(0, dv, f, j => ScanAdj(g, gout, p, i, j) * At(Mat(outs, p - 1), i, j));
      }
    }
  }
}

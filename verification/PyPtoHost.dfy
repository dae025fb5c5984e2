/** The host side of the backward program (impl.py): reused shared buffers,
    staged and zeroed before every dispatch. */
module PyPtoHost {
  import opened Tensor
  import opened AllScan
  import opened Ranks
  import opened MachineSafety
  import MachineLiveness
  import M = Machine
  import opened RingPrograms

  /** out_prev: a zero block, then outs without its last one. */
  function ShiftUp(outs: seq<Matrix>, rows: nat, cols: nat): seq<Matrix>
    requires 0 < |outs|
  {
    [Zeros(rows, cols)] + outs[..|outs| - 1]
  }

  /** A zeroed buffer of B rings, P ranks and K blocks. */
  function ZeroCells(P: nat, B: nat, K: nat, rows: nat, cols: nat): map<M.Cell, Matrix> {
    map b, r, k | 0 <= b < B && 0 <= r < P && 0 <= k < K :: M.Cell(r, b, k) := Zeros(rows, cols)
  }

  /** The interleaving acts takes the dispatched program, on the shifted
      outputs and zeroed buffers, through all its dispatches. */
  predicate RunsThrough(gOut: seq<Matrix>, gammas: seq<Vector>, outs: seq<Matrix>, P: nat, B: nat, K: nat, h: nat,
                        dv: nat, acts: seq<M.Act>)
    requires 0 < h && 0 < |outs|
  {
    var p := Backward(gOut, gammas, ShiftUp(outs, K * h, dv), P, B, K, h, dv);
    M.Finishes(p, M.Initial(p, map[], M.Mem(ZeroCells(P, B, K, h, dv), ZeroCells(P, B, K, h, 1))), acts)
  }

  class PyPtoAllscanBackward {
    const P: nat
    const B: nat
    const K: nat
    const h: nat
    const dv: nat
    var hostGout: seq<Matrix>
    var hostG: seq<Vector>
    var hostOutPrev: seq<Matrix>
    var hostDS: map<M.Cell, Matrix>
    var hostDgamma: map<M.Cell, Matrix>

    ghost predicate Valid()
      reads this
    {
      2 <= P && 1 <= B && 1 <= K && 0 < h && |hostOutPrev| == P
    }

    constructor (P: nat, B: nat, K: nat, h: nat, dv: nat)
      requires 2 <= P && 1 <= B && 1 <= K && 0 < h
      ensures Valid() && this.P == P && this.B == B && this.K == K && this.h == h && this.dv == dv
    {
      this.P, this.B, this.K, this.h, this.dv := P, B, K, h, dv;
      hostGout, hostG, hostDS, hostDgamma := [], [], map[], map[];
      hostOutPrev := seq(P, _ => Zeros(K * h, dv));
    }

    /** _copy_inputs: whatever an earlier call left behind, out_prev[0] is zero
        and out_prev[r] is outs[r-1]. */
    method CopyInputs(gOut: seq<Matrix>, gammas: seq<Vector>, outs: seq<Matrix>)
      requires Valid() && |gOut| == |outs| == P
      modifies this`hostGout, this`hostG, this`hostOutPrev
      ensures Valid() && hostGout == gOut && hostG == gammas
      ensures ShiftedUp(outs, hostOutPrev) && IsZero(hostOutPrev[0]) && hostOutPrev == ShiftUp(outs, K * h, dv)
    {
      hostGout, hostG := gOut, gammas;
      hostOutPrev := seq(P, _ => Zeros(K * h, dv));
      hostOutPrev := hostOutPrev[..1] + outs[..P - 1];
    }

    /** The dispatched program, on the staged buffers. */
    function Program(): M.Program<Matrix>
      reads this
    {
      Backward(hostGout, hostG, hostOutPrev, P, B, K, h, dv)
    }

    /** Zeroed output buffers. */
    method ZeroOutputs()
      modifies this`hostDS, this`hostDgamma
      ensures hostDS == ZeroCells(P, B, K, h, dv) && hostDgamma == ZeroCells(P, B, K, h, 1)
    {
      hostDS := map b, r, k | 0 <= b < B && 0 <= r < P && 0 <= k < K :: M.Cell(r, b, k) := Zeros(h, dv);
      hostDgamma := map b, r, k | 0 <= b < B && 0 <= r < P && 0 <= k < K :: M.Cell(r, b, k) := Zeros(h, 1);
    }

    /** run_backward. The runtime may schedule the dispatches in any way: acts is
        the interleaving it took, and through says whether that one finishes. If
        it does, ring slice 0 holds the gradients of the reference, rank 0's
        dgamma included, whatever the buffers held before. */
    method RunBackward(gOut: seq<Matrix>, gammas: seq<Vector>, outs: seq<Matrix>, acts: seq<M.Act>)
      returns (through: bool, dS: map<M.Cell, Matrix>, dgamma: map<M.Cell, Matrix>)
      requires Valid() && |gOut| == |outs| == P
      modifies this
      ensures through <==> RunsThrough(gOut, gammas, outs, P, B, K, h, dv, acts)
      ensures var p := Backward(gOut, gammas, ShiftUp(outs, K * h, dv), P, B, K, h, dv);
        var s0 := M.Initial(p, map[], M.Mem(ZeroCells(P, B, K, h, dv), ZeroCells(P, B, K, h, 1)));
        through <==> M.After(p, s0, acts).Some? && forall a: M.Act :: M.After(p, s0, acts + [a]).None?
      ensures through ==> forall r, k | 0 <= r < P && 0 <= k < K ::
        BlockHolds(dS, M.Cell(r, 0, k), h, dv, (i, j) => ScanAdj(gammas, gOut, r, k * h + i, j))
      ensures through ==> forall r, i, j | 0 <= r < P && 0 <= i < K * h && 0 <= j < dv ::
        Read(dS, h, r, 0, i, j) == ScanAdj(gammas, gOut, r, i, j)
      ensures through ==> forall r, i | 0 <= r < P && 0 <= i < K * h ::
        Read(dgamma, h, r, 0, i, 0) == GammaGrad(gammas, outs, gOut, dv, r, i)
    {
      hide Read, BlockHolds, ScanAdj, GammaGrad, ShiftedUp, ShiftUp, M.After, M.Initial, M.Shape, M.Complete, Backward;
      CopyInputs(gOut, gammas, outs);
      ZeroOutputs();
      var p := Program();
      ProgramShape(gOut, gammas, hostOutPrev, P, B, K, h, dv);
      ghost var mem0 := M.Mem(hostDS, hostDgamma);
      var end := M.After(p, M.Initial(p, map[], M.Mem(hostDS, hostDgamma)), acts);
      match end
      case None =>
        through, dS, dgamma := false, hostDS, hostDgamma;
      case Some(s) =>
        through := M.Shape(p, s) && M.Complete(p, s);
        if through {
          ThroughDone(gOut, gammas, outs, hostOutPrev, P, B, K, h, dv, map[], mem0, acts);
          ZeroRead(P, B, K, h);
          GammaZero(gammas, outs, gOut, dv);
        }
        ThroughExactly(gOut, gammas, outs, P, B, K, h, dv, acts);
        hostDS, hostDgamma := s.mem.out, s.mem.aux;
        dS, dgamma := hostDS, hostDgamma;
    }
  }

  lemma ProgramShape(gout: seq<Matrix>, g: seq<Vector>, outPrev: seq<Matrix>, P: nat, B: nat, K: nat, h: nat, dv: nat)
    ensures Backward(gout, g, outPrev, P, B, K, h, dv).P == P && Backward(gout, g, outPrev, P, B, K, h, dv).N == B
  {}

  lemma ZeroRead(P: nat, B: nat, K: nat, h: nat)
    requires 0 < h && 1 <= P
    ensures forall b, i | 0 <= b < B && 0 <= i < K * h :: Read(ZeroCells(P, B, K, h, 1), h, 0, b, i, 0) == 0.0
  {
    forall b, i | 0 <= b < B && 0 <= i < K * h ensures Read(ZeroCells(P, B, K, h, 1), h, 0, b, i, 0) == 0.0 {
      RowInBlock(K, h, i);
      assert M.Look(ZeroCells(P, B, K, h, 1), M.Cell(0, b, i / h)) == M.Some(Zeros(h, 1));
    }
  }

  /** Whatever the runtime has done so far, it can go on until it is through, and
      it is through exactly when it cannot go on. */
  lemma ThroughExactly(gOut: seq<Matrix>, gammas: seq<Vector>, outs: seq<Matrix>, P: nat, B: nat, K: nat, h: nat,
                       dv: nat, acts: seq<M.Act>)
    requires 2 <= P == |gOut| == |outs| && 1 <= K && 0 < h
    requires var p := Backward(gOut, gammas, ShiftUp(outs, K * h, dv), P, B, K, h, dv);
      M.After(p, M.Initial(p, map[], M.Mem(ZeroCells(P, B, K, h, dv), ZeroCells(P, B, K, h, 1))), acts).Some?
    ensures var p := Backward(gOut, gammas, ShiftUp(outs, K * h, dv), P, B, K, h, dv);
      var s0 := M.Initial(p, map[], M.Mem(ZeroCells(P, B, K, h, dv), ZeroCells(P, B, K, h, 1)));
      RunsThrough(gOut, gammas, outs, P, B, K, h, dv, acts) <==> forall a: M.Act :: M.After(p, s0, acts + [a]).None?
    ensures exists all: seq<M.Act> :: acts <= all && RunsThrough(gOut, gammas, outs, P, B, K, h, dv, all)
  {
    hide M.After, M.Initial, M.Finishes, Backward, BackwardDone, Invariant, ZeroCells;
    var outPrev, mem := ShiftUp(outs, K * h, dv), M.Mem(ZeroCells(P, B, K, h, dv), ZeroCells(P, B, K, h, 1));
    var p := Backward(gOut, gammas, outPrev, P, B, K, h, dv);
    BackwardRings(gOut, gammas, outs, outPrev, P, B, K, h, dv, map[], mem, acts);
    var all: seq<M.Act> :| acts <= all && M.Finishes(p, M.Initial(p, map[], mem), all);
    assert RunsThrough(gOut, gammas, outs, P, B, K, h, dv, all);
  }

  lemma ThroughDone(gout: seq<Matrix>, g: seq<Vector>, outs: seq<Matrix>, outPrev: seq<Matrix>, P: nat, B: nat, K: nat,
                    h: nat, dv: nat, win: map<M.Cell, Matrix>, mem: M.Mem<Matrix>, acts: seq<M.Act>)
    requires 2 <= P == |gout| == |outs| && 1 <= K && 0 < h && ShiftedUp(outs, outPrev)
    requires var p := Backward(gout, g, outPrev, P, B, K, h, dv); M.Finishes(p, M.Initial(p, win, mem), acts)
    ensures var p := Backward(gout, g, outPrev, P, B, K, h, dv);
      BackwardDone(gout, g, outs, P, B, K, h, dv, mem.aux, M.After(p, M.Initial(p, win, mem), acts).value)
  {
    hide ShiftedUp, BackwardDone, MachineLiveness.Results, Solves, M.After, M.Complete;
    var p, sp := Backward(gout, g, outPrev, P, B, K, h, dv), BackwardSpec(gout, g, outPrev, h, dv);
    BackwardSolves(gout, g, outPrev, P, B, K, h, dv);
    InvAlways(p, sp, win, mem, acts);
    MachineLiveness.CompleteResults(p, sp, mem.aux, M.After(p, M.Initial(p, win, mem), acts).value);
    BackwardRead(gout, g, outs, outPrev, P, B, K, h, dv, mem.aux, M.After(p, M.Initial(p, win, mem), acts).value);
  }

  /** After any run that is through, rank 0's dgamma is the reference zero if
      and only if the host's buffer was zero there before it. */
  lemma HostMustZero(gout: seq<Matrix>, g: seq<Vector>, outs: seq<Matrix>, outPrev: seq<Matrix>, P: nat, B: nat, K: nat,
                     h: nat, dv: nat, win: map<M.Cell, Matrix>, mem: M.Mem<Matrix>, acts: seq<M.Act>)
    requires 2 <= P == |gout| == |outs| && 1 <= K && 0 < h && ShiftedUp(outs, outPrev)
    requires var p := Backward(gout, g, outPrev, P, B, K, h, dv); M.Finishes(p, M.Initial(p, win, mem), acts)
    ensures var p := Backward(gout, g, outPrev, P, B, K, h, dv);
      var end := M.After(p, M.Initial(p, win, mem), acts).value;
      (forall b, i | 0 <= b < B && 0 <= i < K * h ::
        Read(end.mem.aux, h, 0, b, i, 0) == GammaGrad(g, outs, gout, dv, 0, i))
      <==> (forall b, i | 0 <= b < B && 0 <= i < K * h :: Read(mem.aux, h, 0, b, i, 0) == 0.0)
  {
    hide Read, ScanAdj, M.After, M.Initial, ShiftedUp;
    var p := Backward(gout, g, outPrev, P, B, K, h, dv);
    ThroughDone(gout, g, outs, outPrev, P, B, K, h, dv, win, mem, acts);
    ZeroIffKept(gout, g, outs, P, B, K, h, dv, mem.aux, M.After(p, M.Initial(p, win, mem), acts).value);
  }

  lemma ZeroIffKept(gout: seq<Matrix>, g: seq<Vector>, outs: seq<Matrix>, P: nat, B: nat, K: nat, h: nat, dv: nat,
                    aux0: map<M.Cell, Matrix>, s: M.State<Matrix>)
    requires 0 < h && BackwardDone(gout, g, outs, P, B, K, h, dv, aux0, s)
    ensures (forall b, i | 0 <= b < B && 0 <= i < K * h ::
      Read(s.mem.aux, h, 0, b, i, 0) == GammaGrad(g, outs, gout, dv, 0, i))
      <==> (forall b, i | 0 <= b < B && 0 <= i < K * h :: Read(aux0, h, 0, b, i, 0) == 0.0)
  {
    hide Read, ScanAdj;
    GammaZero(g, outs, gout, dv);
    if forall b, i | 0 <= b < B && 0 <= i < K * h ::
      Read(s.mem.aux, h, 0, b, i, 0) == GammaGrad(g, outs, gout, dv, 0, i) {
      forall b, i | 0 <= b < B && 0 <= i < K * h ensures Read(aux0, h, 0, b, i, 0) == 0.0 {
        assert Read(s.mem.aux, h, 0, b, i, 0) == Read(aux0, h, 0, b, i, 0);
      }
    }
  }
}

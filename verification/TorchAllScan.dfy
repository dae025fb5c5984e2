/** allscan/common.py's sequential references and the in-process K-blocked ring
    of allscan/implementations/torch_ref.py, writing their outputs in place. */
module TorchAllScan {
  import opened Tensor
  import opened AllScan

  /** Row p of an in-place output, as a value. */
  function Plane(buf: array3<real>, p: int): (m: Matrix)
    requires 0 <= p < buf.Length0
    reads buf
    ensures IsMatrix(m, buf.Length1, buf.Length2)
    ensures forall i, j | 0 <= i < buf.Length1 && 0 <= j < buf.Length2 :: At(m, i, j) == buf[p, i, j]
  {
    seq(buf.Length1, i requires 0 <= i < buf.Length1 reads buf =>
      seq(buf.Length2, j requires 0 <= j < buf.Length2 reads buf => buf[p, i, j]))
  }

  /** The forward ring of one block of rows [lo, hi). */
  method ScanBlock(S: seq<Matrix>, g: seq<Vector>, outs: array3<real>, lo: nat, hi: nat)
    requires 0 < outs.Length0 && lo <= hi <= outs.Length1
    modifies outs
    ensures forall p, i, j | 0 <= p < outs.Length0 && 0 <= i < outs.Length1 && 0 <= j < outs.Length2 ::
      outs[p, i, j] == if lo <= i < hi then Scan(S, g, p, i, j) else old(outs[p, i, j])
  {
    hide At, El, Mat, Vec, Scan;
    forall i, j | lo <= i < hi && 0 <= j < outs.Length2 {
      outs[0, i, j] := At(Mat(S, 0), i, j);
    }
    forall i, j ensures Scan(S, g, 0, i, j) == At(Mat(S, 0), i, j) { ScanFirst(S, g, i, j); }
    for p := 1 to outs.Length0
      invariant forall r, i, j | 0 <= r < outs.Length0 && 0 <= i < outs.Length1 && 0 <= j < outs.Length2 ::
        outs[r, i, j] == if r < p && lo <= i < hi then Scan(S, g, r, i, j) else old(outs[r, i, j])
    {
      forall i, j
        ensures Scan(S, g, p, i, j) == At(Mat(S, p), i, j) + El(Vec(g, p), i) * Scan(S, g, p - 1, i, j)
      {
        ScanStep(S, g, p, i, j);
      }
      forall i, j | lo <= i < hi && 0 <= j < outs.Length2 {
        outs[p, i, j] := At(Mat(S, p), i, j) + El(Vec(g, p), i) * outs[p - 1, i, j];
      }
    }
  }

  /** The reverse ring of one block of rows. */
  method AdjointBlock(g: seq<Vector>, gout: seq<Matrix>, dS: array3<real>, lo: nat, hi: nat)
    requires 0 < dS.Length0 == |gout| && lo <= hi <= dS.Length1
    modifies dS
    ensures forall p, i, j | 0 <= p < dS.Length0 && 0 <= i < dS.Length1 && 0 <= j < dS.Length2 ::
      dS[p, i, j] == if lo <= i < hi then ScanAdj(g, gout, p, i, j) else old(dS[p, i, j])
  {
    hide At, El, Mat, Vec, ScanAdj;
    var P, last := dS.Length0, dS.Length0 - 1;
    forall i, j | lo <= i < hi && 0 <= j < dS.Length2 {
      dS[last, i, j] := At(Mat(gout, last), i, j);
    }
    forall i, j ensures ScanAdj(g, gout, last, i, j) == At(Mat(gout, last), i, j) { AdjLast(g, gout, i, j); }
    for p := last downto 0
      invariant forall r, i, j | 0 <= r < P && 0 <= i < dS.Length1 && 0 <= j < dS.Length2 ::
        dS[r, i, j] == if p <= r && lo <= i < hi then ScanAdj(g, gout, r, i, j) else old(dS[r, i, j])
    {
      forall i, j
        ensures ScanAdj(g, gout, p, i, j)
          == At(Mat(gout, p), i, j) + El(Vec(g, p + 1), i) * ScanAdj(g, gout, p + 1, i, j)
      {
        ScanAdjStep(g, gout, p, i, j);
      }
      forall i, j | lo <= i < hi && 0 <= j < dS.Length2 {
        dS[p, i, j] := At(Mat(gout, p), i, j) + El(Vec(g, p + 1), i) * dS[p + 1, i, j];
      }
    }
  }

  /** dgamma[p, lo:hi] = (dS[p] * outs[p-1]).sum(dim=1) for p >= 1 */
  method GammaBlock(g: seq<Vector>, outs: seq<Matrix>, gout: seq<Matrix>, dS: array3<real>, dgamma: array2<real>,
                    lo: nat, hi: nat)
    requires 0 < dS.Length0 == |gout| == dgamma.Length0 && dS.Length1 == dgamma.Length1 && lo <= hi <= dS.Length1
    requires forall p, i, j | 0 <= p < dS.Length0 && lo <= i < hi && 0 <= j < dS.Length2 ::
      dS[p, i, j] == ScanAdj(g, gout, p, i, j)
    modifies dgamma
    ensures forall p, i | 0 <= p < dgamma.Length0 && 0 <= i < dgamma.Length1 ::
      dgamma[p, i] == if 1 <= p && lo <= i < hi then GammaGrad(g, outs, gout, dS.Length2, p, i) else old(dgamma[p, i])
  {
    hide GammaGrad, RowDot, At, Mat;
    for p := 1 to dS.Length0
      invariant forall r, i | 0 <= r < dgamma.Length0 && 0 <= i < dgamma.Length1 ::
        dgamma[r, i]
          == if 1 <= r < p && lo <= i < hi then GammaGrad(g, outs, gout, dS.Length2, r, i) else old(dgamma[r, i])
    {
      var d := Plane(dS, p);
      forall i | lo <= i < hi
        ensures RowDot(d, Mat(outs, p - 1), dS.Length2, i) == GammaGrad(g, outs, gout, dS.Length2, p, i)
      {
        RowDotGamma(g, outs, gout, d, dS.Length2, p, i);
      }
      forall i | lo <= i < hi {
        dgamma[p, i] := RowDot(d, Mat(outs, p - 1), dS.Length2, i);
      }
    }
  }

  lemma RowDotGamma(g: seq<Vector>, outs: seq<Matrix>, gout: seq<Matrix>, d: Matrix, dv: int, p: int, i: int)
    requires 0 < p && forall j | 0 <= j < dv :: At(d, i, j) == ScanAdj(g, gout, p, i, j)
    ensures RowDot(d, Mat(outs, p - 1), dv, i) == GammaGrad(g, outs, gout, dv, p, i)
  {
    hide At, ScanAdj, Mat;
    SumExt(0, dv, j => At(d, i, j) * At(Mat(outs, p - 1), i, j),
      j => ScanAdj(g, gout, p, i, j) * At(Mat(outs, p - 1), i, j));
  }

  /** expected_allscan */
  method ExpectedAllscan(S: seq<Matrix>, g: seq<Vector>, dk: nat, dv: nat) returns (out: array3<real>)
    requires 0 < |S|
    ensures fresh(out) && out.Length0 == |S| && out.Length1 == dk && out.Length2 == dv
    ensures forall p, i, j | 0 <= p < |S| && 0 <= i < dk && 0 <= j < dv :: out[p, i, j] == Scan(S, g, p, i, j)
  {
    out := new real[|S|, dk, dv]((_, _, _) => 0.0);
    ScanBlock(S, g, out, 0, dk);
  }

  /** expected_allscan_backward */
  method ExpectedAllscanBackward(g: seq<Vector>, outs: seq<Matrix>, gout: seq<Matrix>, dk: nat, dv: nat)
    returns (dS: array3<real>, dgamma: array2<real>)
    requires 0 < |gout|
    ensures fresh(dS) && dS.Length0 == |gout| && dS.Length1 == dk && dS.Length2 == dv
    ensures fresh(dgamma) && dgamma.Length0 == |gout| && dgamma.Length1 == dk
    ensures forall p, i, j | 0 <= p < |gout| && 0 <= i < dk && 0 <= j < dv :: dS[p, i, j] == ScanAdj(g, gout, p, i, j)
    ensures forall p, i | 0 <= p < |gout| && 0 <= i < dk :: dgamma[p, i] == GammaGrad(g, outs, gout, dv, p, i)
  {
    dS := new real[|gout|, dk, dv]((_, _, _) => 0.0);
    AdjointBlock(g, gout, dS, 0, dk);
    dgamma := new real[|gout|, dk]((_, _) => 0.0);
    GammaBlock(g, outs, gout, dS, dgamma, 0, dk);
  }

  /** Rows that K blocks of dk // K rows cover. */
  function Covered(dk: nat, K: nat): int
    requires 0 < K
  {
    K * (dk / K)
  }

  /** The blocks cover every row exactly when K divides dk. */
  lemma BlocksCover(dk: nat, K: nat)
    requires 0 < K
    ensures 0 <= Covered(dk, K) <= dk < Covered(dk, K) + K
    ensures Covered(dk, K) == dk <==> dk % K == 0
  {
    assert dk == K * (dk / K) + dk % K;
  }

  class TorchAllscan {
    var dk: nat
    var dv: nat
    var K: nat
    var P: nat

    constructor ()
      ensures dk == dv == K == P == 0
    {
      dk, dv, K, P := 0, 0, 0, 0;
    }

    method Build(dk: nat, dv: nat, K: nat, P: nat)
      modifies this
      ensures this.dk == dk && this.dv == dv && this.K == K && this.P == P
    {
      this.dk, this.dv, this.K, this.P := dk, dv, K, P;
    }

    /** run: the rows that the blocks cover become the scan; when K does not
        divide dk the remaining rows are left as they were. */
    method Run(S: seq<Matrix>, g: seq<Vector>, outs: array3<real>)
      requires 0 < K && 0 < P == outs.Length0
      modifies outs
      ensures forall p, i, j | 0 <= p < outs.Length0 && 0 <= i < outs.Length1 && 0 <= j < outs.Length2 ::
        outs[p, i, j] == if i < Covered(outs.Length1, K) then Scan(S, g, p, i, j) else old(outs[p, i, j])
    {
      hide Scan;
      var block := outs.Length1 / K;
      BlocksCover(outs.Length1, K);
      var lo := 0;
      for k := 0 to K
        invariant lo == k * block
        invariant forall p, i, j | 0 <= p < outs.Length0 && 0 <= i < outs.Length1 && 0 <= j < outs.Length2 ::
          outs[p, i, j] == if i < lo then Scan(S, g, p, i, j) else old(outs[p, i, j])
      {
        BlockEnd(outs.Length1, K, k);
        ScanBlock(S, g, outs, lo, lo + block);
        lo := lo + block;
      }
    }

    /** run_backward */
    method RunBackward(gout: seq<Matrix>, g: seq<Vector>, outs: seq<Matrix>, dS: array3<real>, dgamma: array2<real>)
      requires 0 < K && 0 < P == |gout| == dS.Length0 == dgamma.Length0 && dgamma.Length1 == dS.Length1
      modifies dS, dgamma
      ensures forall p, i, j | 0 <= p < dS.Length0 && 0 <= i < dS.Length1 && 0 <= j < dS.Length2 ::
        dS[p, i, j] == if i < Covered(dS.Length1, K) then ScanAdj(g, gout, p, i, j) else old(dS[p, i, j])
      ensures forall p, i | 0 <= p < dgamma.Length0 && 0 <= i < dgamma.Length1 ::
        dgamma[p, i] == if i < Covered(dS.Length1, K) then GammaGrad(g, outs, gout, dS.Length2, p, i) else 0.0
    {
      hide ScanAdj, GammaGrad, AdjointBelow, GammaBelow;
      var block := dS.Length1 / K;
      BlocksCover(dS.Length1, K);
      ghost var was := Planes(dS);
      AdjointStart(g, gout, dS, was);
      ClearGamma(g, outs, gout, dS.Length2, dgamma);
      var lo := 0;
      for k := 0 to K
        invariant lo == k * block && AdjointBelow(g, gout, dS, was, lo)
        invariant GammaBelow(g, outs, gout, dS.Length2, dgamma, lo)
      {
        BlockEnd(dS.Length1, K, k);
        BackwardBlock(g, outs, gout, dS, dgamma, was, lo, lo + block);
        lo := lo + block;
      }
      AdjointEnd(g, gout, dS, was, lo);
      GammaEnd(g, outs, gout, dS.Length2, dgamma, lo);
    }
  }

  ghost function Planes(buf: array3<real>): (ms: seq<Matrix>)
    reads buf
    ensures |ms| == buf.Length0
    ensures forall p, i, j | 0 <= p < buf.Length0 && 0 <= i < buf.Length1 && 0 <= j < buf.Length2 ::
      At(Mat(ms, p), i, j) == buf[p, i, j]
  {
    seq(buf.Length0, p requires 0 <= p < buf.Length0 reads buf => Plane(buf, p))
  }

  /** Rows below lo are the reverse scan, the others as they were. */
  ghost predicate AdjointBelow(g: seq<Vector>, gout: seq<Matrix>, dS: array3<real>, was: seq<Matrix>, lo: int)
    reads dS
  {
    forall p, i, j | 0 <= p < dS.Length0 && 0 <= i < dS.Length1 && 0 <= j < dS.Length2 ::
      dS[p, i, j] == if i < lo then ScanAdj(g, gout, p, i, j) else At(Mat(was, p), i, j)
  }

  ghost predicate GammaBelow(g: seq<Vector>, outs: seq<Matrix>, gout: seq<Matrix>, dv: int, dgamma: array2<real>,
                             lo: int)
    reads dgamma
  {
    forall p, i | 0 <= p < dgamma.Length0 && 0 <= i < dgamma.Length1 ::
      dgamma[p, i] == if i < lo then GammaGrad(g, outs, gout, dv, p, i) else 0.0
  }

  lemma AdjointStart(g: seq<Vector>, gout: seq<Matrix>, dS: array3<real>, was: seq<Matrix>)
    requires was == Planes(dS)
    ensures AdjointBelow(g, gout, dS, was, 0)
  {
    hide At, Mat;
  }

  lemma AdjointEnd(g: seq<Vector>, gout: seq<Matrix>, dS: array3<real>, was: seq<Matrix>, lo: int)
    requires AdjointBelow(g, gout, dS, was, lo)
    ensures forall p, i, j | 0 <= p < dS.Length0 && 0 <= i < dS.Length1 && 0 <= j < dS.Length2 ::
      dS[p, i, j] == if i < lo then ScanAdj(g, gout, p, i, j) else At(Mat(was, p), i, j)
  {}

  lemma GammaEnd(g: seq<Vector>, outs: seq<Matrix>, gout: seq<Matrix>, dv: int, dgamma: array2<real>, lo: int)
    requires GammaBelow(g, outs, gout, dv, dgamma, lo)
    ensures forall p, i | 0 <= p < dgamma.Length0 && 0 <= i < dgamma.Length1 ::
      dgamma[p, i] == if i < lo then GammaGrad(g, outs, gout, dv, p, i) else 0.0
  {}

  /** dgamma.zero_() */
  method ClearGamma(ghost g: seq<Vector>, ghost outs: seq<Matrix>, ghost gout: seq<Matrix>, ghost dv: int,
                    dgamma: array2<real>)
    modifies dgamma
    ensures GammaBelow(g, outs, gout, dv, dgamma, 0)
  {
    hide GammaGrad;
    forall p, i | 0 <= p < dgamma.Length0 && 0 <= i < dgamma.Length1 {
      dgamma[p, i] := 0.0;
    }
  }

  /** One pipeline block of run_backward. */
  method BackwardBlock(g: seq<Vector>, outs: seq<Matrix>, gout: seq<Matrix>, dS: array3<real>, dgamma: array2<real>,
                       ghost was: seq<Matrix>, lo: nat, hi: nat)
    requires 0 < dS.Length0 == |gout| == dgamma.Length0 && dS.Length1 == dgamma.Length1 && lo <= hi <= dS.Length1
    requires AdjointBelow(g, gout, dS, was, lo) && GammaBelow(g, outs, gout, dS.Length2, dgamma, lo)
    modifies dS, dgamma
    ensures AdjointBelow(g, gout, dS, was, hi) && GammaBelow(g, outs, gout, dS.Length2, dgamma, hi)
  {
    hide ScanAdj, GammaGrad, At, Mat;
    GammaZero(g, outs, gout, dS.Length2);
    AdjointBlock(g, gout, dS, lo, hi);
    GammaBlock(g, outs, gout, dS, dgamma, lo, hi);
  }
}

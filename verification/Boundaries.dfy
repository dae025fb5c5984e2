/** The boundary values of a sequence-parallel run, as functions of what the
    local kernels produce: S_recv, dS_total and dgamma of every rank. */
module Boundaries {
  import opened Tensor
  import opened Gla
  import opened AllScan
  import opened Ranks
  import opened Zeco
  import opened RestructuredRun

  /** The total decay of each slice. */
  function Gammas(xs: seq<Gla>): seq<Vector> {
    seq(|xs|, r requires 0 <= r < |xs| => TabV(xs[r].dk, i => Decay(xs[r], 0, xs[r].T, i)))
  }

  /** S_recv of rank r: zeros, or out[r-1] of the forward scan. */
  function RecvState(S: seq<Matrix>, g: seq<Vector>, dk: nat, dv: nat, r: int): Matrix {
    if r <= 0 then Zeros(dk, dv) else Tab(dk, dv, (i, j) => Scan(S, g, r - 1, i, j))
  }

  /** dS_total of rank r: the reverse scan of dS_recv shifted down by one rank. */
  function StateGradient(dSrecv: seq<Matrix>, g: seq<Vector>, dk: nat, dv: nat, r: int): Matrix {
    Tab(dk, dv, (i, j) => ScanAdj(g, Shifted(dSrecv, dk, dv), r, i, j))
  }

  /** dgamma of rank r, against its own received boundary. */
  function DecayGradient(S: seq<Matrix>, dSrecv: seq<Matrix>, g: seq<Vector>, dk: nat, dv: nat, r: int): Vector {
    TabV(dk, i => if r == 0 then 0.0
      else RowDot(StateGradient(dSrecv, g, dk, dv, r), RecvState(S, g, dk, dv, r), dv, i))
  }

  function AllOuts(S: seq<Matrix>, g: seq<Vector>, dk: nat, dv: nat, P: nat): seq<Matrix> {
    seq(P, r => RecvState(S, g, dk, dv, r + 1))
  }

  function AllRecv(S: seq<Matrix>, g: seq<Vector>, dk: nat, dv: nat, P: nat): seq<Matrix> {
    seq(P, r => RecvState(S, g, dk, dv, r))
  }

  lemma OutsHold(S: seq<Matrix>, g: seq<Vector>, dk: nat, dv: nat, P: nat)
    ensures |AllOuts(S, g, dk, dv, P)| == |AllRecv(S, g, dk, dv, P)| == P
    ensures Outputs(S, g, AllOuts(S, g, dk, dv, P), P, dk, dv)
    ensures ReceivedFrom(AllOuts(S, g, dk, dv, P), AllRecv(S, g, dk, dv, P), P)
  {
    hide Scan, At;
    var outs := AllOuts(S, g, dk, dv, P);
    forall p, i, j | 0 <= p < P && 0 <= i < dk && 0 <= j < dv ensures At(Mat(outs, p), i, j) == Scan(S, g, p, i, j) {
      assert Mat(outs, p) == RecvState(S, g, dk, dv, p + 1);
    }
  }

  /** From right local totals and right dS_recv, every rank gets the boundary
      state and the boundary gradients of the whole sequence. */
  lemma BoundariesRight(xs: seq<Gla>, L: nat, C: nat, dk: nat, dv: nat, dOs: seq<Matrix>, S: seq<Matrix>,
                        g: seq<Vector>, dSrecv: seq<Matrix>, r: nat)
    requires Config(xs, L, C, dk, dv) && |dOs| == |xs| && LocalScans(xs, S, g) && RecvGrads(xs, dOs, dSrecv) && r < |xs|
    requires forall p | 0 <= p < |xs| :: IsMatrix(dOs[p], L, dv)
    ensures RightState(xs[r], Flatten(xs, L, dk, dv), r * L, RecvState(S, g, dk, dv, r))
    ensures RightAdj(xs[r], Flatten(xs, L, dk, dv), r * L, FlattenRows(dOs), StateGradient(dSrecv, g, dk, dv, r))
    ensures NoGap(xs[r], RecvState(S, g, dk, dv, r), StateGradient(dSrecv, g, dk, dv, r),
      DecayGradient(S, dSrecv, g, dk, dv, r))
  {
    hide RightState, RightAdj, NoGap, Flatten, FlattenRows, LocalScans, RecvGrads, Outputs, ReceivedFrom, IsMatrix,
      RingHolds, RecvState, AllOuts;
    var P := |xs|;
    var outs, recv := AllOuts(S, g, dk, dv, P), AllRecv(S, g, dk, dv, P);
    OutsHold(S, g, dk, dv, P);
    StateRight(xs, L, C, dk, dv, S, g, r);
    GradientsHold(S, dSrecv, g, dk, dv, P, r);
    RingRight(xs, L, C, dk, dv, dOs, S, g, recv, outs, dSrecv, r, StateGradient(dSrecv, g, dk, dv, r),
      DecayGradient(S, dSrecv, g, dk, dv, r));
    assert recv[r] == RecvState(S, g, dk, dv, r);
  }

  /** The boundary state needs the local totals only. */
  lemma StateRight(xs: seq<Gla>, L: nat, C: nat, dk: nat, dv: nat, S: seq<Matrix>, g: seq<Vector>, r: int)
    requires Config(xs, L, C, dk, dv) && LocalScans(xs, S, g) && 0 <= r < |xs|
    ensures RightState(xs[r], Flatten(xs, L, dk, dv), r * L, RecvState(S, g, dk, dv, r))
  {
    hide RightState, Flatten, LocalScans, Outputs, ReceivedFrom, RecvState, AllOuts;
    var P := |xs|;
    OutsHold(S, g, dk, dv, P);
    ReceivedRight(xs, L, C, dk, dv, S, g, AllOuts(S, g, dk, dv, P), AllRecv(S, g, dk, dv, P));
    assert AllRecv(S, g, dk, dv, P)[r] == RecvState(S, g, dk, dv, r);
  }

  lemma GradientsHold(S: seq<Matrix>, dSrecv: seq<Matrix>, g: seq<Vector>, dk: nat, dv: nat, P: nat, r: nat)
    requires r < P
    ensures RingHolds(dSrecv, g, AllRecv(S, g, dk, dv, P), dk, dv, r, StateGradient(dSrecv, g, dk, dv, r),
      DecayGradient(S, dSrecv, g, dk, dv, r))
  {
    hide El, At, ScanAdj, Shifted, RecvState, RowDot;
    assert Mat(AllRecv(S, g, dk, dv, P), r) == RecvState(S, g, dk, dv, r);
  }

  /** On the last rank nothing flows back, and its dgamma is zero. */
  lemma LastIsZero(S: seq<Matrix>, dSrecv: seq<Matrix>, g: seq<Vector>, dk: nat, dv: nat, i: int)
    requires 0 < |dSrecv| && 0 <= i < dk
    ensures El(DecayGradient(S, dSrecv, g, dk, dv, |dSrecv| - 1), i) == 0.0
  {
    hide At, ScanAdj, Shifted, RecvState, El;
    var r := |dSrecv| - 1;
    var d, s := StateGradient(dSrecv, g, dk, dv, r), RecvState(S, g, dk, dv, r);
    forall j | 0 <= j < dv ensures At(d, i, j) == 0.0 { SourceZero(dSrecv, g, dk, dv, i, j); }
    SumZero(0, dv, j => At(d, i, j) * At(s, i, j));
  }
}

/** The AllScan collective: out[p] = S_local[p] + gamma[p] * out[p-1], its
    reverse-scan backward, and the theorem that the one is the adjoint of the
    other. */
module AllScan {
  import opened Tensor

  function Mat(ms: seq<Matrix>, p: int): Matrix {
    if 0 <= p < |ms| then ms[p] else []
  }

  function Vec(vs: seq<Vector>, p: int): Vector {
    if 0 <= p < |vs| then vs[p] else []
  }

  /** out[p][i, j] */
  function Scan(S: seq<Matrix>, g: seq<Vector>, p: int, i: int, j: int): real
    decreases p
  {
    if p <= 0 then At(Mat(S, 0), i, j) else At(Mat(S, p), i, j) + El(Vec(g, p), i) * Scan(S, g, p - 1, i, j)
  }

  /** d[p][i, j]: the total gradient of out[p]. */
  function ScanAdj(g: seq<Vector>, gout: seq<Matrix>, p: int, i: int, j: int): real
    decreases |gout| - p
  {
    if |gout| - 1 <= p then At(Mat(gout, |gout| - 1), i, j)
    else At(Mat(gout, p), i, j) + El(Vec(g, p + 1), i) * ScanAdj(g, gout, p + 1, i, j)
  }

  /** dgamma[p][i]; zero at rank 0, whose gamma is unused. */
  function GammaGrad(g: seq<Vector>, outs: seq<Matrix>, gout: seq<Matrix>, dv: int, p: int, i: int): real {
    if p <= 0 then 0.0 else Sum(0, dv, j => ScanAdj(g, gout, p, i, j) * At(Mat(outs, p - 1), i, j))
  }

  /** gamma[0] is unused. */
  lemma GammaZero(g: seq<Vector>, outs: seq<Matrix>, gout: seq<Matrix>, dv: int)
    ensures forall i :: GammaGrad(g, outs, gout, dv, 0, i) == 0.0
  {}

  lemma ScanFirst(S: seq<Matrix>, g: seq<Vector>, i: int, j: int)
    ensures Scan(S, g, 0, i, j) == At(Mat(S, 0), i, j)
  {}

  lemma AdjLast(g: seq<Vector>, gout: seq<Matrix>, i: int, j: int)
    ensures ScanAdj(g, gout, |gout| - 1, i, j) == At(Mat(gout, |gout| - 1), i, j)
  {}

  lemma ScanStep(S: seq<Matrix>, g: seq<Vector>, p: int, i: int, j: int)
    requires 0 < p
    ensures Scan(S, g, p, i, j) == At(Mat(S, p), i, j) + El(Vec(g, p), i) * Scan(S, g, p - 1, i, j)
  {}

  lemma ScanAdjStep(g: seq<Vector>, gout: seq<Matrix>, p: int, i: int, j: int)
    requires p < |gout| - 1
    ensures ScanAdj(g, gout, p, i, j) == At(Mat(gout, p), i, j) + El(Vec(g, p + 1), i) * ScanAdj(g, gout, p + 1, i, j)
  {}

  // ---------------------------------------------------------------------
  // The backward is the adjoint of the forward
  // ---------------------------------------------------------------------

  /** Derivative of out[p] along (Sd, gd). */
  function ScanDot(S: seq<Matrix>, g: seq<Vector>, Sd: seq<Matrix>, gd: seq<Vector>, p: int, i: int, j: int): real
    decreases p
  {
    if p <= 0 then At(Mat(Sd, 0), i, j) else
      At(Mat(Sd, p), i, j)
      + (El(Vec(gd, p), i) * Scan(S, g, p - 1, i, j) + El(Vec(g, p), i) * ScanDot(S, g, Sd, gd, p - 1, i, j))
  }

  /** (S, g) of P ranks moved by h along (Sd, gd). */
  function MovedStates(S: seq<Matrix>, Sd: seq<Matrix>, h: real, P: nat, dk: nat, dv: nat): seq<Matrix> {
    seq(P, p => Tab(dk, dv, (i, j) => At(Mat(S, p), i, j) + h * At(Mat(Sd, p), i, j)))
  }

  function MovedGammas(g: seq<Vector>, gd: seq<Vector>, h: real, P: nat, dk: nat): seq<Vector> {
    seq(P, p => TabV(dk, i => El(Vec(g, p), i) + h * El(Vec(gd, p), i)))
  }

  /** What is left of the moved out[p] after its first-order part, over h^2. */
  function ScanRest(S: seq<Matrix>, g: seq<Vector>, Sd: seq<Matrix>, gd: seq<Vector>, h: real, p: int, i: int,
                    j: int): real
    decreases p
  {
    if p <= 0 then 0.0 else
      (El(Vec(g, p), i) + h * El(Vec(gd, p), i)) * ScanRest(S, g, Sd, gd, h, p - 1, i, j)
      + El(Vec(gd, p), i) * ScanDot(S, g, Sd, gd, p - 1, i, j)
  }

  lemma RestStart(S: seq<Matrix>, g: seq<Vector>, Sd: seq<Matrix>, gd: seq<Vector>, h: real, i: int, j: int)
    ensures ScanRest(S, g, Sd, gd, h, 0, i, j) == 0.0
  {}

  lemma RestStep(S: seq<Matrix>, g: seq<Vector>, Sd: seq<Matrix>, gd: seq<Vector>, h: real, p: int, i: int, j: int)
    requires 0 < p
    ensures ScanRest(S, g, Sd, gd, h, p, i, j)
         == (El(Vec(g, p), i) + h * El(Vec(gd, p), i)) * ScanRest(S, g, Sd, gd, h, p - 1, i, j)
          + El(Vec(gd, p), i) * ScanDot(S, g, Sd, gd, p - 1, i, j)
  {
    hide ScanDot, El, Vec;
  }

  lemma MovedAt(S: seq<Matrix>, g: seq<Vector>, Sd: seq<Matrix>, gd: seq<Vector>, h: real, P: nat, dk: nat, dv: nat,
                p: int, i: int, j: int)
    requires 0 <= p < P && 0 <= i < dk && 0 <= j < dv
    ensures At(Mat(MovedStates(S, Sd, h, P, dk, dv), p), i, j) == At(Mat(S, p), i, j) + h * At(Mat(Sd, p), i, j)
    ensures El(Vec(MovedGammas(g, gd, h, P, dk), p), i) == El(Vec(g, p), i) + h * El(Vec(gd, p), i)
  {
    hide At, El;
    assert Mat(MovedStates(S, Sd, h, P, dk, dv), p) == MovedStates(S, Sd, h, P, dk, dv)[p];
    assert Vec(MovedGammas(g, gd, h, P, dk), p) == MovedGammas(g, gd, h, P, dk)[p];
  }

  lemma StartExpands(m: real, md: real, h: real, out: real, s: real, sd: real, r: real)
    requires out == m + h * md && s == m && sd == md && r == 0.0
    ensures Expands(out, h, s, sd, r)
  {}

  /** f == f0 + h * f1 + h^2 * f2 */
  ghost predicate Expands(f: real, h: real, f0: real, f1: real, f2: real) {
    f == f0 + h * f1 + h * h * f2
  }

  lemma StepExpands(m: real, md: real, g: real, gd: real, h: real, s: real, sd: real, r: real, ms: real, mm: real,
                    mg: real, out: real, s1: real, sd1: real, r1: real)
    requires Expands(ms, h, s, sd, r) && mm == m + h * md && mg == g + h * gd && out == mm + mg * ms
    requires s1 == m + g * s && sd1 == md + (gd * s + g * sd) && r1 == (g + h * gd) * r + gd * sd
    ensures Expands(out, h, s1, sd1, r1)
  {}

  lemma ExpansionStarts(S: seq<Matrix>, g: seq<Vector>, Sd: seq<Matrix>, gd: seq<Vector>, h: real,
                        P: nat, dk: nat, dv: nat, i: int, j: int)
    requires 0 < P && 0 <= i < dk && 0 <= j < dv
    ensures Expands(Scan(MovedStates(S, Sd, h, P, dk, dv), MovedGammas(g, gd, h, P, dk), 0, i, j), h,
      Scan(S, g, 0, i, j), ScanDot(S, g, Sd, gd, 0, i, j), ScanRest(S, g, Sd, gd, h, 0, i, j))
  {
    hide *;
    var T, e := MovedStates(S, Sd, h, P, dk, dv), MovedGammas(g, gd, h, P, dk);
    MovedAt(S, g, Sd, gd, h, P, dk, dv, 0, i, j);
    ScanFirst(T, e, i, j);
    ScanFirst(S, g, i, j);
    DotStart(S, g, Sd, gd, i, j);
    RestStart(S, g, Sd, gd, h, i, j);
    StartExpands(At(Mat(S, 0), i, j), At(Mat(Sd, 0), i, j), h, Scan(T, e, 0, i, j), Scan(S, g, 0, i, j),
      ScanDot(S, g, Sd, gd, 0, i, j), ScanRest(S, g, Sd, gd, h, 0, i, j));
  }

  /** ScanDot is the derivative of the scan: the outputs at (S + h Sd, g + h gd)
      are the outputs at (S, g), plus h ScanDot, plus h^2 times a polynomial in h. */
  lemma {:induction false} ScanExpansion(S: seq<Matrix>, g: seq<Vector>, Sd: seq<Matrix>, gd: seq<Vector>, h: real,
                                         P: nat, dk: nat, dv: nat, p: int, i: int, j: int)
    requires 0 <= p < P && 0 <= i < dk && 0 <= j < dv
    ensures Expands(Scan(MovedStates(S, Sd, h, P, dk, dv), MovedGammas(g, gd, h, P, dk), p, i, j), h,
      Scan(S, g, p, i, j), ScanDot(S, g, Sd, gd, p, i, j), ScanRest(S, g, Sd, gd, h, p, i, j))
    decreases p
  {
    hide *;
    var T, e := MovedStates(S, Sd, h, P, dk, dv), MovedGammas(g, gd, h, P, dk);
    MovedAt(S, g, Sd, gd, h, P, dk, dv, p, i, j);
    if 0 < p {
      ScanExpansion(S, g, Sd, gd, h, P, dk, dv, p - 1, i, j);
      RestStep(S, g, Sd, gd, h, p, i, j);
      ScanStep(T, e, p, i, j);
      ScanStep(S, g, p, i, j);
      DotStep(S, g, Sd, gd, p, i, j);
      StepExpands(At(Mat(S, p), i, j), At(Mat(Sd, p), i, j), El(Vec(g, p), i), El(Vec(gd, p), i), h,
        Scan(S, g, p - 1, i, j), ScanDot(S, g, Sd, gd, p - 1, i, j), ScanRest(S, g, Sd, gd, h, p - 1, i, j),
        Scan(T, e, p - 1, i, j), At(Mat(T, p), i, j), El(Vec(e, p), i), Scan(T, e, p, i, j), Scan(S, g, p, i, j),
        ScanDot(S, g, Sd, gd, p, i, j), ScanRest(S, g, Sd, gd, h, p, i, j));
    } else {
      ExpansionStarts(S, g, Sd, gd, h, P, dk, dv, i, j);
    }
  }

  function Gamma0(g: seq<Vector>, gout: seq<Matrix>, S: seq<Matrix>, p: int, i: int, j: int): real {
    if p <= 0 then 0.0 else ScanAdj(g, gout, p, i, j) * Scan(S, g, p - 1, i, j)
  }

  lemma DotStart(S: seq<Matrix>, g: seq<Vector>, Sd: seq<Matrix>, gd: seq<Vector>, i: int, j: int)
    ensures ScanDot(S, g, Sd, gd, 0, i, j) == At(Mat(Sd, 0), i, j)
  {}

  lemma DotStep(S: seq<Matrix>, g: seq<Vector>, Sd: seq<Matrix>, gd: seq<Vector>, p: int, i: int, j: int)
    requires 0 < p
    ensures ScanDot(S, g, Sd, gd, p, i, j) == At(Mat(Sd, p), i, j)
      + (El(Vec(gd, p), i) * Scan(S, g, p - 1, i, j) + El(Vec(g, p), i) * ScanDot(S, g, Sd, gd, p - 1, i, j))
  {}

  /** <g_out[p], outdot[p]> and <dS[p], Sdot[p]> + <dgamma[p], gammadot[p]> */
  function OutPairing(S: seq<Matrix>, g: seq<Vector>, Sd: seq<Matrix>, gd: seq<Vector>, gout: seq<Matrix>, dk: int,
                      dv: int, p: int): real {
    Cells(dk, dv, (i, j) => At(Mat(gout, p), i, j) * ScanDot(S, g, Sd, gd, p, i, j))
  }

  function InPairing(g: seq<Vector>, outs: seq<Matrix>, gout: seq<Matrix>, Sd: seq<Matrix>, gd: seq<Vector>, dk: int,
                     dv: int, p: int): real {
    Cells(dk, dv, (i, j) => ScanAdj(g, gout, p, i, j) * At(Mat(Sd, p), i, j))
    + Sum(0, dk, i => El(Vec(gd, p), i) * GammaGrad(g, outs, gout, dv, p, i))
  }

  /** outs are the forward outputs of (S, g). */
  ghost predicate Outputs(S: seq<Matrix>, g: seq<Vector>, outs: seq<Matrix>, P: int, dk: int, dv: int) {
    forall p, i, j | 0 <= p < P && 0 <= i < dk && 0 <= j < dv :: At(Mat(outs, p), i, j) == Scan(S, g, p, i, j)
  }

  lemma InPairingCells(S: seq<Matrix>, g: seq<Vector>, outs: seq<Matrix>, gout: seq<Matrix>, Sd: seq<Matrix>,
                       gd: seq<Vector>, dk: int, dv: int, p: int)
    requires 0 <= p < |gout| && Outputs(S, g, outs, |gout|, dk, dv)
    ensures InPairing(g, outs, gout, Sd, gd, dk, dv, p)
         == Cells(dk, dv,
           (i, j) => ScanAdj(g, gout, p, i, j) * At(Mat(Sd, p), i, j) + El(Vec(gd, p), i) * Gamma0(g, gout, S, p, i, j))
  {
    hide ScanAdj, Scan, At, El, Mat, Vec, Sum, Cells;
    var local := (i: int, j: int) => ScanAdj(g, gout, p, i, j) * At(Mat(Sd, p), i, j);
    var decay := (i: int, j: int) => El(Vec(gd, p), i) * Gamma0(g, gout, S, p, i, j);
    var both := (i: int, j: int) => ScanAdj(g, gout, p, i, j) * At(Mat(Sd, p), i, j)
      + El(Vec(gd, p), i) * Gamma0(g, gout, S, p, i, j);
    CellsAdd(dk, dv, local, decay, both);
    var row := (i: int) => El(Vec(gd, p), i) * GammaGrad(g, outs, gout, dv, p, i);
    forall i | 0 <= i < dk ensures row(i) == Sum(0, dv, j => decay(i, j)) {
      GammaRow(S, g, outs, gout, gd, dk, dv, p, i, j => decay(i, j));
    }
    CellsByRows(dk, dv, decay, row);
  }

  lemma GammaRow(S: seq<Matrix>, g: seq<Vector>, outs: seq<Matrix>, gout: seq<Matrix>, gd: seq<Vector>, dk: int,
                 dv: int, p: int, i: int, f: int -> real)
    requires 0 <= p < |gout| && Outputs(S, g, outs, |gout|, dk, dv) && 0 <= i < dk
    requires forall j | 0 <= j < dv :: f(j) == El(Vec(gd, p), i) * Gamma0(g, gout, S, p, i, j)
    ensures Sum(0, dv, f) == El(Vec(gd, p), i) * GammaGrad(g, outs, gout, dv, p, i)
  {
    hide ScanAdj, Scan, At, El, Mat, Vec, Sum;
    if p == 0 {
      SumZero(0, dv, f);
    } else {
      var h := (j: int) => ScanAdj(g, gout, p, i, j) * At(Mat(outs, p - 1), i, j);
      forall j | 0 <= j < dv ensures f(j) == El(Vec(gd, p), i) * h(j) {
        assert At(Mat(outs, p - 1), i, j) == Scan(S, g, p - 1, i, j);
      }
      SumScale(0, dv, El(Vec(gd, p), i), h, f);
    }
  }

  /** What the gradient of out[p] delivers along the direction. */
  function Owed(S: seq<Matrix>, g: seq<Vector>, Sd: seq<Matrix>, gd: seq<Vector>, gout: seq<Matrix>, dk: int, dv: int,
                p: int): real {
    Cells(dk, dv, (i, j) => ScanAdj(g, gout, p, i, j) * ScanDot(S, g, Sd, gd, p, i, j))
  }

  lemma OwedCell(o: real, d1: real, g1: real, sd1: real, gd1: real, s: real, sd: real)
    ensures o * sd + d1 * (sd1 + (gd1 * s + g1 * sd)) == (o + g1 * d1) * sd + (d1 * sd1 + gd1 * (d1 * s))
  {}

  /** Rank p pays its own output's share, and the rest moves to rank p + 1. */
  lemma OwedStep(S: seq<Matrix>, g: seq<Vector>, outs: seq<Matrix>, Sd: seq<Matrix>, gd: seq<Vector>, gout: seq<Matrix>,
                 dk: int, dv: int, p: int)
    requires 0 <= p < |gout| - 1 && Outputs(S, g, outs, |gout|, dk, dv)
    ensures OutPairing(S, g, Sd, gd, gout, dk, dv, p) + Owed(S, g, Sd, gd, gout, dk, dv, p + 1)
         == Owed(S, g, Sd, gd, gout, dk, dv, p) + InPairing(g, outs, gout, Sd, gd, dk, dv, p + 1)
  {
    hide ScanAdj, Scan, ScanDot, At, El, Mat, Vec, Cells, InPairing;
    var o := (i: int, j: int) => At(Mat(gout, p), i, j) * ScanDot(S, g, Sd, gd, p, i, j);
    var w1 := (i: int, j: int) => ScanAdj(g, gout, p + 1, i, j) * ScanDot(S, g, Sd, gd, p + 1, i, j);
    var w0 := (i: int, j: int) => ScanAdj(g, gout, p, i, j) * ScanDot(S, g, Sd, gd, p, i, j);
    var inp := (i: int, j: int) => ScanAdj(g, gout, p + 1, i, j) * At(Mat(Sd, p + 1), i, j)
      + El(Vec(gd, p + 1), i) * Gamma0(g, gout, S, p + 1, i, j);
    InPairingCells(S, g, outs, gout, Sd, gd, dk, dv, p + 1);
    forall i, j | 0 <= i < dk && 0 <= j < dv ensures o(i, j) + w1(i, j) == w0(i, j) + inp(i, j) {
      ScanAdjStep(g, gout, p, i, j);
      DotStep(S, g, Sd, gd, p + 1, i, j);
      OwedCell(At(Mat(gout, p), i, j), ScanAdj(g, gout, p + 1, i, j), El(Vec(g, p + 1), i), At(Mat(Sd, p + 1), i, j),
        El(Vec(gd, p + 1), i), Scan(S, g, p, i, j), ScanDot(S, g, Sd, gd, p, i, j));
    }
    CellsBalance(dk, dv, o, w1, w0, inp);
  }

  lemma {:induction false} OwedPrefix(S: seq<Matrix>, g: seq<Vector>, outs: seq<Matrix>, Sd: seq<Matrix>,
                                      gd: seq<Vector>, gout: seq<Matrix>, dk: int, dv: int, p: int)
    requires 0 <= p < |gout| && Outputs(S, g, outs, |gout|, dk, dv)
    ensures Sum(0, p, r => OutPairing(S, g, Sd, gd, gout, dk, dv, r)) + Owed(S, g, Sd, gd, gout, dk, dv, p)
         == Sum(0, p + 1, r => InPairing(g, outs, gout, Sd, gd, dk, dv, r))
    decreases p
  {
    hide OutPairing, InPairing, Outputs, Sum;
    var f := (r: int) => OutPairing(S, g, Sd, gd, gout, dk, dv, r);
    var h := (r: int) => InPairing(g, outs, gout, Sd, gd, dk, dv, r);
    SumLast(0, p + 1, h);
    if p == 0 {
      SumZero(0, 0, f);
      SumZero(0, 0, h);
      OwedStart(S, g, outs, Sd, gd, gout, dk, dv);
    } else {
      SumLast(0, p, f);
      OwedPrefix(S, g, outs, Sd, gd, gout, dk, dv, p - 1);
      OwedStep(S, g, outs, Sd, gd, gout, dk, dv, p - 1);
    }
  }

  lemma OwedStart(S: seq<Matrix>, g: seq<Vector>, outs: seq<Matrix>, Sd: seq<Matrix>, gd: seq<Vector>,
                  gout: seq<Matrix>, dk: int, dv: int)
    requires 0 < |gout| && Outputs(S, g, outs, |gout|, dk, dv)
    ensures Owed(S, g, Sd, gd, gout, dk, dv, 0) == InPairing(g, outs, gout, Sd, gd, dk, dv, 0)
  {
    hide ScanAdj, Scan, At, El, Mat, Vec, Cells, InPairing;
    InPairingCells(S, g, outs, gout, Sd, gd, dk, dv, 0);
    var zero := (i: int, j: int) => 0.0;
    CellsBalance(dk, dv, (i, j) => ScanAdj(g, gout, 0, i, j) * ScanDot(S, g, Sd, gd, 0, i, j), zero,
      (i, j) => ScanAdj(g, gout, 0, i, j) * At(Mat(Sd, 0), i, j)
      + El(Vec(gd, 0), i) * Gamma0(g, gout, S, 0, i, j), zero);
  }

  /** AllScan backward is the adjoint of AllScan. */
  lemma BackwardIsAdjoint(S: seq<Matrix>, g: seq<Vector>, outs: seq<Matrix>, Sd: seq<Matrix>, gd: seq<Vector>,
                          gout: seq<Matrix>, dk: int, dv: int)
    requires 0 < |gout| && Outputs(S, g, outs, |gout|, dk, dv)
    ensures Sum(0, |gout|, p => OutPairing(S, g, Sd, gd, gout, dk, dv, p))
         == Sum(0, |gout|, p => InPairing(g, outs, gout, Sd, gd, dk, dv, p))
  {
    hide OutPairing, InPairing, Outputs, Sum;
    var P := |gout|;
    OwedPrefix(S, g, outs, Sd, gd, gout, dk, dv, P - 1);
    SumLast(0, P, p => OutPairing(S, g, Sd, gd, gout, dk, dv, p));
    OwedEnd(S, g, Sd, gd, gout, dk, dv);
  }

  lemma OwedEnd(S: seq<Matrix>, g: seq<Vector>, Sd: seq<Matrix>, gd: seq<Vector>, gout: seq<Matrix>, dk: int, dv: int)
    requires 0 < |gout|
    ensures Owed(S, g, Sd, gd, gout, dk, dv, |gout| - 1) == OutPairing(S, g, Sd, gd, gout, dk, dv, |gout| - 1)
  {
    hide ScanDot, Cells;
    var P := |gout|;
    var zero := (i: int, j: int) => 0.0;
    CellsBalance(dk, dv, (i, j) => ScanAdj(g, gout, P - 1, i, j) * ScanDot(S, g, Sd, gd, P - 1, i, j), zero,
      (i, j) => At(Mat(gout, P - 1), i, j) * ScanDot(S, g, Sd, gd, P - 1, i, j), zero);
  }
}

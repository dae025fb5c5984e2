/** What gla_chunk_backward computes is the gradient of one device's three
    results: the outputs, the local end state S_total (scanned from zero) and
    the total decay g_total, whatever gradients dO, dS_total and dg_total
    arrive for them. */
module LocalGradient {
  import opened Tensor
  import opened Gla
  import opened ChunkGrad
  import opened ChunkBackward
  import opened Gradient

  // ---------------------------------------------------------------------
  // The total decay along a direction
  // ---------------------------------------------------------------------

  function DecayDot(x: Gla, d: Gla, t: int, i: int): real
    decreases t
  {
    if t <= 0 then 0.0 else DecayDot(x, d, t - 1, i) * x.a(t - 1, i) + Decay(x, 0, t - 1, i) * d.a(t - 1, i)
  }

  function DecayRest(x: Gla, d: Gla, h: real, t: int, i: int): real
    decreases t
  {
    if t <= 0 then 0.0 else
      DecayRest(x, d, h, t - 1, i) * (x.a(t - 1, i) + h * d.a(t - 1, i)) + DecayDot(x, d, t - 1, i) * d.a(t - 1, i)
  }

  lemma DecayDotStep(x: Gla, d: Gla, h: real, t: int, i: int)
    requires 0 < t
    ensures DecayDot(x, d, t, i) == DecayDot(x, d, t - 1, i) * x.a(t - 1, i) + Decay(x, 0, t - 1, i) * d.a(t - 1, i)
    ensures DecayRest(x, d, h, t, i)
         == DecayRest(x, d, h, t - 1, i) * (x.a(t - 1, i) + h * d.a(t - 1, i))
           + DecayDot(x, d, t - 1, i) * d.a(t - 1, i)
  {
    hide Decay, Gla.a;
  }

  lemma DecayDotStart(x: Gla, d: Gla, h: real, i: int)
    ensures DecayDot(x, d, 0, i) == 0.0 && DecayRest(x, d, h, 0, i) == 0.0
  {}

  lemma ProductRest(mg: real, g: real, gd: real, r: real, a: real, da: real, h: real)
    requires mg == g + h * gd + h * h * r
    ensures mg * (a + h * da) == g * a + h * (gd * a + g * da) + h * h * (r * (a + h * da) + gd * da)
  {}

  lemma {:induction false} DecayExpansion(x: Gla, d: Gla, h: real, t: int, i: int)
    requires 0 <= t <= x.T && 0 <= i < x.dk
    ensures Decay(Moved(x, d, h), 0, t, i)
      == Decay(x, 0, t, i) + h * DecayDot(x, d, t, i) + h * h * DecayRest(x, d, h, t, i)
    decreases t
  {
    hide *;
    if 0 < t {
      DecayExpansion(x, d, h, t - 1, i);
      MovedGate(x, d, h, t - 1, i);
      DecayStep(Moved(x, d, h), 0, t, i);
      DecayStep(x, 0, t, i);
      DecayDotStep(x, d, h, t, i);
      ProductRest(Decay(Moved(x, d, h), 0, t - 1, i), Decay(x, 0, t - 1, i), DecayDot(x, d, t - 1, i),
        DecayRest(x, d, h, t - 1, i), x.a(t - 1, i), d.a(t - 1, i), h);
    } else {
      Edges(x, [], 0, 0.0, 0.0, i, 0);
      Edges(Moved(x, d, h), [], 0, 0.0, 0.0, i, 0);
      DecayDotStart(x, d, h, i);
    }
  }

  /** The derivative of the state is affine in the start and its direction. */
  lemma {:induction false} DotAffine(x: Gla, d: Gla, s0: real, s1: real, t: int, i: int, j: int)
    requires 0 <= t
    ensures StateDot(x, d, s0, s1, t, i, j)
         == StateDot(x, d, 0.0, 0.0, t, i, j) + DecayDot(x, d, t, i) * s0 + Decay(x, 0, t, i) * s1
    decreases t
  {
    hide *;
    if 0 < t {
      DotAffine(x, d, s0, s1, t - 1, i, j);
      DotStep(x, d, s0, s1, 0.0, t, i, j);
      DotStep(x, d, 0.0, 0.0, 0.0, t, i, j);
      DecayDotStep(x, d, 0.0, t, i);
      DecayStep(x, 0, t, i);
      StateAffine(x, 0, s0, t - 1, i, j);
      DotAffineStep(x.a(t - 1, i), d.a(t - 1, i), Decay(x, 0, t - 1, i), DecayDot(x, d, t - 1, i), s0, s1,
        State(x, 0, 0.0, t - 1, i, j), StateDot(x, d, 0.0, 0.0, t - 1, i, j));
    } else {
      Edges(x, [], 0, 0.0, 0.0, i, j);
      DotStart(x, d, s0, s1, 0.0, i, j);
      DotStart(x, d, 0.0, 0.0, 0.0, i, j);
      DecayDotStart(x, d, 0.0, i);
    }
  }

  lemma DotAffineStep(a: real, da: real, g: real, gd: real, s0: real, s1: real, s: real, sd: real)
    ensures da * (g * s0 + s) + a * (sd + gd * s0 + g * s1) == da * s + a * sd + (gd * a + g * da) * s0 + g * a * s1
  {}

  /** d (prod a) = sum_t adot_t (prod a) / a_t */
  lemma {:induction false} DecayDotClosed(x: Gla, d: Gla, t: int, i: int)
    requires x.GatesNonZero() && 0 <= t <= x.T && 0 <= i < x.dk
    ensures DecayDot(x, d, t, i) == Sum(0, t, s => d.a(s, i) * Quot(Decay(x, 0, t, i), x.a(s, i)))
    decreases t
  {
    hide Decay, Quot, Gla.a, Sum;
    if 0 < t {
      DecayDotClosed(x, d, t - 1, i);
      DecayDotStep(x, d, 0.0, t, i);
      DecayStep(x, 0, t, i);
      var a := x.a(t - 1, i);
      assert a != 0.0;
      var before := (s: int) => d.a(s, i) * Quot(Decay(x, 0, t - 1, i), x.a(s, i));
      var after := (s: int) => d.a(s, i) * Quot(Decay(x, 0, t, i), x.a(s, i));
      forall s | 0 <= s < t - 1 ensures after(s) == a * before(s) {
        QuotGrows(d.a(s, i), Decay(x, 0, t - 1, i), a, x.a(s, i), Decay(x, 0, t, i), before(s));
      }
      SumScale(0, t - 1, a, before, after);
      QuotBack(Decay(x, 0, t - 1, i), a, Decay(x, 0, t, i));
      SumLast(0, t, after);
    } else {
      DecayDotStart(x, d, 0.0, i);
      SumZero(0, t, s => d.a(s, i) * Quot(Decay(x, 0, t, i), x.a(s, i)));
    }
  }

  lemma QuotGrows(da: real, g: real, a: real, b: real, ga: real, before: real)
    requires ga == g * a && before == da * Quot(g, b)
    ensures da * Quot(ga, b) == a * before
  {
    hide Inv;
  }

  lemma QuotBack(g: real, a: real, ga: real)
    requires a != 0.0 && ga == g * a
    ensures Quot(ga, a) == g
  {
    hide Inv;
    InvCancel(a);
    Assoc(g, a, Inv(a));
  }

  // ---------------------------------------------------------------------
  // The three results, weighted by their gradients
  // ---------------------------------------------------------------------

  /** <dO, O> + <dS_total, S_total> + <dg_total, g_total> */
  function Loss(x: Gla, dO: Matrix, S0: Matrix, E1: Matrix, dg: Vector): real {
    Sum(0, x.T, t => WeightedOuts(x, dO, S0, x.dv, t))
    + Cells(x.dk, x.dv, (i, j) => At(E1, i, j) * State(x, 0, 0.0, x.T, i, j))
    + Sum(0, x.dk, i => El(dg, i) * Decay(x, 0, x.T, i))
  }

  function TotalPairing(x: Gla, d: Gla, E1: Matrix): real {
    Cells(x.dk, x.dv, (i, j) => At(E1, i, j) * StateDot(x, d, 0.0, 0.0, x.T, i, j))
  }

  function DecayPairing(x: Gla, d: Gla, dg: Vector): real {
    Sum(0, x.dk, i => El(dg, i) * DecayDot(x, d, x.T, i))
  }

  function LossDot(x: Gla, d: Gla, dO: Matrix, S0: Matrix, S1: Matrix, E1: Matrix, dg: Vector): real {
    Sum(0, x.T, t => OutPairing(x, d, dO, S0, S1, t)) + TotalPairing(x, d, E1) + DecayPairing(x, d, dg)
  }

  function LossRest(x: Gla, d: Gla, dO: Matrix, S0: Matrix, S1: Matrix, E1: Matrix, dg: Vector, h: real): real {
    Sum(0, x.T, t => WeightedRest(x, d, dO, S0, S1, h, t))
    + Cells(x.dk, x.dv, (i, j) => At(E1, i, j) * StateRest(x, d, 0.0, 0.0, h, x.T, i, j))
    + Sum(0, x.dk, i => El(dg, i) * DecayRest(x, d, h, x.T, i))
  }

  lemma WeightedExpand(w: real, f: real, f0: real, h: real, f1: real, f2: real, wf: real, wf0: real, wf1: real,
                       wf2: real)
    requires f == f0 + h * f1 + h * h * f2
    requires wf == w * f && wf0 == w * f0 && wf1 == w * f1 && wf2 == w * f2
    ensures wf == wf0 + h * wf1 + h * h * wf2
  {}

  lemma TotalCell(x: Gla, d: Gla, w: real, h: real, i: int, j: int, wf: real, wf0: real, wf1: real, wf2: real)
    requires 0 <= i < x.dk && 0 <= j < x.dv
    requires wf == w * State(Moved(x, d, h), 0, 0.0, x.T, i, j) && wf0 == w * State(x, 0, 0.0, x.T, i, j)
    requires wf1 == w * StateDot(x, d, 0.0, 0.0, x.T, i, j) && wf2 == w * StateRest(x, d, 0.0, 0.0, h, x.T, i, j)
    ensures wf == wf0 + h * wf1 + h * h * wf2
  {
    hide *;
    StateExpansion(x, d, 0.0, 0.0, h, 0.0, x.T, i, j);
    WeightedExpand(w, State(Moved(x, d, h), 0, 0.0, x.T, i, j), State(x, 0, 0.0, x.T, i, j), h,
      StateDot(x, d, 0.0, 0.0, x.T, i, j), StateRest(x, d, 0.0, 0.0, h, x.T, i, j), wf, wf0, wf1, wf2);
  }

  lemma DecayCell(x: Gla, d: Gla, w: real, h: real, i: int, wf: real, wf0: real, wf1: real, wf2: real)
    requires 0 <= i < x.dk
    requires wf == w * Decay(Moved(x, d, h), 0, x.T, i) && wf0 == w * Decay(x, 0, x.T, i)
    requires wf1 == w * DecayDot(x, d, x.T, i) && wf2 == w * DecayRest(x, d, h, x.T, i)
    ensures wf == wf0 + h * wf1 + h * h * wf2
  {
    hide *;
    DecayExpansion(x, d, h, x.T, i);
    WeightedExpand(w, Decay(Moved(x, d, h), 0, x.T, i), Decay(x, 0, x.T, i), h, DecayDot(x, d, x.T, i),
      DecayRest(x, d, h, x.T, i), wf, wf0, wf1, wf2);
  }

  lemma OutCell(x: Gla, d: Gla, S0: Matrix, S1: Matrix, w: real, h: real, t: int, j: int, wf: real, wf0: real,
                wf1: real, wf2: real)
    requires 0 <= t < x.T && 0 <= j < x.dv
    requires wf == w * Out(Moved(x, d, h), MovedStart(x, S0, S1, h), t, j) && wf0 == w * Out(x, S0, t, j)
    requires wf1 == w * OutDot(x, d, S0, S1, t, j) && wf2 == w * OutRest(x, d, S0, S1, h, t, j)
    ensures wf == wf0 + h * wf1 + h * h * wf2
  {
    hide *;
    OutExpansion(x, d, S0, S1, h, t, j);
    WeightedExpand(w, Out(Moved(x, d, h), MovedStart(x, S0, S1, h), t, j), Out(x, S0, t, j), h,
      OutDot(x, d, S0, S1, t, j), OutRest(x, d, S0, S1, h, t, j), wf, wf0, wf1, wf2);
  }

  lemma OutRow(x: Gla, d: Gla, dO: Matrix, S0: Matrix, S1: Matrix, h: real, t: int)
    requires 0 <= t < x.T
    ensures Sum(0, x.dv, j => At(dO, t, j) * Out(Moved(x, d, h), MovedStart(x, S0, S1, h), t, j))
         == Sum(0, x.dv, j => At(dO, t, j) * Out(x, S0, t, j))
           + h * Sum(0, x.dv, j => At(dO, t, j) * OutDot(x, d, S0, S1, t, j))
          + h * h * Sum(0, x.dv, j => At(dO, t, j) * OutRest(x, d, S0, S1, h, t, j))
  {
    hide *;
    var g := (j: int) => At(dO, t, j) * Out(Moved(x, d, h), MovedStart(x, S0, S1, h), t, j);
    var g0 := (j: int) => At(dO, t, j) * Out(x, S0, t, j);
    var g1 := (j: int) => At(dO, t, j) * OutDot(x, d, S0, S1, t, j);
    var g2 := (j: int) => At(dO, t, j) * OutRest(x, d, S0, S1, h, t, j);
    forall j | 0 <= j < x.dv ensures g(j) == g0(j) + h * g1(j) + h * h * g2(j) {
      OutCell(x, d, S0, S1, At(dO, t, j), h, t, j, g(j), g0(j), g1(j), g2(j));
    }
    SumExpand(x.dv, g, g0, h, g1, h * h, g2);
  }

  function WeightedOuts(x: Gla, dO: Matrix, S0: Matrix, n: int, t: int): real {
    Sum(0, n, j => At(dO, t, j) * Out(x, S0, t, j))
  }

  function WeightedRest(x: Gla, d: Gla, dO: Matrix, S0: Matrix, S1: Matrix, h: real, t: int): real {
    Sum(0, x.dv, j => At(dO, t, j) * OutRest(x, d, S0, S1, h, t, j))
  }

  lemma OutsExpand(x: Gla, d: Gla, dO: Matrix, S0: Matrix, S1: Matrix, h: real)
    ensures Sum(0, x.T, t => WeightedOuts(Moved(x, d, h), dO, MovedStart(x, S0, S1, h), x.dv, t))
         == Sum(0, x.T, t => WeightedOuts(x, dO, S0, x.dv, t)) + h * Sum(0, x.T, t => OutPairing(x, d, dO, S0, S1, t))
          + h * h * Sum(0, x.T, t => WeightedRest(x, d, dO, S0, S1, h, t))
  {
    hide *;
    var f := (t: int) => WeightedOuts(Moved(x, d, h), dO, MovedStart(x, S0, S1, h), x.dv, t);
    var f0 := (t: int) => WeightedOuts(x, dO, S0, x.dv, t);
    var f1 := (t: int) => OutPairing(x, d, dO, S0, S1, t);
    var f2 := (t: int) => WeightedRest(x, d, dO, S0, S1, h, t);
    forall t | 0 <= t < x.T ensures f(t) == f0(t) + h * f1(t) + h * h * f2(t) {
      OutRowNamed(x, d, dO, S0, S1, h, t);
    }
    SumExpand(x.T, f, f0, h, f1, h * h, f2);
  }

  lemma OutRowNamed(x: Gla, d: Gla, dO: Matrix, S0: Matrix, S1: Matrix, h: real, t: int)
    requires 0 <= t < x.T
    ensures WeightedOuts(Moved(x, d, h), dO, MovedStart(x, S0, S1, h), x.dv, t)
         == WeightedOuts(x, dO, S0, x.dv, t) + h * OutPairing(x, d, dO, S0, S1, t)
           + h * h * WeightedRest(x, d, dO, S0, S1, h, t)
  {
    hide Out, OutDot, OutRest, Moved, MovedStart, At, Sum;
    OutRow(x, d, dO, S0, S1, h, t);
  }

  lemma TotalExpand(x: Gla, d: Gla, E1: Matrix, h: real)
    ensures Cells(x.dk, x.dv, (i, j) => At(E1, i, j) * State(Moved(x, d, h), 0, 0.0, x.T, i, j))
         == Cells(x.dk, x.dv, (i, j) => At(E1, i, j) * State(x, 0, 0.0, x.T, i, j)) + h * TotalPairing(x, d, E1)
          + h * h * Cells(x.dk, x.dv, (i, j) => At(E1, i, j) * StateRest(x, d, 0.0, 0.0, h, x.T, i, j))
  {
    hide State, StateDot, StateRest, Moved, At, Sum, Cells;
    var f := (i: int, j: int) => At(E1, i, j) * State(Moved(x, d, h), 0, 0.0, x.T, i, j);
    var f0 := (i: int, j: int) => At(E1, i, j) * State(x, 0, 0.0, x.T, i, j);
    var f1 := (i: int, j: int) => At(E1, i, j) * StateDot(x, d, 0.0, 0.0, x.T, i, j);
    var f2 := (i: int, j: int) => At(E1, i, j) * StateRest(x, d, 0.0, 0.0, h, x.T, i, j);
    forall i, j | 0 <= i < x.dk && 0 <= j < x.dv ensures f(i, j) == f0(i, j) + h * f1(i, j) + h * h * f2(i, j) {
      TotalCell(x, d, At(E1, i, j), h, i, j, f(i, j), f0(i, j), f1(i, j), f2(i, j));
    }
    CellsExpand(x.dk, x.dv, f, f0, h, f1, h * h, f2);
  }

  lemma DecaysExpand(x: Gla, d: Gla, dg: Vector, h: real)
    ensures Sum(0, x.dk, i => El(dg, i) * Decay(Moved(x, d, h), 0, x.T, i))
         == Sum(0, x.dk, i => El(dg, i) * Decay(x, 0, x.T, i))
           + h * Sum(0, x.dk, i => El(dg, i) * DecayDot(x, d, x.T, i))
          + h * h * Sum(0, x.dk, i => El(dg, i) * DecayRest(x, d, h, x.T, i))
  {
    hide *;
    var f := (i: int) => El(dg, i) * Decay(Moved(x, d, h), 0, x.T, i);
    var f0 := (i: int) => El(dg, i) * Decay(x, 0, x.T, i);
    var f1 := (i: int) => El(dg, i) * DecayDot(x, d, x.T, i);
    var f2 := (i: int) => El(dg, i) * DecayRest(x, d, h, x.T, i);
    forall i | 0 <= i < x.dk ensures f(i) == f0(i) + h * f1(i) + h * h * f2(i) {
      DecayCell(x, d, El(dg, i), h, i, f(i), f0(i), f1(i), f2(i));
    }
    SumExpand(x.dk, f, f0, h, f1, h * h, f2);
  }

  /** LossDot is the derivative of the loss. */
  lemma LossExpansion(x: Gla, d: Gla, dO: Matrix, S0: Matrix, S1: Matrix, E1: Matrix, dg: Vector, h: real)
    ensures Loss(Moved(x, d, h), dO, MovedStart(x, S0, S1, h), E1, dg)
         == Loss(x, dO, S0, E1, dg) + h * LossDot(x, d, dO, S0, S1, E1, dg)
           + h * h * LossRest(x, d, dO, S0, S1, E1, dg, h)
  {
    hide Sum, Cells, OutPairing, WeightedOuts, WeightedRest, TotalPairing, State, Decay, DecayDot, StateRest, DecayRest,
      Moved, MovedStart, At, El;
    MovedSize(x, d, h);
    OutsExpand(x, d, dO, S0, S1, h);
    TotalExpand(x, d, E1, h);
    DecaysExpand(x, d, dg, h);
  }

  // ---------------------------------------------------------------------
  // The gradients that gla_chunk_backward returns
  // ---------------------------------------------------------------------

  /** <dQ_t, Qdot_t> + <dK_t, Kdot_t> + <dA_t, Adot_t> with the dA returned */
  function LocalKeyPairing(x: Gla, d: Gla, dO: Matrix, S0: Matrix, E1: Matrix, dg: Vector, t: int): real {
    Sum(0, x.dk, i => d.q(t, i) * GradQ(x, dO, S0, t, i) + d.k(t, i) * GradK(x, dO, E1, t, i)
                    + d.a(t, i) * GateGrad(x, dO, S0, E1, dg, t, i))
  }

  function GapPairing(x: Gla, d: Gla, S0: Matrix, E1: Matrix, dg: Vector, t: int): real {
    Sum(0, x.dk, i => GapTerm(x, d, S0, E1, dg, t, i))
  }

  function GapTerm(x: Gla, d: Gla, S0: Matrix, E1: Matrix, dg: Vector, t: int, i: int): real {
    d.a(t, i) * GateExcess(x, S0, E1, dg, t, i)
  }

  lemma LocalKeySplit(x: Gla, d: Gla, dO: Matrix, S0: Matrix, E1: Matrix, dg: Vector, t: int)
    ensures LocalKeyPairing(x, d, dO, S0, E1, dg, t)
      == KeyPairing(x, d, dO, S0, E1, t) + GapPairing(x, d, S0, E1, dg, t)
  {
    hide GradQ, GradK, GradA, GateExcess, Sum, Gla.q, Gla.k, Gla.a;
    var f := (i: int) => d.q(t, i) * GradQ(x, dO, S0, t, i) + d.k(t, i) * GradK(x, dO, E1, t, i)
      + d.a(t, i) * GradA(x, dO, S0, E1, t, i);
    var g := (i: int) => GapTerm(x, d, S0, E1, dg, t, i);
    var h := (i: int) => d.q(t, i) * GradQ(x, dO, S0, t, i) + d.k(t, i) * GradK(x, dO, E1, t, i)
      + d.a(t, i) * GateGrad(x, dO, S0, E1, dg, t, i);
    forall i | 0 <= i < x.dk ensures h(i) == f(i) + g(i) {
      Distribute(d.a(t, i), GradA(x, dO, S0, E1, t, i), GateExcess(x, S0, E1, dg, t, i));
    }
    SumAdd(0, x.dk, f, g, h);
  }

  /** The second term of GateGrad pairs with adot to the excess of dg_total
      times the derivative of the total decay. */
  lemma GapTotal(x: Gla, d: Gla, S0: Matrix, E1: Matrix, dg: Vector)
    requires x.GatesNonZero()
    ensures Sum(0, x.T, t => GapPairing(x, d, S0, E1, dg, t))
      == Sum(0, x.dk, i => Gap(x, S0, E1, dg, i) * DecayDot(x, d, x.T, i))
  {
    hide GapTerm, Gap, DecayDot, Sum, Gla.GatesNonZero;
    var w := (t: int, i: int) => GapTerm(x, d, S0, E1, dg, t, i);
    var row := (t: int) => GapPairing(x, d, S0, E1, dg, t);
    var col := (i: int) => Gap(x, S0, E1, dg, i) * DecayDot(x, d, x.T, i);
    forall t | 0 <= t < x.T ensures row(t) == Sum(0, x.dk, i => w(t, i)) {
      SumExt(0, x.dk, i => GapTerm(x, d, S0, E1, dg, t, i), i => w(t, i));
    }
    forall i | 0 <= i < x.dk ensures col(i) == Sum(0, x.T, t => w(t, i)) {
      GapColumn(x, d, S0, E1, dg, i);
      SumExt(0, x.T, t => GapTerm(x, d, S0, E1, dg, t, i), t => w(t, i));
    }
    SumSwap(0, x.T, 0, x.dk, w, row, col);
  }

  lemma GapTermIs(x: Gla, d: Gla, S0: Matrix, E1: Matrix, dg: Vector, t: int, i: int, f: real)
    requires f == d.a(t, i) * Quot(Decay(x, 0, x.T, i), x.a(t, i))
    ensures GapTerm(x, d, S0, E1, dg, t, i) == Gap(x, S0, E1, dg, i) * f
  {
    hide Gap, Inv;
    QuotGrows(d.a(t, i), Decay(x, 0, x.T, i), Gap(x, S0, E1, dg, i), x.a(t, i),
      Decay(x, 0, x.T, i) * Gap(x, S0, E1, dg, i), f);
  }

  lemma GapColumn(x: Gla, d: Gla, S0: Matrix, E1: Matrix, dg: Vector, i: int)
    requires x.GatesNonZero() && 0 <= i < x.dk
    ensures Sum(0, x.T, t => GapTerm(x, d, S0, E1, dg, t, i)) == Gap(x, S0, E1, dg, i) * DecayDot(x, d, x.T, i)
  {
    hide Gap, Decay, DecayDot, Quot, Sum, Gla.a;
    DecayDotClosed(x, d, x.T, i);
    var f := (t: int) => d.a(t, i) * Quot(Decay(x, 0, x.T, i), x.a(t, i));
    var g := (t: int) => GapTerm(x, d, S0, E1, dg, t, i);
    forall t | 0 <= t < x.T ensures g(t) == Gap(x, S0, E1, dg, i) * f(t) {
      GapTermIs(x, d, S0, E1, dg, t, i, f(t));
    }
    SumScale(0, x.T, Gap(x, S0, E1, dg, i), f, g);
  }

  /** dg_total is the row sum dS_total * S_recv and an excess. */
  lemma DecaySplits(x: Gla, d: Gla, S0: Matrix, E1: Matrix, dg: Vector)
    ensures DecayPairing(x, d, dg)
         == Sum(0, x.dk, i => RowDot(E1, S0, x.dv, i) * DecayDot(x, d, x.T, i))
          + Sum(0, x.dk, i => Gap(x, S0, E1, dg, i) * DecayDot(x, d, x.T, i))
  {
    hide RowDot, DecayDot, El, Sum;
    SumAdd(0, x.dk, i => RowDot(E1, S0, x.dv, i) * DecayDot(x, d, x.T, i),
      i => Gap(x, S0, E1, dg, i) * DecayDot(x, d, x.T, i), i => El(dg, i) * DecayDot(x, d, x.T, i));
  }

  function CarryCell(x: Gla, d: Gla, S0: Matrix, E1: Matrix, i: int, j: int): real {
    At(E1, i, j) * (DecayDot(x, d, x.T, i) * At(S0, i, j))
  }

  lemma CarryRows(x: Gla, d: Gla, S0: Matrix, E1: Matrix)
    ensures Cells(x.dk, x.dv, (i, j) => CarryCell(x, d, S0, E1, i, j))
         == Sum(0, x.dk, i => RowDot(E1, S0, x.dv, i) * DecayDot(x, d, x.T, i))
  {
    hide DecayDot, At, Sum;
    var f := (i: int, j: int) => CarryCell(x, d, S0, E1, i, j);
    var row := (i: int) => RowDot(E1, S0, x.dv, i) * DecayDot(x, d, x.T, i);
    forall i | 0 <= i < x.dk ensures row(i) == Sum(0, x.dv, j => f(i, j)) {
      SumScale(0, x.dv, DecayDot(x, d, x.T, i), j => At(E1, i, j) * At(S0, i, j), j => f(i, j));
    }
    CellsByRows(x.dk, x.dv, f, row);
  }

  lemma LocalCell(x: Gla, d: Gla, dO: Matrix, S0: Matrix, S1: Matrix, E1: Matrix, i: int, j: int, o: real, w1: real,
                  ky: real, w0: real)
    requires o == At(E1, i, j) * StateDot(x, d, At(S0, i, j), At(S1, i, j), x.T, i, j)
    requires w1 == Adj(x, dO, x.T, At(NOTHING, i, j), 0, i, j) * At(S1, i, j)
    requires ky == At(E1, i, j) * StateDot(x, d, 0.0, 0.0, x.T, i, j)
    requires w0 == Adj(x, dO, x.T, At(E1, i, j), 0, i, j) * At(S1, i, j)
    ensures o + w1 == ky + CarryCell(x, d, S0, E1, i, j) + w0
  {
    hide StateDot, DecayDot, Decay, Adj;
    assert At(NOTHING, i, j) == 0.0;
    hide At;
    DotAffine(x, d, At(S0, i, j), At(S1, i, j), x.T, i, j);
    AdjAffine(x, dO, x.T, At(E1, i, j), 0, i, j);
    LocalAlgebra(At(E1, i, j), At(S0, i, j), At(S1, i, j), StateDot(x, d, 0.0, 0.0, x.T, i, j), DecayDot(x, d, x.T, i),
      Decay(x, 0, x.T, i), Adj(x, dO, x.T, 0.0, 0, i, j));
  }

  lemma LocalAlgebra(e: real, s0: real, s1: real, sd: real, gd: real, g: real, u: real)
    ensures e * (sd + gd * s0 + g * s1) + u * s1 == e * sd + e * (gd * s0) + (g * e + u) * s1
  {}

  /** S_total and g_total carry the boundary out of the end state. */
  lemma EndSplits(x: Gla, d: Gla, dO: Matrix, S0: Matrix, S1: Matrix, E1: Matrix)
    ensures EndPairing(x, d, S0, S1, E1) + StartPairing(x, dO, S1, NOTHING)
         == TotalPairing(x, d, E1) + Sum(0, x.dk, i => RowDot(E1, S0, x.dv, i) * DecayDot(x, d, x.T, i))
           + StartPairing(x, dO, S1, E1)
  {
    hide Cells, StateDot, Adj, CarryCell, RowDot, DecayDot, At, Sum;
    CarryRows(x, d, S0, E1);
    var o := (i: int, j: int) => At(E1, i, j) * StateDot(x, d, At(S0, i, j), At(S1, i, j), x.T, i, j);
    var w1 := (i: int, j: int) => Adj(x, dO, x.T, At(NOTHING, i, j), 0, i, j) * At(S1, i, j);
    var ky := (i: int, j: int) => At(E1, i, j) * StateDot(x, d, 0.0, 0.0, x.T, i, j);
    var vl := (i: int, j: int) => CarryCell(x, d, S0, E1, i, j);
    var w0 := (i: int, j: int) => Adj(x, dO, x.T, At(E1, i, j), 0, i, j) * At(S1, i, j);
    forall i, j | 0 <= i < x.dk && 0 <= j < x.dv ensures o(i, j) + w1(i, j) == ky(i, j) + vl(i, j) + w0(i, j) {
      LocalCell(x, d, dO, S0, S1, E1, i, j, o(i, j), w1(i, j), ky(i, j), w0(i, j));
    }
    CellsFive(x.dk, x.dv, o, w1, ky, vl, w0);
  }

  /** The direction paired with the five tensors returned. */
  function ReturnedPairing(x: Gla, d: Gla, dO: Matrix, S0: Matrix, S1: Matrix, E1: Matrix, dg: Vector): real {
    Sum(0, x.T, t => LocalKeyPairing(x, d, dO, S0, E1, dg, t)) + Sum(0, x.T, t => ValuePairing(x, d, dO, E1, t))
    + StartPairing(x, dO, S1, NOTHING)
  }

  /** For every dO, dS_total and dg_total the five tensors returned by
      gla_chunk_backward are the gradient of <dO, O> + <dS_total, S_total> +
      <dg_total, g_total>. */
  lemma LocalAdjoint(x: Gla, d: Gla, dO: Matrix, S0: Matrix, S1: Matrix, E1: Matrix, dg: Vector)
    requires x.GatesNonZero()
    ensures LossDot(x, d, dO, S0, S1, E1, dg) == ReturnedPairing(x, d, dO, S0, S1, E1, dg)
  {
    hide OutPairing, KeyPairing, ValuePairing, LocalKeyPairing, GapPairing, EndPairing, StartPairing, TotalPairing,
      DecayPairing, RowDot, Gap, DecayDot, Sum, Gla.GatesNonZero;
    BoundaryGradient(x, d, dO, S0, S1, E1);
    EndSplits(x, d, dO, S0, S1, E1);
    DecaySplits(x, d, S0, E1, dg);
    GapTotal(x, d, S0, E1, dg);
    forall t | 0 <= t < x.T
      ensures LocalKeyPairing(x, d, dO, S0, E1, dg, t)
        == KeyPairing(x, d, dO, S0, E1, t) + GapPairing(x, d, S0, E1, dg, t)
    {
      LocalKeySplit(x, d, dO, S0, E1, dg, t);
    }
    SumAdd(0, x.T, t => KeyPairing(x, d, dO, S0, E1, t), t => GapPairing(x, d, S0, E1, dg, t),
      t => LocalKeyPairing(x, d, dO, S0, E1, dg, t));
  }

  /** So a step h along any direction changes the loss by h times the pairing
      of the direction with the tensors returned, up to h^2. */
  lemma ReturnsTheGradient(x: Gla, d: Gla, dO: Matrix, S0: Matrix, S1: Matrix, E1: Matrix, dg: Vector, h: real)
    requires x.GatesNonZero()
    ensures Loss(Moved(x, d, h), dO, MovedStart(x, S0, S1, h), E1, dg)
         == Loss(x, dO, S0, E1, dg) + h * ReturnedPairing(x, d, dO, S0, S1, E1, dg)
           + h * h * LossRest(x, d, dO, S0, S1, E1, dg, h)
  {
    hide *;
    LossExpansion(x, d, dO, S0, S1, E1, dg, h);
    LocalAdjoint(x, d, dO, S0, S1, E1, dg);
  }
}

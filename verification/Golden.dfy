/** The sequential goldens of gla/common.py: one pass forward over the tokens,
    one pass back, each writing its preallocated outputs row by row. */
module Golden {
  import opened Tensor
  import opened Gla
  import opened Unrolled

  /** dS holds the total gradient of the state after token t. */
  ghost predicate HoldsTotal(x: Gla, dO: Matrix, E1: Matrix, dS: Matrix, t: int) {
    forall i, j | 0 <= i < x.dk && 0 <= j < x.dv :: At(dS, i, j) == Total(x, dO, x.T, At(E1, i, j), t, i, j)
  }

  function Advance(x: Gla, S: Matrix, t: int): Matrix {
    Tab(x.dk, x.dv, (i, j) => x.a(t, i) * At(S, i, j) + x.k(t, i) * x.v(t, j))
  }

  lemma AdvanceHolds(x: Gla, S0: Matrix, S: Matrix, t: int)
    requires HoldsState(x, S0, S, t) && 0 <= t
    ensures HoldsState(x, S0, Advance(x, S, t), t + 1)
  {}

  /** (Q[t] @ S)[j] */
  function RowQ(x: Gla, S: Matrix, t: int, j: int): real {
    Sum(0, x.dk, i => x.q(t, i) * At(S, i, j))
  }

  lemma RowQHolds(x: Gla, S0: Matrix, S: Matrix, t: int, j: int)
    requires HoldsState(x, S0, S, t + 1) && 0 <= j < x.dv
    ensures RowQ(x, S, t, j) == Out(x, S0, t, j)
  {
    hide State;
    var f, g := (i: int) => x.q(t, i) * At(S, i, j), (i: int) => x.q(t, i) * State(x, 0, At(S0, i, j), t + 1, i, j);
    SumExt(0, x.dk, f, g);
  }

  /** expected_gla. The last clause says what that is of the entries of Q, K, V and A. */
  method ExpectedGla(x: Gla) returns (O: array2<real>)
    requires x.Valid()
    ensures fresh(O) && O.Length0 == x.T && O.Length1 == x.dv
    ensures forall t, j | 0 <= t < x.T && 0 <= j < x.dv :: O[t, j] == Out(x, NOTHING, t, j)
    ensures forall q: (int, int) -> real, k: (int, int) -> real, v: (int, int) -> real, a: (int, int) -> real, t, j |
      Operands(x, q, k, v, a) && 0 <= t < x.T && 0 <= j < x.dv ::
      O[t, j] == Sum(0, x.dk, i => q(t, i) * Past(k, v, a, t + 1, i, j))
  {
    hide Operands, Out;
    var S := Zeros(x.dk, x.dv);
    O := new real[x.T, x.dv]((_, _) => 0.0);
    for t := 0 to x.T
      invariant HoldsState(x, NOTHING, S, t)
      invariant forall t', j | 0 <= t' < t && 0 <= j < x.dv :: O[t', j] == Out(x, NOTHING, t', j)
    {
      AdvanceHolds(x, NOTHING, S, t);
      S := Advance(x, S, t);
      forall j | 0 <= j < x.dv {
        O[t, j] := RowQ(x, S, t, j);
      }
      forall j | 0 <= j < x.dv ensures O[t, j] == Out(x, NOTHING, t, j) {
        RowQHolds(x, NOTHING, S, t, j);
      }
    }
    forall q: (int, int) -> real, k: (int, int) -> real, v: (int, int) -> real, a: (int, int) -> real, t, j |
      Operands(x, q, k, v, a) && 0 <= t < x.T && 0 <= j < x.dv
      ensures O[t, j] == Sum(0, x.dk, i => q(t, i) * Past(k, v, a, t + 1, i, j))
    {
      OutUnrolled(x, q, k, v, a, t, j);
    }
  }

  // The four products of one backward step.
  function StateTimesRow(S: Matrix, dO: Matrix, dv: int, t: int, i: int): real {
    Sum(0, dv, j => At(dO, t, j) * At(S, i, j))
  }

  function AdjTimesV(x: Gla, dS: Matrix, t: int, i: int): real {
    Sum(0, x.dv, j => x.v(t, j) * At(dS, i, j))
  }

  function KTimesAdj(x: Gla, dS: Matrix, t: int, j: int): real {
    Sum(0, x.dk, i => x.k(t, i) * At(dS, i, j))
  }

  lemma StepGradQ(x: Gla, dO: Matrix, S0: Matrix, S: Matrix, t: int, i: int)
    requires HoldsState(x, S0, S, t + 1) && 0 <= i < x.dk
    ensures StateTimesRow(S, dO, x.dv, t, i) == GradQ(x, dO, S0, t, i)
  {
    hide State;
    var f, g := (j: int) => At(dO, t, j) * At(S, i, j),
      (j: int) => At(dO, t, j) * State(x, 0, At(S0, i, j), t + 1, i, j);
    SumExt(0, x.dv, f, g);
  }

  lemma StepGradK(x: Gla, dO: Matrix, E1: Matrix, dS: Matrix, t: int, i: int)
    requires HoldsTotal(x, dO, E1, dS, t) && 0 <= i < x.dk
    ensures AdjTimesV(x, dS, t, i) == GradK(x, dO, E1, t, i)
  {
    hide Total;
    var f, g := (j: int) => x.v(t, j) * At(dS, i, j), (j: int) => x.v(t, j) * Total(x, dO, x.T, At(E1, i, j), t, i, j);
    SumExt(0, x.dv, f, g);
  }

  lemma StepGradV(x: Gla, dO: Matrix, E1: Matrix, dS: Matrix, t: int, j: int)
    requires HoldsTotal(x, dO, E1, dS, t) && 0 <= j < x.dv
    ensures KTimesAdj(x, dS, t, j) == GradV(x, dO, E1, t, j)
  {
    hide Total;
    var f, g := (i: int) => x.k(t, i) * At(dS, i, j), (i: int) => x.k(t, i) * Total(x, dO, x.T, At(E1, i, j), t, i, j);
    SumExt(0, x.dk, f, g);
  }

  lemma StepGradA(x: Gla, dO: Matrix, S0: Matrix, E1: Matrix, S: Matrix, dS: Matrix, t: int, i: int)
    requires HoldsTotal(x, dO, E1, dS, t) && HoldsState(x, S0, S, t) && 0 <= i < x.dk
    ensures RowDot(dS, S, x.dv, i) == GradA(x, dO, S0, E1, t, i)
  {
    hide Total, State;
    var f := (j: int) => At(dS, i, j) * At(S, i, j);
    var g := (j: int) => Total(x, dO, x.T, At(E1, i, j), t, i, j) * State(x, 0, At(S0, i, j), t, i, j);
    SumExt(0, x.dv, f, g);
  }

  /** The four buffers hold the sums of the written-out gradients. */
  ghost predicate HoldUnrolled(x: Gla, q: (int, int) -> real, k: (int, int) -> real, v: (int, int) -> real,
                               a: (int, int) -> real, o: (int, int) -> real,
                               dQ: array2<real>, dK: array2<real>, dV: array2<real>, dA: array2<real>)
    reads dQ, dK, dV, dA
  {
    && dQ.Length0 == dK.Length0 == dV.Length0 == dA.Length0 == x.T
    && dQ.Length1 == dK.Length1 == dA.Length1 == x.dk && dV.Length1 == x.dv
    && (forall t, i | 0 <= t < x.T && 0 <= i < x.dk ::
         dQ[t, i] == Sum(0, x.dv, j => o(t, j) * Past(k, v, a, t + 1, i, j)))
    && (forall t, i | 0 <= t < x.T && 0 <= i < x.dk ::
         dK[t, i] == Sum(0, x.dv, j => v(t, j) * Future(q, o, a, x.T, t, i, j)))
    && (forall t, j | 0 <= t < x.T && 0 <= j < x.dv ::
         dV[t, j] == Sum(0, x.dk, i => k(t, i) * Future(q, o, a, x.T, t, i, j)))
    && (forall t, i | 0 <= t < x.T && 0 <= i < x.dk ::
          dA[t, i] == Sum(0, x.dv, j => Future(q, o, a, x.T, t, i, j) * Past(k, v, a, t, i, j)))
  }

  lemma HoldsWrittenOut(x: Gla, dO: Matrix, q: (int, int) -> real, k: (int, int) -> real, v: (int, int) -> real,
                        a: (int, int) -> real, o: (int, int) -> real,
                        dQ: array2<real>, dK: array2<real>, dV: array2<real>, dA: array2<real>)
    requires Operands(x, q, k, v, a) && Entries(dO, x.T, x.dv, o)
    requires dQ.Length0 == dK.Length0 == dV.Length0 == dA.Length0 == x.T
    requires dQ.Length1 == dK.Length1 == dA.Length1 == x.dk && dV.Length1 == x.dv
    requires forall t, i | 0 <= t < x.T && 0 <= i < x.dk :: dQ[t, i] == GradQ(x, dO, NOTHING, t, i)
    requires forall t, i | 0 <= t < x.T && 0 <= i < x.dk :: dK[t, i] == GradK(x, dO, NOTHING, t, i)
    requires forall t, j | 0 <= t < x.T && 0 <= j < x.dv :: dV[t, j] == GradV(x, dO, NOTHING, t, j)
    requires forall t, i | 0 <= t < x.T && 0 <= i < x.dk :: dA[t, i] == GradA(x, dO, NOTHING, NOTHING, t, i)
    ensures HoldUnrolled(x, q, k, v, a, o, dQ, dK, dV, dA)
  {
    hide Operands, GradQ, GradK, GradV, GradA, Past, Future, Sum;
    forall t, i | 0 <= t < x.T && 0 <= i < x.dk
      ensures dQ[t, i] == Sum(0, x.dv, j => o(t, j) * Past(k, v, a, t + 1, i, j))
      ensures dK[t, i] == Sum(0, x.dv, j => v(t, j) * Future(q, o, a, x.T, t, i, j))
      ensures dA[t, i] == Sum(0, x.dv, j => Future(q, o, a, x.T, t, i, j) * Past(k, v, a, t, i, j))
    {
      KeyGradsUnrolled(x, dO, q, k, v, a, o, t, i);
    }
    forall t, j | 0 <= t < x.T && 0 <= j < x.dv
      ensures dV[t, j] == Sum(0, x.dk, i => k(t, i) * Future(q, o, a, x.T, t, i, j))
    {
      ValueGradUnrolled(x, dO, q, k, v, a, o, t, j);
    }
  }

  /** expected_gla_backward. The last clause says what that is of the entries
      of Q, K, V, A and dO. */
  method ExpectedGlaBackward(x: Gla, dO: Matrix)
    returns (dQ: array2<real>, dK: array2<real>, dV: array2<real>, dA: array2<real>)
    requires x.Valid() && IsMatrix(dO, x.T, x.dv)
    ensures fresh(dQ) && dQ.Length0 == x.T && dQ.Length1 == x.dk
    ensures fresh(dK) && dK.Length0 == x.T && dK.Length1 == x.dk
    ensures fresh(dV) && dV.Length0 == x.T && dV.Length1 == x.dv
    ensures fresh(dA) && dA.Length0 == x.T && dA.Length1 == x.dk
    ensures forall t, i | 0 <= t < x.T && 0 <= i < x.dk :: dQ[t, i] == GradQ(x, dO, NOTHING, t, i)
    ensures forall t, i | 0 <= t < x.T && 0 <= i < x.dk :: dK[t, i] == GradK(x, dO, NOTHING, t, i)
    ensures forall t, j | 0 <= t < x.T && 0 <= j < x.dv :: dV[t, j] == GradV(x, dO, NOTHING, t, j)
    ensures forall t, i | 0 <= t < x.T && 0 <= i < x.dk :: dA[t, i] == GradA(x, dO, NOTHING, NOTHING, t, i)
    ensures forall q: (int, int) -> real, k: (int, int) -> real, v: (int, int) -> real, a: (int, int) -> real,
      o: (int, int) -> real |
      Operands(x, q, k, v, a) && Entries(dO, x.T, x.dv, o) :: HoldUnrolled(x, q, k, v, a, o, dQ, dK, dV, dA)
  {
    hide Operands, Entries, HoldUnrolled;
    var hist := StateHistory(x);
    dQ := new real[x.T, x.dk]((_, _) => 0.0);
    dK := new real[x.T, x.dk]((_, _) => 0.0);
    dV := new real[x.T, x.dv]((_, _) => 0.0);
    dA := new real[x.T, x.dk]((_, _) => 0.0);
    var dS := Zeros(x.dk, x.dv);
    for t := x.T downto 0
      invariant HoldsAdj(x, dO, NOTHING, dS, t)
      invariant forall t', i | t <= t' < x.T && 0 <= i < x.dk :: dQ[t', i] == GradQ(x, dO, NOTHING, t', i)
      invariant forall t', i | t <= t' < x.T && 0 <= i < x.dk :: dK[t', i] == GradK(x, dO, NOTHING, t', i)
      invariant forall t', j | t <= t' < x.T && 0 <= j < x.dv :: dV[t', j] == GradV(x, dO, NOTHING, t', j)
      invariant forall t', i | t <= t' < x.T && 0 <= i < x.dk :: dA[t', i] == GradA(x, dO, NOTHING, NOTHING, t', i)
    {
      BackStepHolds(x, dO, NOTHING, dS, t);
      dS := AddOuter(x, dO, dS, t);
      var Sprev := if t > 0 then hist[t - 1] else Zeros(x.dk, x.dv);
      GradStep(x, dO, hist[t], Sprev, dS, t, dQ, dK, dV, dA);
      dS := Push(x, dS, t);
    }
    forall q: (int, int) -> real, k: (int, int) -> real, v: (int, int) -> real, a: (int, int) -> real,
      o: (int, int) -> real |
      Operands(x, q, k, v, a) && Entries(dO, x.T, x.dv, o) ensures HoldUnrolled(x, q, k, v, a, o, dQ, dK, dV, dA)
    {
      HoldsWrittenOut(x, dO, q, k, v, a, o, dQ, dK, dV, dA);
    }
  }

  /** The cached trajectory: entry t is the state after token t. */
  method StateHistory(x: Gla) returns (hist: seq<Matrix>)
    ensures |hist| == x.T && forall t | 0 <= t < x.T :: HoldsState(x, NOTHING, hist[t], t + 1)
  {
    var S := Zeros(x.dk, x.dv);
    hist := [];
    for t := 0 to x.T
      invariant |hist| == t && HoldsState(x, NOTHING, S, t)
      invariant forall t' | 0 <= t' < t :: HoldsState(x, NOTHING, hist[t'], t' + 1)
    {
      AdvanceHolds(x, NOTHING, S, t);
      S := Advance(x, S, t);
      hist := hist + [S];
    }
  }

  function AddOuter(x: Gla, dO: Matrix, dS: Matrix, t: int): Matrix {
    Tab(x.dk, x.dv, (i, j) => At(dS, i, j) + x.q(t, i) * At(dO, t, j))
  }

  function Push(x: Gla, dS: Matrix, t: int): Matrix {
    Tab(x.dk, x.dv, (i, j) => x.a(t, i) * At(dS, i, j))
  }

  lemma BackStepHolds(x: Gla, dO: Matrix, E1: Matrix, dS: Matrix, t: int)
    requires HoldsAdj(x, dO, E1, dS, t + 1) && 0 <= t < x.T
    ensures HoldsTotal(x, dO, E1, AddOuter(x, dO, dS, t), t)
    ensures HoldsAdj(x, dO, E1, Push(x, AddOuter(x, dO, dS, t), t), t)
  {
    hide Adj, Total, Gla.q, Gla.a;
    var up := AddOuter(x, dO, dS, t);
    forall i, j | 0 <= i < x.dk && 0 <= j < x.dv
      ensures At(up, i, j) == Total(x, dO, x.T, At(E1, i, j), t, i, j)
      ensures At(Push(x, up, t), i, j) == Adj(x, dO, x.T, At(E1, i, j), t, i, j)
    {
      AdjStep(x, dO, x.T, At(E1, i, j), t, i, j);
    }
  }

  /** The four row writes of one backward step. */
  method GradStep(x: Gla, dO: Matrix, S: Matrix, Sprev: Matrix, dS: Matrix, t: nat,
                  dQ: array2<real>, dK: array2<real>, dV: array2<real>, dA: array2<real>)
    requires t < x.T
    requires HoldsState(x, NOTHING, S, t + 1) && HoldsState(x, NOTHING, Sprev, t) && HoldsTotal(x, dO, NOTHING, dS, t)
    requires dQ.Length0 == x.T && dQ.Length1 == x.dk && dK.Length0 == x.T && dK.Length1 == x.dk
    requires dV.Length0 == x.T && dV.Length1 == x.dv && dA.Length0 == x.T && dA.Length1 == x.dk
    requires dQ != dK && dQ != dV && dQ != dA && dK != dV && dK != dA && dV != dA
    modifies dQ, dK, dV, dA
    ensures forall t', i | 0 <= t' < x.T && 0 <= i < x.dk ::
      dQ[t', i] == if t' == t then GradQ(x, dO, NOTHING, t, i) else old(dQ[t', i])
    ensures forall t', i | 0 <= t' < x.T && 0 <= i < x.dk ::
      dK[t', i] == if t' == t then GradK(x, dO, NOTHING, t, i) else old(dK[t', i])
    ensures forall t', j | 0 <= t' < x.T && 0 <= j < x.dv ::
      dV[t', j] == if t' == t then GradV(x, dO, NOTHING, t, j) else old(dV[t', j])
    ensures forall t', i | 0 <= t' < x.T && 0 <= i < x.dk ::
      dA[t', i] == if t' == t then GradA(x, dO, NOTHING, NOTHING, t, i) else old(dA[t', i])
  {
    hide GradQ, GradK, GradV, GradA, HoldsState, HoldsTotal;
    forall i | 0 <= i < x.dk { dQ[t, i] := StateTimesRow(S, dO, x.dv, t, i); }
    forall i | 0 <= i < x.dk { dK[t, i] := AdjTimesV(x, dS, t, i); }
    forall j | 0 <= j < x.dv { dV[t, j] := KTimesAdj(x, dS, t, j); }
    forall i | 0 <= i < x.dk { dA[t, i] := RowDot(dS, Sprev, x.dv, i); }
    forall i | 0 <= i < x.dk
      ensures dQ[t, i] == GradQ(x, dO, NOTHING, t, i)
      ensures dK[t, i] == GradK(x, dO, NOTHING, t, i)
      ensures dA[t, i] == GradA(x, dO, NOTHING, NOTHING, t, i)
    {
      StepGradQ(x, dO, NOTHING, S, t, i);
      StepGradK(x, dO, NOTHING, dS, t, i);
      StepGradA(x, dO, NOTHING, NOTHING, Sprev, dS, t, i);
    }
    forall j | 0 <= j < x.dv ensures dV[t, j] == GradV(x, dO, NOTHING, t, j) {
      StepGradV(x, dO, NOTHING, dS, t, j);
    }
  }
}

/** Gated linear attention, token by token: the recurrences that
    gla/common.py's expected_gla and expected_gla_backward run, cell by cell of
    the [dk, dv] state, and the laws they satisfy. */
module Gla {
  import opened Tensor

  /** One head over T tokens. */
  datatype Gla = Gla(T: nat, dk: nat, dv: nat, Q: Matrix, K: Matrix, V: Matrix, A: Matrix) {
    ghost predicate Valid() {
      IsMatrix(Q, T, dk) && IsMatrix(K, T, dk) && IsMatrix(V, T, dv) && IsMatrix(A, T, dk)
    }

    function q(t: int, i: int): real { At(Q, t, i) }
    function k(t: int, i: int): real { At(K, t, i) }
    function v(t: int, j: int): real { At(V, t, j) }
    function a(t: int, i: int): real { At(A, t, i) }

    /** The chunk code divides by products of gates. */
    ghost predicate GatesNonZero() {
      forall t, i | 0 <= t < T && 0 <= i < dk :: a(t, i) != 0.0
    }
  }

  // ---------------------------------------------------------------------
  // Recurrences of one cell (i, j)
  // ---------------------------------------------------------------------

  /** Product of the gates of tokens lo .. t - 1. */
  function Decay(x: Gla, lo: int, t: int, i: int): real
    decreases t - lo
  {
    if t <= lo then 1.0 else Decay(x, lo, t - 1, i) * x.a(t - 1, i)
  }

  /** The state before token t, started from s0 before token lo. */
  function State(x: Gla, lo: int, s0: real, t: int, i: int, j: int): real
    decreases t - lo
  {
    if t <= lo then s0 else x.a(t - 1, i) * State(x, lo, s0, t - 1, i, j) + x.k(t - 1, i) * x.v(t - 1, j)
  }

  /** Gradient of the state before token t, through the outputs of tokens
      t .. hi - 1 and through a gradient e1 on the state before token hi. */
  function Adj(x: Gla, dO: Matrix, hi: int, e1: real, t: int, i: int, j: int): real
    decreases hi - t
  {
    if hi <= t then e1 else x.a(t, i) * Total(x, dO, hi, e1, t, i, j)
  }

  /** Total gradient of the state after token t (the state o_t reads). */
  function Total(x: Gla, dO: Matrix, hi: int, e1: real, t: int, i: int, j: int): real
    decreases hi - t, 0
  {
    x.q(t, i) * At(dO, t, j) + if t < hi then Adj(x, dO, hi, e1, t + 1, i, j) else 0.0
  }

  // ---------------------------------------------------------------------
  // Outputs and gradients, started from the boundary state S0 before token 0
  // and the boundary gradient E1 after the last token
  // ---------------------------------------------------------------------

  function Out(x: Gla, S0: Matrix, t: int, j: int): real {
    Sum(0, x.dk, i => x.q(t, i) * State(x, 0, At(S0, i, j), t + 1, i, j))
  }

  function GradQ(x: Gla, dO: Matrix, S0: Matrix, t: int, i: int): real {
    Sum(0, x.dv, j => At(dO, t, j) * State(x, 0, At(S0, i, j), t + 1, i, j))
  }

  function GradK(x: Gla, dO: Matrix, E1: Matrix, t: int, i: int): real {
    Sum(0, x.dv, j => x.v(t, j) * Total(x, dO, x.T, At(E1, i, j), t, i, j))
  }

  function GradV(x: Gla, dO: Matrix, E1: Matrix, t: int, j: int): real {
    Sum(0, x.dk, i => x.k(t, i) * Total(x, dO, x.T, At(E1, i, j), t, i, j))
  }

  function GradA(x: Gla, dO: Matrix, S0: Matrix, E1: Matrix, t: int, i: int): real {
    Sum(0, x.dv, j => Total(x, dO, x.T, At(E1, i, j), t, i, j) * State(x, 0, At(S0, i, j), t, i, j))
  }

  /** No boundary: the golden runs from a zero state and a zero gradient. */
  const NOTHING: Matrix := []

  /** H holds the state before token t, started from the boundary S0. */
  ghost predicate HoldsState(x: Gla, S0: Matrix, H: Matrix, t: int) {
    forall i, j | 0 <= i < x.dk && 0 <= j < x.dv :: At(H, i, j) == State(x, 0, At(S0, i, j), t, i, j)
  }

  /** dS holds the gradient of the state before token t. */
  ghost predicate HoldsAdj(x: Gla, dO: Matrix, E1: Matrix, dS: Matrix, t: int) {
    forall i, j | 0 <= i < x.dk && 0 <= j < x.dv :: At(dS, i, j) == Adj(x, dO, x.T, At(E1, i, j), t, i, j)
  }

  // ---------------------------------------------------------------------
  // Laws of one cell
  // ---------------------------------------------------------------------

  lemma DecayStep(x: Gla, lo: int, t: int, i: int)
    requires lo < t
    ensures Decay(x, lo, t, i) == Decay(x, lo, t - 1, i) * x.a(t - 1, i)
  {}

  lemma StateStep(x: Gla, lo: int, s0: real, t: int, i: int, j: int)
    requires lo < t
    ensures State(x, lo, s0, t, i, j) == x.a(t - 1, i) * State(x, lo, s0, t - 1, i, j) + x.k(t - 1, i) * x.v(t - 1, j)
  {}

  lemma AdjStep(x: Gla, dO: Matrix, hi: int, e1: real, t: int, i: int, j: int)
    requires t < hi
    ensures Adj(x, dO, hi, e1, t, i, j) == x.a(t, i) * Total(x, dO, hi, e1, t, i, j)
    ensures Total(x, dO, hi, e1, t, i, j) == x.q(t, i) * At(dO, t, j) + Adj(x, dO, hi, e1, t + 1, i, j)
  {}

  lemma Edges(x: Gla, dO: Matrix, t: int, s0: real, e1: real, i: int, j: int)
    ensures Decay(x, t, t, i) == 1.0
    ensures State(x, t, s0, t, i, j) == s0
    ensures Adj(x, dO, t, e1, t, i, j) == e1
  {}

  lemma {:induction false} DecaySplit(x: Gla, lo: int, mid: int, t: int, i: int)
    requires lo <= mid <= t
    ensures Decay(x, lo, t, i) == Decay(x, lo, mid, i) * Decay(x, mid, t, i)
    decreases t - mid
  {
    hide *;
    if mid < t {
      DecaySplit(x, lo, mid, t - 1, i);
      DecayStep(x, lo, t, i);
      DecayStep(x, mid, t, i);
      Assoc(Decay(x, lo, mid, i), Decay(x, mid, t - 1, i), x.a(t - 1, i));
    } else {
      Edges(x, [], t, 0.0, 0.0, i, 0);
    }
  }

  lemma DecayFront(x: Gla, lo: int, t: int, i: int)
    requires lo < t
    ensures Decay(x, lo, t, i) == x.a(lo, i) * Decay(x, lo + 1, t, i)
  {
    hide *;
    DecaySplit(x, lo, lo + 1, t, i);
    DecayStep(x, lo, lo + 1, i);
    Edges(x, [], lo, 0.0, 0.0, i, 0);
  }

  lemma {:induction false} DecayNonZero(x: Gla, lo: int, t: int, i: int)
    requires x.GatesNonZero() && 0 <= lo && t <= x.T && 0 <= i < x.dk
    ensures Decay(x, lo, t, i) != 0.0
    decreases t - lo
  {
    if lo < t { DecayNonZero(x, lo, t - 1, i); }
  }

  /** The state is affine in its start. */
  lemma {:induction false} StateAffine(x: Gla, lo: int, s0: real, t: int, i: int, j: int)
    requires lo <= t
    ensures State(x, lo, s0, t, i, j) == Decay(x, lo, t, i) * s0 + State(x, lo, 0.0, t, i, j)
    decreases t - lo
  {
    hide *;
    if lo < t {
      StateAffine(x, lo, s0, t - 1, i, j);
      StateStep(x, lo, s0, t, i, j);
      StateStep(x, lo, 0.0, t, i, j);
      DecayStep(x, lo, t, i);
      Distribute(x.a(t - 1, i), Decay(x, lo, t - 1, i) * s0, State(x, lo, 0.0, t - 1, i, j));
    } else {
      Edges(x, [], t, s0, 0.0, i, j);
      Edges(x, [], t, 0.0, 0.0, i, j);
    }
  }

  /** Stopping at mid and starting again there changes nothing. */
  lemma {:induction false} StateResume(x: Gla, lo: int, mid: int, s0: real, t: int, i: int, j: int)
    requires lo <= mid <= t
    ensures State(x, lo, s0, t, i, j) == State(x, mid, State(x, lo, s0, mid, i, j), t, i, j)
    decreases t - mid
  {
    hide *;
    if mid < t {
      StateResume(x, lo, mid, s0, t - 1, i, j);
      StateStep(x, lo, s0, t, i, j);
      StateStep(x, mid, State(x, lo, s0, mid, i, j), t, i, j);
    } else {
      Edges(x, [], t, State(x, lo, s0, mid, i, j), 0.0, i, j);
    }
  }

  /** The gradient is affine in the boundary gradient. */
  lemma {:induction false} AdjAffine(x: Gla, dO: Matrix, hi: int, e1: real, t: int, i: int, j: int)
    requires t <= hi
    ensures Adj(x, dO, hi, e1, t, i, j) == Decay(x, t, hi, i) * e1 + Adj(x, dO, hi, 0.0, t, i, j)
    decreases hi - t
  {
    hide *;
    if t < hi {
      AdjAffine(x, dO, hi, e1, t + 1, i, j);
      AdjStep(x, dO, hi, e1, t, i, j);
      AdjStep(x, dO, hi, 0.0, t, i, j);
      DecayFront(x, t, hi, i);
      Distribute(x.a(t, i), Decay(x, t + 1, hi, i) * e1, Total(x, dO, hi, 0.0, t, i, j));
    } else {
      Edges(x, dO, t, 0.0, e1, i, j);
      Edges(x, dO, t, 0.0, 0.0, i, j);
    }
  }

  lemma {:induction false} AdjResume(x: Gla, dO: Matrix, hi: int, mid: int, e1: real, t: int, i: int, j: int)
    requires t <= mid <= hi
    ensures Adj(x, dO, hi, e1, t, i, j) == Adj(x, dO, mid, Adj(x, dO, hi, e1, mid, i, j), t, i, j)
    decreases mid - t
  {
    hide *;
    if t < mid {
      AdjResume(x, dO, hi, mid, e1, t + 1, i, j);
      AdjStep(x, dO, hi, e1, t, i, j);
      AdjStep(x, dO, mid, Adj(x, dO, hi, e1, mid, i, j), t, i, j);
    } else {
      Edges(x, dO, mid, 0.0, Adj(x, dO, hi, e1, mid, i, j), i, j);
    }
  }

  lemma TotalResume(x: Gla, dO: Matrix, hi: int, mid: int, e1: real, t: int, i: int, j: int)
    requires t < mid <= hi
    ensures Total(x, dO, hi, e1, t, i, j) == Total(x, dO, mid, Adj(x, dO, hi, e1, mid, i, j), t, i, j)
  {
    hide *;
    AdjResume(x, dO, hi, mid, e1, t + 1, i, j);
    AdjStep(x, dO, hi, e1, t, i, j);
    AdjStep(x, dO, mid, Adj(x, dO, hi, e1, mid, i, j), t, i, j);
  }

  // ---------------------------------------------------------------------
  // A slice of tokens inside a longer sequence
  // ---------------------------------------------------------------------

  /** y holds the tokens of x from offset off on. */
  ghost predicate Embeds(x: Gla, y: Gla, off: int) {
    && 0 <= off && off + x.T <= y.T && x.dk == y.dk && x.dv == y.dv
    && (forall t, i | 0 <= t < x.T && 0 <= i < x.dk ::
          x.q(t, i) == y.q(off + t, i) && x.k(t, i) == y.k(off + t, i) && x.a(t, i) == y.a(off + t, i))
    && (forall t, j | 0 <= t < x.T && 0 <= j < x.dv :: x.v(t, j) == y.v(off + t, j))
  }

  ghost predicate EmbedsRows(m: Matrix, n: Matrix, rows: int, cols: int, off: int) {
    forall t, j | 0 <= t < rows && 0 <= j < cols :: At(m, t, j) == At(n, off + t, j)
  }

  lemma {:induction false} StateShift(x: Gla, y: Gla, off: int, s0: real, t: int, i: int, j: int)
    requires Embeds(x, y, off) && 0 <= t <= x.T && 0 <= i < x.dk && 0 <= j < x.dv
    ensures State(x, 0, s0, t, i, j) == State(y, off, s0, off + t, i, j)
    decreases t
  {
    if 0 < t { StateShift(x, y, off, s0, t - 1, i, j); }
  }

  lemma {:induction false} AdjShift(x: Gla, y: Gla, off: int, dO: Matrix, dOy: Matrix, e1: real, t: int, i: int, j: int)
    requires Embeds(x, y, off) && EmbedsRows(dO, dOy, x.T, x.dv, off)
    requires 0 <= t <= x.T && 0 <= i < x.dk && 0 <= j < x.dv
    ensures Adj(x, dO, x.T, e1, t, i, j) == Adj(y, dOy, off + x.T, e1, off + t, i, j)
    decreases x.T - t
  {
    if t < x.T { AdjShift(x, y, off, dO, dOy, e1, t + 1, i, j); }
  }

  lemma TotalShift(x: Gla, y: Gla, off: int, dO: Matrix, dOy: Matrix, e1: real, t: int, i: int, j: int)
    requires Embeds(x, y, off) && EmbedsRows(dO, dOy, x.T, x.dv, off)
    requires 0 <= t < x.T && 0 <= i < x.dk && 0 <= j < x.dv
    ensures Total(x, dO, x.T, e1, t, i, j) == Total(y, dOy, off + x.T, e1, off + t, i, j)
  {
    AdjShift(x, y, off, dO, dOy, e1, t + 1, i, j);
  }

  // ---------------------------------------------------------------------
  // Conservation: what lets the chunk form recover dA by a reverse sum
  // ---------------------------------------------------------------------

  function StateGrad(x: Gla, dO: Matrix, S0: Matrix, E1: Matrix, t: int, i: int): real {
    Sum(0, x.dv, j => Adj(x, dO, x.T, At(E1, i, j), t, i, j) * State(x, 0, At(S0, i, j), t, i, j))
  }

  /** a_t dA_t is the gradient met by the state before token t ... */
  lemma GateGradient(x: Gla, dO: Matrix, S0: Matrix, E1: Matrix, t: int, i: int)
    requires 0 <= t < x.T
    ensures x.a(t, i) * GradA(x, dO, S0, E1, t, i) == StateGrad(x, dO, S0, E1, t, i)
  {
    hide Adj, Total, State, Sum, Gla.a;
    var f := (j: int) => Total(x, dO, x.T, At(E1, i, j), t, i, j) * State(x, 0, At(S0, i, j), t, i, j);
    var g := (j: int) => Adj(x, dO, x.T, At(E1, i, j), t, i, j) * State(x, 0, At(S0, i, j), t, i, j);
    forall j | 0 <= j < x.dv ensures g(j) == x.a(t, i) * f(j) {
      AdjStep(x, dO, x.T, At(E1, i, j), t, i, j);
      Assoc(x.a(t, i), Total(x, dO, x.T, At(E1, i, j), t, i, j), State(x, 0, At(S0, i, j), t, i, j));
    }
    SumScale(0, x.dv, x.a(t, i), f, g);
  }

  /** ... and it loses q dQ - k dK from one token to the next. */
  lemma StateGradStep(x: Gla, dO: Matrix, S0: Matrix, E1: Matrix, t: int, i: int)
    requires 0 <= t < x.T
    ensures StateGrad(x, dO, S0, E1, t, i) == StateGrad(x, dO, S0, E1, t + 1, i) + TokenFlow(x, dO, S0, E1, t, i)
  {
    hide Adj, Total, State, Sum, Gla.q, Gla.k, Gla.v;
    var here := (j: int) => Adj(x, dO, x.T, At(E1, i, j), t, i, j) * State(x, 0, At(S0, i, j), t, i, j);
    var next := (j: int) => Adj(x, dO, x.T, At(E1, i, j), t + 1, i, j) * State(x, 0, At(S0, i, j), t + 1, i, j);
    var dq := (j: int) => At(dO, t, j) * State(x, 0, At(S0, i, j), t + 1, i, j);
    var dk := (j: int) => x.v(t, j) * Total(x, dO, x.T, At(E1, i, j), t, i, j);
    forall j | 0 <= j < x.dv
      ensures next(j) + x.q(t, i) * dq(j) == here(j) + x.k(t, i) * dk(j)
    {
      CellStep(x, dO, At(S0, i, j), At(E1, i, j), t, i, j);
    }
    SumBalance(0, x.dv, next, x.q(t, i), dq, here, x.k(t, i), dk);
  }

  lemma CellStep(x: Gla, dO: Matrix, s0: real, e1: real, t: int, i: int, j: int)
    requires 0 <= t < x.T
    ensures Adj(x, dO, x.T, e1, t + 1, i, j) * State(x, 0, s0, t + 1, i, j)
          + x.q(t, i) * (At(dO, t, j) * State(x, 0, s0, t + 1, i, j))
         == Adj(x, dO, x.T, e1, t, i, j) * State(x, 0, s0, t, i, j)
          + x.k(t, i) * (x.v(t, j) * Total(x, dO, x.T, e1, t, i, j))
  {
    hide *;
    StateStep(x, 0, s0, t + 1, i, j);
    AdjStep(x, dO, x.T, e1, t, i, j);
    CellBalance(x.a(t, i), x.k(t, i), x.v(t, j), x.q(t, i), At(dO, t, j), Adj(x, dO, x.T, e1, t + 1, i, j),
      State(x, 0, s0, t, i, j));
  }

  lemma CellBalance(a: real, k: real, v: real, q: real, o: real, e: real, s: real)
    ensures e * (a * s + k * v) + q * (o * (a * s + k * v)) == a * (q * o + e) * s + k * (v * (q * o + e))
  {}

  function TokenFlow(x: Gla, dO: Matrix, S0: Matrix, E1: Matrix, t: int, i: int): real {
    x.q(t, i) * GradQ(x, dO, S0, t, i) - x.k(t, i) * GradK(x, dO, E1, t, i)
  }

  /** Conservation over a window of tokens. */
  lemma {:induction false} WindowConservation(x: Gla, dO: Matrix, S0: Matrix, E1: Matrix, t: int, hi: int, i: int)
    requires 0 <= t <= hi <= x.T
    ensures StateGrad(x, dO, S0, E1, t, i)
         == Sum(t, hi, s => TokenFlow(x, dO, S0, E1, s, i)) + StateGrad(x, dO, S0, E1, hi, i)
    decreases hi - t
  {
    hide StateGrad, TokenFlow;
    if t < hi {
      StateGradStep(x, dO, S0, E1, hi - 1, i);
      WindowConservation(x, dO, S0, E1, t, hi - 1, i);
      SumLast(t, hi, s => TokenFlow(x, dO, S0, E1, s, i));
    }
  }

  lemma StateGradEnd(x: Gla, dO: Matrix, S0: Matrix, i: int)
    ensures StateGrad(x, dO, S0, NOTHING, x.T, i) == 0.0
  {
    SumZero(0, x.dv, j => Adj(x, dO, x.T, At(NOTHING, i, j), x.T, i, j) * State(x, 0, At(S0, i, j), x.T, i, j));
  }

  /** The gate gradient of the golden is a reverse cumulative sum of q dQ - k dK. */
  lemma GateConservation(x: Gla, dO: Matrix, t: int, i: int)
    requires 0 <= t < x.T
    ensures x.a(t, i) * GradA(x, dO, NOTHING, NOTHING, t, i)
         == Sum(t, x.T, s => TokenFlow(x, dO, NOTHING, NOTHING, s, i))
  {
    GateGradient(x, dO, NOTHING, NOTHING, t, i);
    WindowConservation(x, dO, NOTHING, NOTHING, t, x.T, i);
    StateGradEnd(x, dO, NOTHING, i);
  }

}

/** expected_gla_backward returns the gradient of expected_gla: along every
    direction, the change of the outputs weighted by dO equals the four
    returned gradients weighted by the direction. The same holds with a
    boundary state before the first token and a boundary gradient after the
    last. */
module Gradient {
  import opened Tensor
  import opened Gla

  // ---------------------------------------------------------------------
  // Forward-mode derivative along a direction: d of the inputs, s1 (or S1) of
  // the boundary state s0 (or S0)
  // ---------------------------------------------------------------------

  function StateDot(x: Gla, d: Gla, s0: real, s1: real, t: int, i: int, j: int): real
    decreases t
  {
    if t <= 0 then s1 else
      d.a(t - 1, i) * State(x, 0, s0, t - 1, i, j) + x.a(t - 1, i) * StateDot(x, d, s0, s1, t - 1, i, j)
      + (d.k(t - 1, i) * x.v(t - 1, j) + x.k(t - 1, i) * d.v(t - 1, j))
  }

  function OutDot(x: Gla, d: Gla, S0: Matrix, S1: Matrix, t: int, j: int): real {
    Sum(0, x.dk, i => OutCellDot(x, d, At(S0, i, j), At(S1, i, j), t, i, j))
  }

  function OutCellDot(x: Gla, d: Gla, s0: real, s1: real, t: int, i: int, j: int): real {
    d.q(t, i) * State(x, 0, s0, t + 1, i, j) + x.q(t, i) * StateDot(x, d, s0, s1, t + 1, i, j)
  }

  /** x moved by h along d. */
  function Moved(x: Gla, d: Gla, h: real): Gla {
    Gla(x.T, x.dk, x.dv,
      Tab(x.T, x.dk, (t, i) => x.q(t, i) + h * d.q(t, i)),
      Tab(x.T, x.dk, (t, i) => x.k(t, i) + h * d.k(t, i)),
      Tab(x.T, x.dv, (t, j) => x.v(t, j) + h * d.v(t, j)),
      Tab(x.T, x.dk, (t, i) => x.a(t, i) + h * d.a(t, i)))
  }

  /** The boundary state moved by h along S1. */
  function MovedStart(x: Gla, S0: Matrix, S1: Matrix, h: real): Matrix {
    Tab(x.dk, x.dv, (i, j) => At(S0, i, j) + h * At(S1, i, j))
  }

  /** What is left of the moved state after its first-order part, over h^2. */
  function StateRest(x: Gla, d: Gla, s0: real, s1: real, h: real, t: int, i: int, j: int): real
    decreases t
  {
    if t <= 0 then 0.0 else
      (x.a(t - 1, i) + h * d.a(t - 1, i)) * StateRest(x, d, s0, s1, h, t - 1, i, j)
      + (d.a(t - 1, i) * StateDot(x, d, s0, s1, t - 1, i, j) + d.k(t - 1, i) * d.v(t - 1, j))
  }

  function OutRest(x: Gla, d: Gla, S0: Matrix, S1: Matrix, h: real, t: int, j: int): real {
    Sum(0, x.dk, i => OutCellRest(x, d, At(S0, i, j), At(S1, i, j), h, t, i, j))
  }

  function OutCellRest(x: Gla, d: Gla, s0: real, s1: real, h: real, t: int, i: int, j: int): real {
    (x.q(t, i) + h * d.q(t, i)) * StateRest(x, d, s0, s1, h, t + 1, i, j)
      + d.q(t, i) * StateDot(x, d, s0, s1, t + 1, i, j)
  }

  lemma RestStep(a: real, da: real, k: real, dk: real, v: real, dv: real, h: real, s: real, sd: real, r: real)
    ensures (a + h * da) * (s + h * sd + h * h * r) + (k + h * dk) * (v + h * dv)
         == (a * s + k * v) + h * (da * s + a * sd + (dk * v + k * dv))
           + h * h * ((a + h * da) * r + (da * sd + dk * dv))
  {}

  lemma {:induction false} StateExpansion(x: Gla, d: Gla, s0: real, s1: real, h: real, y0: real, t: int, i: int, j: int)
    requires 0 <= t <= x.T && 0 <= i < x.dk && 0 <= j < x.dv && y0 == s0 + h * s1
    ensures State(Moved(x, d, h), 0, y0, t, i, j)
         == State(x, 0, s0, t, i, j) + h * StateDot(x, d, s0, s1, t, i, j) + h * h * StateRest(x, d, s0, s1, h, t, i, j)
    decreases t
  {
    hide *;
    if 0 < t {
      StateExpansion(x, d, s0, s1, h, y0, t - 1, i, j);
      MovedAt(x, d, h, t - 1, i, j);
      StateStep(Moved(x, d, h), 0, y0, t, i, j);
      StateStep(x, 0, s0, t, i, j);
      DotStep(x, d, s0, s1, h, t, i, j);
      RestStep(x.a(t - 1, i), d.a(t - 1, i), x.k(t - 1, i), d.k(t - 1, i), x.v(t - 1, j), d.v(t - 1, j), h,
        State(x, 0, s0, t - 1, i, j), StateDot(x, d, s0, s1, t - 1, i, j), StateRest(x, d, s0, s1, h, t - 1, i, j));
    } else {
      Edges(x, [], 0, s0, 0.0, i, j);
      Edges(Moved(x, d, h), [], 0, y0, 0.0, i, j);
      DotStart(x, d, s0, s1, h, i, j);
    }
  }

  lemma MovedAt(x: Gla, d: Gla, h: real, t: int, i: int, j: int)
    requires 0 <= t < x.T && 0 <= i < x.dk && 0 <= j < x.dv
    ensures Moved(x, d, h).q(t, i) == x.q(t, i) + h * d.q(t, i)
    ensures Moved(x, d, h).k(t, i) == x.k(t, i) + h * d.k(t, i)
    ensures Moved(x, d, h).v(t, j) == x.v(t, j) + h * d.v(t, j)
    ensures Moved(x, d, h).a(t, i) == x.a(t, i) + h * d.a(t, i)
  {}

  lemma MovedGate(x: Gla, d: Gla, h: real, t: int, i: int)
    requires 0 <= t < x.T && 0 <= i < x.dk
    ensures Moved(x, d, h).a(t, i) == x.a(t, i) + h * d.a(t, i)
  {}

  lemma MovedStartAt(x: Gla, S0: Matrix, S1: Matrix, h: real, i: int, j: int, y0: real)
    requires 0 <= i < x.dk && 0 <= j < x.dv && y0 == At(MovedStart(x, S0, S1, h), i, j)
    ensures y0 == At(S0, i, j) + h * At(S1, i, j)
  {}

  lemma MovedSize(x: Gla, d: Gla, h: real)
    ensures Moved(x, d, h).T == x.T && Moved(x, d, h).dk == x.dk && Moved(x, d, h).dv == x.dv
  {}

  lemma DotStep(x: Gla, d: Gla, s0: real, s1: real, h: real, t: int, i: int, j: int)
    requires 0 < t
    ensures StateDot(x, d, s0, s1, t, i, j)
         == d.a(t - 1, i) * State(x, 0, s0, t - 1, i, j) + x.a(t - 1, i) * StateDot(x, d, s0, s1, t - 1, i, j)
          + (d.k(t - 1, i) * x.v(t - 1, j) + x.k(t - 1, i) * d.v(t - 1, j))
    ensures StateRest(x, d, s0, s1, h, t, i, j)
         == (x.a(t - 1, i) + h * d.a(t - 1, i)) * StateRest(x, d, s0, s1, h, t - 1, i, j)
          + (d.a(t - 1, i) * StateDot(x, d, s0, s1, t - 1, i, j) + d.k(t - 1, i) * d.v(t - 1, j))
  {
    hide State, Gla.a, Gla.k, Gla.v;
  }

  lemma DotStart(x: Gla, d: Gla, s0: real, s1: real, h: real, i: int, j: int)
    ensures StateDot(x, d, s0, s1, 0, i, j) == s1 && StateRest(x, d, s0, s1, h, 0, i, j) == 0.0
  {}

  lemma OutCell(q: real, dq: real, h: real, s: real, sd: real, r: real, mq: real, ms: real)
    requires mq == q + h * dq && ms == s + h * sd + h * h * r
    ensures mq * ms == q * s + h * (dq * s + q * sd) + h * h * ((q + h * dq) * r + dq * sd)
  {}

  lemma OutCellAt(x: Gla, d: Gla, s0: real, s1: real, h: real, y0: real, t: int, i: int, j: int, dot: real, rest: real)
    requires 0 <= t < x.T && 0 <= i < x.dk && 0 <= j < x.dv && y0 == s0 + h * s1
    requires dot == OutCellDot(x, d, s0, s1, t, i, j) && rest == OutCellRest(x, d, s0, s1, h, t, i, j)
    ensures Moved(x, d, h).q(t, i) * State(Moved(x, d, h), 0, y0, t + 1, i, j)
      == x.q(t, i) * State(x, 0, s0, t + 1, i, j) + h * dot + h * h * rest
  {
    hide State, StateDot, StateRest, Moved, Gla.q, Gla.k, Gla.v, Gla.a;
    StateExpansion(x, d, s0, s1, h, y0, t + 1, i, j);
    MovedAt(x, d, h, t, i, j);
    OutCell(x.q(t, i), d.q(t, i), h, State(x, 0, s0, t + 1, i, j), StateDot(x, d, s0, s1, t + 1, i, j),
      StateRest(x, d, s0, s1, h, t + 1, i, j), Moved(x, d, h).q(t, i), State(Moved(x, d, h), 0, y0, t + 1, i, j));
  }

  /** OutDot is the derivative of the output: the outputs at x + h d and
      S0 + h S1 are the outputs at x and S0, plus h OutDot, plus h^2 times a
      polynomial in h. */
  lemma OutExpansion(x: Gla, d: Gla, S0: Matrix, S1: Matrix, h: real, t: int, j: int)
    requires 0 <= t < x.T && 0 <= j < x.dv
    ensures Out(Moved(x, d, h), MovedStart(x, S0, S1, h), t, j)
         == Out(x, S0, t, j) + h * OutDot(x, d, S0, S1, t, j) + h * h * OutRest(x, d, S0, S1, h, t, j)
  {
    hide State, Sum, OutCellDot, OutCellRest, At, Moved, MovedStart, Gla.q;
    var y, Y0 := Moved(x, d, h), MovedStart(x, S0, S1, h);
    MovedSize(x, d, h);
    var moved := (i: int) => y.q(t, i) * State(y, 0, At(Y0, i, j), t + 1, i, j);
    var zeroth := (i: int) => x.q(t, i) * State(x, 0, At(S0, i, j), t + 1, i, j);
    var first := (i: int) => OutCellDot(x, d, At(S0, i, j), At(S1, i, j), t, i, j);
    var rest := (i: int) => OutCellRest(x, d, At(S0, i, j), At(S1, i, j), h, t, i, j);
    forall i | 0 <= i < x.dk ensures moved(i) == zeroth(i) + h * first(i) + h * h * rest(i) {
      MovedStartAt(x, S0, S1, h, i, j, At(Y0, i, j));
      OutCellAt(x, d, At(S0, i, j), At(S1, i, j), h, At(Y0, i, j), t, i, j, first(i), rest(i));
    }
    SumExpand(x.dk, moved, zeroth, h, first, h * h, rest);
  }

  // ---------------------------------------------------------------------
  // The adjoint identity
  // ---------------------------------------------------------------------

  /** <dO_t, OutDot_t> */
  function OutPairing(x: Gla, d: Gla, dO: Matrix, S0: Matrix, S1: Matrix, t: int): real {
    Sum(0, x.dv, j => At(dO, t, j) * OutDot(x, d, S0, S1, t, j))
  }

  /** <dQ_t, Qdot_t> + <dK_t, Kdot_t> + <dA_t, Adot_t> */
  function KeyPairing(x: Gla, d: Gla, dO: Matrix, S0: Matrix, E1: Matrix, t: int): real {
    Sum(0, x.dk, i => d.q(t, i) * GradQ(x, dO, S0, t, i) + d.k(t, i) * GradK(x, dO, E1, t, i)
                    + d.a(t, i) * GradA(x, dO, S0, E1, t, i))
  }

  /** <dV_t, Vdot_t> */
  function ValuePairing(x: Gla, d: Gla, dO: Matrix, E1: Matrix, t: int): real {
    Sum(0, x.dv, j => d.v(t, j) * GradV(x, dO, E1, t, j))
  }

  /** What the state before token t still has to deliver. */
  function Pending(x: Gla, d: Gla, dO: Matrix, S0: Matrix, S1: Matrix, E1: Matrix, t: int): real {
    Cells(x.dk, x.dv, (i, j) => PendingCell(x, d, dO, At(S0, i, j), At(S1, i, j), At(E1, i, j), t, i, j))
  }

  function PendingCell(x: Gla, d: Gla, dO: Matrix, s0: real, s1: real, e1: real, t: int, i: int, j: int): real {
    Adj(x, dO, x.T, e1, t, i, j) * StateDot(x, d, s0, s1, t, i, j)
  }

  function DeliveredCell(x: Gla, d: Gla, dO: Matrix, s0: real, s1: real, t: int, i: int, j: int): real {
    At(dO, t, j) * OutCellDot(x, d, s0, s1, t, i, j)
  }

  function KeyCell(x: Gla, d: Gla, dO: Matrix, s0: real, e1: real, t: int, i: int, j: int): real {
    d.q(t, i) * (At(dO, t, j) * State(x, 0, s0, t + 1, i, j))
    + d.k(t, i) * (x.v(t, j) * Total(x, dO, x.T, e1, t, i, j))
    + d.a(t, i) * (Total(x, dO, x.T, e1, t, i, j) * State(x, 0, s0, t, i, j))
  }

  function ValueCell(x: Gla, d: Gla, dO: Matrix, e1: real, t: int, i: int, j: int): real {
    d.v(t, j) * (x.k(t, i) * Total(x, dO, x.T, e1, t, i, j))
  }

  lemma OutCells(x: Gla, d: Gla, dO: Matrix, S0: Matrix, S1: Matrix, t: int)
    ensures OutPairing(x, d, dO, S0, S1, t)
         == Cells(x.dk, x.dv, (i, j) => DeliveredCell(x, d, dO, At(S0, i, j), At(S1, i, j), t, i, j))
  {
    hide OutCellDot, At, Sum;
    var f := (i: int, j: int) => DeliveredCell(x, d, dO, At(S0, i, j), At(S1, i, j), t, i, j);
    var col := (j: int) => At(dO, t, j) * OutDot(x, d, S0, S1, t, j);
    forall j | 0 <= j < x.dv ensures col(j) == Sum(0, x.dk, i => f(i, j)) {
      SumScale(0, x.dk, At(dO, t, j), i => OutCellDot(x, d, At(S0, i, j), At(S1, i, j), t, i, j), i => f(i, j));
    }
    CellsByColumns(x.dk, x.dv, f, col);
  }

  lemma ValueCells(x: Gla, d: Gla, dO: Matrix, E1: Matrix, t: int)
    ensures ValuePairing(x, d, dO, E1, t) == Cells(x.dk, x.dv, (i, j) => ValueCell(x, d, dO, At(E1, i, j), t, i, j))
  {
    hide Total, At, Sum, Gla.k, Gla.v;
    var f := (i: int, j: int) => ValueCell(x, d, dO, At(E1, i, j), t, i, j);
    var col := (j: int) => d.v(t, j) * GradV(x, dO, E1, t, j);
    forall j | 0 <= j < x.dv ensures col(j) == Sum(0, x.dk, i => f(i, j)) {
      SumScale(0, x.dk, d.v(t, j), i => x.k(t, i) * Total(x, dO, x.T, At(E1, i, j), t, i, j), i => f(i, j));
    }
    CellsByColumns(x.dk, x.dv, f, col);
  }

  lemma KeyCells(x: Gla, d: Gla, dO: Matrix, S0: Matrix, E1: Matrix, t: int)
    ensures KeyPairing(x, d, dO, S0, E1, t)
      == Cells(x.dk, x.dv, (i, j) => KeyCell(x, d, dO, At(S0, i, j), At(E1, i, j), t, i, j))
  {
    hide KeyCell, GradQ, GradK, GradA, At, Gla.q, Gla.k, Gla.v, Gla.a;
    var f := (i: int, j: int) => KeyCell(x, d, dO, At(S0, i, j), At(E1, i, j), t, i, j);
    var row := (i: int) => d.q(t, i) * GradQ(x, dO, S0, t, i) + d.k(t, i) * GradK(x, dO, E1, t, i)
                         + d.a(t, i) * GradA(x, dO, S0, E1, t, i);
    forall i | 0 <= i < x.dk ensures row(i) == Sum(0, x.dv, j => f(i, j)) {
      KeyRow(x, d, dO, S0, E1, t, i);
      SumExt(0, x.dv, j => KeyCell(x, d, dO, At(S0, i, j), At(E1, i, j), t, i, j), j => f(i, j));
    }
    CellsByRows(x.dk, x.dv, f, row);
  }

  lemma KeyRow(x: Gla, d: Gla, dO: Matrix, S0: Matrix, E1: Matrix, t: int, i: int)
    ensures d.q(t, i) * GradQ(x, dO, S0, t, i) + d.k(t, i) * GradK(x, dO, E1, t, i)
      + d.a(t, i) * GradA(x, dO, S0, E1, t, i)
         == Sum(0, x.dv, j => KeyCell(x, d, dO, At(S0, i, j), At(E1, i, j), t, i, j))
  {
    hide Total, State, Sum, At, Gla.q, Gla.k, Gla.v, Gla.a;
    SumThree(x.dv, j => KeyCell(x, d, dO, At(S0, i, j), At(E1, i, j), t, i, j),
      d.q(t, i), j => At(dO, t, j) * State(x, 0, At(S0, i, j), t + 1, i, j),
      d.k(t, i), j => x.v(t, j) * Total(x, dO, x.T, At(E1, i, j), t, i, j),
      d.a(t, i), j => Total(x, dO, x.T, At(E1, i, j), t, i, j) * State(x, 0, At(S0, i, j), t, i, j));
  }

  lemma PairCell(o: real, q: real, dq: real, a: real, da: real, k: real, dk: real, v: real, dv: real, e: real, s: real,
                 sd: real)
    ensures o * (dq * (a * s + k * v) + q * (da * s + a * sd + (dk * v + k * dv)))
      + e * (da * s + a * sd + (dk * v + k * dv))
         == dq * (o * (a * s + k * v)) + dk * (v * (q * o + e)) + da * ((q * o + e) * s) + dv * (k * (q * o + e))
           + a * (q * o + e) * sd
  {}

  lemma PairCellAt(x: Gla, d: Gla, dO: Matrix, s0: real, s1: real, e1: real, t: int, i: int, j: int)
    requires 0 <= t < x.T
    ensures DeliveredCell(x, d, dO, s0, s1, t, i, j) + PendingCell(x, d, dO, s0, s1, e1, t + 1, i, j)
         == KeyCell(x, d, dO, s0, e1, t, i, j) + ValueCell(x, d, dO, e1, t, i, j)
           + PendingCell(x, d, dO, s0, s1, e1, t, i, j)
  {
    hide State, StateDot, Adj, Total, At, Gla.q, Gla.k, Gla.v, Gla.a;
    StateStep(x, 0, s0, t + 1, i, j);
    DotStep(x, d, s0, s1, 0.0, t + 1, i, j);
    AdjStep(x, dO, x.T, e1, t, i, j);
    PairCell(At(dO, t, j), x.q(t, i), d.q(t, i), x.a(t, i), d.a(t, i), x.k(t, i), d.k(t, i), x.v(t, j), d.v(t, j),
      Adj(x, dO, x.T, e1, t + 1, i, j), State(x, 0, s0, t, i, j), StateDot(x, d, s0, s1, t, i, j));
  }

  /** One token delivers its outputs' change and hands the rest on. */
  lemma PairStep(x: Gla, d: Gla, dO: Matrix, S0: Matrix, S1: Matrix, E1: Matrix, t: int)
    requires 0 <= t < x.T
    ensures OutPairing(x, d, dO, S0, S1, t) + Pending(x, d, dO, S0, S1, E1, t + 1)
         == KeyPairing(x, d, dO, S0, E1, t) + ValuePairing(x, d, dO, E1, t) + Pending(x, d, dO, S0, S1, E1, t)
  {
    hide DeliveredCell, PendingCell, KeyCell, ValueCell, Cells, OutPairing, KeyPairing, ValuePairing, At;
    var o := (i: int, j: int) => DeliveredCell(x, d, dO, At(S0, i, j), At(S1, i, j), t, i, j);
    var w1 := (i: int, j: int) => PendingCell(x, d, dO, At(S0, i, j), At(S1, i, j), At(E1, i, j), t + 1, i, j);
    var w0 := (i: int, j: int) => PendingCell(x, d, dO, At(S0, i, j), At(S1, i, j), At(E1, i, j), t, i, j);
    var ky := (i: int, j: int) => KeyCell(x, d, dO, At(S0, i, j), At(E1, i, j), t, i, j);
    var vl := (i: int, j: int) => ValueCell(x, d, dO, At(E1, i, j), t, i, j);
    OutCells(x, d, dO, S0, S1, t);
    KeyCells(x, d, dO, S0, E1, t);
    ValueCells(x, d, dO, E1, t);
    forall i, j | 0 <= i < x.dk && 0 <= j < x.dv ensures o(i, j) + w1(i, j) == ky(i, j) + vl(i, j) + w0(i, j) {
      PairCellAt(x, d, dO, At(S0, i, j), At(S1, i, j), At(E1, i, j), t, i, j);
    }
    CellsFive(x.dk, x.dv, o, w1, ky, vl, w0);
  }

  lemma CellsFive(n: int, m: int, o: (int, int) -> real, w1: (int, int) -> real, ky: (int, int) -> real,
                  vl: (int, int) -> real, w0: (int, int) -> real)
    requires forall i, j | 0 <= i < n && 0 <= j < m :: o(i, j) + w1(i, j) == ky(i, j) + vl(i, j) + w0(i, j)
    ensures Cells(n, m, o) + Cells(n, m, w1) == Cells(n, m, ky) + Cells(n, m, vl) + Cells(n, m, w0)
  {
    hide Cells;
    var left := (i, j) => o(i, j) + w1(i, j);
    var mid := (i, j) => ky(i, j) + vl(i, j);
    CellsAdd(n, m, o, w1, left);
    CellsAdd(n, m, ky, vl, mid);
    CellsAdd(n, m, mid, w0, left);
  }

  lemma {:induction false} PairPrefix(x: Gla, d: Gla, dO: Matrix, S0: Matrix, S1: Matrix, E1: Matrix, t: int)
    requires 0 <= t <= x.T
    ensures Sum(0, t, s => OutPairing(x, d, dO, S0, S1, s)) + Pending(x, d, dO, S0, S1, E1, t)
         == Sum(0, t, s => KeyPairing(x, d, dO, S0, E1, s)) + Sum(0, t, s => ValuePairing(x, d, dO, E1, s))
          + Pending(x, d, dO, S0, S1, E1, 0)
    decreases t
  {
    hide OutPairing, KeyPairing, ValuePairing, Pending;
    if 0 < t {
      PairPrefix(x, d, dO, S0, S1, E1, t - 1);
      PairStep(x, d, dO, S0, S1, E1, t - 1);
    }
  }

  /** <E1, the derivative of the last state> */
  function EndPairing(x: Gla, d: Gla, S0: Matrix, S1: Matrix, E1: Matrix): real {
    Cells(x.dk, x.dv, (i, j) => At(E1, i, j) * StateDot(x, d, At(S0, i, j), At(S1, i, j), x.T, i, j))
  }

  /** <the gradient of the boundary state, S1> */
  function StartPairing(x: Gla, dO: Matrix, S1: Matrix, E1: Matrix): real {
    Cells(x.dk, x.dv, (i, j) => Adj(x, dO, x.T, At(E1, i, j), 0, i, j) * At(S1, i, j))
  }

  /** The five gradients with boundaries are the gradient of the outputs
      weighted by dO and of the last state weighted by E1. */
  lemma BoundaryGradient(x: Gla, d: Gla, dO: Matrix, S0: Matrix, S1: Matrix, E1: Matrix)
    ensures Sum(0, x.T, t => OutPairing(x, d, dO, S0, S1, t)) + EndPairing(x, d, S0, S1, E1)
         == Sum(0, x.T, t => KeyPairing(x, d, dO, S0, E1, t)) + Sum(0, x.T, t => ValuePairing(x, d, dO, E1, t))
          + StartPairing(x, dO, S1, E1)
  {
    hide OutPairing, KeyPairing, ValuePairing, At, Sum;
    PairPrefix(x, d, dO, S0, S1, E1, x.T);
    CellsExt(x.dk, x.dv, (i, j) => PendingCell(x, d, dO, At(S0, i, j), At(S1, i, j), At(E1, i, j), x.T, i, j),
      (i, j) => At(E1, i, j) * StateDot(x, d, At(S0, i, j), At(S1, i, j), x.T, i, j));
    CellsExt(x.dk, x.dv, (i, j) => PendingCell(x, d, dO, At(S0, i, j), At(S1, i, j), At(E1, i, j), 0, i, j),
      (i, j) => Adj(x, dO, x.T, At(E1, i, j), 0, i, j) * At(S1, i, j));
  }

  /** The golden's gradients are the gradient of the golden's outputs. */
  lemma TrueGradient(x: Gla, d: Gla, dO: Matrix)
    ensures Sum(0, x.T, t => OutPairing(x, d, dO, NOTHING, NOTHING, t))
         == Sum(0, x.T, t => KeyPairing(x, d, dO, NOTHING, NOTHING, t))
           + Sum(0, x.T, t => ValuePairing(x, d, dO, NOTHING, t))
  {
    hide OutPairing, KeyPairing, ValuePairing, StateDot, Adj, Sum;
    BoundaryGradient(x, d, dO, NOTHING, NOTHING, NOTHING);
    CellsZero(x.dk, x.dv,
      (i, j) => At(NOTHING, i, j) * StateDot(x, d, At(NOTHING, i, j), At(NOTHING, i, j), x.T, i, j));
    CellsZero(x.dk, x.dv, (i, j) => Adj(x, dO, x.T, At(NOTHING, i, j), 0, i, j) * At(NOTHING, i, j));
  }
}

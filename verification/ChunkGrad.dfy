/** The per-chunk products of gla_chunk_backward, and why they are the
    gradients of the token recurrence. */
module ChunkGrad {
  import opened Tensor
  import opened Gla
  import opened Chunk

  /** dsc = tril(dO_n @ v^T) */
  function Dscores(x: Gla, dO: Matrix, lo: int, C: nat): Matrix {
    Tab(C, C, (t, s) => if s <= t then Sum(0, x.dv, j => At(dO, lo + t, j) * x.v(lo + s, j)) else 0.0)
  }

  /** dQt = dO_n @ H^T + dsc @ Kintra */
  function DQt(x: Gla, dO: Matrix, c: Chunk, H: Matrix, dsc: Matrix, lo: int, C: nat, t: int, i: int): real {
    Sum(0, x.dv, j => At(dO, lo + t, j) * At(H, i, j)) + Sum(0, C, s => At(dsc, t, s) * At(c.kin, s, i))
  }

  /** dKintra = dsc^T @ Qt */
  function DKintra(c: Chunk, dsc: Matrix, C: nat, s: int, i: int): real {
    Sum(0, C, t => At(dsc, t, s) * At(c.qt, t, i))
  }

  /** The two halves of dK: dKintra / b and dKstate * (gamma / b). */
  function KIntra(x: Gla, dO: Matrix, lo: int, C: nat, t: int, i: int): real {
    var c := Recompute(x, lo, C);
    Quot(DKintra(c, Dscores(x, dO, lo, C), C, t, i), At(c.b, t, i))
  }

  function KState(x: Gla, dS: Matrix, lo: int, C: nat, t: int, i: int): real {
    var c := Recompute(x, lo, C);
    DKstate(x, dS, lo, t, i) * Quot(El(c.gamma, i), At(c.b, t, i))
  }

  /** scores^T @ dO_n */
  function ScoresDO(c: Chunk, dO: Matrix, lo: int, C: nat, s: int, j: int): real {
    Sum(0, C, t => At(c.scores, t, s) * At(dO, lo + t, j))
  }

  /** dH = Qt^T @ dO_n */
  function QtDO(c: Chunk, dO: Matrix, lo: int, C: nat, i: int, j: int): real {
    Sum(0, C, t => At(c.qt, t, i) * At(dO, lo + t, j))
  }

  /** dKstate = v @ dSloc^T */
  function DKstate(x: Gla, dS: Matrix, lo: int, t: int, i: int): real {
    Sum(0, x.dv, j => x.v(lo + t, j) * At(dS, i, j))
  }

  /** Kstate @ dSloc */
  function KstateDS(x: Gla, c: Chunk, dS: Matrix, t: int, j: int): real {
    Sum(0, x.dk, i => At(c.kstate, t, i) * At(dS, i, j))
  }

  ghost predicate InChunk(x: Gla, lo: int, C: nat) {
    x.GatesNonZero() && 0 <= lo && lo + C <= x.T
  }

  // ---------------------------------------------------------------------
  // Total gradient of a token's state, inside its chunk
  // ---------------------------------------------------------------------

  /** b_t D_t = sum of later Qt dO in the chunk + gamma times the gradient
      arriving from later chunks. */
  lemma TotalInChunk(x: Gla, dO: Matrix, lo: int, C: nat, e1: real, t: int, i: int, j: int)
    requires 0 <= lo && lo + C <= x.T && 0 <= t < C
    ensures Decay(x, lo, lo + t + 1, i) * Total(x, dO, x.T, e1, lo + t, i, j)
         == QdO(x, dO, lo, C, t, i, j) + Decay(x, lo, lo + C, i) * Adj(x, dO, x.T, e1, lo + C, i, j)
  {
    hide *;
    TotalResume(x, dO, x.T, lo + C, e1, lo + t, i, j);
    AdjClosed(x, dO, lo, C, Adj(x, dO, x.T, e1, lo + C, i, j), t, i, j);
  }

  lemma QtDOTail(x: Gla, dO: Matrix, lo: int, C: nat, t: int, i: int, j: int)
    requires 0 <= t <= C && 0 <= i < x.dk
    ensures Sum(t, C, s => At(Recompute(x, lo, C).qt, s, i) * At(dO, lo + s, j)) == QdO(x, dO, lo, C, t, i, j)
  {
    hide Decay, At, Sum, Recompute, Gla.q;
    var f := (s: int) => At(Recompute(x, lo, C).qt, s, i) * At(dO, lo + s, j);
    var g := (s: int) => x.q(lo + s, i) * Decay(x, lo, lo + s + 1, i) * At(dO, lo + s, j);
    forall s | t <= s < C ensures f(s) == g(s) { RecomputeAt(x, lo, C, s, i); }
    SumExt(t, C, f, g);
  }

  /** gamma * dSloc + dH is the gradient of the state before the chunk. */
  lemma StateGradientStep(x: Gla, dO: Matrix, lo: int, C: nat, e1: real, dS: real, i: int, j: int)
    requires 0 <= lo && lo + C <= x.T && 0 < C && 0 <= i < x.dk
    requires dS == Adj(x, dO, x.T, e1, lo + C, i, j)
    ensures El(Recompute(x, lo, C).gamma, i) * dS + QtDO(Recompute(x, lo, C), dO, lo, C, i, j)
      == Adj(x, dO, x.T, e1, lo, i, j)
  {
    hide Decay, At, El, Sum, Recompute, Adj, Total, QdO;
    RecomputeAt(x, lo, C, 0, i);
    QtDOTail(x, dO, lo, C, 0, i, j);
    AdjClosed(x, dO, lo, C, dS, 0, i, j);
    AdjResume(x, dO, x.T, lo + C, e1, lo, i, j);
    Edges(x, dO, lo, 0.0, 0.0, i, j);
  }

  // ---------------------------------------------------------------------
  // dQ
  // ---------------------------------------------------------------------

  lemma DscAt(x: Gla, dO: Matrix, lo: int, C: nat, t: int, s: int)
    requires 0 <= t < C && 0 <= s < C
    ensures At(Dscores(x, dO, lo, C), t, s)
      == if s <= t then Sum(0, x.dv, j => At(dO, lo + t, j) * x.v(lo + s, j)) else 0.0
  {
    hide Sum, At, Gla.v;
  }

  lemma DscKin(x: Gla, dO: Matrix, lo: int, C: nat, t: int, i: int)
    requires 0 <= t < C && 0 <= i < x.dk
    ensures Sum(0, C, s => At(Dscores(x, dO, lo, C), t, s) * At(Recompute(x, lo, C).kin, s, i))
         == Sum(0, x.dv, j => At(dO, lo + t, j) * KV(x, lo, t + 1, i, j))
  {
    hide Sum, At, Gla.v, Recompute, Dscores, KV;
    var c, dsc := Recompute(x, lo, C), Dscores(x, dO, lo, C);
    var u := (j: int) => At(dO, lo + t, j);
    var w := (s: int, j: int) => x.v(lo + s, j);
    var z := (s: int) => At(c.kin, s, i);
    var score := (s: int) => At(dsc, t, s);
    var lhs := (s: int) => At(dsc, t, s) * At(c.kin, s, i);
    var rhs := (j: int) => At(dO, lo + t, j) * KV(x, lo, t + 1, i, j);
    forall s | 0 <= s < C ensures score(s) == if 0 <= s < t + 1 then Sum(0, x.dv, j => u(j) * w(s, j)) else 0.0 {
      DscAt(x, dO, lo, C, t, s);
      SumExt(0, x.dv, j => u(j) * w(s, j), j => At(dO, lo + t, j) * x.v(lo + s, j));
    }
    forall j | 0 <= j < x.dv ensures rhs(j) == u(j) * Sum(0, t + 1, s => w(s, j) * z(s)) {
      KinV(x, lo, C, t + 1, i, j);
      SumExt(0, t + 1, s => w(s, j) * z(s), s => At(c.kin, s, i) * x.v(lo + s, j));
    }
    MaskedSwap(C, 0, t + 1, x.dv, u, w, z, score, lhs, rhs);
  }

  lemma ChunkDQ(x: Gla, dO: Matrix, S0: Matrix, lo: int, C: nat, H: Matrix, t: int, i: int)
    requires InChunk(x, lo, C) && 0 <= t < C && 0 <= i < x.dk && HoldsState(x, S0, H, lo)
    ensures DQt(x, dO, Recompute(x, lo, C), H, Dscores(x, dO, lo, C), lo, C, t, i) * At(Recompute(x, lo, C).b, t, i)
         == GradQ(x, dO, S0, lo + t, i)
  {
    hide Sum, At, Recompute, Dscores, KV, State, Decay;
    var b := Decay(x, lo, lo + t + 1, i);
    var inter := (j: int) => At(dO, lo + t, j) * At(H, i, j);
    var intra := (j: int) => At(dO, lo + t, j) * KV(x, lo, t + 1, i, j);
    var grad := (j: int) => At(dO, lo + t, j) * State(x, 0, At(S0, i, j), lo + t + 1, i, j);
    RecomputeAt(x, lo, C, t, i);
    DscKin(x, dO, lo, C, t, i);
    forall j | 0 <= j < x.dv ensures grad(j) == b * inter(j) + b * intra(j) {
      OutputCell(x, At(S0, i, j), lo, C, At(H, i, j), t, i, j);
      DQCell(At(dO, lo + t, j), b, At(H, i, j), KV(x, lo, t + 1, i, j));
    }
    SumBoth(x.dv, b, inter, intra, grad);
  }

  lemma DQCell(o: real, b: real, h: real, kv: real)
    ensures o * (b * (h + kv)) == b * (o * h) + b * (o * kv)
  {}

  lemma {:induction false} SumBoth(n: nat, c: real, f: int -> real, g: int -> real, h: int -> real)
    requires forall j | 0 <= j < n :: h(j) == c * f(j) + c * g(j)
    ensures Sum(0, n, h) == (Sum(0, n, f) + Sum(0, n, g)) * c
  {
    if 0 < n {
      SumBoth(n - 1, c, f, g, h);
      Distribute(c, Sum(0, n - 1, f) + Sum(0, n - 1, g), f(n - 1) + g(n - 1));
      Distribute(c, f(n - 1), g(n - 1));
    }
  }

  // ---------------------------------------------------------------------
  // dK
  // ---------------------------------------------------------------------

  lemma DscQt(x: Gla, dO: Matrix, lo: int, C: nat, s: int, i: int)
    requires 0 <= s < C && 0 <= i < x.dk
    ensures DKintra(Recompute(x, lo, C), Dscores(x, dO, lo, C), C, s, i)
         == Sum(0, x.dv, j => x.v(lo + s, j) * QdO(x, dO, lo, C, s, i, j))
  {
    hide Sum, At, Gla.v, Recompute, Dscores, QdO;
    var c, dsc := Recompute(x, lo, C), Dscores(x, dO, lo, C);
    var u := (j: int) => x.v(lo + s, j);
    var w := (t: int, j: int) => At(dO, lo + t, j);
    var z := (t: int) => At(c.qt, t, i);
    var score := (t: int) => At(dsc, t, s);
    var lhs := (t: int) => At(dsc, t, s) * At(c.qt, t, i);
    var rhs := (j: int) => x.v(lo + s, j) * QdO(x, dO, lo, C, s, i, j);
    forall t | 0 <= t < C ensures score(t) == if s <= t < C then Sum(0, x.dv, j => u(j) * w(t, j)) else 0.0 {
      DscAt(x, dO, lo, C, t, s);
      SumExt(0, x.dv, j => u(j) * w(t, j), j => At(dO, lo + t, j) * x.v(lo + s, j));
    }
    forall j | 0 <= j < x.dv ensures rhs(j) == u(j) * Sum(s, C, t => w(t, j) * z(t)) {
      QtDOTail(x, dO, lo, C, s, i, j);
      SumExt(s, C, t => w(t, j) * z(t), t => At(c.qt, t, i) * At(dO, lo + t, j));
    }
    MaskedSwap(C, s, C, x.dv, u, w, z, score, lhs, rhs);
  }

  /** dK = dKintra / b + dKstate * (gamma / b) */
  lemma ChunkDK(x: Gla, dO: Matrix, E1: Matrix, lo: int, C: nat, dS: Matrix, t: int, i: int)
    requires InChunk(x, lo, C) && 0 <= t < C && 0 <= i < x.dk && HoldsAdj(x, dO, E1, dS, lo + C)
    ensures KIntra(x, dO, lo, C, t, i) + KState(x, dS, lo, C, t, i) == GradK(x, dO, E1, lo + t, i)
  {
    hide Sum, At, El, Recompute, Dscores, QdO, Adj, Total, Decay, Quot, DKintra, Gla.v;
    var b, g := Decay(x, lo, lo + t + 1, i), Decay(x, lo, lo + C, i);
    var intra := (j: int) => x.v(lo + t, j) * QdO(x, dO, lo, C, t, i, j);
    var state := (j: int) => x.v(lo + t, j) * At(dS, i, j);
    var grad := (j: int) => x.v(lo + t, j) * Total(x, dO, x.T, At(E1, i, j), lo + t, i, j);
    RecomputeAt(x, lo, C, t, i);
    DscQt(x, dO, lo, C, t, i);
    forall j | 0 <= j < x.dv ensures 0.0 + b * grad(j) == intra(j) + g * state(j) {
      TotalInChunk(x, dO, lo, C, At(E1, i, j), t, i, j);
      DKCell(x.v(lo + t, j), b, g, Total(x, dO, x.T, At(E1, i, j), lo + t, i, j), QdO(x, dO, lo, C, t, i, j),
        At(dS, i, j));
    }
    var zero := (j: int) => 0.0;
    SumZero(0, x.dv, zero);
    SumBalance(0, x.dv, zero, b, grad, intra, g, state);
    DecayNonZero(x, lo, lo + t + 1, i);
    Undivide(b, g, Sum(0, x.dv, intra), Sum(0, x.dv, state), Sum(0, x.dv, grad));
  }

  lemma DKCell(v: real, b: real, g: real, total: real, q: real, e: real)
    requires b * total == q + g * e
    ensures b * (v * total) == v * q + g * (v * e)
  {
    assert b * (v * total) == v * (b * total);
  }

  lemma Undivide(b: real, g: real, p: real, r: real, total: real)
    requires b != 0.0 && b * total == p + g * r
    ensures Quot(p, b) + r * Quot(g, b) == total
  {
    hide Inv;
    InvCancel(b);
    var y := Inv(b);
    assert (p + g * r) * y == p * y + r * (g * y);
    assert (b * total) * y == total * (b * y);
  }

  // ---------------------------------------------------------------------
  // dV
  // ---------------------------------------------------------------------

  lemma ScoresDOClosed(x: Gla, dO: Matrix, lo: int, C: nat, s: int, j: int)
    requires 0 <= s < C
    ensures ScoresDO(Recompute(x, lo, C), dO, lo, C, s, j)
         == Sum(0, x.dk, i => At(Recompute(x, lo, C).kin, s, i) * QdO(x, dO, lo, C, s, i, j))
  {
    hide Sum, At, Recompute, QdO;
    var c := Recompute(x, lo, C);
    var u := (i: int) => At(c.kin, s, i);
    var w := (t: int, i: int) => At(c.qt, t, i);
    var z := (t: int) => At(dO, lo + t, j);
    var score := (t: int) => At(c.scores, t, s);
    var lhs := (t: int) => At(c.scores, t, s) * At(dO, lo + t, j);
    var rhs := (i: int) => At(c.kin, s, i) * QdO(x, dO, lo, C, s, i, j);
    forall t | 0 <= t < C ensures score(t) == if s <= t < C then Sum(0, x.dk, i => u(i) * w(t, i)) else 0.0 {
      ScoreAt(x, lo, C, t, s);
      SumExt(0, x.dk, i => u(i) * w(t, i), i => At(c.qt, t, i) * At(c.kin, s, i));
    }
    forall i | 0 <= i < x.dk ensures rhs(i) == u(i) * Sum(s, C, t => w(t, i) * z(t)) {
      QtDOTail(x, dO, lo, C, s, i, j);
      SumExt(s, C, t => w(t, i) * z(t), t => At(c.qt, t, i) * At(dO, lo + t, j));
    }
    MaskedSwap(C, s, C, x.dk, u, w, z, score, lhs, rhs);
  }

  /** dV = scores^T @ dO + Kstate @ dSloc */
  lemma ChunkDV(x: Gla, dO: Matrix, E1: Matrix, lo: int, C: nat, dS: Matrix, t: int, j: int)
    requires InChunk(x, lo, C) && 0 <= t < C && 0 <= j < x.dv && HoldsAdj(x, dO, E1, dS, lo + C)
    ensures ScoresDO(Recompute(x, lo, C), dO, lo, C, t, j) + KstateDS(x, Recompute(x, lo, C), dS, t, j)
         == GradV(x, dO, E1, lo + t, j)
  {
    hide Sum, At, Recompute, QdO, Adj, Total, ScoresDO, Gla.k, InChunk;
    var c := Recompute(x, lo, C);
    var intra := (i: int) => At(c.kin, t, i) * QdO(x, dO, lo, C, t, i, j);
    var state := (i: int) => At(c.kstate, t, i) * At(dS, i, j);
    var grad := (i: int) => x.k(lo + t, i) * Total(x, dO, x.T, At(E1, i, j), lo + t, i, j);
    ScoresDOClosed(x, dO, lo, C, t, j);
    forall i | 0 <= i < x.dk ensures grad(i) == intra(i) + state(i) {
      DVCell(x, dO, At(E1, i, j), lo, C, At(dS, i, j), t, i, j);
    }
    SumAdd(0, x.dk, intra, state, grad);
  }

  lemma DVCell(x: Gla, dO: Matrix, e1: real, lo: int, C: nat, dS: real, t: int, i: int, j: int)
    requires InChunk(x, lo, C) && 0 <= t < C && 0 <= i < x.dk && dS == Adj(x, dO, x.T, e1, lo + C, i, j)
    ensures x.k(lo + t, i) * Total(x, dO, x.T, e1, lo + t, i, j)
         == At(Recompute(x, lo, C).kin, t, i) * QdO(x, dO, lo, C, t, i, j) + At(Recompute(x, lo, C).kstate, t, i) * dS
  {
    hide Adj, Total, QdO, Decay, Quot, At, Recompute, Gla.k;
    RecomputeAt(x, lo, C, t, i);
    DecayNonZero(x, lo, lo + t + 1, i);
    TotalInChunk(x, dO, lo, C, e1, t, i, j);
    var b, g := Decay(x, lo, lo + t + 1, i), Decay(x, lo, lo + C, i);
    UndivideScaled(x.k(lo + t, i), b, g, QdO(x, dO, lo, C, t, i, j), dS, Total(x, dO, x.T, e1, lo + t, i, j));
  }

  lemma UndivideScaled(k: real, b: real, g: real, q: real, e: real, total: real)
    requires b != 0.0 && b * total == q + g * e
    ensures k * total == Quot(k, b) * q + k * Quot(g, b) * e
  {
    hide Inv;
    InvCancel(b);
    var y := Inv(b);
    assert (q + g * e) * y == q * y + g * y * e;
    assert (b * total) * y == total * (b * y);
    assert k * (q * y + g * y * e) == k * y * q + k * (g * y) * e;
  }

  // ---------------------------------------------------------------------
  // dA
  // ---------------------------------------------------------------------

  /** Output-stage part of db: -dKintra * Kintra / b + dQt * q */
  function DbOut(x: Gla, dO: Matrix, H: Matrix, lo: int, C: nat, t: int, i: int): real {
    var c, dsc := Recompute(x, lo, C), Dscores(x, dO, lo, C);
    Quot(-DKintra(c, dsc, C, t, i) * At(c.kin, t, i), At(c.b, t, i))
      + DQt(x, dO, c, H, dsc, lo, C, t, i) * x.q(lo + t, i)
  }

  /** State-stage part of db: -dKstate * Kstate / b */
  function DbState(x: Gla, dS: Matrix, lo: int, C: nat, t: int, i: int): real {
    var c := Recompute(x, lo, C);
    Quot(-DKstate(x, dS, lo, t, i) * At(c.kstate, t, i), At(c.b, t, i))
  }

  /** (dKstate * k / b).sum(dim=0)[i] */
  function KstateDot(x: Gla, dS: Matrix, lo: int, C: nat, i: int): real {
    Sum(0, C, t => KstateTerm(x, dS, lo, C, t, i))
  }

  function KstateTerm(x: Gla, dS: Matrix, lo: int, C: nat, t: int, i: int): real {
    Quot(DKstate(x, dS, lo, t, i) * x.k(lo + t, i), At(Recompute(x, lo, C).b, t, i))
  }

  /** dgamma_n: the gradient of the chunk's total decay. */
  function DGamma(x: Gla, dS: Matrix, Sprev: Matrix, dc: real, cprev: real, lo: int, C: nat, i: int): real {
    RowDot(dS, Sprev, x.dv, i) + dc * cprev + KstateDot(x, dS, lo, C, i)
  }

  lemma DbAlgebra(b: real, g: real, k: real, q: real, dqt: real, dki: real, dks: real,
                  kin: real, kst: real, gq: real, gk: real)
    requires b != 0.0 && kin == Quot(k, b) && kst == k * Quot(g, b)
    requires gq == dqt * b && gk == Quot(dki, b) + dks * Quot(g, b)
    ensures (Quot(-dki * kin, b) + dqt * q + Quot(-dks * kst, b)) * b == q * gq - k * gk
  {
    hide Inv;
    InvCancel(b);
    var y := Inv(b);
    DbTerm(b, y, -dki * kin);
    DbTerm(b, y, -dks * kst);
    assert -dki * kin == -(k * (dki * y));
    assert -dks * kst == -(k * (dks * (g * y)));
    Distribute(k, dki * y, dks * (g * y));
    assert gk == dki * y + dks * (g * y);
  }

  lemma DbTerm(b: real, y: real, n: real)
    requires b * y == 1.0
    ensures n * y * b == n
  {
    Assoc(n, y, b);
  }

  /** db * b is the token's share of the conserved flow: q dQ - k dK. */
  lemma DbRow(x: Gla, dO: Matrix, S0: Matrix, E1: Matrix, lo: int, C: nat, H: Matrix, dS: Matrix, t: int, i: int)
    requires InChunk(x, lo, C) && 0 <= t < C && 0 <= i < x.dk
    requires HoldsState(x, S0, H, lo) && HoldsAdj(x, dO, E1, dS, lo + C)
    ensures (DbOut(x, dO, H, lo, C, t, i) + DbState(x, dS, lo, C, t, i)) * At(Recompute(x, lo, C).b, t, i)
         == TokenFlow(x, dO, S0, E1, lo + t, i)
  {
    hide Sum, At, El, Recompute, Dscores, Adj, State, Decay, Inv, DQt, DKintra, DKstate, GradQ, GradK, HoldsState,
      HoldsAdj, Gla.q, Gla.k;
    var c, dsc := Recompute(x, lo, C), Dscores(x, dO, lo, C);
    ChunkDQ(x, dO, S0, lo, C, H, t, i);
    ChunkDK(x, dO, E1, lo, C, dS, t, i);
    RecomputeAt(x, lo, C, t, i);
    DecayNonZero(x, lo, lo + t + 1, i);
    DbAlgebra(At(c.b, t, i), El(c.gamma, i), x.k(lo + t, i), x.q(lo + t, i), DQt(x, dO, c, H, dsc, lo, C, t, i),
      DKintra(c, dsc, C, t, i), DKstate(x, dS, lo, t, i), At(c.kin, t, i), At(c.kstate, t, i),
      GradQ(x, dO, S0, lo + t, i), GradK(x, dO, E1, lo + t, i));
  }

  /** What the received boundary state and the carried gradients leave over:
      dg - rowsum(dS * S_recv). It is zero in a sequence-parallel run. */
  function Gap(x: Gla, S0: Matrix, E1: Matrix, dg: Vector, i: int): real {
    El(dg, i) - RowDot(E1, S0, x.dv, i)
  }

  /** KstateDot sums dS against the chunk's own k v / b. */
  lemma KstateDotClosed(x: Gla, dS: Matrix, lo: int, C: nat, i: int)
    requires 0 <= i < x.dk
    ensures KstateDot(x, dS, lo, C, i) == Sum(0, x.dv, j => At(dS, i, j) * KV(x, lo, C, i, j))
  {
    hide Sum, At, Recompute, KV, Gla.v, DKstate, KstateTerm;
    var c := Recompute(x, lo, C);
    var term := (t: int, j: int) => At(dS, i, j) * (At(c.kin, t, i) * x.v(lo + t, j));
    var row := (t: int) => KstateTerm(x, dS, lo, C, t, i);
    var col := (j: int) => At(dS, i, j) * KV(x, lo, C, i, j);
    forall t | 0 <= t < C ensures row(t) == Sum(0, x.dv, j => term(t, j)) {
      KstateTermClosed(x, dS, lo, C, t, i);
      KstateRow(x, dS, lo, t, i, At(c.kin, t, i), j => term(t, j));
    }
    forall j | 0 <= j < x.dv ensures col(j) == Sum(0, C, t => term(t, j)) {
      KinV(x, lo, C, C, i, j);
      SumScale(0, C, At(dS, i, j), t => At(c.kin, t, i) * x.v(lo + t, j), t => term(t, j));
    }
    SumSwap(0, C, 0, x.dv, term, row, col);
  }

  lemma KstateRow(x: Gla, dS: Matrix, lo: int, t: int, i: int, kin: real, row: int -> real)
    requires forall j | 0 <= j < x.dv :: row(j) == At(dS, i, j) * (kin * x.v(lo + t, j))
    ensures Sum(0, x.dv, row) == kin * DKstate(x, dS, lo, t, i)
  {
    hide Sum, At, Gla.v;
    var f := (j: int) => x.v(lo + t, j) * At(dS, i, j);
    forall j | 0 <= j < x.dv ensures row(j) == kin * f(j) {
      assert At(dS, i, j) * (kin * x.v(lo + t, j)) == kin * (x.v(lo + t, j) * At(dS, i, j));
    }
    SumScale(0, x.dv, kin, f, row);
  }

  lemma KstateTermClosed(x: Gla, dS: Matrix, lo: int, C: nat, t: int, i: int)
    requires 0 <= t < C && 0 <= i < x.dk
    ensures KstateTerm(x, dS, lo, C, t, i) == At(Recompute(x, lo, C).kin, t, i) * DKstate(x, dS, lo, t, i)
  {
    hide DKstate, Inv, Recompute, At, Decay, Gla.k;
    RecomputeAt(x, lo, C, t, i);
    var y := Inv(At(Recompute(x, lo, C).b, t, i));
    assert At(Recompute(x, lo, C).kin, t, i) == x.k(lo + t, i) * y;
  }

  /** gamma * dgamma_n is the gradient met by the state at the end of the
      chunk: what the later chunks contribute to every earlier gate. */
  lemma DGammaClosed(x: Gla, dO: Matrix, S0: Matrix, E1: Matrix, lo: int, C: nat,
                     dS: Matrix, Sprev: Matrix, dc: real, cprev: real, over: real, i: int)
    requires InChunk(x, lo, C) && 0 < C && 0 <= i < x.dk && HoldsAdj(x, dO, E1, dS, lo + C)
    requires forall j | 0 <= j < x.dv :: At(Sprev, i, j) == State(x, 0, 0.0, lo, i, j)
    requires cprev == Decay(x, 0, lo, i) && dc == RowDot(dS, S0, x.dv, i) + over
    ensures El(Recompute(x, lo, C).gamma, i) * DGamma(x, dS, Sprev, dc, cprev, lo, C, i)
         == StateGrad(x, dO, S0, E1, lo + C, i) + Decay(x, 0, lo + C, i) * over
  {
    hide Sum, At, El, Recompute, KV, Adj, State, Decay, KstateDot;
    var g, g0 := Decay(x, lo, lo + C, i), Decay(x, 0, lo + C, i);
    var prev := (j: int) => At(dS, i, j) * At(Sprev, i, j);
    var recv := (j: int) => At(dS, i, j) * At(S0, i, j);
    var kv := (j: int) => At(dS, i, j) * KV(x, lo, C, i, j);
    var full := (j: int) => Adj(x, dO, x.T, At(E1, i, j), lo + C, i, j) * State(x, 0, At(S0, i, j), lo + C, i, j);
    RecomputeAt(x, lo, C, 0, i);
    KstateDotClosed(x, dS, lo, C, i);
    DecaySplit(x, 0, lo, lo + C, i);
    forall j | 0 <= j < x.dv ensures full(j) == g * prev(j) + g0 * recv(j) + g * kv(j) {
      BoundaryCell(x, At(S0, i, j), lo, C, At(dS, i, j), i, j);
    }
    SumThree(x.dv, full, g, prev, g0, recv, g, kv);
    DGammaAlgebra(g, cprev, g0, Sum(0, x.dv, prev), Sum(0, x.dv, recv), Sum(0, x.dv, kv), over);
  }

  lemma BoundaryCell(x: Gla, s0: real, lo: int, C: nat, d: real, i: int, j: int)
    requires InChunk(x, lo, C) && 0 <= i < x.dk
    ensures d * State(x, 0, s0, lo + C, i, j)
         == Decay(x, lo, lo + C, i) * (d * State(x, 0, 0.0, lo, i, j)) + Decay(x, 0, lo + C, i) * (d * s0)
          + Decay(x, lo, lo + C, i) * (d * KV(x, lo, C, i, j))
  {
    hide State, Decay, KV;
    StateAffine(x, 0, s0, lo + C, i, j);
    StateResume(x, 0, lo, 0.0, lo + C, i, j);
    StateClosed(x, lo, State(x, 0, 0.0, lo, i, j), C, i, j);
    BoundaryAlgebra(d, Decay(x, lo, lo + C, i), State(x, 0, 0.0, lo, i, j), KV(x, lo, C, i, j), Decay(x, 0, lo + C, i),
      s0);
  }

  lemma BoundaryAlgebra(d: real, g: real, s: real, kv: real, g0: real, s0: real)
    ensures d * (g0 * s0 + g * (s + kv)) == g * (d * s) + g0 * (d * s0) + g * (d * kv)
  {}

  lemma DGammaAlgebra(g: real, c: real, g0: real, p: real, r: real, k: real, over: real)
    requires g0 == c * g
    ensures g * (p + (r + over) * c + k) == g * p + g0 * r + g * k + g0 * over
  {}
}

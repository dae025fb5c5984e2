/** The per-chunk quantities of gla/common.py, and the closed forms that make
    them right: inside one chunk the token recurrences become masked products
    over cumulative decays, divided by those decays. */
module Chunk {
  import opened Tensor
  import opened Gla

  /** What one chunk's forward pass caches for its backward pass. */
  datatype Chunk = Chunk(b: Matrix, gamma: Vector, qt: Matrix, kin: Matrix, scores: Matrix, kstate: Matrix)

  /** Chunk of C tokens from token lo: b = cumprod(a), gamma = b[-1],
      Qt = q * b, Kintra = k / b, scores = tril(Qt @ Kintra^T),
      Kstate = k * (gamma / b). */
  function Recompute(x: Gla, lo: int, C: nat): Chunk {
    var b := Tab(C, x.dk, (t, i) => Decay(x, lo, lo + t + 1, i));
    var gamma := TabV(x.dk, i => At(b, C - 1, i));
    var qt := Tab(C, x.dk, (t, i) => x.q(lo + t, i) * At(b, t, i));
    var kin := Tab(C, x.dk, (t, i) => Quot(x.k(lo + t, i), At(b, t, i)));
    var scores := Tab(C, C, (t, s) => if s <= t then Sum(0, x.dk, i => At(qt, t, i) * At(kin, s, i)) else 0.0);
    var kstate := Tab(C, x.dk, (t, i) => x.k(lo + t, i) * Quot(El(gamma, i), At(b, t, i)));
    Chunk(b, gamma, qt, kin, scores, kstate)
  }

  lemma RecomputeAt(x: Gla, lo: int, C: nat, t: int, i: int)
    requires 0 <= t < C && 0 <= i < x.dk
    ensures At(Recompute(x, lo, C).b, t, i) == Decay(x, lo, lo + t + 1, i)
    ensures El(Recompute(x, lo, C).gamma, i) == Decay(x, lo, lo + C, i)
    ensures At(Recompute(x, lo, C).qt, t, i) == x.q(lo + t, i) * Decay(x, lo, lo + t + 1, i)
    ensures At(Recompute(x, lo, C).kin, t, i) == Quot(x.k(lo + t, i), Decay(x, lo, lo + t + 1, i))
    ensures At(Recompute(x, lo, C).kstate, t, i)
      == x.k(lo + t, i) * Quot(Decay(x, lo, lo + C, i), Decay(x, lo, lo + t + 1, i))
  {
    hide Decay, Quot, At, El, Gla.q, Gla.k;
  }

  lemma ScoreAt(x: Gla, lo: int, C: nat, t: int, s: int)
    requires 0 <= t < C && 0 <= s < C
    ensures At(Recompute(x, lo, C).scores, t, s)
         == if s <= t then Sum(0, x.dk, i => At(Recompute(x, lo, C).qt, t, i) * At(Recompute(x, lo, C).kin, s, i))
           else 0.0
  {
    hide Decay, Quot, At, El, Gla.q, Gla.k;
  }

  // ---------------------------------------------------------------------
  // Division
  // ---------------------------------------------------------------------

  lemma QuotCancel(n: real, d: real)
    requires d != 0.0
    ensures d * Quot(n, d) == n
  {
    hide Inv;
    InvCancel(d);
    assert d * (n * Inv(d)) == n * (d * Inv(d));
  }

  /** k (g / b) == g (k / b) */
  lemma QuotSwap(k: real, g: real, b: real)
    ensures k * Quot(g, b) == g * Quot(k, b)
  {
    hide Inv;
  }

  // ---------------------------------------------------------------------
  // Closed forms inside one chunk
  // ---------------------------------------------------------------------

  /** Sum of k_s v_s / b_s over the first t tokens of the chunk. */
  function KV(x: Gla, lo: int, t: int, i: int, j: int): real {
    Sum(0, t, s => Quot(x.k(lo + s, i), Decay(x, lo, lo + s + 1, i)) * x.v(lo + s, j))
  }

  lemma KVStep(x: Gla, lo: int, t: int, i: int, j: int)
    requires 0 < t
    ensures KV(x, lo, t, i, j)
      == KV(x, lo, t - 1, i, j) + Quot(x.k(lo + t - 1, i), Decay(x, lo, lo + t, i)) * x.v(lo + t - 1, j)
  {
    hide Decay, Quot, Gla.k, Gla.v;
    assert lo + (t - 1) + 1 == lo + t && lo + (t - 1) == lo + t - 1;
  }

  lemma KVStart(x: Gla, lo: int, i: int, j: int)
    ensures KV(x, lo, 0, i, j) == 0.0
  {}

  lemma {:induction false} StateClosed(x: Gla, lo: int, s0: real, t: int, i: int, j: int)
    requires x.GatesNonZero() && 0 <= lo && 0 <= t && lo + t <= x.T && 0 <= i < x.dk
    ensures State(x, lo, s0, lo + t, i, j) == Decay(x, lo, lo + t, i) * (s0 + KV(x, lo, t, i, j))
    decreases t
  {
    if 0 < t {
      StateClosed(x, lo, s0, t - 1, i, j);
      DecayNonZero(x, lo, lo + t, i);
      StateClosedStep(x, lo, s0, t, i, j);
    } else {
      KVStart(x, lo, i, j);
    }
  }

  lemma StateClosedStep(x: Gla, lo: int, s0: real, t: int, i: int, j: int)
    requires 0 < t && Decay(x, lo, lo + t, i) != 0.0
    requires State(x, lo, s0, lo + t - 1, i, j) == Decay(x, lo, lo + t - 1, i) * (s0 + KV(x, lo, t - 1, i, j))
    ensures State(x, lo, s0, lo + t, i, j) == Decay(x, lo, lo + t, i) * (s0 + KV(x, lo, t, i, j))
  {
    hide *;
    StateStep(x, lo, s0, lo + t, i, j);
    DecayStep(x, lo, lo + t, i);
    KVStep(x, lo, t, i, j);
    QuotCancel(x.k(lo + t - 1, i), Decay(x, lo, lo + t, i));
    ClosedStep(Decay(x, lo, lo + t - 1, i), x.a(lo + t - 1, i), s0 + KV(x, lo, t - 1, i, j),
      Decay(x, lo, lo + t, i), Quot(x.k(lo + t - 1, i), Decay(x, lo, lo + t, i)), x.v(lo + t - 1, j));
  }

  lemma ClosedStep(d: real, a: real, s: real, da: real, y: real, v: real)
    requires da == d * a
    ensures a * (d * s) + (da * y) * v == da * (s + y * v)
  {}

  /** Sum of Qt_s dO_s over tokens t .. C - 1 of the chunk. */
  function QdO(x: Gla, dO: Matrix, lo: int, C: int, t: int, i: int, j: int): real {
    Sum(t, C, s => x.q(lo + s, i) * Decay(x, lo, lo + s + 1, i) * At(dO, lo + s, j))
  }

  lemma QdOStep(x: Gla, dO: Matrix, lo: int, C: int, t: int, i: int, j: int)
    requires t < C
    ensures QdO(x, dO, lo, C, t, i, j)
         == x.q(lo + t, i) * Decay(x, lo, lo + t + 1, i) * At(dO, lo + t, j) + QdO(x, dO, lo, C, t + 1, i, j)
  {
    hide Decay, At, Gla.q;
    SumFirst(t, C, s => x.q(lo + s, i) * Decay(x, lo, lo + s + 1, i) * At(dO, lo + s, j));
  }

  lemma QdOEnd(x: Gla, dO: Matrix, lo: int, C: int, i: int, j: int)
    ensures QdO(x, dO, lo, C, C, i, j) == 0.0
  {}

  lemma {:induction false} AdjClosed(x: Gla, dO: Matrix, lo: int, C: int, e1: real, t: int, i: int, j: int)
    requires 0 <= t <= C
    ensures Decay(x, lo, lo + t, i) * Adj(x, dO, lo + C, e1, lo + t, i, j)
         == QdO(x, dO, lo, C, t, i, j) + Decay(x, lo, lo + C, i) * e1
    ensures t < C ==>
      Decay(x, lo, lo + t + 1, i) * Total(x, dO, lo + C, e1, lo + t, i, j)
      == QdO(x, dO, lo, C, t, i, j) + Decay(x, lo, lo + C, i) * e1
    decreases C - t
  {
    hide *;
    if t < C {
      AdjClosed(x, dO, lo, C, e1, t + 1, i, j);
      AdjStep(x, dO, lo + C, e1, lo + t, i, j);
      DecayStep(x, lo, lo + t + 1, i);
      QdOStep(x, dO, lo, C, t, i, j);
      assert lo + (t + 1) == lo + t + 1;
      AdjClosedStep(Decay(x, lo, lo + t, i), x.a(lo + t, i), Decay(x, lo, lo + t + 1, i), x.q(lo + t, i),
        At(dO, lo + t, j), Adj(x, dO, lo + C, e1, lo + t + 1, i, j));
    } else {
      Edges(x, dO, lo + C, 0.0, e1, i, j);
      QdOEnd(x, dO, lo, C, i, j);
    }
  }

  lemma AdjClosedStep(d: real, a: real, da: real, q: real, o: real, e: real)
    requires da == d * a
    ensures d * (a * (q * o + e)) == q * da * o + da * e
    ensures da * (q * o + e) == q * da * o + da * e
  {}

  // ---------------------------------------------------------------------
  // State update and output of a chunk
  // ---------------------------------------------------------------------

  /** (Kstate^T @ v)[i, j] */
  function KstateV(x: Gla, c: Chunk, lo: int, C: nat, i: int, j: int): real {
    Sum(0, C, s => At(c.kstate, s, i) * x.v(lo + s, j))
  }

  lemma KstateVClosed(x: Gla, lo: int, C: nat, i: int, j: int)
    requires 0 <= i < x.dk
    ensures KstateV(x, Recompute(x, lo, C), lo, C, i, j) == Decay(x, lo, lo + C, i) * KV(x, lo, C, i, j)
  {
    hide Decay, Quot, At, Gla.k, Gla.v, Recompute;
    var c := Recompute(x, lo, C);
    var g := Decay(x, lo, lo + C, i);
    var f := (s: int) => Quot(x.k(lo + s, i), Decay(x, lo, lo + s + 1, i)) * x.v(lo + s, j);
    var h := (s: int) => At(c.kstate, s, i) * x.v(lo + s, j);
    forall s | 0 <= s < C ensures h(s) == g * f(s) {
      RecomputeAt(x, lo, C, s, i);
      QuotSwap(x.k(lo + s, i), g, Decay(x, lo, lo + s + 1, i));
      Assoc(g, Quot(x.k(lo + s, i), Decay(x, lo, lo + s + 1, i)), x.v(lo + s, j));
    }
    SumScale(0, C, g, f, h);
  }

  /** gamma * S + Kstate^T @ v advances the state by the whole chunk. */
  lemma ChunkAdvance(x: Gla, lo: int, C: nat, s: real, i: int, j: int)
    requires x.GatesNonZero() && 0 <= lo && lo + C <= x.T && 0 <= i < x.dk && 0 < C
    ensures El(Recompute(x, lo, C).gamma, i) * s + KstateV(x, Recompute(x, lo, C), lo, C, i, j)
      == State(x, lo, s, lo + C, i, j)
  {
    hide Decay, Quot, At, El, State, KV, KstateV, Recompute;
    RecomputeAt(x, lo, C, 0, i);
    KstateVClosed(x, lo, C, i, j);
    StateClosed(x, lo, s, C, i, j);
    Distribute(Decay(x, lo, lo + C, i), s, KV(x, lo, C, i, j));
  }

  /** (scores @ v)[t, j] */
  function IntraOut(x: Gla, c: Chunk, lo: int, C: nat, t: int, j: int): real {
    Sum(0, C, s => At(c.scores, t, s) * x.v(lo + s, j))
  }

  /** (Qt @ H)[t, j] */
  function InterOut(x: Gla, c: Chunk, H: Matrix, t: int, j: int): real {
    Sum(0, x.dk, i => At(c.qt, t, i) * At(H, i, j))
  }

  lemma KinV(x: Gla, lo: int, C: nat, t: int, i: int, j: int)
    requires 0 <= t <= C && 0 <= i < x.dk
    ensures Sum(0, t, s => At(Recompute(x, lo, C).kin, s, i) * x.v(lo + s, j)) == KV(x, lo, t, i, j)
  {
    hide Decay, Quot, At, Gla.k, Gla.v, Recompute;
    var c := Recompute(x, lo, C);
    var f := (s: int) => At(c.kin, s, i) * x.v(lo + s, j);
    var g := (s: int) => Quot(x.k(lo + s, i), Decay(x, lo, lo + s + 1, i)) * x.v(lo + s, j);
    forall s | 0 <= s < t ensures f(s) == g(s) { RecomputeAt(x, lo, C, s, i); }
    SumExt(0, t, f, g);
  }

  /** The masked product is the part of the output that stays inside the chunk. */
  lemma IntraClosed(x: Gla, lo: int, C: nat, t: int, j: int)
    requires 0 <= t < C && 0 <= lo
    ensures IntraOut(x, Recompute(x, lo, C), lo, C, t, j)
         == Sum(0, x.dk, i => At(Recompute(x, lo, C).qt, t, i) * KV(x, lo, t + 1, i, j))
  {
    hide Decay, Quot, At, Gla.v, Recompute, KV;
    var c := Recompute(x, lo, C);
    var rhs := (i: int) => At(c.qt, t, i) * KV(x, lo, t + 1, i, j);
    forall i | 0 <= i < x.dk
      ensures rhs(i) == At(c.qt, t, i) * Sum(0, t + 1, s => At(c.kin, s, i) * x.v(lo + s, j))
    {
      KinV(x, lo, C, t + 1, i, j);
    }
    forall s | 0 <= s < C
      ensures At(c.scores, t, s) == if 0 <= s < t + 1 then Sum(0, x.dk, i => At(c.qt, t, i) * At(c.kin, s, i)) else 0.0
    {
      ScoreAt(x, lo, C, t, s);
    }
    IntraSwap(x, c, lo, C, t, j, rhs);
  }

  lemma IntraSwap(x: Gla, c: Chunk, lo: int, C: nat, t: int, j: int, rhs: int -> real)
    requires 0 <= t < C
    requires forall s | 0 <= s < C ::
      At(c.scores, t, s) == if 0 <= s < t + 1 then Sum(0, x.dk, i => At(c.qt, t, i) * At(c.kin, s, i)) else 0.0
    requires forall i | 0 <= i < x.dk :: rhs(i) == At(c.qt, t, i) * Sum(0, t + 1, s => At(c.kin, s, i) * x.v(lo + s, j))
    ensures IntraOut(x, c, lo, C, t, j) == Sum(0, x.dk, rhs)
  {
    hide At, Sum, Gla.v;
    var u := (i: int) => At(c.qt, t, i);
    var w := (s: int, i: int) => At(c.kin, s, i);
    var z := (s: int) => x.v(lo + s, j);
    var score := (s: int) => At(c.scores, t, s);
    var lhs := (s: int) => At(c.scores, t, s) * x.v(lo + s, j);
    forall s | 0 <= s < C ensures score(s) == if 0 <= s < t + 1 then Sum(0, x.dk, i => u(i) * w(s, i)) else 0.0 {
      SumExt(0, x.dk, i => u(i) * w(s, i), i => At(c.qt, t, i) * At(c.kin, s, i));
    }
    forall i | 0 <= i < x.dk ensures rhs(i) == u(i) * Sum(0, t + 1, s => w(s, i) * z(s)) {
      SumExt(0, t + 1, s => w(s, i) * z(s), s => At(c.kin, s, i) * x.v(lo + s, j));
    }
    MaskedSwap(C, 0, t + 1, x.dk, u, w, z, score, lhs, rhs);
  }

  /** Inter-chunk plus intra-chunk output is the output of the recurrence. */
  lemma ChunkOutput(x: Gla, S0: Matrix, lo: int, C: nat, H: Matrix, t: int, j: int)
    requires x.GatesNonZero() && 0 <= lo && lo + C <= x.T && 0 <= t < C && 0 <= j < x.dv
    requires HoldsState(x, S0, H, lo)
    ensures InterOut(x, Recompute(x, lo, C), H, t, j) + IntraOut(x, Recompute(x, lo, C), lo, C, t, j)
      == Out(x, S0, lo + t, j)
  {
    hide Decay, Quot, At, Gla.q, Recompute, KV, State, IntraOut;
    var c := Recompute(x, lo, C);
    var inter := (i: int) => At(c.qt, t, i) * At(H, i, j);
    var intra := (i: int) => At(c.qt, t, i) * KV(x, lo, t + 1, i, j);
    var out := (i: int) => x.q(lo + t, i) * State(x, 0, At(S0, i, j), lo + t + 1, i, j);
    IntraClosed(x, lo, C, t, j);
    forall i | 0 <= i < x.dk ensures out(i) == inter(i) + intra(i) {
      OutputCell(x, At(S0, i, j), lo, C, At(H, i, j), t, i, j);
    }
    SumAdd(0, x.dk, inter, intra, out);
  }

  lemma OutputCell(x: Gla, s0: real, lo: int, C: nat, h: real, t: int, i: int, j: int)
    requires x.GatesNonZero() && 0 <= lo && lo + C <= x.T && 0 <= t < C && 0 <= i < x.dk
    requires h == State(x, 0, s0, lo, i, j)
    ensures State(x, 0, s0, lo + t + 1, i, j) == Decay(x, lo, lo + t + 1, i) * (h + KV(x, lo, t + 1, i, j))
    ensures x.q(lo + t, i) * State(x, 0, s0, lo + t + 1, i, j)
         == At(Recompute(x, lo, C).qt, t, i) * h + At(Recompute(x, lo, C).qt, t, i) * KV(x, lo, t + 1, i, j)
  {
    hide *;
    StateResume(x, 0, lo, s0, lo + t + 1, i, j);
    assert lo + (t + 1) == lo + t + 1;
    StateClosed(x, lo, h, t + 1, i, j);
    RecomputeAt(x, lo, C, t, i);
    Assoc(x.q(lo + t, i), Decay(x, lo, lo + t + 1, i), h + KV(x, lo, t + 1, i, j));
    Distribute(At(Recompute(x, lo, C).qt, t, i), h, KV(x, lo, t + 1, i, j));
  }
}
